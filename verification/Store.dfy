/** The transactional store: tables with their keys and constraints, the audit sequence in
    commit order, and the unit of work that stages writes and commits them atomically
    (adapters/persistence/models.py, repositories.py and uow.py). */
module Store {
  import opened Base
  import opened Json
  import opened Timestamps
  import opened Actions
  import opened Triage
  import opened Gateway
  import opened Policy

  // ---- Rows --------------------------------------------------------------------------------------

  datatype FailureCategory =
    | StartPersistenceFailed | ToolPersistenceFailed | FinalizationFailed
    | StaleExecution | SimulatorFailure | StaleSimulatedAction

  datatype ExecutionRow = ExecutionRow(
    alertId: Id, state: TriageState, key: Id, createdAt: Instant, updatedAt: Instant, failure: Option<FailureCategory>)

  datatype InvocationRow = InvocationRow(record: ToolInvocationRecord, result: Option<Json>)

  datatype ActionRow = ActionRow(executionId: Id, policyVersion: string, action: ActionProposal)

  datatype ApprovalRecord = ApprovalRecord(
    approvalId: Id, actionId: Id, actionDigest: string, reviewerId: Id, decision: ApprovalDecision,
    decidedAt: Instant, reason: string, policyVersion: string, expiresAt: Option<Instant>)

  datatype ActionExecutionRecord = ActionExecutionRecord(
    actionExecutionId: Id, actionId: Id, state: ActionState, startedAt: Instant,
    completedAt: Option<Instant>, outcome: Option<Id>, failure: Option<FailureCategory>, mode: string)

  datatype AuditEvent =
    | ExecutionStarted(executionId: Id)
    | ToolInvoked(executionId: Id, callId: Id, authorization: Authorization, outcome: GatewayStatus)
    | PolicyEnforced(executionId: Id, codes: seq<PolicyReason>, disposition: Disposition)
    | ExecutionTerminal(executionId: Id, state: TriageState)
    | PersistenceFailed(executionId: Id, category: FailureCategory)
    | StaleExecutionRecovered(executionId: Id)
    | ActionDecided(actionId: Id, approvalId: Id, actionDigest: string, decision: ApprovalDecision)
    | ExecutionDenied(actionId: Id, actionDigest: string)
    | SimulationStarted(actionId: Id, actionDigest: string)
    | SimulationSucceeded(actionId: Id)
    | SimulationFailed(actionId: Id)
    | StaleSimulationRecovered(actionId: Id, actionExecutionId: Id)

  /** The tables. Each map is keyed by the column a unique constraint covers: results by
      execution, approvals and action executions by action; `keys` is the unique index on
      the idempotency key. */
  datatype Store = Store(
    alerts: map<Id, SecurityAlert>,
    executions: map<Id, ExecutionRow>,
    keys: map<Id, Id>,
    invocations: map<Id, InvocationRow>,
    results: map<Id, TriageResult>,
    actions: map<Id, ActionRow>,
    approvals: map<Id, ApprovalRecord>,
    actionExecutions: map<Id, ActionExecutionRecord>,
    audit: seq<AuditEvent>)

  const EMPTY_STORE := Store(map[], map[], map[], map[], map[], map[], map[], map[], [])

  // ---- Staged writes and constraints ---------------------------------------------------------------

  datatype Write =
    | AddAlert(alert: SecurityAlert)
    | AddExecution(executionId: Id, row: ExecutionRow)
    | ReplaceExecution(executionId: Id, state: TriageState, updatedAt: Instant, failure: Option<FailureCategory>)
    | AddInvocation(invocation: InvocationRow)
    | AddResult(executionId: Id, result: TriageResult)
    | AddAction(action: ActionRow)
    | AddApproval(approval: ApprovalRecord)
    | AddActionExecution(execution: ActionExecutionRecord)
    | ReplaceActionExecution(execution: ActionExecutionRecord)
    | AppendAudit(event: AuditEvent)

  /** The two CHECK constraints on approval decisions; the second compares stored text. */
  predicate ApprovalTextChecks(a: ApprovalRecord)
  {
    && (a.decision.Approve? <==> a.expiresAt.Some?)
    && (a.expiresAt.Some? ==> Less(StoredText(a.decidedAt), StoredText(a.expiresAt.value)))
  }

  /** What the two constraints accept, by `ApprovalChecksMeaning`. */
  predicate ApprovalChecks(a: ApprovalRecord)
  {
    if a.decision.Approve? then a.expiresAt.Some? && a.decidedAt < a.expiresAt.value else a.expiresAt.None?
  }

  /** The primary keys, unique indexes, foreign keys and checks a write must meet. */
  predicate Permitted(s: Store, w: Write)
  {
    match w
    case AddAlert(a) =>
      a.alertId !in s.alerts && forall k | k in s.alerts :: s.alerts[k].payloadDigest != a.payloadDigest
    case AddExecution(e, row) => e !in s.executions && row.key !in s.keys && row.alertId in s.alerts
    case ReplaceExecution(e, _, _, _) => e in s.executions
    case AddInvocation(i) => i.record.callId !in s.invocations && i.record.executionId in s.executions
    case AddResult(e, r) => e !in s.results && e in s.executions && r.alertId in s.alerts
    case AddAction(a) => a.action.actionId !in s.actions && a.executionId in s.executions
    case AddApproval(a) =>
      && a.actionId !in s.approvals && a.actionId in s.actions && ApprovalChecks(a)
      && forall k | k in s.approvals :: s.approvals[k].approvalId != a.approvalId
    case AddActionExecution(x) =>
      && x.actionId !in s.actionExecutions && x.actionId in s.actions
      && forall k | k in s.actionExecutions :: s.actionExecutions[k].actionExecutionId != x.actionExecutionId
    case ReplaceActionExecution(x) =>
      x.actionId in s.actionExecutions && s.actionExecutions[x.actionId].actionExecutionId == x.actionExecutionId
    case AppendAudit(_) => true
  }

  function Perform(s: Store, w: Write): Store
    requires Permitted(s, w)
  {
    match w
    case AddAlert(a) => s.(alerts := s.alerts[a.alertId := a])
    case AddExecution(e, row) => s.(executions := s.executions[e := row], keys := s.keys[row.key := e])
    case ReplaceExecution(e, state, updatedAt, failure) =>
      s.(executions := s.executions[e := s.executions[e].(state := state, updatedAt := updatedAt, failure := failure)])
    case AddInvocation(i) => s.(invocations := s.invocations[i.record.callId := i])
    case AddResult(e, r) => s.(results := s.results[e := r])
    case AddAction(a) => s.(actions := s.actions[a.action.actionId := a])
    case AddApproval(a) => s.(approvals := s.approvals[a.actionId := a])
    case AddActionExecution(x) => s.(actionExecutions := s.actionExecutions[x.actionId := x])
    case ReplaceActionExecution(x) =>
      var row := s.actionExecutions[x.actionId];
      s.(actionExecutions := s.actionExecutions[x.actionId :=
        row.(state := x.state, completedAt := x.completedAt, outcome := x.outcome,
             failure := x.failure, mode := x.mode)])
    case AppendAudit(e) => s.(audit := s.audit + [e])
  }

  function ApplyWrite(s: Store, w: Write): Option<Store>
  {
    if Permitted(s, w) then Some(Perform(s, w)) else None
  }

  /** All the writes in order, or None when a constraint refuses one of them. */
  function ApplyAll(s: Store, ws: seq<Write>): Option<Store>
    decreases |ws|
  {
    if ws == [] then Some(s)
    else
      match ApplyWrite(s, ws[0])
      case None => None
      case Some(s') => ApplyAll(s', ws[1..])
  }

  /** The store after a commit attempt; `fault` is any failure before the commit is durable. */
  function Committed(s: Store, ws: seq<Write>, fault: bool): (bool, Store)
  {
    if fault then (false, s)
    else
      match ApplyAll(s, ws)
      case None => (false, s)
      case Some(s') => (true, s')
  }

  class Database {
    var store: Store

    constructor (store: Store)
      ensures this.store == store
    {
      this.store := store;
    }
  }

  /** One session: reads see the state at entry, writes are staged until the commit. */
  class UnitOfWork {
    const database: Database
    const snapshot: Store
    var pending: seq<Write>

    constructor (database: Database)
      ensures this.database == database && snapshot == database.store && pending == []
    {
      this.database := database;
      snapshot := database.store;
      pending := [];
    }

    method Stage(w: Write)
      modifies this
      ensures pending == old(pending) + [w]
    {
      pending := pending + [w];
    }

    /** Commit everything staged, or leave no trace and report the failure. */
    method Commit(fault: bool) returns (ok: bool)
      modifies this, database
      ensures (ok, database.store) == Committed(old(database.store), old(pending), fault)
      ensures pending == []
    {
      ok := false;
      if !fault {
        var staged, n := database.store, 0;
        while n < |pending| && Permitted(staged, pending[n])
          invariant n <= |pending|
          invariant ApplyAll(staged, pending[n..]) == ApplyAll(database.store, pending)
        {
          assert pending[n..][1..] == pending[n + 1..];
          staged := Perform(staged, pending[n]);
          n := n + 1;
        }
        if n == |pending| {
          database.store := staged;
          ok := true;
        }
      }
      pending := [];
    }
  }

  lemma {:induction false} ApplyAllConcat(s: Store, xs: seq<Write>, ys: seq<Write>)
    ensures ApplyAll(s, xs + ys) ==
      if ApplyAll(s, xs).Some? then ApplyAll(ApplyAll(s, xs).value, ys) else None
    decreases |xs|
  {
    if xs == [] {
      assert xs + ys == ys;
    } else {
      assert (xs + ys)[1..] == xs[1..] + ys;
      if Permitted(s, xs[0]) {
        ApplyAllConcat(Perform(s, xs[0]), xs[1..], ys);
      }
    }
  }

  // ---- What every commit keeps -----------------------------------------------------------------------

  ghost predicate Extends<K, V>(m: map<K, V>, m': map<K, V>)
  {
    forall k | k in m :: k in m' && m'[k] == m[k]
  }

  ghost predicate ExecutionsPersist(s: Store, t: Store)
  {
    forall e | e in s.executions ::
      && e in t.executions && t.executions[e].key == s.executions[e].key
      && t.executions[e].alertId == s.executions[e].alertId
      && t.executions[e].createdAt == s.executions[e].createdAt
  }

  ghost predicate ActionExecutionsPersist(s: Store, t: Store)
  {
    forall a | a in s.actionExecutions ::
      && a in t.actionExecutions
      && t.actionExecutions[a].actionExecutionId == s.actionExecutions[a].actionExecutionId
      && t.actionExecutions[a].actionId == s.actionExecutions[a].actionId
      && t.actionExecutions[a].startedAt == s.actionExecutions[a].startedAt
  }

  /** No commit removes a row, rewrites a result, an approval, an invocation or an audit
      event, or changes the identity of an execution. */
  ghost predicate Grows(s: Store, t: Store)
  {
    && s.audit <= t.audit
    && Extends(s.alerts, t.alerts) && Extends(s.keys, t.keys) && Extends(s.invocations, t.invocations)
    && Extends(s.results, t.results) && Extends(s.approvals, t.approvals)
    && s.actions.Keys <= t.actions.Keys
    && ExecutionsPersist(s, t) && ActionExecutionsPersist(s, t)
  }

  lemma GrowsReflexive(s: Store)
    ensures Grows(s, s)
  {
  }

  lemma GrowsTransitive(s: Store, t: Store, u: Store)
    requires Grows(s, t) && Grows(t, u)
    ensures Grows(s, u)
  {
  }

  lemma PerformGrows(s: Store, w: Write)
    requires Permitted(s, w)
    ensures Grows(s, Perform(s, w))
  {
  }

  lemma {:induction false} ApplyAllGrows(s: Store, ws: seq<Write>)
    ensures ApplyAll(s, ws).Some? ==> Grows(s, ApplyAll(s, ws).value)
    decreases |ws|
  {
    if ws != [] && Permitted(s, ws[0]) && ApplyAll(s, ws).Some? {
      PerformGrows(s, ws[0]);
      ApplyAllGrows(Perform(s, ws[0]), ws[1..]);
      GrowsTransitive(s, Perform(s, ws[0]), ApplyAll(s, ws).value);
    }
  }

  /** The index on idempotency keys and the execution rows say the same. */
  ghost predicate IndexConsistent(s: Store)
  {
    && (forall k | k in s.keys :: s.keys[k] in s.executions && s.executions[s.keys[k]].key == k)
    && forall e | e in s.executions :: s.executions[e].key in s.keys && s.keys[s.executions[e].key] == e
  }

  /** The foreign keys hold. */
  ghost predicate ExecutionReferencesHold(s: Store)
  {
    && (forall e | e in s.executions :: s.executions[e].alertId in s.alerts)
    && (forall i | i in s.invocations ::
          s.invocations[i].record.callId == i && s.invocations[i].record.executionId in s.executions)
    && (forall e | e in s.results :: e in s.executions && s.results[e].alertId in s.alerts)
    && forall a | a in s.actions :: s.actions[a].executionId in s.executions
  }

  ghost predicate ActionReferencesHold(s: Store)
  {
    && (forall a | a in s.approvals ::
          a in s.actions && s.approvals[a].actionId == a && ApprovalChecks(s.approvals[a]))
    && forall a | a in s.actionExecutions :: a in s.actions && s.actionExecutions[a].actionId == a
  }

  ghost predicate ReferencesHold(s: Store)
  {
    ExecutionReferencesHold(s) && ActionReferencesHold(s)
  }

  /** The primary keys of decisions and of action executions name one row each. */
  ghost predicate PrimaryKeysUnique(s: Store)
  {
    && (forall a, b | a in s.approvals && b in s.approvals ::
          s.approvals[a].approvalId == s.approvals[b].approvalId ==> a == b)
    && forall a, b | a in s.actionExecutions && b in s.actionExecutions ::
      s.actionExecutions[a].actionExecutionId == s.actionExecutions[b].actionExecutionId ==> a == b
  }

  ghost predicate Consistent(s: Store)
  {
    IndexConsistent(s) && ReferencesHold(s) && PrimaryKeysUnique(s)
  }

  lemma PerformIndexConsistent(s: Store, w: Write)
    requires IndexConsistent(s) && Permitted(s, w)
    ensures IndexConsistent(Perform(s, w))
  {
  }

  lemma PerformExecutionReferencesHold(s: Store, w: Write)
    requires ExecutionReferencesHold(s) && Permitted(s, w)
    ensures ExecutionReferencesHold(Perform(s, w))
  {
  }

  lemma PerformActionReferencesHold(s: Store, w: Write)
    requires ActionReferencesHold(s) && Permitted(s, w)
    ensures ActionReferencesHold(Perform(s, w))
  {
  }

  lemma PerformPrimaryKeysUnique(s: Store, w: Write)
    requires PrimaryKeysUnique(s) && Permitted(s, w)
    ensures PrimaryKeysUnique(Perform(s, w))
  {
  }

  lemma PerformConsistent(s: Store, w: Write)
    requires Consistent(s) && Permitted(s, w)
    ensures Consistent(Perform(s, w))
  {
    PerformIndexConsistent(s, w);
    PerformExecutionReferencesHold(s, w);
    PerformActionReferencesHold(s, w);
    PerformPrimaryKeysUnique(s, w);
  }

  lemma {:induction false} ApplyAllConsistent(s: Store, ws: seq<Write>)
    requires Consistent(s)
    ensures ApplyAll(s, ws).Some? ==> Consistent(ApplyAll(s, ws).value)
    decreases |ws|
  {
    if ws != [] && Permitted(s, ws[0]) {
      PerformConsistent(s, ws[0]);
      ApplyAllConsistent(Perform(s, ws[0]), ws[1..]);
    }
  }

  /** The textual CHECK on expiry is the comparison of the times. */
  lemma ApprovalChecksMeaning(a: ApprovalRecord)
    ensures ApprovalTextChecks(a) <==> ApprovalChecks(a)
  {
    if a.expiresAt.Some? {
      StoredTextOrder(a.decidedAt, a.expiresAt.value);
    }
  }

  // ---- The audit trail as a log of states ----------------------------------------------------------------

  /** The lifecycle state an event reports for an execution, if it reports one. */
  function ExecutionReport(v: AuditEvent, e: Id): Option<TriageState>
  {
    match v
    case ExecutionStarted(x) => if x == e then Some(Running) else None
    case ExecutionTerminal(x, state) => if x == e then Some(state) else None
    case PersistenceFailed(x, _) => if x == e then Some(TriageFailed) else None
    case StaleExecutionRecovered(x) => if x == e then Some(TriageFailed) else None
    case _ => None
  }

  function ApprovalReport(v: AuditEvent, a: Id): Option<ApprovalDecision>
  {
    if v.ActionDecided? && v.actionId == a then Some(v.decision) else None
  }

  function ActionReport(v: AuditEvent, a: Id): Option<ActionState>
  {
    match v
    case SimulationStarted(x, _) => if x == a then Some(Executing) else None
    case SimulationSucceeded(x) => if x == a then Some(Succeeded) else None
    case SimulationFailed(x) => if x == a then Some(Failed) else None
    case StaleSimulationRecovered(x, _) => if x == a then Some(Failed) else None
    case _ => None
  }

  /** The last report wins. */
  function FoldExecution(log: seq<AuditEvent>, e: Id): Option<TriageState>
  {
    if log == [] then None
    else
      var r := ExecutionReport(log[|log| - 1], e);
      if r.Some? then r else FoldExecution(log[..|log| - 1], e)
  }

  function FoldApproval(log: seq<AuditEvent>, a: Id): Option<ApprovalDecision>
  {
    if log == [] then None
    else
      var r := ApprovalReport(log[|log| - 1], a);
      if r.Some? then r else FoldApproval(log[..|log| - 1], a)
  }

  function FoldAction(log: seq<AuditEvent>, a: Id): Option<ActionState>
  {
    if log == [] then None
    else
      var r := ActionReport(log[|log| - 1], a);
      if r.Some? then r else FoldAction(log[..|log| - 1], a)
  }

  /** How many decisions the log reports for an action. */
  function DecisionCount(log: seq<AuditEvent>, a: Id): nat
  {
    if log == [] then 0
    else DecisionCount(log[..|log| - 1], a) + (if ApprovalReport(log[|log| - 1], a).Some? then 1 else 0)
  }

  lemma FoldAppend(log: seq<AuditEvent>, v: AuditEvent)
    ensures forall e :: FoldExecution(log + [v], e)
              == if ExecutionReport(v, e).Some? then ExecutionReport(v, e) else FoldExecution(log, e)
    ensures forall a :: FoldApproval(log + [v], a)
              == if ApprovalReport(v, a).Some? then ApprovalReport(v, a) else FoldApproval(log, a)
    ensures forall a :: FoldAction(log + [v], a)
              == if ActionReport(v, a).Some? then ActionReport(v, a) else FoldAction(log, a)
    ensures forall a :: DecisionCount(log + [v], a)
              == DecisionCount(log, a) + (if ApprovalReport(v, a).Some? then 1 else 0)
  {
    assert (log + [v])[..|log|] == log;
  }

  function StateOf(s: Store, e: Id): Option<TriageState>
  {
    if e in s.executions then Some(s.executions[e].state) else None
  }

  function DecisionOf(s: Store, a: Id): Option<ApprovalDecision>
  {
    if a in s.approvals then Some(s.approvals[a].decision) else None
  }

  function ActionStateOf(s: Store, a: Id): Option<ActionState>
  {
    if a in s.actionExecutions then Some(s.actionExecutions[a].state) else None
  }

  /** Folding the audit trail gives back the stored state of every target, and an action
      has one reported decision or none. */
  ghost predicate AuditAgrees(s: Store)
  {
    && (forall e :: FoldExecution(s.audit, e) == StateOf(s, e))
    && (forall a :: FoldApproval(s.audit, a) == DecisionOf(s, a))
    && (forall a :: FoldAction(s.audit, a) == ActionStateOf(s, a))
    && (forall a :: DecisionCount(s.audit, a) == if a in s.approvals then 1 else 0)
  }
}
