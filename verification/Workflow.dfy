/** The transactions of the workflow: what each `with uow:` block reads from its snapshot,
    which writes it stages, and how its commit ends (application/orchestrator.py,
    application/approval_service.py, application/recovery_service.py). */
module Workflow {
  import opened Base
  import opened Json
  import opened Timestamps
  import opened Actions
  import opened Triage
  import opened Policy
  import opened Gateway
  import opened Store
  import opened Queries

  datatype OrchestrationLimits = OrchestrationLimits(
    maxIterations: nat, deadlineMs: nat, maxEvidenceItems: nat, maxContextBytes: nat)

  /** The policy an orchestrator is given, as a function of the identifiers it will draw, the
      candidate, the alert, the authorized scope and the time. */
  type PolicyFunction = (nat -> Id, CandidateAssessment, Id, set<string>, Instant) -> PolicyDecision

  /** The settings of one deployment; `repr` is how Python's `str` writes a JSON value that
      is not text. */
  datatype Config = Config(
    sha: Hash, catalog: Catalog, policy: PolicyFunction, registry: Registry,
    limits: OrchestrationLimits, gatewayLimits: GatewayLimits, guidance: bool,
    reviewers: set<Id>, lifetime: int, executorMode: string,
    repr: Json -> string)

  /** The policy is the deterministic policy over this catalog. */
  ghost predicate Deterministic(cfg: Config)
  {
    forall newId, c, alertId, scope, timestamp ::
      cfg.policy(newId, c, alertId, scope, timestamp)
      == Evaluation(cfg.sha, cfg.catalog, newId, c, alertId, scope, timestamp)
  }

  // ---- Start, tool, final and failure transactions of a run ----------------------------------------

  function StartWrites(snap: Store, alert: SecurityAlert, key: Id, e: Id, now: Instant): seq<Write>
  {
    (if alert.alertId in snap.alerts then [] else [AddAlert(alert)])
    + [AddExecution(e, ExecutionRow(alert.alertId, Running, key, now, now, None)),
       AppendAudit(ExecutionStarted(e))]
  }

  function ToolWrites(record: ToolInvocationRecord, result: Option<Json>): seq<Write>
  {
    [AddInvocation(InvocationRow(record, result)),
     AppendAudit(ToolInvoked(record.executionId, record.callId, record.authorization, record.outcome))]
  }

  function TerminalState(r: TriageResult): TriageState
  {
    if r.disposition.NeedsReview? then TriageState.NeedsReview else Completed
  }

  function ActionWrites(e: Id, version: string, actions: seq<ActionProposal>): seq<Write>
  {
    if actions == [] then []
    else
      ActionWrites(e, version, actions[..|actions| - 1])
        + [AddAction(ActionRow(e, version, actions[|actions| - 1]))]
  }

  function FinalWrites(snap: Store, e: Id, d: PolicyDecision, now: Instant): seq<Write>
    requires e in snap.executions
  {
    ActionWrites(e, d.policyVersion, d.result.recommendedActions)
    + [AddResult(e, d.result),
       ReplaceExecution(e, TerminalState(d.result), now, snap.executions[e].failure),
       AppendAudit(PolicyEnforced(e, d.reasonCodes, d.result.disposition)),
       AppendAudit(ExecutionTerminal(e, TerminalState(d.result)))]
  }

  function FailureWrites(e: Id, category: FailureCategory, now: Instant): seq<Write>
  {
    [ReplaceExecution(e, TriageFailed, now, Some(category)), AppendAudit(PersistenceFailed(e, category))]
  }

  // ---- Human decisions -------------------------------------------------------------------------------

  datatype ErrorCode =
    | ActionNotFound | ApprovalNotRequired | DecisionConflict | ApprovalMissing | ApprovalRejected
    | ApprovalExpired | StaleApproval | ReviewerInvalid | ExecutionNotSupported | ExecutorFailed
    | PersistenceUnavailable

  datatype DecisionAnswer =
    | Refuses(code: ErrorCode)
    | Invalid
    | Repeats(existing: ApprovalRecord)
    | Records(approval: ApprovalRecord)

  datatype DecisionRequest = DecisionRequest(
    actionId: Id, reviewerId: string, reason: string, decision: ApprovalDecision, now: Instant, approvalId: Id)

  /** Building the ApprovalRecord: fields are stripped and checked; None is a ValidationError
      (or an overflowing expiry). */
  function NewApproval(cfg: Config, row: ActionRow, q: DecisionRequest): Option<ApprovalRecord>
  {
    var reviewer, reason, expires := ParseIdentifier(q.reviewerId), NonEmptyText(q.reason), q.now + cfg.lifetime;
    if reviewer.None? || reason.None? then None
    else if q.decision.Reject? then
      Some(ApprovalRecord(q.approvalId, q.actionId, Digest(cfg.sha, row.action.material), reviewer.value,
        Reject, q.now, reason.value, row.policyVersion, None))
    else if q.now < expires < MAX_INSTANT then
      Some(ApprovalRecord(q.approvalId, q.actionId, Digest(cfg.sha, row.action.material), reviewer.value,
        Approve, q.now, reason.value, row.policyVersion, Some(expires)))
    else None
  }

  /** The result still requires approval of exactly this proposal. */
  predicate RequiresApproval(cfg: Config, s: Store, row: ActionRow)
  {
    row.executionId in s.results
    && Reference(cfg.sha, row.action) in s.results[row.executionId].actionsRequiringApproval
  }

  function DecisionAnswerOf(cfg: Config, s: Store, q: DecisionRequest): DecisionAnswer
  {
    if q.reviewerId !in cfg.reviewers then Refuses(ReviewerInvalid)
    else if q.actionId !in s.actions then Refuses(ActionNotFound)
    else if !RequiresApproval(cfg, s, s.actions[q.actionId]) then Refuses(ApprovalNotRequired)
    else if q.actionId in s.approvals then
      var existing := s.approvals[q.actionId];
      if existing.decision == q.decision && existing.reviewerId == q.reviewerId && existing.reason == q.reason
      then Repeats(existing) else Refuses(DecisionConflict)
    else
      match NewApproval(cfg, s.actions[q.actionId], q)
      case None => Invalid
      case Some(approval) => Records(approval)
  }

  function DecisionWrites(p: ApprovalRecord): seq<Write>
  {
    [AddApproval(p), AppendAudit(ActionDecided(p.actionId, p.approvalId, p.actionDigest, p.decision))]
  }

  // ---- Execution of an approved action ------------------------------------------------------------------

  datatype ExecuteRequest = ExecuteRequest(actionId: Id, actorId: Id, now: Instant, actionExecutionId: Id)

  datatype ExecuteAnswer =
    | Declines(code: ErrorCode)
    | Completes(existing: ActionExecutionRecord)
    | Denies(code: ErrorCode, digest: string)
    | Begins(record: ActionExecutionRecord, row: ActionRow)

  /** The first check that forbids the execution, in the order they are made. */
  function DenialCode(cfg: Config, s: Store, q: ExecuteRequest): Option<ErrorCode>
    requires q.actionId in s.actions
  {
    var row := s.actions[q.actionId];
    var action := row.action;
    if action.material.catalogActionId !in cfg.catalog || row.executionId !in s.results
      || action !in s.results[row.executionId].recommendedActions then Some(StaleApproval)
    else if !RequiresApproval(cfg, s, row) then Some(ApprovalNotRequired)
    else if !cfg.catalog[action.material.catalogActionId].support.SimulatedOnly? || cfg.executorMode != "SIMULATED"
    then Some(ExecutionNotSupported)
    else if q.actionId !in s.approvals then Some(ApprovalMissing)
    else
      var approval := s.approvals[q.actionId];
      if approval.decision.Reject? then Some(ApprovalRejected)
      else if approval.expiresAt.None? || approval.expiresAt.value <= q.now then Some(ApprovalExpired)
      else if approval.actionDigest != Digest(cfg.sha, action.material)
        || approval.policyVersion != row.policyVersion then Some(StaleApproval)
      else if approval.reviewerId !in cfg.reviewers then Some(ReviewerInvalid)
      else None
  }

  function ExecuteAnswerOf(cfg: Config, s: Store, q: ExecuteRequest): ExecuteAnswer
  {
    if q.actorId !in cfg.reviewers then Declines(ReviewerInvalid)
    else if q.actionId !in s.actions then Declines(ActionNotFound)
    else if q.actionId in s.actionExecutions && s.actionExecutions[q.actionId].state == Succeeded then
      Completes(s.actionExecutions[q.actionId])
    else
      match DenialCode(cfg, s, q)
      case Some(code) => Denies(code, Digest(cfg.sha, s.actions[q.actionId].action.material))
      case None =>
        Begins(ActionExecutionRecord(q.actionExecutionId, q.actionId, Executing, q.now, None, None, None, "SIMULATED"),
          s.actions[q.actionId])
  }

  /** A denial is itself committed to the audit trail; a success is not repeated. */
  function ExecutePlan(cfg: Config, q: ExecuteRequest, answer: ExecuteAnswer): Option<seq<Write>>
  {
    match answer
    case Denies(_, digest) => Some([AppendAudit(ExecutionDenied(q.actionId, digest))])
    case Begins(record, row) => Some(BeginWrites(cfg, record, row))
    case _ => None
  }

  function BeginWrites(cfg: Config, r: ActionExecutionRecord, row: ActionRow): seq<Write>
  {
    [AddActionExecution(r), AppendAudit(SimulationStarted(r.actionId, Digest(cfg.sha, row.action.material)))]
  }

  /** What the executor reports when it returns normally. */
  datatype Simulation = Simulation(outcome: Id, mode: string)

  function Succeed(r: ActionExecutionRecord, x: Simulation, now: Instant): ActionExecutionRecord
  {
    r.(state := Succeeded, completedAt := Some(now), outcome := Some(x.outcome), mode := x.mode)
  }

  function Fail(r: ActionExecutionRecord, now: Instant): ActionExecutionRecord
  {
    r.(state := Failed, completedAt := Some(now), outcome := Some("SIMULATED_FAILURE"),
       failure := Some(SimulatorFailure))
  }

  /** The second transaction of an execution: success, or failure when the executor raised. */
  function FinishWrites(r: ActionExecutionRecord, x: Option<Simulation>, now: Instant): seq<Write>
  {
    match x
    case Some(sim) => [ReplaceActionExecution(Succeed(r, sim, now)), AppendAudit(SimulationSucceeded(r.actionId))]
    case None => [ReplaceActionExecution(Fail(r, now)), AppendAudit(SimulationFailed(r.actionId))]
  }

  // ---- Recovery ----------------------------------------------------------------------------------------

  function RunRecoveryWrites(ids: seq<Id>, now: Instant): seq<Write>
  {
    if ids == [] then []
    else
      RunRecoveryWrites(ids[..|ids| - 1], now)
        + [ReplaceExecution(ids[|ids| - 1], TriageFailed, now, Some(StaleExecution)),
           AppendAudit(StaleExecutionRecovered(ids[|ids| - 1]))]
  }

  function Expire(r: ActionExecutionRecord, now: Instant): ActionExecutionRecord
  {
    r.(state := Failed, completedAt := Some(now), outcome := Some("SIMULATED_RECOVERY_FAILURE"),
       failure := Some(StaleSimulatedAction))
  }

  function ActionRecoveryWrites(s: Store, ids: seq<Id>, now: Instant): seq<Write>
    requires forall k | k in ids :: k in s.actionExecutions
  {
    if ids == [] then []
    else
      var r := s.actionExecutions[ids[|ids| - 1]];
      ActionRecoveryWrites(s, ids[..|ids| - 1], now)
        + [ReplaceActionExecution(Expire(r, now)),
           AppendAudit(StaleSimulationRecovered(r.actionId, r.actionExecutionId))]
  }

  // ---- Transactions --------------------------------------------------------------------------------------

  datatype Transaction =
    | StartRun(alert: SecurityAlert, key: string, executionId: Id, now: Instant)
    | RecordTool(record: ToolInvocationRecord, result: Option<Json>)
    | FinishRun(executionId: Id, decision: PolicyDecision, now: Instant)
    | FailRun(executionId: Id, category: FailureCategory, now: Instant)
    | Decide(decisionRequest: DecisionRequest)
    | BeginExecution(executeRequest: ExecuteRequest)
    | FinishExecution(started: ActionExecutionRecord, simulation: Option<Simulation>, now: Instant)
    | RecoverRuns(now: Instant, threshold: nat, answer: seq<Id>)
    | RecoverActions(now: Instant, threshold: nat, answer: seq<Id>)

  /** The transactions of a run. */
  predicate OfRun(t: Transaction)
  {
    t.StartRun? || t.RecordTool? || t.FinishRun? || t.FailRun?
  }

  /** The writes a block of a run stages from the state it read; None when it leaves without
      committing: it returns early or raises. */
  function RunPlan(snap: Store, t: Transaction): Option<seq<Write>>
  {
    match t
    case StartRun(alert, key, e, now) =>
      var stored := ParseIdentifier(key);
      if stored.Some? then Some(StartWrites(snap, alert, stored.value, e, now)) else None
    case RecordTool(record, result) => Some(ToolWrites(record, result))
    case FinishRun(e, d, now) => if e in snap.executions then Some(FinalWrites(snap, e, d, now)) else None
    case FailRun(e, category, now) =>
      if e in snap.executions && snap.executions[e].state == Running then Some(FailureWrites(e, category, now))
      else None
    case _ => None
  }

  /** The same for the blocks of the services. */
  function ServicePlan(cfg: Config, snap: Store, t: Transaction): Option<seq<Write>>
  {
    match t
    case Decide(q) =>
      var answer := DecisionAnswerOf(cfg, snap, q);
      if answer.Records? then Some(DecisionWrites(answer.approval)) else None
    case BeginExecution(q) => ExecutePlan(cfg, q, ExecuteAnswerOf(cfg, snap, q))
    case FinishExecution(r, x, now) => Some(FinishWrites(r, x, now))
    case RecoverRuns(now, threshold, ids) =>
      if threshold <= now then Some(RunRecoveryWrites(ids, now)) else None
    case RecoverActions(now, threshold, ids) =>
      if threshold <= now && forall a | a in ids :: a in snap.actionExecutions then
        Some(ActionRecoveryWrites(snap, ids, now))
      else None
    case _ => None
  }

  function Plan(cfg: Config, snap: Store, t: Transaction): Option<seq<Write>>
  {
    if OfRun(t) then RunPlan(snap, t) else ServicePlan(cfg, snap, t)
  }

  /** A recovery pass works on the rows its query answers from the snapshot. */
  ghost predicate Answered(snap: Store, t: Transaction)
  {
    match t
    case RecoverRuns(now, threshold, ids) => threshold <= now ==> StaleRuns(snap, now - threshold, ids)
    case RecoverActions(now, threshold, ids) => threshold <= now ==> StaleActions(snap, now - threshold, ids)
    case _ => true
  }

  /** The answers of the stale queries are what recovery passes work on. */
  lemma QueryAnswers(s: Store, x: Transaction)
    requires x.RecoverRuns? || x.RecoverActions? ==> x.threshold <= x.now
    requires x.RecoverRuns? ==> StaleRuns(s, x.now - x.threshold, x.answer)
    requires x.RecoverActions? ==> StaleActions(s, x.now - x.threshold, x.answer)
    ensures Answered(s, x)
  {
  }

  /** How a block ends: it never reached its commit, its commit failed, or it is durable. */
  datatype Ending = Left | Aborted | Durable

  /** Commit what a block staged. */
  function Settle(current: Store, plan: Option<seq<Write>>, fault: bool): (Ending, Store)
  {
    if fault then (Aborted, current)
    else if plan.None? then (Left, current)
    else
      var next := ApplyAll(current, plan.value);
      if next.Some? then (Durable, next.value) else (Aborted, current)
  }

  /** Run a block against the current store, from the snapshot it read. */
  function Attempt(cfg: Config, current: Store, snap: Store, t: Transaction, fault: bool): (Ending, Store)
  {
    Settle(current, Plan(cfg, snap, t), fault)
  }

  /** The same for a run's block, whose writes follow from the state alone. */
  function RunAttempt(current: Store, snap: Store, t: Transaction, fault: bool): (Ending, Store)
  {
    Settle(current, RunPlan(snap, t), fault)
  }
}
