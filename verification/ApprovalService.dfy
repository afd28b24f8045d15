/** The approval service as it runs: decisions in one transaction, executions in two around
    the external effect (application/approval_service.py). */
module ApprovalService {
  import opened Base
  import opened Timestamps
  import opened Actions
  import opened Store
  import opened Workflow
  import opened Effects
  import opened History
  import opened Approvals

  /** What a caller sees instead of a value: a workflow error, a record that does not validate,
      or a transaction that failed. */
  datatype Failure = Workflow(code: ErrorCode) | Invalid | Unavailable

  /** What the executor does with one action. */
  datatype ExecutorReply = Replies(simulation: Simulation) | Raises

  /** The external effect, with a log of the proposals it was given. */
  class ActionExecutor {
    var executed: seq<ActionProposal>

    constructor ()
      ensures executed == []
    {
      executed := [];
    }

    method Execute(action: ActionProposal, reply: ExecutorReply) returns (r: ExecutorReply)
      modifies this
      ensures executed == old(executed) + [action] && r == reply
    {
      executed := executed + [action];
      r := reply;
    }
  }

  // ---- What each operation means -----------------------------------------------------------------------

  datatype Decided = Decided(result: Result<ApprovalRecord, Failure>, store: Store)

  function DecideMeaning(cfg: Config, s: Store, q: DecisionRequest, fault: bool): Decided
  {
    match DecisionAnswerOf(cfg, s, q)
    case Refuses(code) => Decided(Err(Workflow(code)), s)
    case Invalid => Decided(Err(Failure.Invalid), s)
    case Repeats(existing) => Decided(Ok(existing), s)
    case Records(approval) =>
      var (done, t) := Committed(s, DecisionWrites(approval), fault);
      Decided(if done then Ok(approval) else Err(Unavailable), t)
  }

  /** What `approve` and `reject` return and leave, by the request and the stored rows alone. */
  ghost predicate DecidesAs(cfg: Config, s: Store, q: DecisionRequest, fault: bool, r: Result<ApprovalRecord, Failure>, t: Store)
  {
    if GetsRecord(cfg, s, q) then
      if fault || exists k | k in s.approvals :: s.approvals[k].approvalId == q.approvalId then r == Err(Unavailable) && t == s
      else
        && r.Ok? && RecordsDecision(cfg, s, q, r.value)
        && t == s.(approvals := s.approvals[q.actionId := r.value],
                   audit := s.audit + [ActionDecided(q.actionId, q.approvalId, r.value.actionDigest, q.decision)])
    else
      && t == s
      && (AllowsAll(cfg, s, q) ==> r == if q.actionId in s.approvals then Ok(s.approvals[q.actionId]) else Err(Failure.Invalid))
      && forall k: nat | FirstRefusal(cfg, s, q, k) :: r == Err(Workflow(RefusalCode(DECISION_CHECKS[k])))
  }

  /** The meaning of a decision is that. */
  lemma DecideExactly(cfg: Config, s: Store, q: DecisionRequest, fault: bool)
    ensures var m := DecideMeaning(cfg, s, q, fault); DecidesAs(cfg, s, q, fault, m.result, m.store)
  {
    DecisionMeaning(cfg, s, q);
    if DecisionAnswerOf(cfg, s, q).Records? {
      var p := DecisionAnswerOf(cfg, s, q).approval;
      ApplyTwo(s, AddApproval(p), AppendAudit(ActionDecided(p.actionId, p.approvalId, p.actionDigest, p.decision)));
    }
  }

  datatype Executed = Executed(
    result: Result<ActionExecutionRecord, Failure>, store: Store, given: seq<ActionProposal>)

  /** The environment of one call of `execute`: faults of its transactions, the executor's
      reply, and the clock when it is done. */
  datatype ExecuteInput = ExecuteInput(beginFault: bool, reply: ExecutorReply, later: Instant, finishFault: bool)

  function FinishMeaning(s: Store, r: ActionExecutionRecord, row: ActionRow, x: ExecuteInput): Executed
  {
    match x.reply
    case Raises =>
      var (done, t) := Committed(s, FinishWrites(r, None, x.later), x.finishFault);
      Executed(Err(if done then Workflow(ExecutorFailed) else Unavailable), t, [row.action])
    case Replies(sim) =>
      var (done, t) := Committed(s, FinishWrites(r, Some(sim), x.later), x.finishFault);
      Executed(if done then Ok(Succeed(r, sim, x.later)) else Err(Workflow(PersistenceUnavailable)), t, [row.action])
  }

  function ExecuteMeaning(cfg: Config, s: Store, q: ExecuteRequest, x: ExecuteInput): Executed
  {
    match ExecuteAnswerOf(cfg, s, q)
    case Declines(code) => Executed(Err(Workflow(code)), s, [])
    case Completes(existing) => Executed(Ok(existing), s, [])
    case Denies(code, digest) =>
      var (done, t) := Committed(s, [AppendAudit(ExecutionDenied(q.actionId, digest))], x.beginFault);
      Executed(Err(if done then Workflow(code) else Unavailable), t, [])
    case Begins(r, row) =>
      var (done, t) := Committed(s, BeginWrites(cfg, r, row), x.beginFault);
      if done then FinishMeaning(t, r, row, x) else Executed(Err(Unavailable), t, [])
  }

  /** Once an action has an execution row, no call of `execute` reaches the executor again. */
  lemma RetryNeverReachesExecutor(cfg: Config, s: Store, q: ExecuteRequest, x: ExecuteInput)
    requires q.actionId in s.actionExecutions
    ensures ExecuteMeaning(cfg, s, q, x).given == []
    ensures ExecuteMeaning(cfg, s, q, x).store.actionExecutions == s.actionExecutions
  {
    var answer := ExecuteAnswerOf(cfg, s, q);
    BeginsExecuting(cfg, s, q);
    SecondBegin(cfg, s, q, answer);
    if ExecutePlan(cfg, q, answer).Some? {
      ExecuteApplies(cfg, s, q, answer);
    }
  }

  /** A first call that reaches the executor leaves a row, whatever happens afterwards. */
  lemma ReachingExecutorLeavesRow(cfg: Config, s: Store, q: ExecuteRequest, x: ExecuteInput)
    requires ExecuteMeaning(cfg, s, q, x).given != []
    ensures q.actionId !in s.actionExecutions && q.actionId in ExecuteMeaning(cfg, s, q, x).store.actionExecutions
    ensures Clears(cfg, s, q.actionId, q.now)
    ensures ExecuteMeaning(cfg, s, q, x).given == [s.actions[q.actionId].action]
  {
    var answer := ExecuteAnswerOf(cfg, s, q);
    BeginsExecuting(cfg, s, q);
    BeginsClears(cfg, s, q);
    ExecuteApplies(cfg, s, q, answer);
    var t := Committed(s, BeginWrites(cfg, answer.record, answer.row), x.beginFault).1;
    FinishKeepsRows(t, answer.record, x);
  }

  lemma FinishKeepsRows(s: Store, r: ActionExecutionRecord, x: ExecuteInput)
    ensures var sim := if x.reply.Replies? then Some(x.reply.simulation) else None;
      s.actionExecutions.Keys <= Committed(s, FinishWrites(r, sim, x.later), x.finishFault).1.actionExecutions.Keys
  {
    var sim := if x.reply.Replies? then Some(x.reply.simulation) else None;
    FinishApplies(s, r, sim, x.later);
  }

  // ---- What an execution returns and leaves --------------------------------------------------------------

  /** Every requirement for executing the action now is met. */
  ghost predicate MeetsAll(cfg: Config, s: Store, q: ExecuteRequest)
  {
    q.actionId in s.actions && forall k | 0 <= k < |REQUIREMENTS| :: Meets(cfg, s, q.actionId, q.now, REQUIREMENTS[k])
  }

  /** No execution of the action, and none under this identifier, is stored. */
  predicate NewExecution(s: Store, q: ExecuteRequest)
  {
    q.actionId !in s.actionExecutions && forall k | k in s.actionExecutions :: s.actionExecutions[k].actionExecutionId != q.actionExecutionId
  }

  /** The store with this row of the action and these events at the end of the audit trail. */
  function With(s: Store, row: ActionExecutionRecord, events: seq<AuditEvent>): Store
  {
    s.(actionExecutions := s.actionExecutions[row.actionId := row], audit := s.audit + events)
  }

  /** An execution that has reached the executor: the row says when it began and, once its end
      is recorded, when and how it ended. */
  ghost predicate RanAs(cfg: Config, s: Store, q: ExecuteRequest, x: ExecuteInput, r: Result<ActionExecutionRecord, Failure>, t: Store)
    requires q.actionId in s.actions
  {
    var started := SimulationStarted(q.actionId, Digest(cfg.sha, s.actions[q.actionId].action.material));
    if x.finishFault then
      && r == Err(if x.reply.Raises? then Unavailable else Workflow(PersistenceUnavailable))
      && t == With(s, ActionExecutionRecord(q.actionExecutionId, q.actionId, Executing, q.now, None, None, None, "SIMULATED"), [started])
    else
      match x.reply
      case Raises =>
        && r == Err(Workflow(ExecutorFailed))
        && t == With(s, ActionExecutionRecord(q.actionExecutionId, q.actionId, Failed, q.now, Some(x.later),
             Some("SIMULATED_FAILURE"), Some(SimulatorFailure), "SIMULATED"), [started, SimulationFailed(q.actionId)])
      case Replies(sim) =>
        && r == Ok(ActionExecutionRecord(q.actionExecutionId, q.actionId, Succeeded, q.now, Some(x.later),
             Some(sim.outcome), None, sim.mode))
        && t == With(s, r.value, [started, SimulationSucceeded(q.actionId)])
  }

  /** What `execute` returns, leaves, and hands to the executor, by the request and the stored
      rows alone. */
  ghost predicate ExecutesAs(cfg: Config, s: Store, q: ExecuteRequest, x: ExecuteInput, r: Result<ActionExecutionRecord, Failure>,
    t: Store, given: seq<ActionProposal>)
  {
    if q.actorId !in cfg.reviewers then r == Err(Workflow(ReviewerInvalid)) && t == s && given == []
    else if q.actionId !in s.actions then r == Err(Workflow(ActionNotFound)) && t == s && given == []
    else if q.actionId in s.actionExecutions && s.actionExecutions[q.actionId].state == Succeeded then
      r == Ok(s.actionExecutions[q.actionId]) && t == s && given == []
    else if !MeetsAll(cfg, s, q) then DeniedAs(cfg, s, q, x.beginFault, r, t) && given == []
    else if x.beginFault || !NewExecution(s, q) then r == Err(Unavailable) && t == s && given == []
    else RanAs(cfg, s, q, x, r, t) && given == [s.actions[q.actionId].action]
  }

  /** A denial is put on the audit trail, and says which requirement is not met. */
  ghost predicate DeniedAs(cfg: Config, s: Store, q: ExecuteRequest, fault: bool, r: Result<ActionExecutionRecord, Failure>, t: Store)
    requires q.actionId in s.actions
  {
    if fault then r == Err(Unavailable) && t == s
    else
      && t == s.(audit := s.audit + [ExecutionDenied(q.actionId, Digest(cfg.sha, s.actions[q.actionId].action.material))])
      && forall k: nat | k < |REQUIREMENTS| && FirstUnmet(cfg, s, q.actionId, q.now, k) :: r == Err(Workflow(CodeFor(REQUIREMENTS[k])))
  }

  /** The row as `execute` begins it. */
  lemma BeginningRow(cfg: Config, s: Store, q: ExecuteRequest)
    requires ExecuteAnswerOf(cfg, s, q).Begins?
    ensures q.actionId in s.actions && ExecuteAnswerOf(cfg, s, q)
      == Begins(ActionExecutionRecord(q.actionExecutionId, q.actionId, Executing, q.now, None, None, None, "SIMULATED"), s.actions[q.actionId])
  {
  }

  lemma BeginCommits(cfg: Config, s: Store, r: ActionExecutionRecord, row: ActionRow, fault: bool)
    requires r.actionId in s.actions
    ensures var fits := r.actionId !in s.actionExecutions && forall k | k in s.actionExecutions :: s.actionExecutions[k].actionExecutionId != r.actionExecutionId;
      Committed(s, BeginWrites(cfg, r, row), fault)
        == if !fault && fits then (true, With(s, r, [SimulationStarted(r.actionId, Digest(cfg.sha, row.action.material))])) else (false, s)
  {
    ApplyTwo(s, AddActionExecution(r), AppendAudit(SimulationStarted(r.actionId, Digest(cfg.sha, row.action.material))));
  }

  /** The row at its end: as the executor replied. */
  function EndedRow(r: ActionExecutionRecord, reply: ExecutorReply, now: Instant): ActionExecutionRecord
  {
    match reply
    case Raises =>
      ActionExecutionRecord(r.actionExecutionId, r.actionId, Failed, r.startedAt, Some(now), Some("SIMULATED_FAILURE"), Some(SimulatorFailure), r.mode)
    case Replies(sim) =>
      ActionExecutionRecord(r.actionExecutionId, r.actionId, Succeeded, r.startedAt, Some(now), Some(sim.outcome), r.failure, sim.mode)
  }

  function EndEvent(a: Id, reply: ExecutorReply): AuditEvent
  {
    if reply.Raises? then SimulationFailed(a) else SimulationSucceeded(a)
  }

  function Simulated(reply: ExecutorReply): Option<Simulation>
  {
    if reply.Replies? then Some(reply.simulation) else None
  }

  /** The second transaction, on the row the first has added. */
  lemma FinishCommits(s: Store, r: ActionExecutionRecord, started: AuditEvent, reply: ExecutorReply, now: Instant, fault: bool)
    ensures Committed(With(s, r, [started]), FinishWrites(r, Simulated(reply), now), fault)
         == if fault then (false, With(s, r, [started]))
            else (true, With(s, EndedRow(r, reply, now), [started, EndEvent(r.actionId, reply)]))
  {
    var begun, row, ended := With(s, r, [started]), EndedRow(r, reply, now), EndEvent(r.actionId, reply);
    var ws := FinishWrites(r, Simulated(reply), now);
    assert ws == [ws[0], ws[1]];
    ApplyTwo(begun, ws[0], ws[1]);
    assert s.actionExecutions[r.actionId := r][r.actionId := row] == s.actionExecutions[r.actionId := row];
    assert s.audit + [started] + [ended] == s.audit + [started, ended];
  }

  lemma RunsExactly(cfg: Config, s: Store, q: ExecuteRequest, x: ExecuteInput)
    requires ExecuteAnswerOf(cfg, s, q).Begins? && !x.beginFault && NewExecution(s, q)
    ensures var m := ExecuteMeaning(cfg, s, q, x);
      q.actionId in s.actions && RanAs(cfg, s, q, x, m.result, m.store) && m.given == [s.actions[q.actionId].action]
  {
    BeginningRow(cfg, s, q);
    var r, row := ExecuteAnswerOf(cfg, s, q).record, s.actions[q.actionId];
    BeginCommits(cfg, s, r, row, x.beginFault);
    FinishCommits(s, r, SimulationStarted(q.actionId, Digest(cfg.sha, row.action.material)), x.reply, x.later, x.finishFault);
  }

  /** A call that does not get to the executor, after its first checks. */
  lemma StopsExactly(cfg: Config, s: Store, q: ExecuteRequest, x: ExecuteInput)
    requires ExecuteAnswerOf(cfg, s, q).Denies? || (ExecuteAnswerOf(cfg, s, q).Begins? && (x.beginFault || !NewExecution(s, q)))
    ensures var m, answer := ExecuteMeaning(cfg, s, q, x), ExecuteAnswerOf(cfg, s, q);
      && m.given == [] && q.actionId in s.actions
      && (answer.Denies? ==> DeniedAs(cfg, s, q, x.beginFault, m.result, m.store))
      && (answer.Begins? ==> m.result == Err(Unavailable) && m.store == s)
  {
    var answer := ExecuteAnswerOf(cfg, s, q);
    if answer.Denies? {
      DenialMeaning(cfg, s, q);
      ApplyOne(s, AppendAudit(ExecutionDenied(q.actionId, answer.digest)));
    } else {
      BeginningRow(cfg, s, q);
      BeginCommits(cfg, s, answer.record, s.actions[q.actionId], x.beginFault);
    }
  }

  /** The meaning of an execution is that. */
  lemma ExecuteExactly(cfg: Config, s: Store, q: ExecuteRequest, x: ExecuteInput)
    ensures var m := ExecuteMeaning(cfg, s, q, x); ExecutesAs(cfg, s, q, x, m.result, m.store, m.given)
  {
    var answer := ExecuteAnswerOf(cfg, s, q);
    if answer.Denies? || answer.Begins? {
      DenialMeaning(cfg, s, q);
      if answer.Begins? && !x.beginFault && NewExecution(s, q) {
        RunsExactly(cfg, s, q, x);
      } else {
        StopsExactly(cfg, s, q, x);
      }
    }
  }

  // ---- The service -----------------------------------------------------------------------------------------

  class ApprovalService {
    const cfg: Config
    const database: Database
    const executor: ActionExecutor

    constructor (cfg: Config, database: Database, executor: ActionExecutor)
      ensures this.cfg == cfg && this.database == database && this.executor == executor
    {
      this.cfg, this.database, this.executor := cfg, database, executor;
    }

    /** `approve` and `reject`; `DecideExactly` says what this is. */
    method Decide(q: DecisionRequest, fault: bool) returns (r: Result<ApprovalRecord, Failure>)
      modifies database
      ensures Decided(r, database.store) == DecideMeaning(cfg, old(database.store), q, fault)
    {
      if q.reviewerId !in cfg.reviewers {
        return Err(Workflow(ReviewerInvalid));
      }
      var uow := new UnitOfWork(database);
      var rows := uow.snapshot;
      if q.actionId !in rows.actions {
        return Err(Workflow(ActionNotFound));
      }
      var persisted := rows.actions[q.actionId];
      var reference := Reference(cfg.sha, persisted.action);
      if persisted.executionId !in rows.results
        || reference !in rows.results[persisted.executionId].actionsRequiringApproval {
        return Err(Workflow(ApprovalNotRequired));
      }
      if q.actionId in rows.approvals {
        var existing := rows.approvals[q.actionId];
        if existing.decision == q.decision && existing.reviewerId == q.reviewerId && existing.reason == q.reason {
          return Ok(existing);
        }
        return Err(Workflow(DecisionConflict));
      }
      var built := NewApproval(cfg, persisted, q);
      if built.None? {
        return Err(Failure.Invalid);
      }
      var approval := built.value;
      uow.Stage(AddApproval(approval));
      uow.Stage(AppendAudit(ActionDecided(approval.actionId, approval.approvalId, approval.actionDigest, approval.decision)));
      var ok := uow.Commit(fault);
      r := if ok then Ok(approval) else Err(Unavailable);
    }

    /** The checks of `execute`, in order; None when the execution may begin. */
    method CheckExecution(rows: Store, q: ExecuteRequest) returns (code: Option<ErrorCode>)
      requires q.actionId in rows.actions
      ensures code == DenialCode(cfg, rows, q)
    {
      var persisted := rows.actions[q.actionId];
      var action := persisted.action;
      var reference := Reference(cfg.sha, action);
      if action.material.catalogActionId !in cfg.catalog || persisted.executionId !in rows.results
        || action !in rows.results[persisted.executionId].recommendedActions {
        return Some(StaleApproval);
      }
      if reference !in rows.results[persisted.executionId].actionsRequiringApproval {
        return Some(ApprovalNotRequired);
      }
      if !cfg.catalog[action.material.catalogActionId].support.SimulatedOnly? || cfg.executorMode != "SIMULATED" {
        return Some(ExecutionNotSupported);
      }
      if q.actionId !in rows.approvals {
        return Some(ApprovalMissing);
      }
      var approval := rows.approvals[q.actionId];
      if approval.decision.Reject? {
        return Some(ApprovalRejected);
      }
      if approval.expiresAt.None? || approval.expiresAt.value <= q.now {
        return Some(ApprovalExpired);
      }
      if approval.actionDigest != Digest(cfg.sha, action.material) || approval.policyVersion != persisted.policyVersion {
        return Some(StaleApproval);
      }
      if approval.reviewerId !in cfg.reviewers {
        return Some(ReviewerInvalid);
      }
      code := None;
    }

    /** `execute`; `ExecuteExactly` says what this is. */
    method Execute(q: ExecuteRequest, x: ExecuteInput) returns (r: Result<ActionExecutionRecord, Failure>)
      modifies database, executor
      ensures var m := ExecuteMeaning(cfg, old(database.store), q, x);
        r == m.result && database.store == m.store && executor.executed == old(executor.executed) + m.given
    {
      if q.actorId !in cfg.reviewers {
        return Err(Workflow(ReviewerInvalid));
      }
      var uow := new UnitOfWork(database);
      var rows := uow.snapshot;
      if q.actionId !in rows.actions {
        return Err(Workflow(ActionNotFound));
      }
      var persisted := rows.actions[q.actionId];
      if q.actionId in rows.actionExecutions && rows.actionExecutions[q.actionId].state == Succeeded {
        return Ok(rows.actionExecutions[q.actionId]);
      }
      var digest := Digest(cfg.sha, persisted.action.material);
      var code := CheckExecution(rows, q);
      if code.Some? {
        uow.Stage(AppendAudit(ExecutionDenied(q.actionId, digest)));
        assert uow.pending == [AppendAudit(ExecutionDenied(q.actionId, digest))];
        var denied := uow.Commit(x.beginFault);
        return Err(if denied then Workflow(code.value) else Unavailable);
      }
      var execution := ActionExecutionRecord(
        q.actionExecutionId, q.actionId, Executing, q.now, None, None, None, "SIMULATED");
      uow.Stage(AddActionExecution(execution));
      uow.Stage(AppendAudit(SimulationStarted(q.actionId, digest)));
      assert uow.pending == BeginWrites(cfg, execution, persisted);
      var begun := uow.Commit(x.beginFault);
      if !begun {
        return Err(Unavailable);
      }
      r := RunEffect(execution, persisted, x);
    }

    /** The external effect and the transaction that records how it ended. */
    method RunEffect(execution: ActionExecutionRecord, persisted: ActionRow, x: ExecuteInput)
      returns (r: Result<ActionExecutionRecord, Failure>)
      modifies database, executor
      ensures var m := FinishMeaning(old(database.store), execution, persisted, x);
        r == m.result && database.store == m.store && executor.executed == old(executor.executed) + m.given
    {
      var reply := executor.Execute(persisted.action, x.reply);
      var uow := new UnitOfWork(database);
      if reply.Raises? {
        uow.Stage(ReplaceActionExecution(Fail(execution, x.later)));
        uow.Stage(AppendAudit(SimulationFailed(execution.actionId)));
        assert uow.pending == FinishWrites(execution, None, x.later);
        var failed := uow.Commit(x.finishFault);
        return Err(if failed then Workflow(ExecutorFailed) else Unavailable);
      }
      var completed := Succeed(execution, reply.simulation, x.later);
      uow.Stage(ReplaceActionExecution(completed));
      uow.Stage(AppendAudit(SimulationSucceeded(execution.actionId)));
      assert uow.pending == FinishWrites(execution, Some(reply.simulation), x.later);
      var ok := uow.Commit(x.finishFault);
      r := if ok then Ok(completed) else Err(Workflow(PersistenceUnavailable));
    }
  }
}
