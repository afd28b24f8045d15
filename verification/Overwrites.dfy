/** What completion overwrites: from every state in which a run or an execution is about to
    complete, a recovery pass and then the completion take its row from FAILED to the completed
    state (application/orchestrator.py:402-417, application/approval_service.py:243-245). */
module Overwrites {
  import opened Base
  import opened Timestamps
  import opened Actions
  import opened Policy
  import opened Store
  import opened Queries
  import opened Workflow
  import opened Effects
  import opened History
  import opened Orchestration
  import opened System
  import opened Recovery
  import opened Refinement
  import opened Approvals
  import opened ApprovalService

  // ---- A recovery pass in between ------------------------------------------------------------------------

  /** A pass over the runs, late enough to find this one. */
  lemma RecoverRow(cfg: Config, s: System, e: Id, now: Instant, threshold: nat) returns (t: System)
    requires Reachable(cfg, s) && threshold <= now && OverdueRun(Current(s.history), e, now - threshold)
    ensures Reachable(cfg, t) && t.runs == s.runs && t.clock == s.clock
    ensures RunsRecovered(Current(s.history), now, threshold, Current(t.history))
    ensures StateOf(Current(t.history), e) == Some(TriageFailed)
  {
    t := RunPassExists(cfg, s, now, threshold);
  }

  /** A pass over the action executions, late enough to find this one. */
  lemma RecoverExecution(cfg: Config, s: System, a: Id, now: Instant, threshold: nat) returns (t: System)
    requires Reachable(cfg, s) && threshold <= now && OverdueAction(Current(s.history), a, now - threshold)
    ensures Reachable(cfg, t) && t.calls == s.calls && t.clock == s.clock
    ensures ActionsRecovered(Current(s.history), now, threshold, Current(t.history))
    ensures ActionStateOf(Current(t.history), a) == Some(Failed)
  {
    t := ActionPassExists(cfg, s, now, threshold);
  }

  // ---- Completions that come late ----------------------------------------------------------------------------

  /** The run about to commit this decision. */
  function Concluding(r: Run, openedAt: Instant, d: PolicyDecision, why: ReasonCode, since: Instant): Run
  {
    r.(phase := Finalizing(openedAt, d, why, since))
  }

  /** What its commit leaves. */
  ghost predicate Concluded(st: Store, e: Id, d: PolicyDecision, clock: Instant, after: Store)
  {
    FinalEffect(st, st, e, d, clock, after) && StateOf(after, e) == Some(TerminalState(d.result))
  }

  lemma FinalCommits(cfg: Config, r: Run, openedAt: Instant, d: PolicyDecision, why: ReasonCode, since: Instant,
    st: Store, clock: Instant, x: Input)
    requires !x.fault && AcceptsFinal(st, st, r.executionId, d) && Consistent(st)
    ensures Concluded(st, r.executionId, d, clock, Alone(cfg, Concluding(r, openedAt, d, why, since), st, clock, x).0)
  {
    GrowsReflexive(st);
    var tx := FinishRun(r.executionId, d, clock);
    DurableExactly(cfg, st, st, tx, false);
    AttemptEffect(cfg, st, st, tx, false);
    RunAttemptNow(cfg, st, tx, false);
  }

  /** From every reachable state in which a run is about to commit its result and its row is
      RUNNING: a recovery pass takes the row to FAILED, and the commit then takes it from FAILED
      to the state its result asks for. */
  lemma LateFinalOverwrites(cfg: Config, s: System, i: nat, r: Run, openedAt: Instant, d: PolicyDecision, why: ReasonCode, since: Instant,
    st: Store, clock: Instant, now: Instant, threshold: nat, x: Input) returns (t: System)
    requires Reachable(cfg, s) && Stands(s, i, Concluding(r, openedAt, d, why, since), st, clock)
    requires x.lag == 0 && !x.fault && AcceptsFinal(st, st, r.executionId, d)
    requires threshold <= now && OverdueRun(st, r.executionId, now - threshold)
    ensures Reachable(cfg, t) && Reachable(cfg, Apply(cfg, t, Advance(i, x)))
    ensures StateOf(Current(t.history), r.executionId) == Some(TriageFailed)
    ensures Concluded(Current(t.history), r.executionId, d, clock, Current(Apply(cfg, t, Advance(i, x)).history))
  {
    t := RecoverRow(cfg, s, r.executionId, now, threshold);
    ReachableSound(cfg, t);
    var failed := Current(t.history);
    assert Kept(failed);
    FinalCommits(cfg, r, openedAt, d, why, since, failed, clock, x);
    var u := AdvanceStands(cfg, t, i, Concluding(r, openedAt, d, why, since), failed, clock, x);
  }

  /** The row of this action is this execution's. */
  predicate OwnsRow(s: Store, r: ActionExecutionRecord)
  {
    r.actionId in s.actionExecutions && s.actionExecutions[r.actionId].actionExecutionId == r.actionExecutionId
  }

  lemma SuccessCommits(s: Store, r: ActionExecutionRecord, sim: Simulation, now: Instant)
    requires OwnsRow(s, r)
    ensures ActionStateOf(Committed(s, FinishWrites(r, Some(sim), now), false).1, r.actionId) == Some(Succeeded)
  {
    FinishDurable(s, r, Some(sim), now);
    FinishApplies(s, r, Some(sim), now);
  }

  /** The same for an execution whose executor has returned: from EXECUTING a recovery pass
      takes it to FAILED, and the completion from FAILED to SUCCEEDED. */
  lemma LateSuccessOverwrites(cfg: Config, s: System, i: nat, a: Id, record: ActionExecutionRecord, sim: Simulation, now: Instant, threshold: nat)
    returns (t: System)
    requires Reachable(cfg, s) && CallStands(s, i, a, Returned(record, Some(sim))) && OwnsRow(Current(s.history), record)
    requires threshold <= now && OverdueAction(Current(s.history), record.actionId, now - threshold)
    ensures Reachable(cfg, t) && Reachable(cfg, Apply(cfg, t, FinishesCall(i, false)))
    ensures ActionStateOf(Current(t.history), record.actionId) == Some(Failed)
    ensures ActionStateOf(Current(Apply(cfg, t, FinishesCall(i, false)).history), record.actionId) == Some(Succeeded)
  {
    t := RecoverExecution(cfg, s, record.actionId, now, threshold);
    SuccessCommits(Current(t.history), record, sim, t.clock);
    var u := FinishReaches(cfg, t, i, a, record, Some(sim), false);
  }

  // ---- An execution that comes late -------------------------------------------------------------------------------

  /** The action is stored and asks for a decision, nobody has decided on it or executed it, and
      an approval would clear it. */
  ghost predicate Undecided(cfg: Config, s: Store, a: Id)
  {
    && a in s.actions && a !in s.approvals && a !in s.actionExecutions
    && RequiresApproval(cfg, s, s.actions[a])
    && s.actions[a].action in s.results[s.actions[a].executionId].recommendedActions
    && s.actions[a].action.material.catalogActionId in cfg.catalog
    && cfg.catalog[s.actions[a].action.material.catalogActionId].support.SimulatedOnly?
    && cfg.executorMode == "SIMULATED"
  }

  /** An approval somebody may give now, under a new identifier. */
  ghost predicate MayApprove(cfg: Config, s: Store, q: DecisionRequest)
  {
    && q.reviewerId in cfg.reviewers && IsIdentifier(q.reviewerId) && NonEmptyText(q.reason).Some?
    && q.decision.Approve? && 0 < cfg.lifetime < MAX_INSTANT - q.now
    && forall k | k in s.approvals :: s.approvals[k].approvalId != q.approvalId
  }

  lemma ApprovalRecorded(cfg: Config, s: Store, q: DecisionRequest)
    requires Undecided(cfg, s, q.actionId) && MayApprove(cfg, s, q)
    ensures DecisionAnswerOf(cfg, s, q).Records?
    ensures var p := DecisionAnswerOf(cfg, s, q).approval;
      && AcceptsDecision(s, DecisionAnswerOf(cfg, s, q))
      && p.decision.Approve? && p.actionId == q.actionId && p.reviewerId == q.reviewerId && p.policyVersion == s.actions[q.actionId].policyVersion
      && p.actionDigest == Digest(cfg.sha, s.actions[q.actionId].action.material)
      && p.expiresAt == Some(q.now + cfg.lifetime)
  {
    IdentifierIsStripped(q.reviewerId);
  }

  /** The approval clears the action. */
  lemma ApprovalClears(cfg: Config, s: Store, q: DecisionRequest)
    requires Undecided(cfg, s, q.actionId) && MayApprove(cfg, s, q)
    ensures var t := DecideMeaning(cfg, s, q, false).store;
      Clears(cfg, t, q.actionId, q.now) && t.actionExecutions == s.actionExecutions
  {
    ApprovalRecorded(cfg, s, q);
    var p := DecisionAnswerOf(cfg, s, q).approval;
    DecisionDurable(cfg, s, s, q);
    DecisionApplies(s, p);
  }

  /** A cleared action nobody has executed begins. */
  lemma ClearedBegins(cfg: Config, s: Store, q: ExecuteRequest, t: Store, phase: CallPhase)
    requires Clears(cfg, s, q.actionId, q.now) && q.actorId in cfg.reviewers && q.actionId !in s.actionExecutions
    requires forall k | k in s.actionExecutions :: s.actionExecutions[k].actionExecutionId != q.actionExecutionId
    requires Refinement.Begins(cfg, s, q, false, t, phase)
    ensures phase.Begun? && phase.record.actionId == q.actionId && OverdueAction(t, q.actionId, q.now + 1) && OwnsRow(t, phase.record)
  {
    BeginsClears(cfg, s, q);
    var answer := ExecuteAnswerOf(cfg, s, q);
    ExecutionDurable(cfg, s, q, answer);
    ExecuteApplies(cfg, s, q, answer);
  }

  /** From every reachable state with an undecided action that somebody may approve and execute:
      an approval, a start, a return of the executor after more than the threshold, a recovery
      pass in between, and the completion. The execution row goes from FAILED to SUCCEEDED. */
  lemma SuccessAfterFailure(cfg: Config, s: System, q: DecisionRequest, executionId: Id, sim: Simulation, threshold: nat)
    returns (t: System, u: System)
    requires Reachable(cfg, s) && s.clock == q.now && s.clock + threshold + 1 < MAX_INSTANT
    requires Undecided(cfg, Current(s.history), q.actionId) && MayApprove(cfg, Current(s.history), q)
    requires forall k | k in Current(s.history).actionExecutions :: Current(s.history).actionExecutions[k].actionExecutionId != executionId
    ensures Reachable(cfg, t) && Reachable(cfg, u)
    ensures ActionStateOf(Current(t.history), q.actionId) == Some(Failed)
    ensures ActionStateOf(Current(u.history), q.actionId) == Some(Succeeded)
    ensures exists i: nat :: u == Apply(cfg, t, FinishesCall(i, false))
  {
    var call := ExecuteRequest(q.actionId, q.reviewerId, q.now, executionId);
    var later := s.clock + threshold + 1;
    ApprovalClears(cfg, Current(s.history), q);
    var decided := DecideIsReview(cfg, s, q, false);
    var i := |decided.calls|;
    var begun, phase := BeginReaches(cfg, decided, call, false);
    ClearedBegins(cfg, Current(decided.history), call, Current(begun.history), phase);
    var returned := InvokeReaches(cfg, begun, i, q.actionId, phase.record, phase.row, Replies(sim), later);
    t := LateSuccessOverwrites(cfg, returned, i, q.actionId, phase.record, sim, later, threshold);
    u := Apply(cfg, t, FinishesCall(i, false));
  }
}
