/** Completions after recovery, step by step from an empty system: for every deadline, cap and
    recovery threshold there is a run whose row goes from FAILED to COMPLETED, and an action whose
    execution goes from FAILED to SUCCEEDED (application/orchestrator.py:402-417,
    application/approval_service.py:243-245, application/recovery_service.py:52-56). */
module LateResults {
  import opened Base
  import opened Json
  import opened Timestamps
  import opened Entities
  import opened Actions
  import opened Triage
  import opened Policy
  import opened Gateway
  import opened Store
  import opened Queries
  import opened Workflow
  import opened Effects
  import opened History
  import opened Lockstep
  import opened Orchestration
  import opened System
  import opened Timing
  import opened Refinement
  import opened Stages
  import opened Deployment
  import opened Overruns
  import opened Overwrites
  import opened Identifiers

  // ---- A candidate that is accepted --------------------------------------------------------------------------

  /** A malicious disposition that cites the item and recommends the action. */
  function Assessed(item: Accumulated, m: Material): CandidateAssessment
  {
    CandidateAssessment(Malicious, High, 1.0, [item.reference], "", [ActionRecommendation(m, "")], false, None, [item.toolCall])
  }

  /** The decision completes the run and stores the action, whose approval it asks for. */
  ghost predicate Proposes(cfg: Config, alert: SecurityAlert, d: PolicyDecision, a: ActionProposal)
  {
    && d.result.alertId == alert.alertId && d.result.disposition == Malicious
    && d.result.recommendedActions == [a] && d.result.actionsRequiringApproval == [Reference(cfg.sha, a)]
  }

  /** An item of evidence names its own call. */
  lemma ItemResolves(cfg: Config, record: ToolInvocationRecord, outcome: Json, id: Id, item: Accumulated, m: Material)
    requires ToEvidence(cfg, record, outcome, id) == Some(item)
    ensures WellReferenced(Assessed(item, m)) && CandidateReferencesValid(Assessed(item, m), [item])
  {
    var c := Assessed(item, m);
    assert CallIds(c.toolCalls)[0] == item.toolCall.invocationId;
  }

  lemma OnePasses(c: Catalog, scope: set<string>, a: ActionRecommendation)
    requires Screen(c, scope, a).None?
    ensures Positions(c, scope, [a], true) == [0] && Positions(c, scope, [a], false) == []
  {
    assert [a][..0] == [];
  }

  lemma OneReference(sha: Hash, c: Catalog, a: ActionProposal)
    requires a.material.catalogActionId in c && c[a.material.catalogActionId].approvalRequired
    ensures RequiredReferences(sha, c, [a]) == [Reference(sha, a)]
  {
    assert [a][..0] == [];
  }

  /** The decision on it completes the run and stores the action under the first identifier. */
  lemma AssessedEvaluation(sha: Hash, c: Catalog, newId: nat -> Id, item: Accumulated, m: Material, alertId: Id, scope: set<string>, now: Instant)
    returns (a: ActionProposal)
    requires Fresh(newId) && WellReferenced(Assessed(item, m)) && ValidMaterial(m)
    requires Screen(c, scope, ActionRecommendation(m, "")).None? && c[m.catalogActionId].approvalRequired
    ensures a == ActionProposal(newId(0), m, "")
    ensures var r := Evaluation(sha, c, newId, Assessed(item, m), alertId, scope, now).result;
      && r.alertId == alertId && r.disposition == Malicious
      && r.recommendedActions == [a] && r.actionsRequiringApproval == [Reference(sha, a)]
  {
    var candidate := Assessed(item, m);
    a := ActionProposal(newId(0), m, "");
    EvaluationPartitions(sha, c, newId, candidate, alertId, scope, now);
    EvaluationFollowsRule(sha, c, newId, candidate, alertId, scope, now);
    EvaluationAlwaysValid(sha, c, newId, candidate, alertId, scope, now);
    OnePasses(c, scope, candidate.recommendedActions[0]);
    CanonicalizeKeepsContent(candidate.recommendedActions[0], newId(0));
    OneReference(sha, c, a);
  }

  /** The policy accepts the recommendation. */
  lemma RecommendationAccepted(cfg: Config, alert: SecurityAlert, item: Accumulated, m: Material, reviewer: Id, newId: nat -> Id, now: Instant)
    returns (a: ActionProposal)
    requires Deterministic(cfg) && Remediable(cfg, alert, m, reviewer) && Fresh(newId) && WellReferenced(Assessed(item, m))
    ensures a.material == m
    ensures Proposes(cfg, alert, cfg.policy(newId, Assessed(item, m), alert.alertId, ScopeKeys(alert.entities), now), a)
  {
    a := AssessedEvaluation(cfg.sha, cfg.catalog, newId, item, m, alert.alertId, ScopeKeys(alert.entities), now);
  }

  // ---- About to finish -------------------------------------------------------------------------------------------

  /** Where the run stands when the policy has accepted its candidate. */
  function AtOffer(sc: Scene, newId: nat -> Id): Standing
  {
    At(sc.run, CandidateExit(sc.cfg, sc.run.alert, sc.times.openedAt, Assessed(sc.item, sc.remedy), newId, sc.times.firstCall),
      SecondStore(sc), sc.times.firstCall)
  }

  /** What the candidate cites is what the loop has accumulated. */
  lemma CitesItem(sc: Scene)
    requires FirstPlays(sc)
    ensures CandidateReferencesValid(Assessed(sc.item, sc.remedy), SecondLoop(sc).accumulated)
  {
    ItemResolves(sc.cfg, sc.firstRecord, sc.outcome, "evidence-1", sc.item, sc.remedy);
    assert SecondLoop(sc).accumulated == [sc.item];
  }

  lemma PlaysToOffer(sc: Scene, p: nat, ok: Standing -> bool, newId: nat -> Id)
    requires Onward(sc.cfg, p, ok) && ok(AtSecondHead(sc)) && !sc.cfg.guidance && 1 <= sc.cfg.limits.deadlineMs
    requires MonotonicMs(sc.times.firstCall) == MonotonicMs(sc.times.begun)
    requires CandidateReferencesValid(Assessed(sc.item, sc.remedy), SecondLoop(sc).accumulated)
    ensures ok(AtOffer(sc, newId))
  {
    var loop, st, clock := SecondLoop(sc), SecondStore(sc), sc.times.firstCall;
    Consults(sc.cfg, p, ok, sc.run, loop, st, clock);
    OffersAt(sc.cfg, p, ok, sc.run, loop, st, clock, Assessed(sc.item, sc.remedy), newId);
  }

  lemma OfferStood(sc: Scene, p: nat, newId: nat -> Id)
    requires Plays(sc, p)
    ensures Stood(sc.cfg, p, AtOffer(sc, newId))
  {
    var ok := a => Stood(sc.cfg, p, a);
    StoodClosed(sc.cfg, p);
    EntersStood(sc.cfg, p, sc.run, sc.times.openedAt);
    PlaysToSecondHead(sc, p, ok);
    SameMillisecond(sc, p);
    CitesItem(sc);
    PlaysToOffer(sc, p, ok, newId);
  }

  /** The decision that stores this action comes next; the run's row is RUNNING since it opened,
      and nothing about the action is stored. */
  ghost predicate Poised(sc: Scene, d: PolicyDecision, a: ActionProposal, st: Store)
  {
    && Proposes(sc.cfg, sc.run.alert, d, a) && a.material == sc.remedy
    && AwaitsResult(st, sc.run, sc.times.firstCall)
  }

  ghost predicate AwaitsResult(st: Store, r: Run, clock: Instant)
  {
    && OverdueRun(st, r.executionId, clock)
    && st.results == map[] && st.actions == map[] && st.approvals == map[] && st.actionExecutions == map[]
    && r.alert.alertId in st.alerts
  }

  lemma SecondStoreAwaits(sc: Scene, p: nat)
    requires OnSchedule(sc, p)
    ensures AwaitsResult(SecondStore(sc), sc.run, sc.times.firstCall)
  {
  }

  /** The scene's run comes to be about to finish. */
  lemma ReachesPoised(sc: Scene, p: nat) returns (s: System, d: PolicyDecision, why: ReasonCode, a: ActionProposal)
    requires Plays(sc, p) && ValidConfig(sc.cfg) && Remedies(sc)
    ensures Reachable(sc.cfg, s) && Poised(sc, d, a, SecondStore(sc))
    ensures Lone(s, At(sc.run, Finalizing(sc.times.openedAt, d, why, sc.times.firstCall), SecondStore(sc), sc.times.firstCall))
  {
    SequenceIdsFresh("action", 0);
    var newId := (k: nat) => SequenceId("action", 0 + k);
    OfferStood(sc, p, newId);
    ItemResolves(sc.cfg, sc.firstRecord, sc.outcome, "evidence-1", sc.item, sc.remedy);
    a := RecommendationAccepted(sc.cfg, sc.run.alert, sc.item, sc.remedy, sc.reviewer, newId, sc.times.firstCall);
    SecondStoreAwaits(sc, p);
    var exit := AtOffer(sc, newId).run.phase;
    d, why := exit.decision, exit.reason;
    s :| PunctuallyReachable(sc.cfg, p, s) && Lone(s, AtOffer(sc, newId));
  }

  // ---- The run ---------------------------------------------------------------------------------------------------

  lemma PoisedAccepts(sc: Scene, d: PolicyDecision, a: ActionProposal, st: Store)
    requires Poised(sc, d, a, st)
    ensures AcceptsFinal(st, st, sc.run.executionId, d) && TerminalState(d.result) == Completed
  {
    assert ActionIds([a]) == [a.actionId];
  }

  /** The final commit takes longer than the threshold, a recovery pass finds the row, and the
      commit goes through. */
  lemma FinishesLate(sc: Scene, s: System, d: PolicyDecision, why: ReasonCode, a: ActionProposal, threshold: nat) returns (t: System)
    requires Reachable(sc.cfg, s) && Poised(sc, d, a, SecondStore(sc)) && sc.times.firstCall + threshold + 1 < MAX_INSTANT
    requires Lone(s, At(sc.run, Finalizing(sc.times.openedAt, d, why, sc.times.firstCall), SecondStore(sc), sc.times.firstCall))
    ensures FailedThenCompleted(sc.cfg, sc.run.executionId, t, Apply(sc.cfg, t, FirstRunAdvances()))
  {
    var st, later := SecondStore(sc), sc.times.firstCall + threshold + 1;
    var late := TickStands(sc.cfg, s, 0, s.runs[0], st, sc.times.firstCall, later);
    PoisedAccepts(sc, d, a, st);
    t := LateFinalOverwrites(sc.cfg, late, 0, sc.run, sc.times.openedAt, d, why, sc.times.firstCall, st, later, later, threshold, Quiet(false));
  }

  /** Two reachable states: in the first the execution's row is FAILED, in the second COMPLETED. */
  ghost predicate FailedThenCompleted(cfg: Config, e: Id, t: System, u: System)
  {
    && Reachable(cfg, t) && Reachable(cfg, u)
    && StateOf(Current(t.history), e) == Some(TriageFailed) && StateOf(Current(u.history), e) == Some(Completed)
  }

  /** From an empty system: FAILED, then COMPLETED, in one step of the run. */
  lemma CompletedAfterFailure(sc: Scene, p: nat, threshold: nat) returns (t: System)
    requires Plays(sc, p) && ValidConfig(sc.cfg) && Remedies(sc) && sc.times.firstCall + threshold + 1 < MAX_INSTANT
    ensures FailedThenCompleted(sc.cfg, sc.run.executionId, t, Apply(sc.cfg, t, FirstRunAdvances()))
  {
    var s, d, why, a := ReachesPoised(sc, p);
    t := FinishesLate(sc, s, d, why, a, threshold);
  }

  /** The first run takes a step on the current state. */
  function FirstRunAdvances(): Step
  {
    Advance(0, Quiet(false))
  }

  // ---- The action --------------------------------------------------------------------------------------------------

  lemma FinalLeavesUndecided(cfg: Config, st: Store, r: Run, reviewer: Id, d: PolicyDecision, a: ActionProposal, now: Instant, after: Store)
    requires Remediable(cfg, r.alert, a.material, reviewer) && Proposes(cfg, r.alert, d, a)
    requires AwaitsResult(st, r, now) && FinalEffect(st, st, r.executionId, d, now, after)
    ensures Undecided(cfg, after, a.actionId)
    ensures after.approvals == map[] && after.actionExecutions == map[]
  {
    assert ActionIds([a]) == [a.actionId];
    WithActionsRows(st.actions, r.executionId, d.policyVersion, [a]);
    assert [a][0] == a;
  }

  lemma Finishes(sc: Scene, s: System, d: PolicyDecision, why: ReasonCode, a: ActionProposal) returns (t: System)
    requires Reachable(sc.cfg, s) && Poised(sc, d, a, SecondStore(sc)) && Remedies(sc)
    requires Lone(s, At(sc.run, Finalizing(sc.times.openedAt, d, why, sc.times.firstCall), SecondStore(sc), sc.times.firstCall))
    ensures Reachable(sc.cfg, t) && t.clock == sc.times.firstCall
    ensures Undecided(sc.cfg, Current(t.history), a.actionId)
    ensures Current(t.history).approvals == map[] && Current(t.history).actionExecutions == map[]
  {
    var st, r := SecondStore(sc), s.runs[0];
    PoisedAccepts(sc, d, a, st);
    ReachableSound(sc.cfg, s);
    assert Kept(st);
    FinalCommits(sc.cfg, sc.run, sc.times.openedAt, d, why, sc.times.firstCall, st, s.clock, Quiet(false));
    t := AdvanceStands(sc.cfg, s, 0, r, st, s.clock, Quiet(false));
    FinalLeavesUndecided(sc.cfg, st, sc.run, sc.reviewer, d, a, s.clock, Current(t.history));
  }

  /** The run's action is approved and begun, its executor returns after more than the threshold,
      and a recovery pass has found the row in between: FAILED, then SUCCEEDED. */
  lemma SucceededAfterFailure(sc: Scene, p: nat, threshold: nat, reason: string, approvalId: Id, executionId: Id, sim: Simulation)
    returns (t: System, u: System, a: Id)
    requires Plays(sc, p) && ValidConfig(sc.cfg) && Remedies(sc) && NonEmptyText(reason).Some?
    requires sc.times.firstCall + 3_600_000_000 < MAX_INSTANT && sc.times.firstCall + threshold + 1 < MAX_INSTANT
    ensures Reachable(sc.cfg, t) && Reachable(sc.cfg, u) && exists i: nat :: u == Apply(sc.cfg, t, FinishesCall(i, false))
    ensures ActionStateOf(Current(t.history), a) == Some(Failed)
    ensures ActionStateOf(Current(u.history), a) == Some(Succeeded)
  {
    var s, d, why, proposal := ReachesPoised(sc, p);
    var done := Finishes(sc, s, d, why, proposal);
    a := proposal.actionId;
    var q := DecisionRequest(a, sc.reviewer, reason, Approve, done.clock, approvalId);
    t, u := SuccessAfterFailure(sc.cfg, done, q, executionId, sim, threshold);
  }
}
