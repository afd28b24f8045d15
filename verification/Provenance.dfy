/** Lockstep and provenance in every reachable state, for an arbitrary reasoner and arbitrary
    tools (application/orchestrator.py:114-220, 532-566; application/tool_gateway.py:193-249). */
module Provenance {
  import opened Base
  import opened Timestamps
  import opened Gateway
  import opened Store
  import opened Workflow
  import opened History
  import opened Orchestration
  import opened System
  import opened Moves
  import opened Idempotency
  import opened Lockstep

  ghost predicate RunsKept(cfg: Config, s: System)
  {
    && forall i | 0 <= i < |s.runs| :: RunAccounted(cfg, s.runs[i]) && RunPaced(cfg, Current(s.history), s.runs[i])
  }

  /** The result of `e` in this store is supported by the rows of a run that owns it. */
  ghost predicate ResultSupported(s: System, t: Store, e: Id)
  {
    e in t.results && exists i | i in s.started && i < |s.runs| ::
      s.runs[i].executionId == e && Supported(t, e, s.runs[i].alert.entities, t.results[e])
  }

  ghost predicate ResultsSupported(s: System)
  {
    forall e | e in Current(s.history).results :: ResultSupported(s, Current(s.history), e)
  }

  // ---- What other actors leave alone ---------------------------------------------------------------------

  ghost predicate NoNewRows(s: Store, t: Store, e: Id)
  {
    forall c | c in t.invocations && t.invocations[c].record.executionId == e :: c in s.invocations
  }

  lemma PersistedKept(s: Store, t: Store, e: Id, rs: Records)
    requires Persisted(s, e, rs) && Grows(s, t) && NoNewRows(s, t, e)
    ensures Persisted(t, e, rs)
  {
  }

  lemma PacedKept(cfg: Config, s: Store, t: Store, r: Run)
    requires RunPaced(cfg, s, r) && Grows(s, t)
    requires Driving(r.phase) ==> NoNewRows(s, t, r.executionId)
    ensures RunPaced(cfg, t, r)
  {
    match r.phase
    case Head(loop, _) => PersistedKept(s, t, r.executionId, loop.gateway.records);
    case Thinking(loop, _, _) => PersistedKept(s, t, r.executionId, loop.gateway.records);
    case Calling(loop, _, _) => PersistedKept(s, t, r.executionId, loop.gateway.records);
    case Persisting(loop, _, _, _, _) => PersistedKept(s, t, r.executionId, loop.gateway.records);
    case Finalizing(_, decision, _, _) =>
      SupportedKept(s, t, r.executionId, r.alert.entities, decision.result);
    case _ =>
  }

  /** The runs of the earlier system are runs of the later one. */
  ghost predicate RunsRemain(s: System, t: System)
  {
    && s.started <= t.started && |s.runs| <= |t.runs|
    && forall i | 0 <= i < |s.runs| :: t.runs[i].executionId == s.runs[i].executionId && t.runs[i].alert == s.runs[i].alert
  }

  lemma ResultSupportedKept(s: System, before: Store, t: System, after: Store, e: Id)
    requires e in before.results && ResultSupported(s, before, e)
    requires Grows(before, after) && RunsRemain(s, t)
    ensures e in after.results && after.results[e] == before.results[e] && ResultSupported(t, after, e)
  {
    var i :| i in s.started && i < |s.runs| && s.runs[i].executionId == e
      && Supported(before, e, s.runs[i].alert.entities, before.results[e]);
    SupportedKept(before, after, e, s.runs[i].alert.entities, before.results[e]);
  }

  // ---- Steps that are not a run's -----------------------------------------------------------------------------

  ghost predicate SameRows(s: Store, t: Store)
  {
    t.invocations == s.invocations && t.results == s.results
  }

  lemma OthersKeep(cfg: Config, s: System, t: System)
    requires RunsKept(cfg, s) && ResultsSupported(s)
    requires Grows(Current(s.history), Current(t.history)) && SameRows(Current(s.history), Current(t.history))
    requires t.runs == s.runs && t.started == s.started
    ensures RunsKept(cfg, t) && ResultsSupported(t)
  {
    var before, after := Current(s.history), Current(t.history);
    forall i | 0 <= i < |t.runs| ensures RunPaced(cfg, after, t.runs[i]) {
      PacedKept(cfg, before, after, s.runs[i]);
    }
    forall e | e in after.results ensures ResultSupported(t, after, e) {
      ResultSupportedKept(s, before, t, after, e);
    }
  }

  // ---- A run's own step -------------------------------------------------------------------------------------------

  lemma GoesStore(s: System, i: nat, ending: Ending, next: Phase, t: System)
    requires i < |s.runs| && RunGoes(s, i, ending, next, t)
    ensures StepStore(Current(s.history), s.runs[i], ending, s.clock, Current(t.history))
    ensures Grows(Current(s.history), Current(t.history))
  {
    GrowsReflexive(Current(s.history));
  }

  /** The rows a run's step adds are its own. */
  lemma StepRows(cfg: Config, s: Store, r: Run, ending: Ending, clock: Instant, t: Store, e: Id)
    requires StepStore(s, r, ending, clock, t) && RunPaced(cfg, s, r)
    requires r.phase.Persisting? ==> e != r.executionId
    ensures NoNewRows(s, t, e)
  {
  }

  /** A result a run's step adds is the one it has been finalizing, supported before the step. */
  lemma StepResults(cfg: Config, s: Store, r: Run, ending: Ending, clock: Instant, t: Store, e: Id)
    requires StepStore(s, r, ending, clock, t) && RunPaced(cfg, s, r)
    requires e in t.results && e !in s.results
    ensures e == r.executionId && r.phase.Finalizing? && t.results[e] == r.phase.decision.result
    ensures Supported(s, e, r.alert.entities, t.results[e])
  {
  }

  /** Another run keeps its pace through this run's step. */
  lemma OtherRunPaced(cfg: Config, s: System, i: nat, ending: Ending, next: Phase, t: System, j: nat)
    requires RunsKept(cfg, s) && Owned(s) && i < |s.runs| && j < |s.runs| && j != i
    requires RunGoes(s, i, ending, next, t)
    ensures RunPaced(cfg, Current(t.history), s.runs[j])
  {
    var before, after := Current(s.history), Current(t.history);
    GoesStore(s, i, ending, next, t);
    assert PhaseFits(s, j) && PhaseFits(s, i);
    if Driving(s.runs[j].phase) {
      StepRows(cfg, before, s.runs[i], ending, s.clock, after, s.runs[j].executionId);
    }
    PacedKept(cfg, before, after, s.runs[j]);
  }

  lemma OwnRunKept(cfg: Config, s: Store, snap: Store, r: Run, ending: Ending, clock: Instant, x: Input, next: Phase, t: Store)
    requires ValidConfig(cfg) && RunAccounted(cfg, r) && RunPaced(cfg, s, r) && ExecutionReferencesHold(s)
    requires StepStore(s, r, ending, clock, t) && next == Next(cfg, r, snap, ending, clock, x)
    ensures RunAccounted(cfg, r.(phase := next)) && RunPaced(cfg, t, r.(phase := next))
  {
    RunAccountedNext(cfg, r, snap, ending, clock, x);
    RunPacedNext(cfg, s, snap, r, ending, clock, x, t);
  }

  /** The run's own invariant after its step. */
  ghost predicate OwnKept(cfg: Config, s: System, i: nat, next: Phase, t: System)
  {
    i < |s.runs| && RunAccounted(cfg, s.runs[i].(phase := next)) && RunPaced(cfg, Current(t.history), s.runs[i].(phase := next))
  }

  ghost predicate MoverKept(cfg: Config, s: System, m: Move, t: System)
  {
    m.Goes? ==> OwnKept(cfg, s, m.going, m.next, t)
  }

  lemma GoesRunsKept(cfg: Config, s: System, i: nat, ending: Ending, next: Phase, t: System)
    requires RunsKept(cfg, s) && Owned(s) && i < |s.runs| && RunGoes(s, i, ending, next, t)
    requires OwnKept(cfg, s, i, next, t)
    ensures RunsKept(cfg, t)
  {
    forall j | 0 <= j < |t.runs| && j != i
      ensures RunAccounted(cfg, t.runs[j]) && RunPaced(cfg, Current(t.history), t.runs[j])
    {
      assert t.runs[j] == s.runs[j];
      OtherRunPaced(cfg, s, i, ending, next, t, j);
    }
  }

  lemma GoesRunsRemain(s: System, i: nat, ending: Ending, next: Phase, t: System)
    requires RunGoes(s, i, ending, next, t)
    ensures RunsRemain(s, t)
  {
  }

  lemma ResultsKeptOrAdded(s: System, t: System)
    requires ResultsSupported(s) && Grows(Current(s.history), Current(t.history)) && RunsRemain(s, t)
    requires forall e | e in Current(t.history).results && e !in Current(s.history).results :: ResultSupported(t, Current(t.history), e)
    ensures ResultsSupported(t)
  {
    forall e | e in Current(t.history).results ensures ResultSupported(t, Current(t.history), e) {
      if e in Current(s.history).results {
        ResultSupportedKept(s, Current(s.history), t, Current(t.history), e);
      }
    }
  }

  /** A result a run adds is supported by that run. */
  lemma AddedResultSupported(cfg: Config, s: System, i: nat, ending: Ending, next: Phase, t: System, e: Id)
    requires RunsKept(cfg, s) && Owned(s) && RunGoes(s, i, ending, next, t)
    requires e in Current(t.history).results && e !in Current(s.history).results
    ensures ResultSupported(t, Current(t.history), e)
  {
    var r, before, after := s.runs[i], Current(s.history), Current(t.history);
    GoesStore(s, i, ending, next, t);
    assert PhaseFits(s, i);
    StepResults(cfg, before, r, ending, s.clock, after, e);
    SupportedKept(before, after, e, r.alert.entities, after.results[e]);
    assert t.runs[i].executionId == e && i in t.started;
  }

  lemma GoesResultsSupported(cfg: Config, s: System, i: nat, ending: Ending, next: Phase, t: System)
    requires RunsKept(cfg, s) && ResultsSupported(s) && Owned(s) && RunGoes(s, i, ending, next, t)
    ensures ResultsSupported(t)
  {
    GoesStore(s, i, ending, next, t);
    GoesRunsRemain(s, i, ending, next, t);
    forall e | e in Current(t.history).results && e !in Current(s.history).results
      ensures ResultSupported(t, Current(t.history), e)
    {
      AddedResultSupported(cfg, s, i, ending, next, t, e);
    }
    ResultsKeptOrAdded(s, t);
  }

  // ---- Every reachable state -----------------------------------------------------------------------------------------

  /** The transactions of reviewers, executions and recovery add no rows and no results. */
  lemma TriedSameRows(s: System, x: Transaction, t: System)
    requires Tried(s.history, x, t.history) && !x.RecordTool? && !x.FinishRun?
    ensures SameRows(Current(s.history), Current(t.history))
  {
  }

  lemma OthersSameRows(s: System, m: Move, t: System)
    requires Makes(s, m, t) && !m.Goes?
    ensures SameRows(Current(s.history), Current(t.history))
  {
    match m
    case Shares(x, _) => TriedSameRows(s, x, t);
    case Tries(_, q) => TriedSameRows(s, BeginExecution(q), t);
    case Takes(_, q, _, _, _) => TriedSameRows(s, BeginExecution(q), t);
    case Finishes(i) => TriedSameRows(s, FinishExecution(s.calls[i].phase.record, s.calls[i].phase.simulation, s.clock), t);
    case _ =>
  }

  /** Every move but a run's keeps all runs and results. */
  lemma OtherMovesKeep(cfg: Config, s: System, m: Move, t: System)
    requires RunsKept(cfg, s) && ResultsSupported(s) && Makes(s, m, t) && !m.Goes?
    ensures RunsKept(cfg, t) && ResultsSupported(t)
  {
    if m.Enters? || m.Dies? {
      PhaseKeeps(cfg, s, t);
    } else {
      MovesGrow(s, m, t);
      OthersSameRows(s, m, t);
      OthersKeep(cfg, s, t);
    }
  }

  lemma GoesOwnKept(cfg: Config, s: System, m: Move, t: System)
    requires ValidConfig(cfg) && RunsKept(cfg, s) && ExecutionReferencesHold(Current(s.history))
    requires Makes(s, m, t) && GoesByNext(cfg, s, m)
    ensures MoverKept(cfg, s, m, t)
  {
    if m.Goes? {
      GoesStore(s, m.going, m.ending, m.next, t);
      OwnRunKept(cfg, Current(s.history), m.snap, s.runs[m.going], m.ending, s.clock, m.input, m.next, Current(t.history));
    }
  }

  lemma MovesKeep(cfg: Config, s: System, m: Move, t: System)
    requires ValidConfig(cfg) && Owned(s) && RunsKept(cfg, s) && ResultsSupported(s) && ExecutionReferencesHold(Current(s.history))
    requires Makes(s, m, t) && GoesByNext(cfg, s, m)
    ensures RunsKept(cfg, t) && ResultsSupported(t)
  {
    if m.Goes? {
      GoesOwnKept(cfg, s, m, t);
      GoesRunsKept(cfg, s, m.going, m.ending, m.next, t);
      GoesResultsSupported(cfg, s, m.going, m.ending, m.next, t);
    } else {
      OtherMovesKeep(cfg, s, m, t);
    }
  }

  /** A run enters, or its process dies. */
  lemma PhaseKeeps(cfg: Config, s: System, t: System)
    requires RunsKept(cfg, s) && ResultsSupported(s) && t == s.(runs := t.runs) && |s.runs| <= |t.runs|
    requires forall i | 0 <= i < |t.runs| ::
               || (i < |s.runs| && t.runs[i] == s.runs[i]) || t.runs[i].phase.Entered? || t.runs[i].phase.Ended?
    requires forall i | 0 <= i < |s.runs| ::
               t.runs[i].executionId == s.runs[i].executionId && t.runs[i].alert == s.runs[i].alert
    ensures RunsKept(cfg, t) && ResultsSupported(t)
  {
    var now := Current(s.history);
    GrowsReflexive(now);
    forall e | e in now.results ensures ResultSupported(t, now, e) {
      ResultSupportedKept(s, now, t, now, e);
    }
  }

  lemma {:induction false} EveryStateKept(cfg: Config, steps: seq<Step>)
    requires ValidConfig(cfg)
    ensures RunsKept(cfg, RunSteps(cfg, steps)) && ResultsSupported(RunSteps(cfg, steps))
  {
    if steps != [] {
      var init, step := steps[..|steps| - 1], steps[|steps| - 1];
      EveryStateKept(cfg, init);
      StepKeeps(cfg, RunSteps(cfg, init), step);
    }
  }

  lemma StepKeeps(cfg: Config, s: System, step: Step)
    requires ValidConfig(cfg) && Reachable(cfg, s) && RunsKept(cfg, s) && ResultsSupported(s)
    ensures RunsKept(cfg, Apply(cfg, s, step)) && ResultsSupported(Apply(cfg, s, step))
  {
    ReachableSound(cfg, s);
    ReachableOwned(cfg, s);
    assert Kept(Current(s.history));
    var m := StepMoves(cfg, s, step);
    MovesKeep(cfg, s, m, Apply(cfg, s, step));
  }

  lemma ReachableKept(cfg: Config, s: System)
    requires ValidConfig(cfg) && Reachable(cfg, s)
    ensures RunsKept(cfg, s) && ResultsSupported(s)
  {
    var steps: seq<Step> :| s == RunSteps(cfg, steps);
    EveryStateKept(cfg, steps);
  }

  // ---- The guarantees -----------------------------------------------------------------------------------------------------

  /** For an arbitrary reasoner: every evidence item and tool call of a committed result names
      a row of the same execution that was allowed, succeeded, and was about an entity of the
      alert the run was given. */
  lemma ResultsRestOnRows(cfg: Config, s: System, e: Id)
    requires ValidConfig(cfg) && Reachable(cfg, s) && e in Current(s.history).results
    ensures ResultSupported(s, Current(s.history), e)
  {
    ReachableKept(cfg, s);
  }

  /** A move that adds a result is a run's, and the rows the result rests on were there
      before it. */
  lemma MovesResults(cfg: Config, s: System, m: Move, t: System, e: Id)
    requires RunsKept(cfg, s) && Makes(s, m, t) && e in Current(t.history).results && e !in Current(s.history).results
    ensures RestsOnRun(s, m, Current(t.history), e)
  {
    if m.Goes? {
      GoesStore(s, m.going, m.ending, m.next, t);
      StepResults(cfg, Current(s.history), s.runs[m.going], m.ending, s.clock, Current(t.history), e);
    } else {
      OthersSameRows(s, m, t);
    }
  }

  /** The move is a run's, and the rows the result rests on belong to its execution and are
      already stored. */
  ghost predicate RestsOnRun(s: System, m: Move, after: Store, e: Id)
  {
    && m.Goes? && m.going < |s.runs| && s.runs[m.going].executionId == e && e in after.results
    && Supported(Current(s.history), e, s.runs[m.going].alert.entities, after.results[e])
  }

  /** The step is that of the run that owns the result, and the rows the result rests on were
      there before it. */
  ghost predicate RestsOnEarlierRows(s: System, step: Step, after: Store, e: Id)
  {
    && step.Advance? && step.run < |s.runs| && s.runs[step.run].executionId == e && e in after.results
    && Supported(Current(s.history), e, s.runs[step.run].alert.entities, after.results[e])
  }

  /** And they were committed earlier: when a step adds a result, it is the step of the run that
      owns it, and the rows it rests on were there before the step. */
  lemma RowsComeFirst(cfg: Config, s: System, step: Step, e: Id)
    requires ValidConfig(cfg) && Reachable(cfg, s) && e !in Current(s.history).results
    ensures var after := Current(Apply(cfg, s, step).history);
      e in after.results ==> RestsOnEarlierRows(s, step, after, e)
  {
    ReachableSound(cfg, s);
    ReachableKept(cfg, s);
    var t := Apply(cfg, s, step);
    var m := StepMoves(cfg, s, step);
    if e in Current(t.history).results {
      MovesResults(cfg, s, m, t, e);
    }
  }

  lemma {:induction false} AllAllowedCounted(rs: Records)
    requires AllSucceeded(rs)
    ensures CountAllowed(rs) == |rs|
  {
    if rs != [] {
      AllAllowedCounted(rs[..|rs| - 1]);
    }
  }

  function RowsOf(s: Store, e: Id): set<Id>
  {
    set c | c in s.invocations && s.invocations[c].record.executionId == e
  }

  function RecordIds(rs: Records): (r: seq<Id>)
    ensures |r| == |rs| && forall k | 0 <= k < |r| :: r[k] == rs[k].callId
  {
    seq(|rs|, k requires 0 <= k < |rs| => rs[k].callId)
  }

  lemma PersistedCount(s: Store, e: Id, rs: Records)
    requires Persisted(s, e, rs) && forall k | 0 <= k < |rs| :: rs[k].executionId == e
    requires forall c | c in s.invocations :: s.invocations[c].record.callId == c
    ensures |RowsOf(s, e)| == |rs|
  {
    var ids := RecordIds(rs);
    SizesAgreeMeansDistinct(ids);
    forall c ensures c in RowsOf(s, e) <==> c in ids {
      if c in RowsOf(s, e) {
        var k :| 0 <= k < |rs| && rs[k] == s.invocations[c].record;
        assert ids[k] == c;
      }
      if c in ids {
        var k :| 0 <= k < |ids| && ids[k] == c;
        assert s.invocations[rs[k].callId].record == rs[k];
      }
    }
    assert RowsOf(s, e) == set c | c in ids;
  }

  /** Iteration i has i - 1 items of evidence, calls used, records and stored rows behind it, all
      of them successes, and they are within the item limit, the call budget and the iteration
      limit. */
  ghost predicate InLockstep(cfg: Config, s: Store, e: Id, loop: Loop)
  {
    var n := loop.iteration - 1;
    && |loop.accumulated| == loop.gateway.total == |loop.gateway.records| == |RowsOf(s, e)| == n
    && AllSucceeded(loop.gateway.records)
    && n <= cfg.limits.maxEvidenceItems && n <= cfg.gatewayLimits.totalCalls && n < cfg.limits.maxIterations
  }

  lemma HeadInLockstep(cfg: Config, s: Store, r: Run)
    requires r.phase.Head? && RunAccounted(cfg, r) && RunPaced(cfg, s, r) && ExecutionReferencesHold(s)
    ensures InLockstep(cfg, s, r.executionId, r.phase.loop)
  {
    AllAllowedCounted(r.phase.loop.gateway.records);
    PersistedCount(s, r.executionId, r.phase.loop.gateway.records);
  }

  ghost predicate HeadsInLockstep(cfg: Config, s: Store, r: Run)
  {
    r.phase.Head? ==> InLockstep(cfg, s, r.executionId, r.phase.loop)
  }

  /** So it is at every head of every run. */
  lemma LoopInLockstep(cfg: Config, s: System, r: Run)
    requires ValidConfig(cfg) && Reachable(cfg, s) && r in s.runs
    ensures HeadsInLockstep(cfg, Current(s.history), r)
  {
    ReachableConsistent(cfg, s);
    ReachableKept(cfg, s);
    if r.phase.Head? {
      HeadInLockstep(cfg, Current(s.history), r);
    }
  }

  // ---- Calls that do not succeed ----------------------------------------------------------------------------------------------

  predicate FailedRow(s: Store, c: Id, e: Id)
  {
    c in s.invocations && s.invocations[c].record.executionId == e && !s.invocations[c].record.outcome.Success?
  }

  /** While a run is about to store a row, the rows it has are successes. */
  lemma PersistingHasNoFailure(cfg: Config, s: Store, r: Run, c: Id)
    requires RunPaced(cfg, s, r) && r.phase.Persisting?
    ensures !FailedRow(s, c, r.executionId)
  {
    if c in s.invocations && s.invocations[c].record.executionId == r.executionId {
      var rs := r.phase.loop.gateway.records;
      var k :| 0 <= k < |rs| && rs[k] == s.invocations[c].record;
    }
  }

  /** Only a run's own step stores rows. */
  lemma OtherStepsAddNoRows(cfg: Config, s: System, step: Step)
    requires Sound(s.history) && !step.Advance?
    ensures Current(Apply(cfg, s, step).history).invocations == Current(s.history).invocations
  {
    var m := StepMoves(cfg, s, step);
    OthersSameRows(s, m, Apply(cfg, s, step));
  }

  lemma MovesAfterFailure(cfg: Config, s: System, m: Move, t: System, e: Id, c: Id)
    requires RunsKept(cfg, s) && Makes(s, m, t) && FailedRow(Current(s.history), c, e)
    ensures NoNewRows(Current(s.history), Current(t.history), e)
  {
    if m.Goes? {
      var r := s.runs[m.going];
      GoesStore(s, m.going, m.ending, m.next, t);
      if r.phase.Persisting? {
        PersistingHasNoFailure(cfg, Current(s.history), r, c);
      }
      StepRows(cfg, Current(s.history), r, m.ending, s.clock, Current(t.history), e);
    } else {
      OthersSameRows(s, m, t);
    }
  }

  /** A call that did not succeed is the last of its execution: no later step of anyone
      stores another row for it. */
  lemma FailedCallIsLast(cfg: Config, s: System, step: Step, e: Id, c: Id)
    requires ValidConfig(cfg) && Reachable(cfg, s) && FailedRow(Current(s.history), c, e)
    ensures NoNewRows(Current(s.history), Current(Apply(cfg, s, step).history), e)
  {
    ReachableSound(cfg, s);
    ReachableKept(cfg, s);
    var m := StepMoves(cfg, s, step);
    MovesAfterFailure(cfg, s, m, Apply(cfg, s, step), e, c);
  }
}
