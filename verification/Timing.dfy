/** Time: how long a run can drive, what recovery may then select, and why FAILED is final
    (application/orchestrator.py:115-157, application/tool_gateway.py:212-220,
    application/recovery_service.py:52-56). All times are in microseconds. */
module Timing {
  import opened Base
  import opened Timestamps
  import opened Actions
  import opened Gateway
  import opened Store
  import opened Queries
  import opened Workflow
  import opened History
  import opened Lockstep
  import opened Orchestration
  import opened System
  import opened Moves
  import opened Provenance

  // ---- Waits -----------------------------------------------------------------------------------------------

  function DeadlineUs(cfg: Config): nat
  {
    1000 * cfg.limits.deadlineMs
  }

  function CapUs(cfg: Config): nat
  {
    1000 * cfg.gatewayLimits.timeoutCapMs
  }

  /** How long the gateway waits for a tool; registered timeouts are positive. */
  function ToolWaitUs(cfg: Config, request: ProposedToolRequest): (r: nat)
    ensures r <= CapUs(cfg)
  {
    if request.toolName in cfg.registry
      && 0 < cfg.registry[request.toolName].timeoutMs < cfg.gatewayLimits.timeoutCapMs
    then 1000 * cfg.registry[request.toolName].timeoutMs
    else CapUs(cfg)
  }

  /** What reading a clock in whole milliseconds can lose. */
  const FLOOR_LOSS := 999

  /** A run drives for at most the deadline, one tool wait and three transactions. */
  function RunBound(cfg: Config, p: nat): nat
  {
    DeadlineUs(cfg) + CapUs(cfg) + 3 * p + FLOOR_LOSS
  }

  /** The phase's wait is not over its limit: `p` for a transaction, the remaining deadline
      for the reasoner, the timeout for a tool, nothing for computation. */
  predicate OnTime(cfg: Config, p: nat, phase: Phase, clock: Instant)
  {
    match phase
    case Starting(now) => clock <= now + p
    case Head(_, since) => clock <= since
    case Thinking(_, elapsedMs, since) => clock <= since + 1000 * (cfg.limits.deadlineMs - elapsedMs)
    case Calling(_, request, since) => clock <= since + ToolWaitUs(cfg, request)
    case Persisting(_, _, _, _, since) => clock <= since + p
    case Finalizing(_, _, _, since) => clock <= since + p
    case Recording(_, _, since) => clock <= since + p
    case _ => true
  }

  /** When the failure a run records can have happened, after it opened: its start, a tool
      record, or its final commit. */
  function FailureBound(cfg: Config, p: nat, category: FailureCategory): nat
  {
    match category
    case FinalizationFailed => RunBound(cfg, p)
    case ToolPersistenceFailed => DeadlineUs(cfg) + FLOOR_LOSS + CapUs(cfg) + 2 * p
    case _ => p
  }

  /** Since when the run is open, in the phases where it is. */
  predicate Opens(loop: Loop, p: nat)
  {
    loop.openedAt <= loop.startedAt <= loop.openedAt + p
  }

  /** Where each phase stands against the time the run opened. */
  predicate Placed(cfg: Config, p: nat, phase: Phase, clock: Instant)
  {
    var d, c := DeadlineUs(cfg) + FLOOR_LOSS, CapUs(cfg);
    match phase
    case Starting(now) => now <= clock
    case Head(loop, since) => Opens(loop, p) && loop.startedAt <= since <= clock && since <= loop.startedAt + d + c + p
    case Thinking(loop, elapsedMs, since) =>
      && Opens(loop, p) && loop.startedAt <= since <= clock
      && elapsedMs < cfg.limits.deadlineMs && since - loop.startedAt <= 1000 * elapsedMs + FLOOR_LOSS
    case Calling(loop, _, since) => Opens(loop, p) && loop.startedAt <= since <= clock && since <= loop.startedAt + d
    case Persisting(loop, _, _, _, since) =>
      Opens(loop, p) && loop.startedAt <= since <= clock && since <= loop.startedAt + d + c
    case Finalizing(openedAt, _, _, since) => since <= clock && since <= openedAt + d + c + 2 * p
    case Recording(openedAt, category, since) => since <= clock && since <= openedAt + FailureBound(cfg, p, category)
    case _ => true
  }

  lemma MonotonicLoss(a: Instant, b: Instant)
    requires a <= b
    ensures 0 <= MonotonicMs(b) - MonotonicMs(a)
    ensures b - a <= 1000 * (MonotonicMs(b) - MonotonicMs(a)) + FLOOR_LOSS
  {
  }

  lemma HeadPlaced(cfg: Config, p: nat, r: Run, contextBytes: nat, clock: Instant)
    requires r.phase.Head? && Placed(cfg, p, r.phase, clock) && OnTime(cfg, p, r.phase, clock)
    ensures var next := AfterHead(cfg, r.alert, r.phase.loop, contextBytes, clock);
      Placed(cfg, p, next, clock) && OnTime(cfg, p, next, clock)
  {
    MonotonicLoss(r.phase.loop.startedAt, clock);
  }

  lemma ThinkingPlaced(cfg: Config, p: nat, r: Run, x: Input, clock: Instant)
    requires r.phase.Thinking? && Placed(cfg, p, r.phase, clock) && OnTime(cfg, p, r.phase, clock)
    ensures var next := AfterThinking(cfg, r.alert, r.phase.loop, x.reasoner, x.newId, x.actionIds, clock);
      Placed(cfg, p, next, clock) && OnTime(cfg, p, next, clock)
  {
  }

  lemma CallingPlaced(cfg: Config, p: nat, r: Run, x: Input, clock: Instant)
    requires r.phase.Calling? && Placed(cfg, p, r.phase, clock) && OnTime(cfg, p, r.phase, clock)
    ensures var next := AfterCall(cfg, r.phase.loop, r.phase.request, r.phase.since, x.tool, clock);
      Placed(cfg, p, next, clock) && OnTime(cfg, p, next, clock)
  {
  }

  lemma PersistingPlaced(cfg: Config, p: nat, r: Run, x: Input, clock: Instant)
    requires r.phase.Persisting? && Placed(cfg, p, r.phase, clock) && OnTime(cfg, p, r.phase, clock)
    ensures var q := r.phase;
      var next := AfterTool(cfg, r.alert, q.loop, q.gateway, q.record, q.result, x.newId, clock);
      Placed(cfg, p, next, clock) && OnTime(cfg, p, next, clock)
  {
  }

  /** A step taken on time leads to a phase in its place, just begun. */
  lemma NextPlaced(cfg: Config, p: nat, r: Run, snap: Store, ending: Ending, clock: Instant, x: Input)
    requires Placed(cfg, p, r.phase, clock) && OnTime(cfg, p, r.phase, clock)
    ensures var next := Next(cfg, r, snap, ending, clock, x);
      Placed(cfg, p, next, clock) && OnTime(cfg, p, next, clock)
  {
    if r.phase.Head? {
      HeadPlaced(cfg, p, r, x.contextBytes, clock);
    } else if r.phase.Thinking? {
      ThinkingPlaced(cfg, p, r, x, clock);
    } else if r.phase.Calling? {
      CallingPlaced(cfg, p, r, x, clock);
    } else if r.phase.Persisting? {
      PersistingPlaced(cfg, p, r, x, clock);
    }
  }

  // ---- Punctual systems --------------------------------------------------------------------------------------

  /** The premises on one step: time passes only while every wait is within its limit, a
      recovery pass reads a clock that is not ahead and uses a threshold of at least the run
      bound, and execution identifiers are fresh. */
  ghost predicate Punctual(cfg: Config, p: nat, s: System, step: Step, t: System)
  {
    && (step.Tick? ==> forall i | 0 <= i < |t.runs| :: OnTime(cfg, p, t.runs[i].phase, t.clock))
    && (step.Recover? && step.transaction.RecoverRuns? ==>
          step.transaction.now <= s.clock && step.transaction.threshold >= RunBound(cfg, p))
    && (step.Arrive? ==> forall i | 0 <= i < |s.runs| :: s.runs[i].executionId != step.executionId)
  }

  ghost predicate AllPunctual(cfg: Config, p: nat, steps: seq<Step>)
  {
    steps != [] ==>
      var init := steps[..|steps| - 1];
      AllPunctual(cfg, p, init) && Punctual(cfg, p, RunSteps(cfg, init), steps[|steps| - 1], RunSteps(cfg, steps))
  }

  ghost predicate PunctuallyReachable(cfg: Config, p: nat, s: System)
  {
    exists steps: seq<Step> :: AllPunctual(cfg, p, steps) && s == RunSteps(cfg, steps)
  }

  ghost predicate Scheduled(cfg: Config, p: nat, s: System)
  {
    forall i | 0 <= i < |s.runs| :: Placed(cfg, p, s.runs[i].phase, s.clock) && OnTime(cfg, p, s.runs[i].phase, s.clock)
  }

  lemma PlacedLater(cfg: Config, p: nat, phase: Phase, a: Instant, b: Instant)
    requires Placed(cfg, p, phase, a) && a <= b
    ensures Placed(cfg, p, phase, b)
  {
  }

  /** What a punctual step says of its move. */
  ghost predicate PunctualMove(cfg: Config, p: nat, s: System, m: Move, t: System)
  {
    match m
    case Passes => t == s || forall i | 0 <= i < |t.runs| :: OnTime(cfg, p, t.runs[i].phase, t.clock)
    case Enters(r) => forall i | 0 <= i < |s.runs| :: s.runs[i].executionId != r.executionId
    case Shares(x, snap) =>
      x.RecoverRuns? ==>
        && x.now <= s.clock && x.threshold >= RunBound(cfg, p)
        && (t.history != s.history ==> SelectedFrom(s.history, snap, x))
    case _ => true
  }

  lemma PunctualMoves(cfg: Config, p: nat, s: System, step: Step, m: Move, t: System)
    requires Punctual(cfg, p, s, step, t) && Explains(cfg, s, step, m, t)
    ensures PunctualMove(cfg, p, s, m, t) && GoesByNext(cfg, s, m)
  {
  }

  lemma MovesScheduled(cfg: Config, p: nat, s: System, m: Move, t: System)
    requires Scheduled(cfg, p, s) && Makes(s, m, t) && PunctualMove(cfg, p, s, m, t) && GoesByNext(cfg, s, m)
    ensures Scheduled(cfg, p, t)
  {
    if m.Goes? {
      NextPlaced(cfg, p, s.runs[m.going], m.snap, m.ending, s.clock, m.input);
    } else if m.Passes? {
      forall i | 0 <= i < |t.runs| ensures Placed(cfg, p, t.runs[i].phase, t.clock) {
        PlacedLater(cfg, p, s.runs[i].phase, s.clock, t.clock);
      }
    }
  }

  // ---- Stored times ----------------------------------------------------------------------------------------------

  ghost predicate AllFresh(h: Commits)
  {
    forall i | 0 <= i < |h| :: RunningRowsFresh(h[i])
  }

  lemma MovesFresh(s: System, m: Move, t: System)
    requires AllFresh(s.history) && Makes(s, m, t)
    ensures AllFresh(t.history)
  {
    assert RunningRowsFresh(Current(s.history));
    MovesAttempt(s, m, t);
  }

  function OpenedAt(p: Phase): Instant
    requires Driving(p)
  {
    match p
    case Head(loop, _) => loop.openedAt
    case Thinking(loop, _, _) => loop.openedAt
    case Calling(loop, _, _) => loop.openedAt
    case Persisting(loop, _, _, _, _) => loop.openedAt
    case Finalizing(openedAt, _, _, _) => openedAt
  }

  /** The row of a driving run was created when the run opened. */
  ghost predicate RowOpened(s: Store, r: Run)
  {
    Driving(r.phase) ==>
      r.executionId in s.executions && s.executions[r.executionId].createdAt == OpenedAt(r.phase)
  }

  ghost predicate UniqueIds(s: System)
  {
    forall i, j | 0 <= i < j < |s.runs| :: s.runs[i].executionId != s.runs[j].executionId
  }

  /** No row is FAILED while its run drives. */
  ghost predicate NotFailed(s: Store, r: Run)
  {
    Driving(r.phase) ==> r.executionId in s.executions && s.executions[r.executionId].state != TriageFailed
  }

  ghost predicate Guarded(s: System)
  {
    && UniqueIds(s)
    && forall i | 0 <= i < |s.runs| :: RowOpened(Current(s.history), s.runs[i]) && NotFailed(Current(s.history), s.runs[i])
  }

  /** While it drives, a run is within its bound of the time it opened. */
  lemma DrivingWithinBound(cfg: Config, p: nat, phase: Phase, clock: Instant)
    requires Placed(cfg, p, phase, clock) && OnTime(cfg, p, phase, clock) && Driving(phase)
    ensures clock <= OpenedAt(phase) + RunBound(cfg, p)
  {
  }

  /** A pass with a threshold of at least the bound does not select a driving run's row. */
  lemma DrivingNotSelected(cfg: Config, p: nat, s: Store, snap: Store, r: Run, clock: Instant, x: Transaction)
    requires Placed(cfg, p, r.phase, clock) && OnTime(cfg, p, r.phase, clock) && Driving(r.phase)
    requires RowOpened(s, r) && Grows(snap, s) && RunningRowsFresh(snap)
    requires x.RecoverRuns? && x.threshold <= x.now && x.now <= clock && x.threshold >= RunBound(cfg, p)
    requires StaleRuns(snap, x.now - x.threshold, x.answer)
    ensures r.executionId !in x.answer
  {
    DrivingNotOverdue(cfg, p, s, snap, r, clock, x.now, x.threshold);
    RunsSelected(snap, x.now - x.threshold, x.answer);
  }

  lemma NotOverdue(s: Store, snap: Store, e: Id, openedAt: Instant, cutoff: int)
    requires e in s.executions && s.executions[e].createdAt == openedAt
    requires Grows(snap, s) && RunningRowsFresh(snap) && cutoff <= openedAt
    ensures e !in OverdueRuns(snap, cutoff)
  {
  }

  // ---- Every punctual step keeps driving runs out of FAILED ------------------------------------------------------

  /** A step of a run leaves the other execution rows alone. */
  lemma StepLeavesRows(s: Store, r: Run, ending: Ending, clock: Instant, t: Store, e: Id)
    requires StepStore(s, r, ending, clock, t) && e in s.executions && e != r.executionId
    ensures e in t.executions && t.executions[e] == s.executions[e]
  {
  }

  /** Where a run drives next, its row is as it was, or it has just been created. */
  lemma OwnRowNext(s: Store, r: Run, ending: Ending, clock: Instant, t: Store, next: Phase)
    requires StepStore(s, r, ending, clock, t) && Driving(next)
    requires Follows(r.phase, ending, next) && RowOpened(s, r) && NotFailed(s, r)
    requires Driving(r.phase) ==> !r.phase.Finalizing? && OpenedAt(next) == OpenedAt(r.phase)
    requires r.phase.Starting? ==> OpenedAt(next) == r.phase.now
    ensures RowOpened(t, r.(phase := next)) && NotFailed(t, r.(phase := next))
  {
    match r.phase
    case Starting(now) =>
    case Persisting(_, _, _, _, _) =>
    case _ =>
  }

  ghost predicate KeepsOpenedAt(p: Phase, next: Phase)
  {
    Driving(next) && (Driving(p) || p.Starting?) ==>
      !p.Finalizing? && OpenedAt(next) == if p.Starting? then p.now else OpenedAt(p)
  }

  lemma OpenedAtKept(cfg: Config, r: Run, snap: Store, ending: Ending, clock: Instant, x: Input)
    requires !r.phase.Thinking? && !r.phase.Persisting?
    ensures KeepsOpenedAt(r.phase, Next(cfg, r, snap, ending, clock, x))
  {
  }

  lemma ToolOpenedAtKept(cfg: Config, r: Run, snap: Store, ending: Ending, clock: Instant, x: Input)
    requires r.phase.Persisting?
    ensures KeepsOpenedAt(r.phase, Next(cfg, r, snap, ending, clock, x))
  {
  }

  lemma ThinkingOpenedAtKept(cfg: Config, r: Run, snap: Store, ending: Ending, clock: Instant, x: Input)
    requires r.phase.Thinking?
    ensures KeepsOpenedAt(r.phase, Next(cfg, r, snap, ending, clock, x))
  {
  }

  lemma NextKeepsOpenedAt(cfg: Config, r: Run, snap: Store, ending: Ending, clock: Instant, x: Input)
    ensures KeepsOpenedAt(r.phase, Next(cfg, r, snap, ending, clock, x))
  {
    if r.phase.Thinking? {
      ThinkingOpenedAtKept(cfg, r, snap, ending, clock, x);
    } else if r.phase.Persisting? {
      ToolOpenedAtKept(cfg, r, snap, ending, clock, x);
    } else {
      OpenedAtKept(cfg, r, snap, ending, clock, x);
    }
  }

  lemma OwnRowGuarded(s: Store, r: Run, ending: Ending, clock: Instant, t: Store, next: Phase)
    requires StepStore(s, r, ending, clock, t) && RowOpened(s, r) && NotFailed(s, r)
    requires Follows(r.phase, ending, next) && KeepsOpenedAt(r.phase, next)
    ensures RowOpened(t, r.(phase := next)) && NotFailed(t, r.(phase := next))
  {
    if Driving(next) {
      OwnRowNext(s, r, ending, clock, t, next);
    }
  }

  lemma GoesGuarded(s: System, i: nat, ending: Ending, next: Phase, t: System)
    requires Guarded(s) && i < |s.runs| && RunGoes(s, i, ending, next, t) && KeepsOpenedAt(s.runs[i].phase, next)
    ensures Guarded(t)
  {
    var r, before, after := s.runs[i], Current(s.history), Current(t.history);
    GoesStore(s, i, ending, next, t);
    OwnRowGuarded(before, r, ending, s.clock, after, next);
    forall j | 0 <= j < |t.runs| && j != i ensures RowOpened(after, t.runs[j]) && NotFailed(after, t.runs[j]) {
      assert RowOpened(before, s.runs[j]) && NotFailed(before, s.runs[j]);
      if Driving(s.runs[j].phase) {
        StepLeavesRows(before, r, ending, s.clock, after, s.runs[j].executionId);
      }
    }
  }

  lemma SameRowsGuarded(s: System, t: System)
    requires Guarded(s) && t.runs == s.runs
    requires forall i | 0 <= i < |s.runs| && Driving(s.runs[i].phase) ::
               var e := s.runs[i].executionId;
               e in Current(s.history).executions ==>
                 e in Current(t.history).executions && Current(t.history).executions[e] == Current(s.history).executions[e]
    ensures Guarded(t)
  {
    forall i | 0 <= i < |t.runs| ensures RowOpened(Current(t.history), t.runs[i]) && NotFailed(Current(t.history), t.runs[i]) {
      assert RowOpened(Current(s.history), s.runs[i]) && NotFailed(Current(s.history), s.runs[i]);
    }
  }

  /** The rows of driving runs stay through a pass of punctual recovery. */
  lemma RecoverGuarded(cfg: Config, p: nat, s: System, x: Transaction, snap: Store, t: System)
    requires Guarded(s) && Scheduled(cfg, p, s) && Sound(s.history) && AllFresh(s.history) && t.runs == s.runs
    requires x.RecoverRuns? && x.now <= s.clock && x.threshold >= RunBound(cfg, p)
    requires Added(s.history, x, t.history) && SelectedFrom(s.history, snap, x)
    ensures Guarded(t)
  {
    var before := Current(s.history);
    var k :| 0 <= k < |s.history| && s.history[k] == snap;
    GrowsBetween(s.history, k, |s.history| - 1);
    forall i | 0 <= i < |s.runs| && Driving(s.runs[i].phase) ensures !Names(x, s.runs[i].executionId) {
      assert RowOpened(before, s.runs[i]) && RunningRowsFresh(snap);
      DrivingNotSelected(cfg, p, before, snap, s.runs[i], s.clock, x);
    }
    SameRowsGuarded(s, t);
  }

  /** The transactions of reviewers and executions name no execution row. */
  lemma TriedGuarded(s: System, x: Transaction, t: System)
    requires Guarded(s) && t.runs == s.runs && Tried(s.history, x, t.history)
    requires forall i | 0 <= i < |s.runs| :: !Names(x, s.runs[i].executionId)
    ensures Guarded(t)
  {
    SameRowsGuarded(s, t);
  }

  lemma ShareGuarded(cfg: Config, p: nat, s: System, m: Move, t: System)
    requires Guarded(s) && Scheduled(cfg, p, s) && Sound(s.history) && AllFresh(s.history)
    requires Makes(s, m, t) && m.Shares? && PunctualMove(cfg, p, s, m, t)
    ensures Guarded(t)
  {
    if m.transaction.RecoverRuns? && t.history != s.history {
      RecoverGuarded(cfg, p, s, m.transaction, m.snap, t);
    } else if m.transaction.RecoverRuns? {
      SameRowsGuarded(s, t);
    } else {
      TriedGuarded(s, m.transaction, t);
    }
  }

  lemma EntersGuarded(s: System, r: Run, t: System)
    requires Guarded(s) && r.phase.Entered? && t == s.(runs := s.runs + [r])
    requires forall i | 0 <= i < |s.runs| :: s.runs[i].executionId != r.executionId
    ensures Guarded(t)
  {
    var now := Current(s.history);
    forall i | 0 <= i < |t.runs| ensures RowOpened(now, t.runs[i]) && NotFailed(now, t.runs[i]) {
      if i < |s.runs| {
        assert RowOpened(now, s.runs[i]) && NotFailed(now, s.runs[i]);
      }
    }
  }

  lemma DiesGuarded(s: System, i: nat, t: System)
    requires Guarded(s) && i < |s.runs| && t == s.(runs := s.runs[i := s.runs[i].(phase := Ended(None))])
    ensures Guarded(t)
  {
    var now := Current(s.history);
    forall j | 0 <= j < |t.runs| ensures RowOpened(now, t.runs[j]) && NotFailed(now, t.runs[j]) {
      assert RowOpened(now, s.runs[j]) && NotFailed(now, s.runs[j]);
    }
  }

  lemma CallGuarded(s: System, m: Move, t: System)
    requires Guarded(s) && Makes(s, m, t) && (m.Tries? || m.Takes? || m.Finishes?)
    ensures Guarded(t)
  {
    TriedGuarded(s, Attempts(s, m).value, t);
  }

  lemma MovesGuarded(cfg: Config, p: nat, s: System, m: Move, t: System)
    requires Guarded(s) && Scheduled(cfg, p, s) && Sound(s.history) && AllFresh(s.history)
    requires Makes(s, m, t) && PunctualMove(cfg, p, s, m, t)
    requires m.Goes? ==> KeepsOpenedAt(s.runs[m.going].phase, m.next)
    ensures Guarded(t)
  {
    match m
    case Goes(i, _, _, ending, next) => GoesGuarded(s, i, ending, next, t);
    case Enters(r) => EntersGuarded(s, r, t);
    case Dies(i) => DiesGuarded(s, i, t);
    case Shares(_, _) => ShareGuarded(cfg, p, s, m, t);
    case Tries(_, _) => CallGuarded(s, m, t);
    case Takes(_, _, _, _, _) => CallGuarded(s, m, t);
    case Finishes(_) => CallGuarded(s, m, t);
    case _ => SameRowsGuarded(s, t);
  }

  /** What a punctual system keeps. */
  ghost predicate Timely(cfg: Config, p: nat, s: System)
  {
    Scheduled(cfg, p, s) && Guarded(s) && AllFresh(s.history)
  }

  lemma MovesTimely(cfg: Config, p: nat, s: System, m: Move, t: System)
    requires Timely(cfg, p, s) && Sound(s.history)
    requires Makes(s, m, t) && PunctualMove(cfg, p, s, m, t) && GoesByNext(cfg, s, m)
    ensures Timely(cfg, p, t)
  {
    if m.Goes? {
      NextKeepsOpenedAt(cfg, s.runs[m.going], m.snap, m.ending, s.clock, m.input);
    }
    MovesScheduled(cfg, p, s, m, t);
    MovesFresh(s, m, t);
    MovesGuarded(cfg, p, s, m, t);
  }

  lemma {:induction false} EveryStateTimely(cfg: Config, p: nat, steps: seq<Step>)
    requires AllPunctual(cfg, p, steps)
    ensures Timely(cfg, p, RunSteps(cfg, steps)) && Sound(RunSteps(cfg, steps).history)
  {
    SystemRecorded(cfg, steps);
    if steps != [] {
      var init, step := steps[..|steps| - 1], steps[|steps| - 1];
      EveryStateTimely(cfg, p, init);
      var t := RunSteps(cfg, steps);
      var m := StepMoves(cfg, RunSteps(cfg, init), step);
      PunctualMoves(cfg, p, RunSteps(cfg, init), step, m, t);
      MovesTimely(cfg, p, RunSteps(cfg, init), m, t);
    }
  }

  lemma PunctualState(cfg: Config, p: nat, s: System)
    requires PunctuallyReachable(cfg, p, s)
    ensures Timely(cfg, p, s) && Sound(s.history)
  {
    var steps: seq<Step> :| AllPunctual(cfg, p, steps) && s == RunSteps(cfg, steps);
    EveryStateTimely(cfg, p, steps);
  }

  // ---- The guarantees -------------------------------------------------------------------------------------------------

  /** The run is within its bound: a driving run by the time stored for it, on a row that keeps
      that time while it is RUNNING; a recording one by the time it opened. */
  ghost predicate InTime(cfg: Config, p: nat, s: Store, clock: Instant, r: Run)
  {
    && (Driving(r.phase) ==>
          r.executionId in s.executions && clock <= s.executions[r.executionId].createdAt + RunBound(cfg, p)
          && (s.executions[r.executionId].state == Running ==>
                s.executions[r.executionId].updatedAt == s.executions[r.executionId].createdAt))
    && (r.phase.Recording? ==> clock <= r.phase.openedAt + RunBound(cfg, p) + p)
    && (r.phase.Recording? && r.phase.category != FinalizationFailed ==> clock <= r.phase.openedAt + RunBound(cfg, p))
  }

  lemma TimelyRun(cfg: Config, p: nat, s: Store, clock: Instant, r: Run)
    requires Placed(cfg, p, r.phase, clock) && OnTime(cfg, p, r.phase, clock) && RowOpened(s, r) && RunningRowsFresh(s)
    ensures InTime(cfg, p, s, clock, r)
  {
    if Driving(r.phase) {
      DrivingWithinBound(cfg, p, r.phase, clock);
    }
  }

  /** A run that still drives is within deadline + tool cap + three transactions of the time
      stored for it when it opened, and so is one that records a failed start or a failed tool
      record; only recording a failed finalization can take one transaction more. */
  lemma RunFinishesInTime(cfg: Config, p: nat, s: System, r: Run)
    requires PunctuallyReachable(cfg, p, s) && r in s.runs
    ensures InTime(cfg, p, Current(s.history), s.clock, r)
  {
    PunctualState(cfg, p, s);
    assert RunningRowsFresh(Current(s.history));
    TimelyRun(cfg, p, Current(s.history), s.clock, r);
  }

  /** The run is not driving, or its row is not among the overdue ones of this state. */
  lemma DrivingNotOverdue(cfg: Config, p: nat, s: Store, snap: Store, r: Run, clock: Instant, now: Instant, threshold: nat)
    requires Placed(cfg, p, r.phase, clock) && OnTime(cfg, p, r.phase, clock) && Driving(r.phase) && RowOpened(s, r)
    requires Grows(snap, s) && RunningRowsFresh(snap) && RunBound(cfg, p) <= threshold <= now <= clock
    ensures r.executionId !in OverdueRuns(snap, now - threshold)
  {
    DrivingWithinBound(cfg, p, r.phase, clock);
    NotOverdue(s, snap, r.executionId, OpenedAt(r.phase), now - threshold);
  }

  /** A pass whose threshold is at least that bound, on whatever state it reads, selects only
      executions whose run has ended, died, or never drives again. */
  lemma RecoverySelectsAbandoned(cfg: Config, p: nat, s: System, snap: Store, now: Instant, threshold: nat, r: Run)
    requires PunctuallyReachable(cfg, p, s) && r in s.runs && snap in s.history
    requires RunBound(cfg, p) <= threshold <= now <= s.clock
    requires r.executionId in OverdueRuns(snap, now - threshold)
    ensures !Driving(r.phase)
  {
    PunctualState(cfg, p, s);
    var k :| 0 <= k < |s.history| && s.history[k] == snap;
    GrowsBetween(s.history, k, |s.history| - 1);
    if Driving(r.phase) {
      DrivingNotOverdue(cfg, p, Current(s.history), snap, r, s.clock, now, threshold);
    }
  }

  ghost predicate FailedIn(s: System, e: Id)
  {
    StateOf(Current(s.history), e) == Some(TriageFailed)
  }

  /** Only the end of its own run takes a row out of FAILED, and that run does not drive. */
  lemma MovesFailed(s: System, m: Move, t: System, e: Id)
    requires Guarded(s) && FailedIn(s, e) && Makes(s, m, t)
    ensures FailedIn(t, e)
  {
    MovesAttempt(s, m, t);
    if m.Goes? {
      assert NotFailed(Current(s.history), s.runs[m.going]);
    }
  }

  /** Under these premises FAILED is permanent: no step of any actor changes it. */
  lemma FailedIsPermanent(cfg: Config, p: nat, s: System, step: Step, e: Id)
    requires PunctuallyReachable(cfg, p, s) && FailedIn(s, e)
    ensures FailedIn(Apply(cfg, s, step), e)
  {
    PunctualState(cfg, p, s);
    var m := StepMoves(cfg, s, step);
    MovesFailed(s, m, Apply(cfg, s, step), e);
  }
}
