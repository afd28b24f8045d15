/** The run bound is attained, and passed where it can be: for every deadline, cap and transaction
    time there is a punctual run that still drives at the last microsecond of its bound, and one
    that records a failed finalization after it (application/orchestrator.py:115-157, 443-461). */
module Overruns {
  import opened Base
  import opened Timestamps
  import opened Actions
  import opened Gateway
  import opened Store
  import opened Workflow
  import opened Orchestration
  import opened System
  import opened Timing
  import opened Stages
  import opened Deployment
  import opened Lockstep
  import opened History

  // ---- The scene's times -------------------------------------------------------------------------------------

  /** The start takes `p`, ends on a whole millisecond, and the first call comes just short of a
      millisecond later; then the reasoner takes all of the deadline, the second call all of the
      cap, and its record `p`, which leaves room for two more transactions. */
  predicate OnSchedule(sc: Scene, p: nat)
  {
    var t := sc.times;
    && t.begun == t.openedAt + p && t.begun == 1000 * p
    && t.firstCall == t.begun + FLOOR_LOSS
    && t.secondCall == t.firstCall + DeadlineUs(sc.cfg)
    && t.ended == t.secondCall + CapUs(sc.cfg)
    && t.stored == t.ended + p && t.stored + 2 * p < MAX_INSTANT
  }

  /** All of it can be played. */
  ghost predicate Plays(sc: Scene, p: nat)
  {
    && !sc.cfg.guidance && 1 <= sc.cfg.limits.deadlineMs
    && 2 <= sc.cfg.limits.maxIterations && 1 <= sc.cfg.limits.maxEvidenceItems
    && IsIdentifier(sc.run.key)
    && OnSchedule(sc, p) && FirstPlays(sc) && SecondPlays(sc)
  }

  // ---- Where its run stands -----------------------------------------------------------------------------------

  function AtEntry(sc: Scene): Standing
  {
    At(sc.run, Entered, EMPTY_STORE, sc.times.openedAt)
  }

  function SecondLoop(sc: Scene): Loop
  {
    Longer(FirstLoop(sc.cfg, sc.run, sc.times.openedAt, sc.times.begun), sc.item, sc.firstGateway)
  }

  function SecondStore(sc: Scene): Store
  {
    WithCall(Opened(sc.run, sc.times.openedAt), sc.firstRecord, Some(sc.outcome))
  }

  /** At its second head, with the outcome of its first call. */
  function AtSecondHead(sc: Scene): Standing
  {
    At(sc.run, Head(SecondLoop(sc), sc.times.firstCall), SecondStore(sc), sc.times.firstCall)
  }

  function FinalStore(sc: Scene): Store
  {
    WithCall(SecondStore(sc), sc.secondRecord, None)
  }

  /** About to finish, after its second call timed out. */
  function AtFinal(sc: Scene): Standing
  {
    At(sc.run, SafeExit(sc.run.alert, sc.times.openedAt, ToolFailed, sc.times.stored), FinalStore(sc), sc.times.stored)
  }

  lemma NewCalls(sc: Scene)
    requires FirstPlays(sc) && SecondPlays(sc)
    ensures NewCall(Opened(sc.run, sc.times.openedAt), sc.firstRecord) && NewCall(SecondStore(sc), sc.secondRecord)
  {
  }

  /** The first call comes in the millisecond in which the loop began. */
  lemma SameMillisecond(sc: Scene, p: nat)
    requires OnSchedule(sc, p)
    ensures MonotonicMs(sc.times.firstCall) == MonotonicMs(sc.times.begun)
  {
    assert MonotonicMs(sc.times.firstCall) == MonotonicMs(sc.times.begun) == p;
  }

  /** The run opens, makes its first call and comes to its second head. */
  lemma PlaysToSecondHead(sc: Scene, p: nat, ok: Standing -> bool)
    requires Plays(sc, p) && Onward(sc.cfg, p, ok) && ok(AtEntry(sc))
    ensures ok(AtSecondHead(sc))
  {
    var (cfg, r, t) := (sc.cfg, sc.run, sc.times);
    var loop, st := FirstLoop(cfg, r, t.openedAt, t.begun), Opened(r, t.openedAt);
    NewCalls(sc);
    Starts(cfg, p, ok, r, t.openedAt, t.begun);
    Consults(cfg, p, ok, r, loop, st, t.begun);
    AsksFor(cfg, p, ok, r, loop, st, t.begun, t.firstCall, sc.first);
    Calls(cfg, p, ok, r, loop, sc.first, st, t.firstCall, t.firstCall, Returns(Some(sc.outcome)),
      sc.firstGateway, sc.firstRecord, SuccessOf(sc.first, sc.outcome));
    Gathers(cfg, p, ok, r, loop, sc.firstGateway, sc.firstRecord, sc.first, st, t.firstCall, sc.outcome, "evidence-1", sc.item);
  }

  /** The second head reads an elapsed time of zero; its reasoner and its tool take all they
      may. */
  lemma PlaysToFinal(sc: Scene, p: nat, ok: Standing -> bool)
    requires Plays(sc, p) && Onward(sc.cfg, p, ok) && ok(AtSecondHead(sc))
    ensures ok(AtFinal(sc))
  {
    var (cfg, r, t) := (sc.cfg, sc.run, sc.times);
    var loop, st := SecondLoop(sc), SecondStore(sc);
    NewCalls(sc);
    SameMillisecond(sc, p);
    Consults(cfg, p, ok, r, loop, st, t.firstCall);
    AsksFor(cfg, p, ok, r, loop, st, t.firstCall, t.secondCall, sc.second);
    Calls(cfg, p, ok, r, loop, sc.second, st, t.secondCall, t.ended, TimesOut, sc.secondGateway, sc.secondRecord, TimeoutOf(sc.second));
    EndsLoop(cfg, p, ok, r, loop, sc.secondGateway, sc.secondRecord, sc.second, st, t.ended, t.stored);
  }

  /** Its final commit failed `p` later, and it has recorded that since. */
  function AtFailure(sc: Scene, late: Instant, later: Instant): Standing
  {
    At(sc.run, Recording(sc.times.openedAt, FinalizationFailed, late), FinalStore(sc), later)
  }

  // ---- Its end -------------------------------------------------------------------------------------------------

  /** The run waits for its final commit as long as a transaction may take, or fails it then and
      records that for as long. */
  lemma PlaysOn(sc: Scene, p: nat, ok: Standing -> bool, late: Instant, later: Instant)
    requires Plays(sc, p) && Onward(sc.cfg, p, ok) && ok(AtFinal(sc))
    requires late == sc.times.stored + p && later == late + p
    ensures ok(AtFinal(sc).(clock := late))
    ensures ok(AtFailure(sc, late, later))
  {
    WaitsToFinish(sc.cfg, p, ok, AtFinal(sc), late);
    var exit := AtFinal(sc).run.phase;
    FailsToFinish(sc.cfg, p, ok, sc.run, exit.openedAt, exit.decision, exit.reason, FinalStore(sc), sc.times.stored, late, later);
  }

  /** The row of the run that stands at the end of the scene. */
  lemma FinalRow(sc: Scene)
    ensures var rows := FinalStore(sc).executions;
      sc.run.executionId in rows && rows[sc.run.executionId].state == Running
      && rows[sc.run.executionId].createdAt == rows[sc.run.executionId].updatedAt == sc.times.openedAt
  {
  }

  /** This execution's row is RUNNING since it was created, so long ago. */
  predicate OpenSince(s: Store, e: Id, clock: Instant, elapsed: nat)
  {
    && e in s.executions && s.executions[e].state == Running && s.executions[e].updatedAt == s.executions[e].createdAt
    && clock == s.executions[e].createdAt + elapsed
  }

  /** The run drives at this time, on a RUNNING row that opened one run bound ago. */
  ghost predicate DrivesAtBound(cfg: Config, p: nat, s: System)
  {
    && |s.runs| == 1 && Moves.Driving(s.runs[0].phase)
    && OpenSince(Current(s.history), s.runs[0].executionId, s.clock, RunBound(cfg, p))
  }

  /** The run records the failure of its final commit one transaction after its bound. */
  ghost predicate RecordsPastBound(cfg: Config, p: nat, s: System)
  {
    && |s.runs| == 1 && s.runs[0].phase.Recording? && s.runs[0].phase.category == FinalizationFailed
    && OpenSince(Current(s.history), s.runs[0].executionId, s.clock, RunBound(cfg, p) + p)
  }

  lemma SceneStood(sc: Scene, p: nat, late: Instant, later: Instant)
    requires Plays(sc, p) && late == sc.times.stored + p && later == late + p
    ensures Stood(sc.cfg, p, AtFinal(sc).(clock := late))
    ensures Stood(sc.cfg, p, AtFailure(sc, late, later))
  {
    var ok := a => Stood(sc.cfg, p, a);
    StoodClosed(sc.cfg, p);
    EntersStood(sc.cfg, p, sc.run, sc.times.openedAt);
    PlaysToSecondHead(sc, p, ok);
    PlaysToFinal(sc, p, ok);
    PlaysOn(sc, p, ok, late, later);
  }

  /** Where the run stands says how long it has driven, and how long it has recorded. */
  lemma LoneDrives(sc: Scene, p: nat, s: System, late: Instant)
    requires OnSchedule(sc, p) && late == sc.times.stored + p && Lone(s, AtFinal(sc).(clock := late))
    ensures DrivesAtBound(sc.cfg, p, s)
  {
    FinalRow(sc);
  }

  lemma LoneRecords(sc: Scene, p: nat, s: System, late: Instant, later: Instant)
    requires OnSchedule(sc, p) && late == sc.times.stored + p && later == late + p && Lone(s, AtFailure(sc, late, later))
    ensures RecordsPastBound(sc.cfg, p, s)
  {
    FinalRow(sc);
  }

  /** In every deployment and for every run that can play the scene the bound is attained: the
      run drives until its last microsecond, the rounding of the clock included. */
  lemma BoundAttained(sc: Scene, p: nat) returns (s: System)
    requires Plays(sc, p)
    ensures PunctuallyReachable(sc.cfg, p, s) && DrivesAtBound(sc.cfg, p, s)
  {
    var late: Instant := sc.times.stored + p;
    SceneStood(sc, p, late, late + p);
    s :| PunctuallyReachable(sc.cfg, p, s) && Lone(s, AtFinal(sc).(clock := late));
    LoneDrives(sc, p, s, late);
  }

  /** And it is passed: when the final commit then fails, recording that goes on for as long as
      one transaction may take. */
  lemma BoundPassed(sc: Scene, p: nat) returns (s: System)
    requires Plays(sc, p)
    ensures PunctuallyReachable(sc.cfg, p, s) && RecordsPastBound(sc.cfg, p, s)
  {
    var late: Instant := sc.times.stored + p;
    var later: Instant := late + p;
    SceneStood(sc, p, late, later);
    s :| PunctuallyReachable(sc.cfg, p, s) && Lone(s, AtFailure(sc, late, later));
    LoneRecords(sc, p, s, late, later);
  }

  // ---- The scene exists ------------------------------------------------------------------------------------------

  /** The times of a scene with this deadline and cap, in microseconds. */
  predicate Spaced(t: Times, d: nat, c: nat, p: nat)
  {
    && t.begun == t.openedAt + p && t.begun == 1000 * p && t.firstCall == t.begun + FLOOR_LOSS
    && t.secondCall == t.firstCall + d && t.ended == t.secondCall + c
    && t.stored == t.ended + p && t.stored + 2 * p < MAX_INSTANT
  }

  lemma TimesMade(d: nat, c: nat, p: nat) returns (t: Times)
    requires 1000 * p + FLOOR_LOSS + d + c + 3 * p < MAX_INSTANT
    ensures Spaced(t, d, c, p)
  {
    var firstCall := 1000 * p + FLOOR_LOSS;
    t := Times(999 * p, 1000 * p, firstCall, firstCall + d, firstCall + d + c, firstCall + d + c + p);
  }

  lemma ScenePlays(sc: Scene, d: nat, c: nat, p: nat)
    requires Configured(sc, d, c) && 1 <= d && Spaced(sc.times, 1000 * d, 1000 * c, p) && FirstPlays(sc) && SecondPlays(sc)
    ensures Plays(sc, p)
  {
  }

  /** For every deadline, cap and transaction time that leave room on the clock there is a
      deployment with them that plays the scene with a run under any key and identifier. */
  lemma SceneExists(d: nat, c: nat, p: nat, key: Id, e: Id) returns (sc: Scene)
    requires IsIdentifier(key)
    requires 1 <= d && 1000 * p + FLOOR_LOSS + 1000 * d + 1000 * c + 3 * p < MAX_INSTANT
    ensures Plays(sc, p) && ValidConfig(sc.cfg) && Remedies(sc)
    ensures sc.run.key == key && sc.run.executionId == e
    ensures sc.cfg.limits.deadlineMs == d && sc.cfg.gatewayLimits.timeoutCapMs == c
  {
    var times := TimesMade(1000 * d, 1000 * c, p);
    sc := SceneMade(d, c, key, e, times);
    ScenePlays(sc, d, c, p);
  }
}
