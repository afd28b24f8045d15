/** The whole system: runs, reviews, executions, recoveries, faults, crashes, rewritten rows
    and a clock, interleaved in any order over one committed history. */
module System {
  import opened Base
  import opened Timestamps
  import opened Actions
  import opened Triage
  import opened Store
  import opened Workflow
  import opened History
  import opened Orchestration
  import opened Results

  // ---- State ------------------------------------------------------------------------------------------

  /** One call of `execute`: before its first transaction, between the two, after the effect. */
  datatype CallPhase =
    | Ordered(now: Instant)
    | Begun(record: ActionExecutionRecord, row: ActionRow)
    | Returned(record: ActionExecutionRecord, simulation: Option<Simulation>)
    | Closed

  /** `begun`: its first transaction is durable; `invoked`: it has called the executor. */
  datatype ExecCall = ExecCall(actionId: Id, actorId: Id, phase: CallPhase, begun: bool, invoked: bool)

  /** One call of the executor: for which action, on which proposal, started when. */
  datatype Invocation = Invocation(actionId: Id, action: ActionProposal, startedAt: Instant)

  /** `started` holds the runs whose start transaction was durable; `drivers` logs each call
      of the reasoner or the gateway; `executed` and `returned` log the executor's calls. */
  datatype System = System(
    history: Commits, events: seq<Event>, clock: Instant,
    runs: seq<Run>, started: set<nat>, drivers: seq<nat>,
    calls: seq<ExecCall>, executed: seq<Invocation>, returned: seq<Id>)

  const INITIAL := System([EMPTY_STORE], [], 0, [], {}, [], [], [], [])

  // ---- Steps -------------------------------------------------------------------------------------------

  datatype ExecutorBehaviour = ExecutorReturns(simulation: Simulation) | ExecutorRaises | ExecutorDies

  datatype Operation = Operation(lag: nat, fault: bool, newId: Id, executor: ExecutorBehaviour)

  datatype Step =
    | Arrive(alert: SecurityAlert, key: string, executionId: Id)
    | Advance(run: nat, input: Input)
    | Crash(run: nat)
    | Tick(elapsed: nat)
    | Review(request: DecisionRequest, lag: nat, fault: bool)
    | Order(actionId: Id, actorId: Id)
    | Operate(call: nat, operation: Operation)
    | Abandon(call: nat)
    | Recover(transaction: Transaction, lag: nat, fault: bool)
    | Rewrite(rewrittenId: Id, row: ActionRow)

  /** Extend the history by one event. */
  ghost function Emit(cfg: Config, s: System, ev: Event): System
  {
    s.(history := Extend(cfg, s.history, ev), events := s.events + [ev])
  }

  /** Does the run call the reasoner or the gateway in this step? */
  predicate Drives(p: Phase, q: Phase)
  {
    (p.Head? && q.Thinking?) || p.Calling?
  }

  /** The run, or the call, of this number becomes another. */
  function SetRun(s: System, i: nat, r: Run): System
  {
    if i < |s.runs| then s.(runs := s.runs[i := r]) else s
  }

  function SetCall(s: System, i: nat, c: ExecCall): System
  {
    if i < |s.calls| then s.(calls := s.calls[i := c]) else s
  }

  ghost function AdvanceRun(cfg: Config, s: System, i: nat, x: Input): System
  {
    if i >= |s.runs| then s
    else
      var r := s.runs[i];
      var t := TransactionOf(r, s.clock);
      var ending := if t.Some? then EndingOf(cfg, s.history, t.value, x.lag, x.fault) else Left;
      var next := Next(cfg, r, Snapshot(s.history, x.lag), ending, s.clock, x);
      var after := if t.Some? then Emit(cfg, s, Attempted(t.value, x.lag, x.fault)) else s;
      SetRun(after, i, r.(phase := next))
        .(started := if r.phase.Starting? && ending == Durable then s.started + {i} else s.started,
          drivers := if Drives(r.phase, next) then s.drivers + [i] else s.drivers)
  }

  /** The call after its first transaction. */
  ghost function AfterBegin(c: ExecCall, ending: Ending, answer: ExecuteAnswer): ExecCall
  {
    if ending == Durable && answer.Begins? then c.(phase := Begun(answer.record, answer.row), begun := true)
    else c.(phase := Closed)
  }

  ghost function BeginCall(cfg: Config, s: System, i: nat, c: ExecCall, now: Instant, x: Operation): System
  {
    var q := ExecuteRequest(c.actionId, c.actorId, now, x.newId);
    SetCall(Emit(cfg, s, Attempted(BeginExecution(q), x.lag, x.fault)), i,
      AfterBegin(c, EndingOf(cfg, s.history, BeginExecution(q), x.lag, x.fault), ExecuteAnswerOf(cfg, Snapshot(s.history, x.lag), q)))
  }

  function AfterExecutor(record: ActionExecutionRecord, b: ExecutorBehaviour): CallPhase
  {
    match b
    case ExecutorReturns(sim) => Returned(record, Some(sim))
    case ExecutorRaises => Returned(record, None)
    case ExecutorDies => Closed
  }

  function InvokeExecutor(s: System, i: nat, c: ExecCall, record: ActionExecutionRecord, row: ActionRow, b: ExecutorBehaviour): System
  {
    SetCall(s, i, c.(phase := AfterExecutor(record, b), invoked := true))
      .(executed := s.executed + [Invocation(c.actionId, row.action, record.startedAt)],
        returned := if b.ExecutorReturns? then s.returned + [c.actionId] else s.returned)
  }

  ghost function OperateCall(cfg: Config, s: System, i: nat, x: Operation): System
  {
    if i >= |s.calls| then s
    else
      var c := s.calls[i];
      match c.phase
      case Ordered(now) => BeginCall(cfg, s, i, c, now, x)
      case Begun(record, row) => InvokeExecutor(s, i, c, record, row, x.executor)
      case Returned(record, sim) =>
        SetCall(Emit(cfg, s, Attempted(FinishExecution(record, sim, s.clock), x.lag, x.fault)), i, c.(phase := Closed))
      case Closed => s
  }

  /** One step; a step that is not possible leaves the system as it is. */
  ghost function Apply(cfg: Config, s: System, step: Step): System
  {
    match step
    case Arrive(alert, key, e) => s.(runs := s.runs + [Run(alert, key, e, Entered)])
    case Advance(i, x) => if x.lag < |s.history| then AdvanceRun(cfg, s, i, x) else s
    case Crash(i) => if i < |s.runs| then SetRun(s, i, s.runs[i].(phase := Ended(None))) else s
    case Tick(elapsed) => if s.clock + elapsed < MAX_INSTANT then s.(clock := s.clock + elapsed) else s
    case Review(q, lag, fault) => Emit(cfg, s, Attempted(Decide(q), lag, fault))
    case Order(a, actor) => s.(calls := s.calls + [ExecCall(a, actor, Ordered(s.clock), false, false)])
    case Operate(i, x) => if x.lag < |s.history| then OperateCall(cfg, s, i, x) else s
    case Abandon(i) => if i < |s.calls| then SetCall(s, i, s.calls[i].(phase := Closed)) else s
    case Recover(t, lag, fault) =>
      if t.RecoverRuns? || t.RecoverActions? then Emit(cfg, s, Attempted(t, lag, fault)) else s
    case Rewrite(a, row) => Emit(cfg, s, Tampered(a, row))
  }

  ghost function RunSteps(cfg: Config, steps: seq<Step>): (s: System)
  {
    if steps == [] then INITIAL else Apply(cfg, RunSteps(cfg, steps[..|steps| - 1]), steps[|steps| - 1])
  }

  /** The steps that commit nothing happen whenever they can: runs arrive, time passes, calls are
      ordered, and processes die at any phase. */
  lemma StepsHappen(cfg: Config, s: System, alert: SecurityAlert, key: string, a: Id, actor: Id, e: Id, elapsed: nat, i: nat)
    ensures var t := Apply(cfg, s, Arrive(alert, key, e)); |t.runs| == |s.runs| + 1 && t.runs[|s.runs|] == Run(alert, key, e, Entered)
    ensures s.clock + elapsed < MAX_INSTANT ==> Apply(cfg, s, Tick(elapsed)).clock == s.clock + elapsed
    ensures var t := Apply(cfg, s, Order(a, actor));
      |t.calls| == |s.calls| + 1 && t.calls[|s.calls|] == ExecCall(a, actor, Ordered(s.clock), false, false)
    ensures i < |s.runs| ==> var t := Apply(cfg, s, Crash(i)); i < |t.runs| && t.runs[i].phase == Ended(None)
    ensures i < |s.calls| ==> var t := Apply(cfg, s, Abandon(i)); i < |t.calls| && t.calls[i].phase == Closed
  {
  }

  // ---- The system's history is one of the committed histories ----------------------------------------------

  /** The history is what its events play out to, so everything kept by every history is kept
      here, and every state it ever had is in it. */
  ghost predicate Recorded(cfg: Config, s: System)
  {
    s.history == Play(cfg, s.events)
  }

  lemma EmitRecorded(cfg: Config, s: System, ev: Event)
    requires Recorded(cfg, s)
    ensures Recorded(cfg, Emit(cfg, s, ev))
  {
    assert (s.events + [ev])[..|s.events|] == s.events;
  }

  lemma ApplyRecorded(cfg: Config, s: System, step: Step)
    requires Recorded(cfg, s)
    ensures Recorded(cfg, Apply(cfg, s, step))
  {
    match step
    case Advance(i, x) =>
      if i < |s.runs| && TransactionOf(s.runs[i], s.clock).Some? {
        EmitRecorded(cfg, s, Attempted(TransactionOf(s.runs[i], s.clock).value, x.lag, x.fault));
      }
    case Operate(i, x) =>
      OperateRecorded(cfg, s, i, x);
    case Review(q, lag, fault) => EmitRecorded(cfg, s, Attempted(Decide(q), lag, fault));
    case Recover(t, lag, fault) => EmitRecorded(cfg, s, Attempted(t, lag, fault));
    case Rewrite(a, row) => EmitRecorded(cfg, s, Tampered(a, row));
    case _ =>
  }

  lemma OperateRecorded(cfg: Config, s: System, i: nat, x: Operation)
    requires Recorded(cfg, s)
    ensures Recorded(cfg, OperateCall(cfg, s, i, x))
  {
    if i < |s.calls| {
      var c := s.calls[i];
      match c.phase
      case Ordered(now) =>
        EmitRecorded(cfg, s, Attempted(BeginExecution(ExecuteRequest(c.actionId, c.actorId, now, x.newId)), x.lag, x.fault));
      case Returned(record, sim) =>
        EmitRecorded(cfg, s, Attempted(FinishExecution(record, sim, s.clock), x.lag, x.fault));
      case _ =>
    }
  }

  lemma {:induction false} SystemRecorded(cfg: Config, steps: seq<Step>)
    ensures Recorded(cfg, RunSteps(cfg, steps)) && Sound(RunSteps(cfg, steps).history)
  {
    EveryHistorySound(cfg, RunSteps(cfg, steps).events);
    if steps != [] {
      SystemRecorded(cfg, steps[..|steps| - 1]);
      ApplyRecorded(cfg, RunSteps(cfg, steps[..|steps| - 1]), steps[|steps| - 1]);
    }
  }

  /** The states some sequence of steps leads to. */
  ghost predicate Reachable(cfg: Config, s: System)
  {
    exists steps: seq<Step> :: s == RunSteps(cfg, steps)
  }

  lemma ReachableSound(cfg: Config, s: System)
    requires Reachable(cfg, s)
    ensures Recorded(cfg, s) && Sound(s.history)
  {
    var steps: seq<Step> :| s == RunSteps(cfg, steps);
    SystemRecorded(cfg, steps);
  }

  lemma ReachableConsistent(cfg: Config, s: System)
    requires Reachable(cfg, s)
    ensures Consistent(Current(s.history))
    ensures ActionReferencesHold(Current(s.history)) && PrimaryKeysUnique(Current(s.history))
  {
    ReachableSound(cfg, s);
    assert Kept(Current(s.history));
  }

  /** What a reachable state's events ask of the match of results, states and action rows. */
  ghost predicate FailuresReadCurrent(events: seq<Event>)
  {
    forall k | 0 <= k < |events| :: ReadsCurrent(events[k])
  }

  ghost predicate NoneTampered(events: seq<Event>)
  {
    forall k | 0 <= k < |events| :: events[k].Attempted?
  }

  /** So every reachable state keeps states, results and action rows matched at all its
      commits, under what each part needs. */
  lemma ReachableMatched(cfg: Config, s: System)
    requires Reachable(cfg, s)
    ensures FailuresReadCurrent(s.events) ==> AllStatesMatch(s.history) && FinalRowsStay(s.history)
    ensures NoneTampered(s.events) ==> AllActionsMatch(s.history)
  {
    ReachableSound(cfg, s);
    if FailuresReadCurrent(s.events) {
      StatesMatchInEveryHistory(cfg, s.events);
    }
    if NoneTampered(s.events) {
      ActionsMatchInEveryHistory(cfg, s.events);
    }
  }
}
