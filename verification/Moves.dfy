/** What one step changes: every step of the system is one of a few moves, and the store after
    it is the one before it or what one durable transaction made of that. What is kept by
    every move holds in every reachable state. */
module Moves {
  import opened Base
  import opened Timestamps
  import opened Actions
  import opened Store
  import opened Queries
  import opened Workflow
  import opened Effects
  import opened History
  import opened Approvals
  import opened Orchestration
  import opened System

  // ---- What a durable transaction changes ---------------------------------------------------------------

  /** No run has stored what this key parses to. */
  ghost predicate NewKey(s: Store, key: string)
  {
    ParseIdentifier(key).Some? && ParseIdentifier(key).value !in s.keys
  }

  /** A row that is still RUNNING has the time it was created with. */
  ghost predicate RunningRowsFresh(s: Store)
  {
    forall e | e in s.executions && s.executions[e].state == Running ::
      s.executions[e].updatedAt == s.executions[e].createdAt
  }

  /** The transaction may rewrite this execution's row. */
  predicate Names(x: Transaction, e: Id)
  {
    ((x.FinishRun? || x.FailRun?) && x.executionId == e) || (x.RecoverRuns? && e in x.answer)
  }

  /** Other rows stay, FAILED is left by finishing only, and RUNNING rows keep their time. */
  ghost predicate RowsAfter(s: Store, t: Store, x: Transaction)
  {
    && (forall e | e in s.executions && !Names(x, e) :: e in t.executions && t.executions[e] == s.executions[e])
    && (forall e | StateOf(s, e) == Some(TriageFailed) && !(x.FinishRun? && x.executionId == e) ::
          StateOf(t, e) == Some(TriageFailed))
    && (RunningRowsFresh(s) ==> RunningRowsFresh(t))
  }

  /** Only a start adds an execution and a key, and both are new. */
  ghost predicate StartsRun(s: Store, t: Store, x: Transaction)
  {
    if x.StartRun? then
      && NewKey(s, x.key) && x.executionId !in s.executions
      && var key := ParseIdentifier(x.key).value;
        && t.keys == s.keys[key := x.executionId]
        && t.executions == s.executions[x.executionId := ExecutionRow(x.alert.alertId, Running, key, x.now, x.now, None)]
    else t.keys == s.keys
  }

  /** Only a run records tool calls, and only a finishing run adds a result. */
  ghost predicate TablesAfter(s: Store, t: Store, x: Transaction)
  {
    && (if x.RecordTool? then ToolEffect(s, InvocationRow(x.record, x.result), t) else t.invocations == s.invocations)
    && (if x.FinishRun?
        then x.executionId !in s.results && t.results == s.results[x.executionId := x.decision.result]
        else t.results == s.results)
  }

  /** The rows a transaction marks as succeeded: those that were, and the one whose executor
      returned. */
  ghost predicate SucceedsOnly(s: Store, t: Store, x: Transaction)
  {
    forall a | ActionStateOf(t, a) == Some(Succeeded) ::
      ActionStateOf(s, a) == Some(Succeeded)
      || (x.FinishExecution? && x.simulation.Some? && x.started.actionId == a)
  }

  ghost predicate Changes(s: Store, t: Store, x: Transaction)
  {
    Grows(s, t) && RowsAfter(s, t, x) && StartsRun(s, t, x) && TablesAfter(s, t, x) && SucceedsOnly(s, t, x)
  }

  lemma StartChanges(s: Store, snap: Store, x: Transaction, t: Store)
    requires x.StartRun? && ParseIdentifier(x.key).Some? && Grows(s, t)
    requires StartEffect(s, snap, x.alert, ParseIdentifier(x.key).value, x.executionId, x.now, t)
    ensures Changes(s, t, x)
  {
  }

  lemma ToolChanges(s: Store, x: Transaction, t: Store)
    requires x.RecordTool? && ToolEffect(s, InvocationRow(x.record, x.result), t) && Grows(s, t)
    ensures Changes(s, t, x)
  {
  }

  lemma FinalChanges(s: Store, snap: Store, x: Transaction, t: Store)
    requires x.FinishRun? && FinalEffect(s, snap, x.executionId, x.decision, x.now, t) && Grows(s, t)
    ensures Changes(s, t, x)
  {
  }

  lemma FailureChanges(s: Store, snap: Store, x: Transaction, t: Store)
    requires x.FailRun? && FailureEffect(s, snap, x.executionId, x.category, x.now, t) && Grows(s, t)
    ensures Changes(s, t, x)
  {
  }

  lemma DecisionChanges(s: Store, p: ApprovalRecord, x: Transaction, t: Store)
    requires x.Decide? && DecisionEffect(s, p, t) && Grows(s, t)
    ensures Changes(s, t, x)
  {
  }

  lemma ExecuteChanges(cfg: Config, s: Store, x: Transaction, answer: ExecuteAnswer, t: Store)
    requires x.BeginExecution? && ExecuteEffect(cfg, s, x.executeRequest, answer, t) && Grows(s, t)
    requires answer.Begins? ==> answer.record.state == Executing
    ensures Changes(s, t, x)
  {
  }

  lemma FinishChanges(s: Store, x: Transaction, t: Store)
    requires x.FinishExecution? && FinishEffect(s, x.started, x.simulation, x.now, t) && Grows(s, t)
    ensures Changes(s, t, x)
  {
  }

  lemma RecoveryChanges(s: Store, x: Transaction, t: Store)
    requires x.RecoverRuns? && RunRecoveryEffect(s, x.answer, x.now, t) && Grows(s, t)
    ensures Changes(s, t, x)
  {
  }

  lemma ActionRecoveryChanges(s: Store, snap: Store, x: Transaction, t: Store)
    requires x.RecoverActions? && ActionRecoveryEffect(s, snap, x.answer, x.now, t) && Grows(s, t)
    ensures Changes(s, t, x)
  {
  }

  /** What every effect amounts to. */
  lemma EffectChanges(cfg: Config, s: Store, snap: Store, x: Transaction, t: Store)
    requires Effect(cfg, s, snap, x, t) && Grows(s, t)
    ensures Changes(s, t, x)
  {
    match x
    case StartRun(_, _, _, _) => StartChanges(s, snap, x, t);
    case RecordTool(_, _) => ToolChanges(s, x, t);
    case FinishRun(_, _, _) => FinalChanges(s, snap, x, t);
    case FailRun(_, _, _) => FailureChanges(s, snap, x, t);
    case Decide(q) => DecisionChanges(s, DecisionAnswerOf(cfg, snap, q).approval, x, t);
    case BeginExecution(q) =>
      BeginsExecuting(cfg, snap, q);
      ExecuteChanges(cfg, s, x, ExecuteAnswerOf(cfg, snap, q), t);
    case FinishExecution(_, _, _) => FinishChanges(s, x, t);
    case RecoverRuns(_, _, _) => RecoveryChanges(s, x, t);
    case RecoverActions(_, _, _) => ActionRecoveryChanges(s, snap, x, t);
  }

  // ---- How the history moves ------------------------------------------------------------------------------

  lemma SnapshotKept(h: Commits, lag: nat)
    requires Sound(h) && lag < |h|
    ensures Kept(Snapshot(h, lag)) && Kept(Current(h)) && Grows(Snapshot(h, lag), Current(h))
  {
  }

  lemma EnabledEffect(cfg: Config, h: Commits, x: Transaction, lag: nat, fault: bool)
    requires Sound(h) && Enabled(h, x, lag)
    ensures var (ending, t) := Attempt(cfg, Current(h), Snapshot(h, lag), x, fault);
      ending == Durable ==> Effect(cfg, Current(h), Snapshot(h, lag), x, t)
  {
    SnapshotKept(h, lag);
    AttemptEffect(cfg, Current(h), Snapshot(h, lag), x, fault);
  }

  /** A durable attempt adds the one state its effect describes; any other adds nothing. */
  lemma ExtendAttempted(cfg: Config, h: Commits, x: Transaction, lag: nat, fault: bool)
    requires Sound(h)
    ensures var g := Extend(cfg, h, Attempted(x, lag, fault));
      if EndingOf(cfg, h, x, lag, fault) == Durable then
        lag < |h| && g == h + [Current(g)] && Effect(cfg, Current(h), Snapshot(h, lag), x, Current(g))
      else g == h
  {
    if Enabled(h, x, lag) {
      EnabledEffect(cfg, h, x, lag, fault);
    }
  }

  lemma ExtendGrows(cfg: Config, h: Commits, ev: Event)
    requires Sound(h)
    ensures Grows(Current(h), Current(Extend(cfg, h, ev)))
  {
    ExtendSound(cfg, h, ev);
    assert Extend(cfg, h, ev)[|h| - 1] == Current(h);
  }

  lemma GrowsBetween(h: Commits, i: nat, j: nat)
    requires Sound(h) && i <= j < |h|
    ensures Grows(h[i], h[j])
  {
  }

  /** The transaction is durable. */
  ghost predicate Added(h: Commits, x: Transaction, g: Commits)
  {
    g == h + [Current(g)] && Changes(Current(h), Current(g), x)
  }

  /** It is durable, or nothing is committed. */
  ghost predicate Tried(h: Commits, x: Transaction, g: Commits)
  {
    g == h || Added(h, x, g)
  }

  /** An action row may have been rewritten. */
  ghost predicate Rewritten(h: Commits, g: Commits)
  {
    g == h
    || (g == h + [Current(g)] && Grows(Current(h), Current(g))
        && Current(g) == Current(h).(actions := Current(g).actions))
  }

  lemma AttemptAdds(cfg: Config, h: Commits, x: Transaction, lag: nat, fault: bool)
    requires Sound(h)
    ensures var g := Extend(cfg, h, Attempted(x, lag, fault));
      if EndingOf(cfg, h, x, lag, fault) == Durable then Added(h, x, g) else g == h
  {
    ExtendGrows(cfg, h, Attempted(x, lag, fault));
    ExtendAttempted(cfg, h, x, lag, fault);
    if EndingOf(cfg, h, x, lag, fault) == Durable {
      EffectChanges(cfg, Current(h), Snapshot(h, lag), x, Current(Extend(cfg, h, Attempted(x, lag, fault))));
    }
  }

  lemma TamperRewrites(cfg: Config, h: Commits, a: Id, row: ActionRow)
    requires Sound(h)
    ensures Rewritten(h, Extend(cfg, h, Tampered(a, row)))
  {
    ExtendGrows(cfg, h, Tampered(a, row));
  }

  // ---- Moves --------------------------------------------------------------------------------------------------

  predicate Driving(p: Phase)
  {
    p.Head? || p.Thinking? || p.Calling? || p.Persisting? || p.Finalizing?
  }

  /** Where a phase can lead: a run drives only after its start was durable. */
  predicate Follows(p: Phase, ending: Ending, next: Phase)
  {
    && (Driving(next) ==> Driving(p) || (p.Starting? && ending == Durable))
    && !next.Entered?
    && (next.Starting? ==> p.Entered?)
    && (Drives(p, next) ==> Driving(p))
    && (p.Starting? && ending == Durable ==> next.Head?)
  }

  datatype Move =
    | Passes
    | Enters(entering: Run)
    | Dies(dying: nat)
    | Goes(going: nat, snap: Store, input: Input, ending: Ending, next: Phase)
    | Shares(transaction: Transaction, snap: Store)
    | Rewrites
    | Orders(ordered: ExecCall)
    | Drops(dropped: nat)
    | Tries(call: nat, request: ExecuteRequest)
    | Takes(call: nat, request: ExecuteRequest, snap: Store, record: ActionExecutionRecord, row: ActionRow)
    | Invokes(call: nat, behaviour: ExecutorBehaviour)
    | Finishes(call: nat)

  /** One run takes its step. */
  ghost predicate RunGoes(s: System, i: nat, ending: Ending, next: Phase, t: System)
  {
    i < |s.runs| &&
    var r := s.runs[i];
    var x := TransactionOf(r, s.clock);
    && Follows(r.phase, ending, next)
    && (if x.Some? && ending == Durable then Added(s.history, x.value, t.history) else t.history == s.history)
    && t == s.(history := t.history, events := t.events, runs := s.runs[i := r.(phase := next)],
               started := if r.phase.Starting? && ending == Durable then s.started + {i} else s.started,
               drivers := if Drives(r.phase, next) then s.drivers + [i] else s.drivers)
  }

  /** A call comes to this phase, and its transaction may have become durable. */
  ghost predicate CallGoes(s: System, i: nat, c: ExecCall, x: Transaction, t: System)
  {
    && i < |s.calls| && Tried(s.history, x, t.history)
    && t == s.(history := t.history, events := t.events, calls := s.calls[i := c])
  }

  /** A call takes an action nobody has. */
  ghost predicate CallTakes(s: System, i: nat, q: ExecuteRequest, record: ActionExecutionRecord, row: ActionRow, t: System)
  {
    i < |s.calls| &&
    var c := s.calls[i];
    && c.phase == Ordered(q.now) && q.actionId == c.actionId && record.actionId == c.actionId && record.startedAt == q.now
    && c.actionId !in Current(s.history).actionExecutions && c.actionId in Current(t.history).actionExecutions
    && CallGoes(s, i, c.(phase := Begun(record, row), begun := true), BeginExecution(q), t)
  }

  ghost predicate Makes(s: System, m: Move, t: System)
  {
    match m
    case Passes => s.clock <= t.clock && t == s.(clock := t.clock)
    case Enters(r) => r.phase.Entered? && t == s.(runs := s.runs + [r])
    case Dies(i) => i < |s.runs| && t == s.(runs := s.runs[i := s.runs[i].(phase := Ended(None))])
    case Goes(i, _, _, ending, next) => RunGoes(s, i, ending, next, t)
    case Shares(x, _) =>
      && (x.Decide? || x.RecoverRuns? || x.RecoverActions?)
      && Tried(s.history, x, t.history) && t == s.(history := t.history, events := t.events)
    case Rewrites => Rewritten(s.history, t.history) && t == s.(history := t.history, events := t.events)
    case Orders(c) => c.phase.Ordered? && !c.begun && !c.invoked && t == s.(calls := s.calls + [c])
    case Drops(i) => i < |s.calls| && t == s.(calls := s.calls[i := s.calls[i].(phase := Closed)])
    case Tries(i, q) =>
      i < |s.calls| && s.calls[i].phase.Ordered? && CallGoes(s, i, s.calls[i].(phase := Closed), BeginExecution(q), t)
    case Takes(i, q, _, record, row) => CallTakes(s, i, q, record, row, t)
    case Invokes(i, b) =>
      && i < |s.calls| && s.calls[i].phase.Begun?
      && t == InvokeExecutor(s, i, s.calls[i], s.calls[i].phase.record, s.calls[i].phase.row, b)
    case Finishes(i) =>
      && i < |s.calls| && s.calls[i].phase.Returned?
      && CallGoes(s, i, s.calls[i].(phase := Closed),
           FinishExecution(s.calls[i].phase.record, s.calls[i].phase.simulation, s.clock), t)
  }

  /** The transaction a move attempts. */
  function Attempts(s: System, m: Move): Option<Transaction>
  {
    match m
    case Goes(i, _, _, _, _) => if i < |s.runs| then TransactionOf(s.runs[i], s.clock) else None
    case Shares(x, _) => Some(x)
    case Tries(_, q) => Some(BeginExecution(q))
    case Takes(_, q, _, _, _) => Some(BeginExecution(q))
    case Finishes(i) =>
      if i < |s.calls| && s.calls[i].phase.Returned?
      then Some(FinishExecution(s.calls[i].phase.record, s.calls[i].phase.simulation, s.clock)) else None
    case _ => None
  }

  /** A move that attempts nothing changes no row but rewritten ones, and any other does what
      its transaction does, or nothing. */
  lemma MovesAttempt(s: System, m: Move, t: System)
    requires Makes(s, m, t)
    ensures t.history == s.history || Rewritten(s.history, t.history)
            || (Attempts(s, m).Some? && Added(s.history, Attempts(s, m).value, t.history))
  {
  }

  /** Histories and stores only grow. */
  lemma MovesGrow(s: System, m: Move, t: System)
    requires Makes(s, m, t)
    ensures s.history <= t.history && Grows(Current(s.history), Current(t.history))
  {
    GrowsReflexive(Current(s.history));
  }

  // ---- Every step is a move -----------------------------------------------------------------------------------

  /** A pass over runs works on what its query answers from the state it read. */
  ghost predicate SelectedFrom(h: Commits, snap: Store, x: Transaction)
  {
    x.RecoverRuns? ==> snap in h && x.threshold <= x.now && StaleRuns(snap, x.now - x.threshold, x.answer)
  }

  /** An action is taken on the row of a state that clears it. */
  ghost predicate TakesCleared(cfg: Config, h: Commits, m: Move)
  {
    m.Takes? ==>
      m.snap in h && Clears(cfg, m.snap, m.request.actionId, m.request.now) && m.snap.actions[m.request.actionId] == m.row
  }

  /** A run goes where the run machine leads. */
  ghost predicate GoesByNext(cfg: Config, s: System, m: Move)
  {
    m.Goes? ==> m.going < |s.runs| && m.next == Next(cfg, s.runs[m.going], m.snap, m.ending, s.clock, m.input)
  }

  /** Where the move comes from: the step, the state a transaction read, and what it found. */
  ghost predicate Explains(cfg: Config, s: System, step: Step, m: Move, t: System)
  {
    match m
    case Passes => step.Tick? || t == s
    case Enters(r) => step.Arrive? && step.executionId == r.executionId
    case Goes(i, snap, x, _, _) => step == Advance(i, x) && snap == Snapshot(s.history, x.lag) && GoesByNext(cfg, s, m)
    case Shares(x, snap) =>
      && (x.RecoverRuns? ==> step.Recover? && step.transaction == x)
      && (t.history != s.history ==> SelectedFrom(s.history, snap, x))
    case Takes(_, _, _, _, _) => TakesCleared(cfg, s.history, m)
    case _ => true
  }

  lemma ThinkingFollows(cfg: Config, r: Run, snap: Store, ending: Ending, clock: Instant, x: Input)
    requires r.phase.Thinking?
    ensures Follows(r.phase, ending, Next(cfg, r, snap, ending, clock, x))
  {
  }

  lemma CallingFollows(cfg: Config, r: Run, snap: Store, ending: Ending, clock: Instant, x: Input)
    requires r.phase.Calling? || r.phase.Persisting?
    ensures Follows(r.phase, ending, Next(cfg, r, snap, ending, clock, x))
  {
  }

  lemma NextFollows(cfg: Config, r: Run, snap: Store, ending: Ending, clock: Instant, x: Input)
    ensures Follows(r.phase, ending, Next(cfg, r, snap, ending, clock, x))
  {
    if r.phase.Thinking? {
      ThinkingFollows(cfg, r, snap, ending, clock, x);
    } else if r.phase.Calling? || r.phase.Persisting? {
      CallingFollows(cfg, r, snap, ending, clock, x);
    }
  }

  /** How the transaction of a run's step ends. */
  ghost function StepEnding(cfg: Config, h: Commits, r: Run, clock: Instant, x: Input): Ending
  {
    var tx := TransactionOf(r, clock);
    if tx.Some? then EndingOf(cfg, h, tx.value, x.lag, x.fault) else Left
  }

  /** Where the run machine leads, with the ending of the run's own transaction. */
  ghost predicate NextOf(cfg: Config, s: System, i: nat, x: Input, ending: Ending, next: Phase)
  {
    && i < |s.runs| && ending == StepEnding(cfg, s.history, s.runs[i], s.clock, x)
    && next == Next(cfg, s.runs[i], Snapshot(s.history, x.lag), ending, s.clock, x)
  }

  lemma AdvanceMoves(cfg: Config, s: System, i: nat, x: Input, ending: Ending, next: Phase)
    requires Sound(s.history) && NextOf(cfg, s, i, x, ending, next)
    ensures RunGoes(s, i, ending, next, AdvanceRun(cfg, s, i, x))
  {
    var tx := TransactionOf(s.runs[i], s.clock);
    if tx.Some? {
      AttemptAdds(cfg, s.history, tx.value, x.lag, x.fault);
    }
    NextFollows(cfg, s.runs[i], Snapshot(s.history, x.lag), ending, s.clock, x);
  }

  lemma BeginEffectTakes(cfg: Config, s: Store, q: ExecuteRequest, answer: ExecuteAnswer, t: Store)
    requires answer.Begins? && answer.record.actionId == q.actionId && ExecuteEffect(cfg, s, q, answer, t)
    ensures q.actionId !in s.actionExecutions && q.actionId in t.actionExecutions
  {
  }

  /** A durable first transaction that begins an execution takes its action. */
  lemma BeginAdds(cfg: Config, h: Commits, q: ExecuteRequest, lag: nat, fault: bool, answer: ExecuteAnswer)
    requires Sound(h) && answer == ExecuteAnswerOf(cfg, Snapshot(h, lag), q) && answer.Begins?
    ensures EndingOf(cfg, h, BeginExecution(q), lag, fault) == Durable ==>
              q.actionId !in Current(h).actionExecutions
              && q.actionId in Current(Extend(cfg, h, Attempted(BeginExecution(q), lag, fault))).actionExecutions
  {
    BeginsExecuting(cfg, Snapshot(h, lag), q);
    ExtendAttempted(cfg, h, BeginExecution(q), lag, fault);
    if EndingOf(cfg, h, BeginExecution(q), lag, fault) == Durable {
      BeginEffectTakes(cfg, Current(h), q, answer, Current(Extend(cfg, h, Attempted(BeginExecution(q), lag, fault))));
    }
  }

  /** The call's first transaction: it takes the action when it begins the execution. */
  ghost function BeginMove(cfg: Config, h: Commits, i: nat, q: ExecuteRequest, x: Operation): Move
  {
    var answer := ExecuteAnswerOf(cfg, Snapshot(h, x.lag), q);
    if EndingOf(cfg, h, BeginExecution(q), x.lag, x.fault) == Durable && answer.Begins?
    then Takes(i, q, Snapshot(h, x.lag), answer.record, answer.row)
    else Tries(i, q)
  }

  /** What it found in the state it read. */
  lemma BeginExplained(cfg: Config, h: Commits, i: nat, q: ExecuteRequest, x: Operation)
    requires x.lag < |h|
    ensures var m := BeginMove(cfg, h, i, q, x);
      m.Takes? ==>
        m.record.actionId == q.actionId && m.record.startedAt == q.now && TakesCleared(cfg, h, m)
  {
    BeginsExecuting(cfg, Snapshot(h, x.lag), q);
    if ExecuteAnswerOf(cfg, Snapshot(h, x.lag), q).Begins? {
      BeginsClears(cfg, Snapshot(h, x.lag), q);
    }
  }

  /** The request of a call that is ordered. */
  predicate Requests(s: System, i: nat, x: Operation, q: ExecuteRequest)
  {
    && i < |s.calls| && s.calls[i].phase == Ordered(q.now)
    && q == ExecuteRequest(s.calls[i].actionId, s.calls[i].actorId, q.now, x.newId)
  }

  lemma BeginMoves(cfg: Config, s: System, i: nat, x: Operation, q: ExecuteRequest)
    requires Sound(s.history) && x.lag < |s.history| && Requests(s, i, x, q)
    ensures Makes(s, BeginMove(cfg, s.history, i, q, x), BeginCall(cfg, s, i, s.calls[i], q.now, x))
  {
    var answer := ExecuteAnswerOf(cfg, Snapshot(s.history, x.lag), q);
    AttemptAdds(cfg, s.history, BeginExecution(q), x.lag, x.fault);
    BeginsExecuting(cfg, Snapshot(s.history, x.lag), q);
    if answer.Begins? {
      BeginAdds(cfg, s.history, q, x.lag, x.fault, answer);
    }
  }

  /** What a step of a run comes to. */
  lemma RunMoves(cfg: Config, s: System, i: nat, x: Input) returns (m: Move)
    requires Sound(s.history)
    ensures i < |s.runs| && x.lag < |s.history| ==> MovesRun(m, i)
    ensures Makes(s, m, Apply(cfg, s, Advance(i, x))) && Explains(cfg, s, Advance(i, x), m, Apply(cfg, s, Advance(i, x)))
  {
    m := Passes;
    if i < |s.runs| && x.lag < |s.history| {
      var r, snap := s.runs[i], Snapshot(s.history, x.lag);
      var ending := StepEnding(cfg, s.history, r, s.clock, x);
      var next := Next(cfg, r, snap, ending, s.clock, x);
      AdvanceMoves(cfg, s, i, x, ending, next);
      m := Goes(i, snap, x, ending, next);
    }
  }

  predicate MovesRun(m: Move, i: nat)
  {
    m.Goes? && m.going == i
  }

  predicate ReturnedAt(s: System, i: nat)
  {
    i < |s.calls| && s.calls[i].phase.Returned?
  }

  lemma FinishMoves(cfg: Config, s: System, i: nat, x: Operation)
    requires Sound(s.history) && ReturnedAt(s, i)
    ensures Makes(s, Finishes(i), OperateCall(cfg, s, i, x))
  {
    AttemptAdds(cfg, s.history, FinishExecution(s.calls[i].phase.record, s.calls[i].phase.simulation, s.clock), x.lag, x.fault);
  }

  lemma OperateMoves(cfg: Config, s: System, i: nat, x: Operation) returns (m: Move)
    requires Sound(s.history)
    ensures Makes(s, m, Apply(cfg, s, Operate(i, x))) && Explains(cfg, s, Operate(i, x), m, Apply(cfg, s, Operate(i, x)))
  {
    m := Passes;
    if i < |s.calls| && x.lag < |s.history| {
      match s.calls[i].phase
      case Ordered(now) =>
        var q := ExecuteRequest(s.calls[i].actionId, s.calls[i].actorId, now, x.newId);
        BeginMoves(cfg, s, i, x, q);
        BeginExplained(cfg, s.history, i, q, x);
        m := BeginMove(cfg, s.history, i, q, x);
      case Begun(_, _) => m := Invokes(i, x.executor);
      case Returned(_, _) =>
        FinishMoves(cfg, s, i, x);
        m := Finishes(i);
      case Closed =>
    }
  }

  lemma DurableSelected(cfg: Config, h: Commits, x: Transaction, lag: nat, fault: bool)
    requires EndingOf(cfg, h, x, lag, fault) == Durable
    ensures SelectedFrom(h, Snapshot(h, lag), x)
  {
  }

  /** A transaction of the other services. */
  lemma EmitShares(cfg: Config, s: System, x: Transaction, lag: nat, fault: bool)
    requires Sound(s.history) && (x.Decide? || x.RecoverRuns? || x.RecoverActions?)
    ensures var m, t := Shares(x, Snapshot(s.history, lag)), Emit(cfg, s, Attempted(x, lag, fault));
      Makes(s, m, t) && (t.history != s.history ==> SelectedFrom(s.history, m.snap, x))
  {
    AttemptAdds(cfg, s.history, x, lag, fault);
    if EndingOf(cfg, s.history, x, lag, fault) == Durable {
      DurableSelected(cfg, s.history, x, lag, fault);
    }
  }

  lemma EmitRewrites(cfg: Config, s: System, a: Id, row: ActionRow)
    requires Sound(s.history)
    ensures Makes(s, Rewrites, Emit(cfg, s, Tampered(a, row)))
  {
    TamperRewrites(cfg, s.history, a, row);
  }

  /** Steps that commit nothing. */
  lemma LocalMoves(cfg: Config, s: System, step: Step) returns (m: Move)
    requires step.Arrive? || step.Crash? || step.Tick? || step.Order? || step.Abandon?
    ensures Makes(s, m, Apply(cfg, s, step)) && Explains(cfg, s, step, m, Apply(cfg, s, step))
  {
    m := Passes;
    match step
    case Arrive(alert, key, e) => m := Enters(Run(alert, key, e, Entered));
    case Crash(i) =>
      if i < |s.runs| {
        m := Dies(i);
      }
    case Order(a, actor) => m := Orders(ExecCall(a, actor, Ordered(s.clock), false, false));
    case Abandon(i) =>
      if i < |s.calls| {
        m := Drops(i);
      }
    case Tick(_) =>
  }

  /** Each step of the system is a move. */
  lemma StepMoves(cfg: Config, s: System, step: Step) returns (m: Move)
    requires Sound(s.history)
    ensures Makes(s, m, Apply(cfg, s, step)) && Explains(cfg, s, step, m, Apply(cfg, s, step))
  {
    m := Passes;
    match step
    case Advance(i, x) => m := RunMoves(cfg, s, i, x);
    case Operate(i, x) => m := OperateMoves(cfg, s, i, x);
    case Review(q, lag, fault) =>
      EmitShares(cfg, s, Decide(q), lag, fault);
      m := Shares(Decide(q), Snapshot(s.history, lag));
    case Recover(x, lag, fault) =>
      if x.RecoverRuns? || x.RecoverActions? {
        EmitShares(cfg, s, x, lag, fault);
        m := Shares(x, Snapshot(s.history, lag));
      }
    case Rewrite(a, row) =>
      EmitRewrites(cfg, s, a, row);
      m := Rewrites;
    case _ => m := LocalMoves(cfg, s, step);
  }

  // ---- What every move keeps -----------------------------------------------------------------------------------

  /** The invariant holds at first and is kept by every move. */
  ghost predicate Invariant(inv: System -> bool)
  {
    inv(INITIAL) && forall s: System, m, t :: Sound(s.history) && inv(s) && Makes(s, m, t) ==> inv(t)
  }

  lemma {:induction false} EveryState(cfg: Config, inv: System -> bool, steps: seq<Step>)
    requires Invariant(inv)
    ensures inv(RunSteps(cfg, steps)) && Sound(RunSteps(cfg, steps).history)
  {
    SystemRecorded(cfg, steps);
    if steps != [] {
      var init, step := steps[..|steps| - 1], steps[|steps| - 1];
      EveryState(cfg, inv, init);
      var m := StepMoves(cfg, RunSteps(cfg, init), step);
    }
  }

  /** So it holds in every reachable state. */
  lemma ReachableInvariant(cfg: Config, inv: System -> bool, s: System)
    requires Invariant(inv) && Reachable(cfg, s)
    ensures inv(s) && Sound(s.history)
  {
    var steps: seq<Step> :| s == RunSteps(cfg, steps);
    EveryState(cfg, inv, steps);
  }
}
