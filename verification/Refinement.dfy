/** The services take the system's steps: what `run`, `execute`, a decision and a recovery pass
    do with a store to themselves is what the interleaved system does when nobody else moves. */
module Refinement {
  import opened Base
  import opened Timestamps
  import opened Actions
  import opened Triage
  import opened Store
  import opened Queries
  import opened Workflow
  import opened History
  import opened Orchestration
  import opened System
  import opened Orchestrator
  import opened ApprovalService
  import opened Recovery

  // ---- One step of one run --------------------------------------------------------------------------

  /** The run stands here in the system, at this clock and on this current state. */
  ghost predicate Stands(s: System, i: int, r: Run, st: Store, clock: Instant)
  {
    0 <= i < |s.runs| && s.runs[i] == r && Current(s.history) == st && s.clock == clock
  }

  /** A transaction that waits for no query can always be attempted. */
  lemma AlwaysEnabled(h: Commits, x: Transaction)
    requires !x.RecoverRuns? && !x.RecoverActions?
    ensures EnabledNow(h, x)
  {
  }

  lemma AttemptElseUnchanged(cfg: Config, s: Store, x: Transaction, fault: bool)
    ensures Attempt(cfg, s, s, x, fault).0 != Durable ==> Attempt(cfg, s, s, x, fault).1 == s
  {
  }

  /** An attempt on the current state ends as it does, and leaves what it leaves. */
  lemma ExtendNow(cfg: Config, h: Commits, x: Transaction, fault: bool)
    requires EnabledNow(h, x)
    ensures EndingOf(cfg, h, x, 0, fault) == Attempt(cfg, Current(h), Current(h), x, fault).0
    ensures Current(Extend(cfg, h, Attempted(x, 0, fault))) == Attempt(cfg, Current(h), Current(h), x, fault).1
  {
    AttemptElseUnchanged(cfg, Current(h), x, fault);
  }

  /** A run's block is its own plan. */
  lemma RunAttemptNow(cfg: Config, s: Store, x: Transaction, fault: bool)
    requires OfRun(x)
    ensures RunAttempt(s, s, x, fault) == Attempt(cfg, s, s, x, fault)
  {
  }

  /** One step of the run machine is one step of the run in the system, on the current state. */
  lemma StepIsAdvance(cfg: Config, s: System, i: nat, r: Run, st: Store, clock: Instant, x: Input)
    requires Stands(s, i, r, st, clock) && x.lag == 0
    ensures var (after, next) := Alone(cfg, r, st, clock, x);
      Stands(Apply(cfg, s, Advance(i, x)), i, next, after, clock)
  {
    var tx := TransactionOf(r, clock);
    if tx.Some? {
      AlwaysEnabled(s.history, tx.value);
      ExtendNow(cfg, s.history, tx.value, x.fault);
      RunAttemptNow(cfg, st, tx.value, x.fault);
    }
  }

  // ---- Whole walks --------------------------------------------------------------------------------------

  lemma ReachableStep(cfg: Config, s: System, step: Step)
    requires Reachable(cfg, s)
    ensures Reachable(cfg, Apply(cfg, s, step))
  {
    var steps: seq<Step> :| s == RunSteps(cfg, steps);
    var more := steps + [step];
    assert more[..|more| - 1] == steps;
    assert RunSteps(cfg, more) == Apply(cfg, s, step);
  }

  /** The environment of a run that has the store to itself: current reads and a clock that
      does not go back. */
  ghost predicate Undisturbed(w: World)
  {
    forall n :: w.inputs(n).lag == 0 && w.clock(n) <= w.clock(n + 1)
  }

  lemma AdvanceStands(cfg: Config, s: System, i: nat, r: Run, st: Store, clock: Instant, x: Input) returns (t: System)
    requires Reachable(cfg, s) && Stands(s, i, r, st, clock) && x.lag == 0
    ensures t == Apply(cfg, s, Advance(i, x)) && Reachable(cfg, t)
    ensures var (after, next) := Alone(cfg, r, st, clock, x); Stands(t, i, next, after, clock)
  {
    StepIsAdvance(cfg, s, i, r, st, clock, x);
    ReachableStep(cfg, s, Advance(i, x));
    t := Apply(cfg, s, Advance(i, x));
  }

  lemma TickStands(cfg: Config, s: System, i: nat, r: Run, st: Store, clock: Instant, later: Instant) returns (t: System)
    requires Reachable(cfg, s) && Stands(s, i, r, st, clock) && clock <= later
    ensures Reachable(cfg, t) && t == s.(clock := later)
  {
    ReachableStep(cfg, s, Tick(later - clock));
    t := Apply(cfg, s, Tick(later - clock));
  }

  lemma AdvanceAndWait(cfg: Config, w: World, s: System, i: nat, p: Point) returns (t: System)
    requires Reachable(cfg, s) && Undisturbed(w) && Stands(s, i, p.run, p.store, w.clock(p.steps))
    ensures var q := StepPoint(cfg, w, p);
      Reachable(cfg, t) && Stands(t, i, q.run, q.store, w.clock(q.steps))
  {
    var u := AdvanceStands(cfg, s, i, p.run, p.store, w.clock(p.steps), w.inputs(p.steps));
    var q := StepPoint(cfg, w, p);
    t := TickStands(cfg, u, i, q.run, q.store, w.clock(p.steps), w.clock(p.steps + 1));
  }

  lemma {:induction false} WalkReaches(cfg: Config, w: World, s: System, i: nat, p: Point, k: nat) returns (t: System)
    requires Reachable(cfg, s) && Undisturbed(w) && Stands(s, i, p.run, p.store, w.clock(p.steps))
    ensures var q := Walk(Machine(cfg, w), p, k);
      Reachable(cfg, t) && Stands(t, i, q.run, q.store, w.clock(q.steps))
  {
    if k == 0 {
      t := s;
    } else {
      var u := WalkReaches(cfg, w, s, i, p, k - 1);
      t := AdvanceAndWait(cfg, w, u, i, Walk(Machine(cfg, w), p, k - 1));
    }
  }

  /** What `run` does, whole: from every reachable state it leads to a reachable state with the
      store it leaves and the outcome it returns. */
  lemma RunReaches(cfg: Config, w: World, s: System, alert: SecurityAlert, key: string, executionId: Id,
    outcome: Option<Outcome>, n: nat, after: Store) returns (t: System)
    requires Reachable(cfg, s) && Undisturbed(w) && s.clock == w.clock(0)
    requires Visits(cfg, w, Point(0, Current(s.history), Run.Run(alert, key, executionId, Entered)),
               Point(n, after, Run.Run(alert, key, executionId, Ended(outcome))))
    ensures Reachable(cfg, t) && Stands(t, |s.runs|, Run.Run(alert, key, executionId, Ended(outcome)), after, w.clock(n))
  {
    ReachableStep(cfg, s, Arrive(alert, key, executionId));
    var u := Apply(cfg, s, Arrive(alert, key, executionId));
    t := WalkReaches(cfg, w, u, |s.runs|, Point(0, Current(s.history), u.runs[|s.runs|]), n);
  }

  // ---- Decisions and recovery passes -----------------------------------------------------------------------

  lemma DecideCommits(cfg: Config, s: Store, q: DecisionRequest, fault: bool)
    ensures Attempt(cfg, s, s, Decide(q), fault).1 == DecideMeaning(cfg, s, q, fault).store
  {
  }

  /** A decision, and a recovery pass, on the current state. */
  function ReviewNow(q: DecisionRequest, fault: bool): Step
  {
    Review(q, 0, fault)
  }

  function RecoverNow(x: Transaction): Step
  {
    Recover(x, 0, false)
  }

  /** A decision is one step. */
  lemma DecideIsReview(cfg: Config, s: System, q: DecisionRequest, fault: bool) returns (t: System)
    requires Reachable(cfg, s)
    ensures t == Apply(cfg, s, ReviewNow(q, fault)) && Reachable(cfg, t)
    ensures Current(t.history) == DecideMeaning(cfg, Current(s.history), q, fault).store
    ensures t.runs == s.runs && t.calls == s.calls && t.clock == s.clock
  {
    ReachableStep(cfg, s, Review(q, 0, fault));
    DecideCommits(cfg, Current(s.history), q, fault);
    AlwaysEnabled(s.history, Decide(q));
    ExtendNow(cfg, s.history, Decide(q), fault);
    t := Apply(cfg, s, Review(q, 0, fault));
  }

  /** A recovery pass is one step. */
  lemma PassIsRecover(cfg: Config, s: System, x: Transaction, after: Store) returns (t: System)
    requires Reachable(cfg, s) && (x.RecoverRuns? || x.RecoverActions?)
    requires EnabledNow(s.history, x) && Attempt(cfg, Current(s.history), Current(s.history), x, false) == (Durable, after)
    ensures t == Apply(cfg, s, RecoverNow(x)) && Reachable(cfg, t) && Current(t.history) == after
    ensures t.runs == s.runs && t.calls == s.calls && t.clock == s.clock
  {
    ReachableStep(cfg, s, RecoverNow(x));
    ExtendNow(cfg, s.history, x, false);
    t := Apply(cfg, s, RecoverNow(x));
  }

  /** A planned block whose writes apply commits them. */
  lemma PlanCommits(cfg: Config, s: Store, x: Transaction, ws: seq<Write>, after: Store)
    requires Plan(cfg, s, x) == Some(ws) && ApplyAll(s, ws) == Some(after)
    ensures Attempt(cfg, s, s, x, false) == (Durable, after)
  {
  }

  /** What `recover_stale_executions` does is one step of the system. */
  lemma RunPassReaches(cfg: Config, s: System, now: Instant, threshold: nat, cutoff: Instant, ids: seq<Id>, after: Store) returns (t: System)
    requires Reachable(cfg, s) && cutoff == now - threshold && StaleRuns(Current(s.history), cutoff, ids)
    requires forall e | e in ids :: e in Current(s.history).executions
    requires ApplyAll(Current(s.history), RunRecoveryWrites(ids, now)) == Some(after)
    ensures t == Apply(cfg, s, RecoverNow(RecoverRuns(now, threshold, ids)))
    ensures Reachable(cfg, t) && Current(t.history) == after && t.runs == s.runs && t.calls == s.calls && t.clock == s.clock
  {
    var x := RecoverRuns(now, threshold, ids);
    QueryAnswers(Current(s.history), x);
    AnsweredNow(s.history, x);
    PlanCommits(cfg, Current(s.history), x, RunRecoveryWrites(ids, now), after);
    t := PassIsRecover(cfg, s, x, after);
  }

  /** What `recover_stale_actions` does is one step of the system. */
  lemma ActionPassReaches(cfg: Config, s: System, now: Instant, threshold: nat, cutoff: Instant, ids: seq<Id>, after: Store) returns (t: System)
    requires Reachable(cfg, s) && cutoff == now - threshold && StaleActions(Current(s.history), cutoff, ids)
    requires forall a | a in ids :: a in Current(s.history).actionExecutions
    requires ApplyAll(Current(s.history), ActionRecoveryWrites(Current(s.history), ids, now)) == Some(after)
    ensures t == Apply(cfg, s, RecoverNow(RecoverActions(now, threshold, ids)))
    ensures Reachable(cfg, t) && Current(t.history) == after && t.runs == s.runs && t.calls == s.calls && t.clock == s.clock
  {
    var x := RecoverActions(now, threshold, ids);
    QueryAnswers(Current(s.history), x);
    AnsweredNow(s.history, x);
    PlanCommits(cfg, Current(s.history), x, ActionRecoveryWrites(Current(s.history), ids, now), after);
    t := PassIsRecover(cfg, s, x, after);
  }

  /** A pass can be made in every reachable state. */
  lemma RunPassExists(cfg: Config, s: System, now: Instant, threshold: nat) returns (t: System)
    requires Reachable(cfg, s) && threshold <= now
    ensures Reachable(cfg, t) && t.runs == s.runs && t.clock == s.clock
    ensures RunsRecovered(Current(s.history), now, threshold, Current(t.history))
  {
    var ids, after := RunPassDefined(Current(s.history), now, threshold);
    t := RunPassReaches(cfg, s, now, threshold, now - threshold, ids, after);
  }

  lemma ActionPassExists(cfg: Config, s: System, now: Instant, threshold: nat) returns (t: System)
    requires Reachable(cfg, s) && threshold <= now
    ensures Reachable(cfg, t) && t.calls == s.calls && t.clock == s.clock
    ensures ActionsRecovered(Current(s.history), now, threshold, Current(t.history))
  {
    ReachableConsistent(cfg, s);
    var ids, after := ActionPassDefined(Current(s.history), now, threshold);
    t := ActionPassReaches(cfg, s, now, threshold, now - threshold, ids, after);
  }

  // ---- Executions ---------------------------------------------------------------------------------------------

  /** What the executor was given, in the system's log. */
  ghost predicate LogsGiven(s: System, t: System, q: ExecuteRequest, given: seq<ActionProposal>)
  {
    t.executed == s.executed + (if given == [] then [] else [Invocation(q.actionId, given[0], q.now)])
  }

  /** How the first transaction of a call leaves the store and the call. */
  ghost predicate Begins(cfg: Config, s: Store, q: ExecuteRequest, fault: bool, t: Store, phase: CallPhase)
  {
    var answer := ExecuteAnswerOf(cfg, s, q);
    var (ending, after) := Attempt(cfg, s, s, BeginExecution(q), fault);
    && t == after
    && phase == if answer.Begins? && ending == Durable then Begun(answer.record, answer.row) else CallPhase.Closed
  }

  /** The call of this number is about this action and in this phase. */
  ghost predicate CallStands(s: System, i: int, a: Id, phase: CallPhase)
  {
    0 <= i < |s.calls| && s.calls[i].actionId == a && s.calls[i].phase == phase
  }

  /** The call, just ordered. */
  function OrderedCall(q: ExecuteRequest): ExecCall
  {
    ExecCall(q.actionId, q.actorId, Ordered(q.now), false, false)
  }

  /** The call has begun, or closed without beginning. */
  ghost predicate BegunBy(cfg: Config, s: System, i: int, q: ExecuteRequest, fault: bool, t: System, phase: CallPhase)
  {
    && t.clock == s.clock && t.executed == s.executed && CallStands(t, i, q.actionId, phase)
    && Begins(cfg, Current(s.history), q, fault, Current(t.history), phase)
  }

  lemma BeginStep(cfg: Config, s: System, i: nat, q: ExecuteRequest, x: Operation) returns (phase: CallPhase)
    requires i < |s.calls| && s.calls[i] == OrderedCall(q) && x.lag == 0 && x.newId == q.actionExecutionId
    ensures BegunBy(cfg, s, i, q, x.fault, Apply(cfg, s, Operate(i, x)), phase)
  {
    AlwaysEnabled(s.history, BeginExecution(q));
    ExtendNow(cfg, s.history, BeginExecution(q), x.fault);
    phase := BeginCall(cfg, s, i, s.calls[i], q.now, x).calls[i].phase;
  }

  lemma BeginReaches(cfg: Config, s: System, q: ExecuteRequest, fault: bool) returns (t: System, phase: CallPhase)
    requires Reachable(cfg, s) && s.clock == q.now
    ensures Reachable(cfg, t) && BegunBy(cfg, s, |s.calls|, q, fault, t, phase)
  {
    ReachableStep(cfg, s, Order(q.actionId, q.actorId));
    var u := Apply(cfg, s, Order(q.actionId, q.actorId));
    assert u == s.(calls := s.calls + [OrderedCall(q)]);
    var operation := Operation(0, fault, q.actionExecutionId, ExecutorDies);
    phase := BeginStep(cfg, u, |s.calls|, q, operation);
    ReachableStep(cfg, u, Operate(|s.calls|, operation));
    t := Apply(cfg, u, Operate(|s.calls|, operation));
  }

  function BehaviourOf(reply: ExecutorReply): ExecutorBehaviour
  {
    match reply
    case Replies(sim) => ExecutorReturns(sim)
    case Raises => ExecutorRaises
  }

  function SimulationOf(reply: ExecutorReply): Option<Simulation>
  {
    match reply
    case Replies(sim) => Some(sim)
    case Raises => None
  }

  /** The external effect and the time it takes. */
  lemma InvokeReaches(cfg: Config, s: System, i: nat, a: Id, record: ActionExecutionRecord, row: ActionRow, reply: ExecutorReply, later: Instant)
    returns (t: System)
    requires Reachable(cfg, s) && CallStands(s, i, a, Begun(record, row)) && s.clock <= later
    ensures Reachable(cfg, t) && t.history == s.history && t.clock == later
    ensures t.executed == s.executed + [Invocation(a, row.action, record.startedAt)]
    ensures CallStands(t, i, a, Returned(record, SimulationOf(reply)))
  {
    var invoke := Operate(i, Operation(0, false, "", BehaviourOf(reply)));
    ReachableStep(cfg, s, invoke);
    var u := Apply(cfg, s, invoke);
    ReachableStep(cfg, u, Tick(later - u.clock));
    t := Apply(cfg, u, Tick(later - u.clock));
  }

  /** The second transaction of a call, on the current state. */
  function FinishesCall(i: nat, fault: bool): Step
  {
    Operate(i, Operation(0, fault, "", ExecutorDies))
  }

  lemma FinishCommits(cfg: Config, s: Store, record: ActionExecutionRecord, sim: Option<Simulation>, now: Instant, fault: bool)
    ensures Attempt(cfg, s, s, FinishExecution(record, sim, now), fault).1 == Committed(s, FinishWrites(record, sim, now), fault).1
  {
  }

  lemma FinishReaches(cfg: Config, s: System, i: nat, a: Id, record: ActionExecutionRecord, sim: Option<Simulation>, fault: bool)
    returns (t: System)
    requires Reachable(cfg, s) && CallStands(s, i, a, Returned(record, sim))
    ensures t == Apply(cfg, s, FinishesCall(i, fault)) && Reachable(cfg, t) && t.executed == s.executed && t.clock == s.clock
    ensures Current(t.history) == Committed(Current(s.history), FinishWrites(record, sim, s.clock), fault).1
  {
    ReachableStep(cfg, s, FinishesCall(i, fault));
    t := Apply(cfg, s, FinishesCall(i, fault));
    AlwaysEnabled(s.history, FinishExecution(record, sim, s.clock));
    ExtendNow(cfg, s.history, FinishExecution(record, sim, s.clock), fault);
    FinishCommits(cfg, Current(s.history), record, sim, s.clock, fault);
  }

  /** A call of `execute` that begins has the meaning of its second half. */
  lemma MeaningSplits(cfg: Config, s: Store, q: ExecuteRequest, x: ExecuteInput, t: Store, phase: CallPhase)
    requires Begins(cfg, s, q, x.beginFault, t, phase)
    ensures var m := ExecuteMeaning(cfg, s, q, x);
      && (phase.Begun? ==>
            && m.store == Committed(t, FinishWrites(phase.record, SimulationOf(x.reply), x.later), x.finishFault).1
            && m.given == [phase.row.action] && phase.record.startedAt == q.now)
      && (!phase.Begun? ==> m.store == t && m.given == [])
  {
  }

  /** What `execute` does, whole: from every reachable state it leads to a reachable state with
      the store it leaves and the proposals it handed to the executor in the log. */
  lemma ExecuteReaches(cfg: Config, s: System, q: ExecuteRequest, x: ExecuteInput) returns (t: System)
    requires Reachable(cfg, s) && s.clock == q.now && q.now <= x.later
    ensures var m := ExecuteMeaning(cfg, Current(s.history), q, x);
      Reachable(cfg, t) && Current(t.history) == m.store && LogsGiven(s, t, q, m.given)
  {
    var u, phase := BeginReaches(cfg, s, q, x.beginFault);
    MeaningSplits(cfg, Current(s.history), q, x, Current(u.history), phase);
    if phase.Begun? {
      var v := InvokeReaches(cfg, u, |s.calls|, q.actionId, phase.record, phase.row, x.reply, x.later);
      t := FinishReaches(cfg, v, |s.calls|, q.actionId, phase.record, SimulationOf(x.reply), x.finishFault);
    } else {
      t := u;
    }
  }
}
