/** The executor over all histories: called at most once for each action, only for approved
    material, and a success row only when it returned (application/approval_service.py:146-258,
    adapters/persistence/models.py:110). */
module Executions {
  import opened Base
  import opened Timestamps
  import opened Actions
  import opened Store
  import opened Workflow
  import opened History
  import opened Approvals
  import opened Orchestration
  import opened System
  import opened Moves

  // ---- Claims ---------------------------------------------------------------------------------------------

  function InvokedIds(xs: seq<Invocation>): (r: seq<Id>)
    ensures |r| == |xs| && forall i | 0 <= i < |xs| :: r[i] == xs[i].actionId
  {
    seq(|xs|, i requires 0 <= i < |xs| => xs[i].actionId)
  }

  /** A call's phase against its flags, the store and the log of returns. */
  ghost predicate CallFits(c: ExecCall, s: Store, returned: seq<Id>)
  {
    && (c.begun ==> c.actionId in s.actionExecutions)
    && (c.invoked ==> c.begun)
    && (match c.phase
        case Ordered(_) => !c.begun && !c.invoked
        case Begun(record, _) => c.begun && !c.invoked && record.actionId == c.actionId
        case Returned(record, sim) =>
          c.invoked && record.actionId == c.actionId && (sim.Some? ==> c.actionId in returned)
        case Closed => true)
  }

  ghost predicate InvokedBy(calls: seq<ExecCall>, a: Id)
  {
    exists i | 0 <= i < |calls| :: calls[i].invoked && calls[i].actionId == a
  }

  /** Two calls never hold the same action, and the logs name only actions some call took to
      the executor. */
  ghost predicate Claims(s: System)
  {
    && (forall i | 0 <= i < |s.calls| :: CallFits(s.calls[i], Current(s.history), s.returned))
    && (forall i, j | 0 <= i < j < |s.calls| && s.calls[i].begun && s.calls[j].begun ::
          s.calls[i].actionId != s.calls[j].actionId)
    && Distinct(InvokedIds(s.executed)) && Distinct(s.returned)
    && (forall a | a in InvokedIds(s.executed) :: InvokedBy(s.calls, a))
    && forall a | a in s.returned :: a in InvokedIds(s.executed)
  }

  lemma CallFitsKept(c: ExecCall, s: Store, t: Store, before: seq<Id>, after: seq<Id>)
    requires CallFits(c, s, before) && Grows(s, t) && before <= after
    ensures CallFits(c, t, after)
  {
    assert forall a | a in before :: a in after;
  }

  /** Steps that touch no call. */
  lemma ClaimsByHistory(s: System, t: System)
    requires Claims(s) && Grows(Current(s.history), Current(t.history))
    requires t.calls == s.calls && t.executed == s.executed && t.returned == s.returned
    ensures Claims(t)
  {
    forall i | 0 <= i < |t.calls| ensures CallFits(t.calls[i], Current(t.history), t.returned) {
      CallFitsKept(s.calls[i], Current(s.history), Current(t.history), s.returned, t.returned);
    }
  }

  /** One call changes phase without going to the executor; its claim may become durable. */
  lemma ClaimsByCall(s: System, i: nat, c: ExecCall, t: System)
    requires Claims(s) && i < |s.calls| && Grows(Current(s.history), Current(t.history))
    requires t.calls == s.calls[i := c] && t.executed == s.executed && t.returned == s.returned
    requires c.actionId == s.calls[i].actionId && c.invoked == s.calls[i].invoked
    requires CallFits(c, Current(t.history), t.returned)
    requires c.begun && !s.calls[i].begun ==> c.actionId !in Current(s.history).actionExecutions
    ensures Claims(t)
  {
    forall j | 0 <= j < |t.calls| ensures CallFits(t.calls[j], Current(t.history), t.returned) {
      if j != i {
        CallFitsKept(s.calls[j], Current(s.history), Current(t.history), s.returned, t.returned);
      }
    }
    forall j | 0 <= j < |s.calls| ensures s.calls[j].begun ==> s.calls[j].actionId in Current(s.history).actionExecutions {
      assert CallFits(s.calls[j], Current(s.history), s.returned);
    }
    forall a | a in InvokedIds(t.executed) ensures InvokedBy(t.calls, a) {
      var j :| 0 <= j < |s.calls| && s.calls[j].invoked && s.calls[j].actionId == a;
      assert t.calls[j].invoked && t.calls[j].actionId == a;
    }
  }

  /** The step that calls the executor: nobody has called it for this action before. */
  lemma InvocationIsFirst(s: System, i: nat)
    requires Claims(s) && i < |s.calls| && s.calls[i].phase.Begun?
    ensures s.calls[i].actionId !in InvokedIds(s.executed) && s.calls[i].actionId !in s.returned
  {
    var a := s.calls[i].actionId;
    assert CallFits(s.calls[i], Current(s.history), s.returned);
    forall j | 0 <= j < |s.calls| && s.calls[j].invoked ensures s.calls[j].actionId != a {
      assert CallFits(s.calls[j], Current(s.history), s.returned);
    }
    assert !InvokedBy(s.calls, a);
  }

  lemma InvokeClaims(s: System, i: nat, b: ExecutorBehaviour)
    requires Claims(s) && i < |s.calls| && s.calls[i].phase.Begun?
    ensures Claims(InvokeExecutor(s, i, s.calls[i], s.calls[i].phase.record, s.calls[i].phase.row, b))
  {
    var c := s.calls[i];
    var t := InvokeExecutor(s, i, c, c.phase.record, c.phase.row, b);
    InvocationIsFirst(s, i);
    assert CallFits(c, Current(s.history), s.returned);
    assert InvokedIds(t.executed) == InvokedIds(s.executed) + [c.actionId];
    DistinctExtend(InvokedIds(s.executed), c.actionId);
    if b.ExecutorReturns? {
      DistinctExtend(s.returned, c.actionId);
    }
    forall j | 0 <= j < |t.calls| ensures CallFits(t.calls[j], Current(t.history), t.returned) {
      if j != i {
        GrowsReflexive(Current(s.history));
        CallFitsKept(s.calls[j], Current(s.history), Current(s.history), s.returned, t.returned);
      }
    }
    forall a | a in InvokedIds(t.executed) ensures InvokedBy(t.calls, a) {
      if a in InvokedIds(s.executed) {
        var j :| 0 <= j < |s.calls| && s.calls[j].invoked && s.calls[j].actionId == a;
        assert t.calls[j].invoked && t.calls[j].actionId == a;
      } else {
        assert t.calls[i].invoked && t.calls[i].actionId == a;
      }
    }
  }

  lemma OrderClaims(s: System, c: ExecCall)
    requires Claims(s) && c.phase.Ordered? && !c.begun && !c.invoked
    ensures Claims(s.(calls := s.calls + [c]))
  {
    var t := s.(calls := s.calls + [c]);
    forall a | a in InvokedIds(t.executed) ensures InvokedBy(t.calls, a) {
      var j :| 0 <= j < |s.calls| && s.calls[j].invoked && s.calls[j].actionId == a;
      assert t.calls[j] == s.calls[j];
    }
  }

  /** Every move keeps the claims. */
  lemma MovesClaims(s: System, m: Move, t: System)
    requires Claims(s) && Makes(s, m, t)
    ensures Claims(t)
  {
    MovesGrow(s, m, t);
    match m
    case Orders(c) => OrderClaims(s, c);
    case Invokes(i, b) => InvokeClaims(s, i, b);
    case Drops(i) => CallClaims(s, i, t);
    case Tries(i, _) => CallClaims(s, i, t);
    case Takes(i, _, _, _, _) => CallClaims(s, i, t);
    case Finishes(i) => CallClaims(s, i, t);
    case _ => ClaimsByHistory(s, t);
  }

  /** A call that does not go to the executor keeps the claims. */
  lemma CallClaims(s: System, i: nat, t: System)
    requires Claims(s) && i < |s.calls| && Grows(Current(s.history), Current(t.history))
    requires i < |t.calls| && t == s.(history := t.history, events := t.events, calls := s.calls[i := t.calls[i]])
    requires var (c, d) := (s.calls[i], t.calls[i]);
      || d == c.(phase := Closed)
      || (c.phase.Ordered? && d.phase.Begun? && d == c.(phase := d.phase, begun := true) && d.phase.record.actionId == c.actionId
          && c.actionId !in Current(s.history).actionExecutions && c.actionId in Current(t.history).actionExecutions)
    ensures Claims(t)
  {
    assert CallFits(s.calls[i], Current(s.history), s.returned);
    CallFitsKept(s.calls[i], Current(s.history), Current(t.history), s.returned, t.returned);
    ClaimsByCall(s, i, t.calls[i], t);
  }

  // ---- Success rows ---------------------------------------------------------------------------------------------

  /** A success row is the record of a normal return. */
  ghost predicate SuccessesReturned(s: System)
  {
    forall a | ActionStateOf(Current(s.history), a) == Some(Succeeded) :: a in s.returned
  }

  lemma TriedSuccesses(s: System, x: Transaction, t: System)
    requires SuccessesReturned(s) && Tried(s.history, x, t.history) && t.returned == s.returned
    requires x.FinishExecution? && x.simulation.Some? ==> x.started.actionId in s.returned
    ensures SuccessesReturned(t)
  {
  }

  lemma MovesSuccesses(s: System, m: Move, t: System)
    requires SuccessesReturned(s) && Claims(s) && Makes(s, m, t)
    ensures SuccessesReturned(t)
  {
    match m
    case Goes(i, _, _, _, _) =>
      var x := TransactionOf(s.runs[i], s.clock);
      if x.Some? {
        TriedSuccesses(s, x.value, t);
      }
    case Shares(x, _) => TriedSuccesses(s, x, t);
    case Tries(_, q) => TriedSuccesses(s, BeginExecution(q), t);
    case Takes(_, q, _, _, _) => TriedSuccesses(s, BeginExecution(q), t);
    case Finishes(i) =>
      var phase := s.calls[i].phase;
      assert CallFits(s.calls[i], Current(s.history), s.returned);
      TriedSuccesses(s, FinishExecution(phase.record, phase.simulation, s.clock), t);
    case _ =>
  }

  // ---- What the executor is given --------------------------------------------------------------------------------

  /** Some committed state cleared this action, on this row, at this time. */
  ghost predicate ClearedRow(cfg: Config, h: Commits, a: Id, row: ActionRow, at: Instant)
  {
    exists j | 0 <= j < |h| :: Clears(cfg, h[j], a, at) && h[j].actions[a] == row
  }

  ghost predicate InvocationCleared(cfg: Config, h: Commits, v: Invocation)
  {
    exists j | 0 <= j < |h| :: Clears(cfg, h[j], v.actionId, v.startedAt) && h[j].actions[v.actionId].action == v.action
  }

  ghost predicate CallCleared(cfg: Config, h: Commits, c: ExecCall)
  {
    c.phase.Begun? ==> ClearedRow(cfg, h, c.actionId, c.phase.row, c.phase.record.startedAt)
  }

  ghost predicate OnlyCleared(cfg: Config, s: System)
  {
    && (forall i | 0 <= i < |s.calls| :: CallCleared(cfg, s.history, s.calls[i]))
    && forall k | 0 <= k < |s.executed| :: InvocationCleared(cfg, s.history, s.executed[k])
  }

  lemma CallClearedKept(cfg: Config, h: Commits, g: Commits, c: ExecCall)
    requires CallCleared(cfg, h, c) && h <= g
    ensures CallCleared(cfg, g, c)
  {
    if c.phase.Begun? {
      var j :| 0 <= j < |h| && Clears(cfg, h[j], c.actionId, c.phase.record.startedAt)
        && h[j].actions[c.actionId] == c.phase.row;
      assert g[j] == h[j];
    }
  }

  lemma InvocationClearedKept(cfg: Config, h: Commits, g: Commits, v: Invocation)
    requires InvocationCleared(cfg, h, v) && h <= g
    ensures InvocationCleared(cfg, g, v)
  {
    var j :| 0 <= j < |h| && Clears(cfg, h[j], v.actionId, v.startedAt) && h[j].actions[v.actionId].action == v.action;
    assert g[j] == h[j];
  }

  lemma ClearedKept(cfg: Config, s: System, t: System)
    requires OnlyCleared(cfg, s) && s.history <= t.history && |t.calls| >= |s.calls|
    requires forall k | 0 <= k < |t.executed| ::
               (k < |s.executed| && t.executed[k] == s.executed[k]) || InvocationCleared(cfg, t.history, t.executed[k])
    requires forall i | 0 <= i < |t.calls| ::
               (i < |s.calls| && t.calls[i] == s.calls[i]) || CallCleared(cfg, t.history, t.calls[i])
    ensures OnlyCleared(cfg, t)
  {
    forall i | 0 <= i < |t.calls| ensures CallCleared(cfg, t.history, t.calls[i]) {
      if i < |s.calls| && t.calls[i] == s.calls[i] {
        CallClearedKept(cfg, s.history, t.history, s.calls[i]);
      }
    }
    forall k | 0 <= k < |t.executed| ensures InvocationCleared(cfg, t.history, t.executed[k]) {
      if k < |s.executed| && t.executed[k] == s.executed[k] {
        InvocationClearedKept(cfg, s.history, t.history, s.executed[k]);
      }
    }
  }

  lemma InvokeCleared(cfg: Config, s: System, i: nat, b: ExecutorBehaviour)
    requires OnlyCleared(cfg, s) && i < |s.calls| && s.calls[i].phase.Begun?
    ensures OnlyCleared(cfg, InvokeExecutor(s, i, s.calls[i], s.calls[i].phase.record, s.calls[i].phase.row, b))
  {
    var c := s.calls[i];
    var t := InvokeExecutor(s, i, c, c.phase.record, c.phase.row, b);
    assert CallCleared(cfg, s.history, c);
    assert InvocationCleared(cfg, t.history, t.executed[|s.executed|]);
    ClearedKept(cfg, s, t);
  }

  lemma TakeKeepsCleared(cfg: Config, s: System, m: Move, t: System)
    requires OnlyCleared(cfg, s) && Makes(s, m, t) && m.Takes? && TakesCleared(cfg, s.history, m)
    ensures OnlyCleared(cfg, t)
  {
    MovesGrow(s, m, t);
    var j :| 0 <= j < |s.history| && s.history[j] == m.snap;
    assert t.history[j] == m.snap;
    assert CallCleared(cfg, t.history, t.calls[m.call]);
    ClearedKept(cfg, s, t);
  }

  lemma MovesCleared(cfg: Config, s: System, m: Move, t: System)
    requires OnlyCleared(cfg, s) && Makes(s, m, t) && TakesCleared(cfg, s.history, m)
    ensures OnlyCleared(cfg, t)
  {
    if m.Takes? {
      TakeKeepsCleared(cfg, s, m, t);
    } else if m.Invokes? {
      InvokeCleared(cfg, s, m.call, m.behaviour);
    } else {
      MovesGrow(s, m, t);
      ClearedKept(cfg, s, t);
    }
  }

  lemma {:induction false} EveryStateCleared(cfg: Config, steps: seq<Step>)
    ensures OnlyCleared(cfg, RunSteps(cfg, steps))
  {
    if steps != [] {
      var init, step := steps[..|steps| - 1], steps[|steps| - 1];
      EveryStateCleared(cfg, init);
      SystemRecorded(cfg, init);
      var m := StepMoves(cfg, RunSteps(cfg, init), step);
      MovesCleared(cfg, RunSteps(cfg, init), m, RunSteps(cfg, steps));
    }
  }

  // ---- The guarantees ------------------------------------------------------------------------------------------------

  /** The log of the executor is in order. */
  ghost predicate InOrder(s: System)
  {
    Claims(s) && SuccessesReturned(s)
  }

  lemma OrderInvariant()
    ensures Invariant(s => InOrder(s))
  {
    forall s: System, m, t | InOrder(s) && Makes(s, m, t) ensures InOrder(t) {
      MovesClaims(s, m, t);
      MovesSuccesses(s, m, t);
    }
  }

  lemma ReachableInOrder(cfg: Config, s: System)
    requires Reachable(cfg, s)
    ensures InOrder(s)
  {
    OrderInvariant();
    ReachableInvariant(cfg, s => InOrder(s), s);
  }

  /** With concurrent callers, stale reads, crashes between the two transactions and retries
      after failures, the executor is called at most once for each action. */
  lemma ExecutorAtMostOnce(cfg: Config, s: System)
    requires Reachable(cfg, s)
    ensures Distinct(InvokedIds(s.executed))
  {
    ReachableInOrder(cfg, s);
  }

  /** The value occurs in the log, once. */
  ghost predicate OccursOnce(log: seq<Id>, a: Id)
  {
    exists j | 0 <= j < |log| :: log[j] == a && forall k | 0 <= k < |log| && log[k] == a :: k == j
  }

  lemma DistinctOccursOnce(log: seq<Id>, a: Id)
    requires Distinct(log) && a in log
    ensures OccursOnce(log, a)
  {
    var j :| 0 <= j < |log| && log[j] == a;
    assert forall k | 0 <= k < |log| && log[k] == a :: k == j;
  }

  /** A SUCCEEDED row means the executor was called once for the action and returned normally,
      once. */
  lemma SucceededMeansReturnedOnce(cfg: Config, s: System, a: Id)
    requires Reachable(cfg, s) && ActionStateOf(Current(s.history), a) == Some(Succeeded)
    ensures OccursOnce(s.returned, a) && OccursOnce(InvokedIds(s.executed), a)
  {
    ReachableInOrder(cfg, s);
    DistinctOccursOnce(s.returned, a);
    DistinctOccursOnce(InvokedIds(s.executed), a);
  }

  /** The executor is only ever given a proposal that some committed state cleared: approved by
      an authorized reviewer, unexpired, with the approved digest and policy version. */
  lemma ExecutorOnlyGetsCleared(cfg: Config, s: System, v: Invocation)
    requires Reachable(cfg, s) && v in s.executed
    ensures InvocationCleared(cfg, s.history, v)
  {
    var steps: seq<Step> :| s == RunSteps(cfg, steps);
    EveryStateCleared(cfg, steps);
  }
}
