/** The orchestrator as it runs: `run` with its loop, its four transactions and its exits,
    proved to walk the phases of the run machine (application/orchestrator.py:93-513). */
module Orchestrator {
  import opened Base
  import opened Json
  import opened Timestamps
  import opened Entities
  import opened Actions
  import opened Triage
  import opened Policy
  import opened Gateway
  import opened Store
  import opened Workflow
  import opened Orchestration

  // ---- Walks of the run machine ------------------------------------------------------------------------

  /** What the environment does at each step, and the clock. */
  datatype World = World(inputs: int -> Input, clock: int -> Instant)

  datatype Point = Point(steps: int, store: Store, run: Run)

  /** One step of the machine over a store nobody else is using. */
  ghost function StepPoint(cfg: Config, w: World, p: Point): Point
  {
    var (t, r) := Alone(cfg, p.run, p.store, w.clock(p.steps), w.inputs(p.steps));
    Point(p.steps + 1, t, r)
  }

  /** `k` steps of any machine. */
  ghost function Walk(step: Point -> Point, p: Point, k: nat): Point
  {
    if k == 0 then p else step(Walk(step, p, k - 1))
  }

  ghost predicate Leads(step: Point -> Point, p: Point, q: Point)
  {
    p.steps <= q.steps && Walk(step, p, q.steps - p.steps) == q
  }

  lemma LeadsNext(step: Point -> Point, p: Point, q: Point)
    requires Leads(step, p, q) && step(q).steps == q.steps + 1
    ensures Leads(step, p, step(q))
  {
  }

  ghost function Machine(cfg: Config, w: World): Point -> Point
  {
    q => StepPoint(cfg, w, q)
  }

  /** The run machine gets from the run's entry to this point. */
  ghost predicate Visits(cfg: Config, w: World, p: Point, q: Point)
  {
    Leads(Machine(cfg, w), p, q)
  }

  /** A set of points that contains the next point with each point. */
  ghost predicate Closed(cfg: Config, w: World, reach: Point -> bool)
  {
    forall q {:trigger StepPoint(cfg, w, q)} :: reach(q) ==> reach(StepPoint(cfg, w, q))
  }

  lemma VisitsClosed(cfg: Config, w: World, p: Point)
    ensures Closed(cfg, w, q => Visits(cfg, w, p, q)) && Visits(cfg, w, p, p)
  {
    forall q {:trigger StepPoint(cfg, w, q)} | Visits(cfg, w, p, q) ensures Visits(cfg, w, p, StepPoint(cfg, w, q)) {
      LeadsNext(Machine(cfg, w), p, q);
    }
  }

  /** A phase that waits for something other than a transaction. */
  lemma Waiting(cfg: Config, w: World, reach: Point -> bool, q: Point, next: Phase)
    requires Closed(cfg, w, reach) && reach(q) && TransactionOf(q.run, w.clock(q.steps)).None?
    requires next == Next(cfg, q.run, q.store, Left, w.clock(q.steps), w.inputs(q.steps))
    ensures reach(Point(q.steps + 1, q.store, q.run.(phase := next)))
  {
    assert StepPoint(cfg, w, q) == Point(q.steps + 1, q.store, q.run.(phase := next));
  }

  /** A phase whose transaction ends this way. */
  lemma Committing(cfg: Config, w: World, reach: Point -> bool, q: Point, tx: Transaction, ending: Ending, t: Store, next: Phase)
    requires Closed(cfg, w, reach) && reach(q) && TransactionOf(q.run, w.clock(q.steps)) == Some(tx)
    requires RunAttempt(q.store, q.store, tx, w.inputs(q.steps).fault) == (ending, t)
    requires next == Next(cfg, q.run, q.store, ending, w.clock(q.steps), w.inputs(q.steps))
    ensures reach(Point(q.steps + 1, t, q.run.(phase := next)))
  {
    assert StepPoint(cfg, w, q) == Point(q.steps + 1, t, q.run.(phase := next));
  }

  /** The machine gets to this store and phase in this many steps. */
  ghost predicate Reaches(reach: Point -> bool, m: int, s: Store, r: Run, phase: Phase)
  {
    reach(Point(m, s, r.(phase := phase)))
  }

  // ---- A consultation, in the machine's steps ----------------------------------------------------------

  lemma HeadEnds(cfg: Config, w: World, reach: Point -> bool, n: int, s: Store, r: Run, loop: Loop, since: Instant, turn: HeadTurn)
    requires Closed(cfg, w, reach) && Reaches(reach, n, s, r, Head(loop, since))
    requires turn == HeadTurnOf(cfg, loop, w.inputs(n).contextBytes, w.clock(n))
    ensures Reaches(reach, n + 1, s, r, HeadPhase(r.alert, loop, turn, w.clock(n)))
  {
    Waiting(cfg, w, reach, Point(n, s, r.(phase := Head(loop, since))), HeadPhase(r.alert, loop, turn, w.clock(n)));
  }

  lemma ThinkingNext(cfg: Config, r: Run, s: Store, loop: Loop, elapsedMs: nat, since: Instant, clock: Instant, x: Input)
    requires r.phase == Thinking(loop, elapsedMs, since)
    ensures TransactionOf(r, clock).None?
    ensures Next(cfg, r, s, Left, clock, x)
         == ConsultedPhase(cfg, r.alert, loop, StepTurn(loop, x.reasoner, x.newId), x.actionIds, clock)
  {
  }

  lemma ThinkingEnds(cfg: Config, w: World, reach: Point -> bool, n: int, s: Store, r: Run, loop: Loop, elapsedMs: nat,
    since: Instant, turn: Consulted)
    requires Closed(cfg, w, reach) && Reaches(reach, n, s, r, Thinking(loop, elapsedMs, since))
    requires turn == StepTurn(loop, w.inputs(n).reasoner, w.inputs(n).newId)
    ensures Reaches(reach, n + 1, s, r, ConsultedPhase(cfg, r.alert, loop, turn, w.inputs(n).actionIds, w.clock(n)))
  {
    var at := r.(phase := Thinking(loop, elapsedMs, since));
    ThinkingNext(cfg, at, s, loop, elapsedMs, since, w.clock(n), w.inputs(n));
    Waiting(cfg, w, reach, Point(n, s, at),
      ConsultedPhase(cfg, r.alert, loop, turn, w.inputs(n).actionIds, w.clock(n)));
  }

  lemma CallingEnds(cfg: Config, w: World, reach: Point -> bool, n: int, s: Store, r: Run, loop: Loop,
    request: ProposedToolRequest, since: Instant, g: GatewayContext, result: GatewayResult)
    requires Closed(cfg, w, reach) && Reaches(reach, n, s, r, Calling(loop, request, since))
    requires (g, result) == Invoke(cfg.registry, loop.gateway, request, w.inputs(n).tool, CallTimes(since, w.clock(n)))
    ensures g.records != []
    ensures Reaches(reach, n + 1, s, r, Persisting(loop, g, g.records[|g.records| - 1], result, w.clock(n)))
  {
    InvokeRecords(cfg.registry, loop.gateway, request, w.inputs(n).tool, CallTimes(since, w.clock(n)));
    Waiting(cfg, w, reach, Point(n, s, r.(phase := Calling(loop, request, since))),
      Persisting(loop, g, g.records[|g.records| - 1], result, w.clock(n)));
  }

  lemma PersistingNext(cfg: Config, r: Run, s: Store, loop: Loop, g: GatewayContext, record: ToolInvocationRecord,
    result: GatewayResult, since: Instant, clock: Instant, x: Input)
    requires r.phase == Persisting(loop, g, record, result, since)
    ensures Next(cfg, r, s, Durable, clock, x) == AfterTool(cfg, r.alert, loop, g, record, result, x.newId, clock)
    ensures Next(cfg, r, s, Aborted, clock, x) == Recording(loop.openedAt, ToolPersistenceFailed, clock)
  {
  }

  /** What one iteration amounts to: the loop ends, with a termination reason or a candidate,
      it continues with one more item, or the run is over. */
  datatype Turn =
    | Ends(termination: Termination)
    | Proposes(candidate: CandidateAssessment)
    | Continues(item: Accumulated)
    | IsOver(outcome: Option<Outcome>)

  class TriageOrchestrator {
    const cfg: Config
    const database: Database
    const world: World

    constructor (cfg: Config, database: Database, world: World)
      ensures this.cfg == cfg && this.database == database && this.world == world
    {
      this.cfg, this.database, this.world := cfg, database, world;
    }

    /** `_record_persistence_failure`: best effort, and only while the row is RUNNING. */
    method RecordPersistenceFailure(r: Run, ghost openedAt: Instant, category: FailureCategory, ghost since: Instant, n: int, ghost reach: Point -> bool)
      requires Closed(cfg, world, reach)
      requires reach(Point(n, database.store, r.(phase := Recording(openedAt, category, since))))
      modifies database
      ensures reach(Point(n + 1, database.store, r.(phase := NotDurable(r.executionId))))
    {
      var x, now := world.inputs(n), world.clock(n);
      ghost var q := Point(n, database.store, r.(phase := Recording(openedAt, category, since)));
      ghost var tx := FailRun(r.executionId, category, now);
      var uow := new UnitOfWork(database);
      var rows := uow.snapshot;
      ghost var ending := Aborted;
      if !x.fault {
        if r.executionId !in rows.executions || rows.executions[r.executionId].state != Running {
          ending := Left;
        } else {
          uow.Stage(ReplaceExecution(r.executionId, TriageFailed, now, Some(category)));
          uow.Stage(AppendAudit(PersistenceFailed(r.executionId, category)));
          assert uow.pending == FailureWrites(r.executionId, category, now);
          var ok := uow.Commit(x.fault);
          ending := if ok then Durable else Aborted;
        }
      }
      Committing(cfg, world, reach, q, tx, ending, database.store, NotDurable(r.executionId));
    }

    /** `_find_replay`. */
    method FindReplay(r: Run, n: int, ghost reach: Point -> bool) returns (replay: Option<Outcome>)
      requires Closed(cfg, world, reach) && r.phase.Entered? && reach(Point(n, database.store, r))
      ensures replay.Some? ==> reach(Point(n + 1, database.store, r.(phase := Ended(replay))))
      ensures replay.None? ==>
                reach(Point(n + 1, database.store, r.(phase := Starting(world.clock(n)))))
    {
      var x := world.inputs(n);
      Waiting(cfg, world, reach, Point(n, database.store, r), AfterLookup(r.key, r.executionId, database.store, x.fault, world.clock(n)));
      if x.fault {
        return Some(Outcome(r.executionId, false, PersistenceFailure, None));
      }
      var uow := new UnitOfWork(database);
      var rows := uow.snapshot;
      if r.key !in rows.keys {
        return None;
      }
      var existing := rows.keys[r.key];
      var result := if existing in rows.results then Some(rows.results[existing]) else None;
      replay := Some(Outcome(existing, true, IdempotentReplay, result));
    }

    /** The block of `_persist_start`; a key that does not parse raises inside it. */
    method StoreStart(r: Run, now: Instant, fault: bool) returns (ok: bool)
      modifies database
      ensures var (ending, t) := RunAttempt(old(database.store), old(database.store),
                StartRun(r.alert, r.key, r.executionId, now), fault);
        ok == (ending == Durable) && database.store == t
        && (!ok ==> ending == if !fault && ParseIdentifier(r.key).None? then Left else Aborted)
    {
      var uow := new UnitOfWork(database);
      if r.alert.alertId !in uow.snapshot.alerts {
        uow.Stage(AddAlert(r.alert));
      }
      var key := ParseIdentifier(r.key);
      if key.None? {
        return false;
      }
      uow.Stage(AddExecution(r.executionId, ExecutionRow(r.alert.alertId, Running, key.value, now, now, None)));
      uow.Stage(AppendAudit(ExecutionStarted(r.executionId)));
      assert uow.pending == StartWrites(database.store, r.alert, key.value, r.executionId, now);
      ok := uow.Commit(fault);
    }

    /** `_persist_start`, and the failure it records when its commit fails. */
    method PersistStart(r: Run, now: Instant, n: int, ghost reach: Point -> bool) returns (ok: bool, m: int)
      requires Closed(cfg, world, reach)
      requires reach(Point(n, database.store, r.(phase := Starting(now))))
      modifies database
      ensures ok ==>
                m == n + 1
                && reach(Point(m, database.store, r.(phase := AfterStart(cfg, r.alert, r.executionId, now, Durable, world.clock(n)))))
      ensures !ok ==> reach(Point(m, database.store, r.(phase := NotDurable(r.executionId))))
    {
      var x := world.inputs(n);
      ghost var q := Point(n, database.store, r.(phase := Starting(now)));
      ghost var tx := StartRun(r.alert, r.key, r.executionId, now);
      ok := StoreStart(r, now, x.fault);
      m := n + 1;
      ghost var ending := if ok then Durable else if !x.fault && ParseIdentifier(r.key).None? then Left else Aborted;
      Committing(cfg, world, reach, q, tx, ending, database.store, AfterStart(cfg, r.alert, r.executionId, now, ending, world.clock(n)));
      if !ok {
        RecordPersistenceFailure(r, now, StartPersistenceFailed, world.clock(n), m, reach);
        m := m + 1;
      }
    }

    /** The block of `_persist_tool`. */
    method StoreTool(record: ToolInvocationRecord, result: GatewayResult, fault: bool) returns (ok: bool)
      modifies database
      ensures (if ok then Durable else Aborted, database.store)
           == RunAttempt(old(database.store), old(database.store), RecordTool(record, result.result), fault)
    {
      var uow := new UnitOfWork(database);
      uow.Stage(AddInvocation(InvocationRow(record, result.result)));
      uow.Stage(AppendAudit(ToolInvoked(record.executionId, record.callId, record.authorization, record.outcome)));
      assert uow.pending == ToolWrites(record, result.result);
      ok := uow.Commit(fault);
    }

    /** `_persist_tool`, and the failure it records. */
    method PersistTool(r: Run, loop: Loop, g: GatewayContext, record: ToolInvocationRecord, result: GatewayResult,
      ghost since: Instant, n: int, ghost reach: Point -> bool) returns (ok: bool, m: int)
      requires Closed(cfg, world, reach)
      requires Reaches(reach, n, database.store, r, Persisting(loop, g, record, result, since))
      modifies database
      ensures ok ==>
                m == n + 1
                && Reaches(reach, m, database.store, r,
                     AfterTool(cfg, r.alert, loop, g, record, result, world.inputs(n).newId, world.clock(n)))
      ensures !ok ==> Reaches(reach, m, database.store, r, NotDurable(r.executionId))
    {
      ghost var before := database.store;
      ok := StoreTool(record, result, world.inputs(n).fault);
      m := n + 1;
      ghost var q := Point(n, before, r.(phase := Persisting(loop, g, record, result, since)));
      ghost var tx := RecordTool(record, result.result);
      PersistingNext(cfg, q.run, before, loop, g, record, result, since, world.clock(n), world.inputs(n));
      if ok {
        Committing(cfg, world, reach, q, tx, Durable, database.store,
          AfterTool(cfg, r.alert, loop, g, record, result, world.inputs(n).newId, world.clock(n)));
      } else {
        Committing(cfg, world, reach, q, tx, Aborted, database.store, Recording(loop.openedAt, ToolPersistenceFailed, world.clock(n)));
        RecordPersistenceFailure(r, loop.openedAt, ToolPersistenceFailed, world.clock(n), m, reach);
        m := m + 1;
      }
    }

    /** `_persist_final`, and the failure it records when its commit fails. */
    method PersistFinal(r: Run, ghost openedAt: Instant, d: PolicyDecision, reason: ReasonCode, ghost since: Instant,
      n: int, ghost reach: Point -> bool) returns (outcome: Outcome, m: int)
      requires Closed(cfg, world, reach)
      requires reach(Point(n, database.store, r.(phase := Finalizing(openedAt, d, reason, since))))
      modifies database
      ensures Reaches(reach, m, database.store, r, Ended(Some(outcome)))
    {
      var x, now := world.inputs(n), world.clock(n);
      ghost var q := Point(n, database.store, r.(phase := Finalizing(openedAt, d, reason, since)));
      ghost var tx := FinishRun(r.executionId, d, now);
      var terminal := if d.result.disposition.NeedsReview? then TriageState.NeedsReview else Completed;
      m := n + 1;
      outcome := Outcome(r.executionId, false, PersistenceFailure, None);
      var uow := new UnitOfWork(database);
      var rows := uow.snapshot;
      if !x.fault && r.executionId !in rows.executions {
        Committing(cfg, world, reach, q, tx, Left, database.store, NotDurable(r.executionId));
        return;
      }
      var ok := false;
      if !x.fault {
        StageFinal(uow, r.executionId, d, terminal, now);
        ok := uow.Commit(x.fault);
      }
      if ok {
        outcome := Outcome(r.executionId, true, reason, Some(d.result));
        Committing(cfg, world, reach, q, tx, Durable, database.store, Ended(Some(outcome)));
        return;
      }
      Committing(cfg, world, reach, q, tx, Aborted, database.store, Recording(openedAt, FinalizationFailed, now));
      RecordPersistenceFailure(r, openedAt, FinalizationFailed, now, m, reach);
      m := m + 1;
    }

    /** The writes of the final transaction, action by action. */
    method StageFinal(uow: UnitOfWork, e: Id, d: PolicyDecision, terminal: TriageState, now: Instant)
      requires uow.pending == [] && e in uow.snapshot.executions && terminal == TerminalState(d.result)
      modifies uow
      ensures uow.pending == FinalWrites(uow.snapshot, e, d, now)
    {
      var actions := d.result.recommendedActions;
      for k := 0 to |actions|
        invariant uow.pending == ActionWrites(e, d.policyVersion, actions[..k])
      {
        assert actions[..k + 1][..k] == actions[..k];
        uow.Stage(AddAction(ActionRow(e, d.policyVersion, actions[k])));
      }
      assert actions[..|actions|] == actions;
      uow.Stage(AddResult(e, d.result));
      uow.Stage(ReplaceExecution(e, terminal, now, uow.snapshot.executions[e].failure));
      uow.Stage(AppendAudit(PolicyEnforced(e, d.reasonCodes, d.result.disposition)));
      uow.Stage(AppendAudit(ExecutionTerminal(e, terminal)));
    }

    /** The checks at the head of an iteration. */
    method CheckHead(loop: Loop, n: int) returns (turn: HeadTurn)
      ensures turn == HeadTurnOf(cfg, loop, world.inputs(n).contextBytes, world.clock(n))
    {
      var elapsedMs := MonotonicMs(world.clock(n)) - MonotonicMs(loop.startedAt);
      if elapsedMs >= cfg.limits.deadlineMs {
        return Stops(DeadlineExceeded);
      }
      if cfg.guidance {
        var targets := ShownTargets(loop.gateway.scope);
        if targets.None? {
          return Throws;
        }
      }
      if world.inputs(n).contextBytes > cfg.limits.maxContextBytes {
        return Stops(ContextLimit);
      }
      turn := Proceeds(if elapsedMs < 0 then 0 else elapsedMs);
    }

    /** The reasoner's future: it times out, raises, or returns something to validate. */
    method AwaitStep(loop: Loop, n: int) returns (turn: Consulted)
      ensures turn == StepTurn(loop, world.inputs(n).reasoner, world.inputs(n).newId)
    {
      var x := world.inputs(n);
      if x.reasoner.ReasonerTimesOut? {
        return Leaves(DeadlineExceeded);
      }
      if x.reasoner.ReasonerRaises? {
        return Leaves(ReasonerFailure);
      }
      if x.reasoner.step.None? {
        return Leaves(InvalidReasonerOutput);
      }
      var step := x.reasoner.step.value;
      if step.CandidateStep? {
        if !CandidateReferencesValid(step.candidate, loop.accumulated) {
          return Leaves(EvidenceReferenceViolation);
        }
        return Offers(step.candidate);
      }
      turn := Asks(ProposedToolRequest(x.newId, step.toolName, step.arguments));
    }

    /** What follows a durable call: it ends the loop, or its outcome becomes evidence. */
    method Accumulate(loop: Loop, record: ToolInvocationRecord, result: GatewayResult, n: int) returns (turn: Called)
      ensures turn == CallTurn(cfg, loop, record, result, world.inputs(n).newId)
    {
      if !result.status.Success? {
        return Exits(if result.authorization.Denied? then ToolRequestDenied else ToolFailed);
      }
      if |loop.accumulated| >= cfg.limits.maxEvidenceItems {
        return Exits(ContextLimit);
      }
      var outcome := if result.result.Some? then result.result.value else Obj([]);
      var item := ToEvidence(cfg, record, outcome, world.inputs(n).newId);
      turn := if item.None? then Escapes else GoesOn(item.value);
    }

    /** The gateway call, its durable record, and what follows it; None when the record failed. */
    method CallTool(r: Run, loop: Loop, context: ToolExecutionContext, request: ProposedToolRequest, since: Instant,
      n: int, ghost reach: Point -> bool) returns (turn: Option<Called>, m: int)
      requires Closed(cfg, world, reach) && loop.gateway == context.Value()
      requires Reaches(reach, n, database.store, r, Calling(loop, request, since))
      modifies database, context
      ensures turn.None? ==> Reaches(reach, m, database.store, r, NotDurable(r.executionId))
      ensures turn.Some? ==>
                m == n + 2
                && Reaches(reach, m, database.store, r,
                     CalledPhase(cfg, r.alert, loop, context.Value(), turn.value, world.clock(n + 1)))
    {
      var x, now := world.inputs(n), world.clock(n);
      var result := context.InvokeTool(cfg.registry, request, x.tool, CallTimes(since, now));
      CallingEnds(cfg, world, reach, n, database.store, r, loop, request, since, context.Value(), result);
      var record := context.invocationRecords[|context.invocationRecords| - 1];
      turn, m := StoreCall(r, loop, context.Value(), record, result, now, n + 1, reach);
    }

    method StoreCall(r: Run, loop: Loop, g: GatewayContext, record: ToolInvocationRecord, result: GatewayResult,
      ghost since: Instant, n: int, ghost reach: Point -> bool) returns (turn: Option<Called>, m: int)
      requires Closed(cfg, world, reach)
      requires Reaches(reach, n, database.store, r, Persisting(loop, g, record, result, since))
      modifies database
      ensures turn.None? ==> Reaches(reach, m, database.store, r, NotDurable(r.executionId))
      ensures turn.Some? ==>
                m == n + 1
                && Reaches(reach, m, database.store, r, CalledPhase(cfg, r.alert, loop, g, turn.value, world.clock(n)))
    {
      var ok;
      ok, m := PersistTool(r, loop, g, record, result, since, n, reach);
      if !ok {
        return None, m;
      }
      var called := Accumulate(loop, record, result, n);
      turn := Some(called);
    }

    /** The head of iteration `loop.iteration`, or the exit of a loop that has run out of them. */
    ghost function LoopPhase(r: Run, loop: Loop, n: int): Phase
    {
      if loop.iteration <= cfg.limits.maxIterations then Head(loop, world.clock(n - 1))
      else SafeExit(r.alert, loop.openedAt, IterationLimit, world.clock(n - 1))
    }

    /** The phase an iteration leaves the run in. */
    ghost function TurnPhase(r: Run, loop: Loop, g: GatewayContext, turn: Turn, n: int): Phase
    {
      match turn
      case Ends(t) => SafeExit(r.alert, loop.openedAt, t, world.clock(n - 1))
      case Proposes(c) =>
        CandidateExit(cfg, r.alert, loop.openedAt, c, world.inputs(n - 1).actionIds, world.clock(n - 1))
      case IsOver(outcome) => Ended(outcome)
      case Continues(item) =>
        LoopPhase(r, loop.(iteration := loop.iteration + 1, accumulated := loop.accumulated + [item], gateway := g), n)
    }

    /** One iteration: the head, the reasoner, and at most one tool call. */
    method Iterate(r: Run, loop: Loop, context: ToolExecutionContext, n: int, ghost reach: Point -> bool)
      returns (turn: Turn, m: int)
      requires Closed(cfg, world, reach) && loop.gateway == context.Value()
      requires loop.iteration <= cfg.limits.maxIterations
      requires Reaches(reach, n, database.store, r, Head(loop, world.clock(n - 1)))
      modifies database, context
      ensures Reaches(reach, m, database.store, r, TurnPhase(r, loop, context.Value(), turn, m))
    {
      var head := CheckHead(loop, n);
      HeadEnds(cfg, world, reach, n, database.store, r, loop, world.clock(n - 1), head);
      m := n + 1;
      match head
      case Stops(t) => turn := Ends(t);
      case Throws => turn := IsOver(None);
      case Proceeds(elapsedMs) =>
        turn, m := Deliberate(r, loop, context, elapsedMs, m, reach);
    }

    /** The reasoner's step, and the tool call it may ask for. */
    method Deliberate(r: Run, loop: Loop, context: ToolExecutionContext, ghost elapsedMs: nat, n: int,
      ghost reach: Point -> bool) returns (turn: Turn, m: int)
      requires Closed(cfg, world, reach) && loop.gateway == context.Value()
      requires loop.iteration <= cfg.limits.maxIterations
      requires Reaches(reach, n, database.store, r, Thinking(loop, elapsedMs, world.clock(n - 1)))
      modifies database, context
      ensures Reaches(reach, m, database.store, r, TurnPhase(r, loop, context.Value(), turn, m))
    {
      var step := AwaitStep(loop, n);
      ThinkingEnds(cfg, world, reach, n, database.store, r, loop, elapsedMs, world.clock(n - 1), step);
      m := n + 1;
      match step
      case Leaves(t) => turn := Ends(t);
      case Offers(c) => turn := Proposes(c);
      case Asks(request) =>
        turn, m := UseTool(r, loop, context, request, m, reach);
    }

    method UseTool(r: Run, loop: Loop, context: ToolExecutionContext, request: ProposedToolRequest, n: int,
      ghost reach: Point -> bool) returns (turn: Turn, m: int)
      requires Closed(cfg, world, reach) && loop.gateway == context.Value()
      requires loop.iteration <= cfg.limits.maxIterations
      requires Reaches(reach, n, database.store, r, Calling(loop, request, world.clock(n - 1)))
      modifies database, context
      ensures Reaches(reach, m, database.store, r, TurnPhase(r, loop, context.Value(), turn, m))
    {
      var called;
      called, m := CallTool(r, loop, context, request, world.clock(n - 1), n, reach);
      match called
      case None => turn := IsOver(Some(Outcome(r.executionId, false, PersistenceFailure, None)));
      case Some(GoesOn(item)) => turn := Continues(item);
      case Some(Exits(t)) => turn := Ends(t);
      case Some(Escapes) => turn := IsOver(None);
    }

    /** Where the loop stands: over, ended one way or the other, or at its next head. */
    ghost function StandPhase(r: Run, loop: Loop, over: Option<Option<Outcome>>, termination: Option<Termination>,
      candidate: Option<CandidateAssessment>, n: int): Phase
    {
      if over.Some? then Ended(over.value)
      else if termination.Some? then SafeExit(r.alert, loop.openedAt, termination.value, world.clock(n - 1))
      else if candidate.Some? then
        CandidateExit(cfg, r.alert, loop.openedAt, candidate.value, world.inputs(n - 1).actionIds, world.clock(n - 1))
      else LoopPhase(r, loop, n)
    }

    /** The loop stands where its variables say, and has not ended both ways. */
    ghost predicate LoopStands(reach: Point -> bool, n: int, s: Store, r: Run, loop: Loop, over: Option<Option<Outcome>>,
      termination: Option<Termination>, candidate: Option<CandidateAssessment>)
    {
      (termination.Some? ==> candidate.None?) && Reaches(reach, n, s, r, StandPhase(r, loop, over, termination, candidate, n))
    }

    /** Where the loop stands after a turn. */
    lemma TurnStands(reach: Point -> bool, n: int, s: Store, r: Run, loop: Loop, turn: Turn)
      requires Reaches(reach, n, s, r, TurnPhase(r, loop, loop.gateway, turn, n))
      ensures match turn
        case Ends(t) => LoopStands(reach, n, s, r, loop, None, Some(t), None)
        case Proposes(c) => LoopStands(reach, n, s, r, loop, None, None, Some(c))
        case IsOver(outcome) => LoopStands(reach, n, s, r, loop, Some(outcome), None, None)
        case Continues(item) =>
          LoopStands(reach, n, s, r, loop.(iteration := loop.iteration + 1, accumulated := loop.accumulated + [item]), None, None, None)
    {
    }

    /** The loop: it ends with a termination reason or a candidate, never both and never
        neither, unless the run itself is over (a persistence failure or an exception). */
    method Investigate(r: Run, openedAt: Instant, context: ToolExecutionContext, first: int, ghost reach: Point -> bool)
      returns (over: Option<Option<Outcome>>, termination: Option<Termination>, candidate: Option<CandidateAssessment>, n: int)
      requires Closed(cfg, world, reach) && cfg.limits.maxIterations >= 1
      requires Reaches(reach, first, database.store, r,
                 Head(Loop(openedAt, world.clock(first - 1), 1, [], context.Value()), world.clock(first - 1)))
      modifies database, context
      ensures (over.None? ==> (termination.Some? <==> candidate.None?))
      ensures Reaches(reach, n, database.store, r,
                StandPhase(r, Loop(openedAt, world.clock(first - 1), 0, [], context.Value()), over, termination, candidate, n))
    {
      var startedAt := world.clock(first - 1);
      var accumulated: seq<Accumulated> := [];
      var iteration := 1;
      over, termination, candidate, n := None, None, None, first;
      while over.None? && termination.None? && candidate.None? && iteration <= cfg.limits.maxIterations
        invariant LoopStands(reach, n, database.store, r, Loop(openedAt, startedAt, iteration, accumulated, context.Value()),
                    over, termination, candidate)
        decreases over.None? && termination.None? && candidate.None?, cfg.limits.maxIterations - iteration
      {
        var loop := Loop(openedAt, startedAt, iteration, accumulated, context.Value());
        var turn;
        turn, n := Iterate(r, loop, context, n, reach);
        TurnStands(reach, n, database.store, r, loop.(gateway := context.Value()), turn);
        match turn
        case Ends(t) => termination := Some(t);
        case Proposes(c) => candidate := Some(c);
        case IsOver(outcome) => over := Some(outcome);
        case Continues(item) =>
          accumulated := accumulated + [item];
          iteration := iteration + 1;
      }
      if over.None? && termination.None? && candidate.None? {
        termination := Some(IterationLimit);
      }
    }

    /** The decision after the loop: the policy's on a candidate, the safe review without one. */
    method Conclude(r: Run, ghost openedAt: Instant, termination: Option<Termination>,
      candidate: Option<CandidateAssessment>, n: int) returns (decision: PolicyDecision, reason: ReasonCode)
      requires Deterministic(cfg) && (termination.Some? <==> candidate.None?)
      ensures Finalizing(openedAt, decision, reason, world.clock(n - 1)) == if termination.Some?
                then SafeExit(r.alert, openedAt, termination.value, world.clock(n - 1))
                else CandidateExit(cfg, r.alert, openedAt, candidate.value, world.inputs(n - 1).actionIds, world.clock(n - 1))
    {
      var now := world.clock(n - 1);
      if termination.Some? {
        return SafeReview(r.alert.alertId, now), Terminated(termination.value);
      }
      var newId := world.inputs(n - 1).actionIds;
      var source := new IdentifierSource(newId);
      decision := Evaluate(cfg.sha, cfg.catalog, source, candidate.value, r.alert.alertId,
        ScopeKeys(r.alert.entities), now, newId);
      reason := if decision.result.disposition.NeedsReview? then PolicySafeReview else CandidateCompleted;
    }

    /** `run`, from a store nobody else is using to the outcome it returns (None: an exception
        leaves it), in the number of steps it takes. */
    method RunFrom(r: Run, ghost reach: Point -> bool) returns (outcome: Option<Outcome>, n: int)
      requires Closed(cfg, world, reach) && Deterministic(cfg) && cfg.limits.maxIterations >= 1
      requires r.phase.Entered? && Reaches(reach, 0, database.store, r, Entered)
      modifies database
      ensures Reaches(reach, n, database.store, r, Ended(outcome))
    {
      assert r == r.(phase := Entered);
      outcome := FindReplay(r, 0, reach);
      n := 1;
      if outcome.Some? {
        return;
      }
      var openedAt, ok := world.clock(0), false;
      ok, n := PersistStart(r, openedAt, 1, reach);
      if !ok {
        return Some(Outcome(r.executionId, false, PersistenceFailure, None)), n;
      }
      var context := new ToolExecutionContext(r.executionId, ScopeKeys(r.alert.entities), cfg.gatewayLimits);
      var over, termination, candidate;
      over, termination, candidate, n := Investigate(r, openedAt, context, n, reach);
      if over.Some? {
        return over.value, n;
      }
      var decision, reason := Conclude(r, openedAt, termination, candidate, n);
      var final;
      final, n := PersistFinal(r, openedAt, decision, reason, world.clock(n - 1), n, reach);
      outcome := Some(final);
    }

    method Run(alert: SecurityAlert, key: string, executionId: Id) returns (outcome: Option<Outcome>, n: int)
      requires Deterministic(cfg) && cfg.limits.maxIterations >= 1
      modifies database
      ensures Visits(cfg, world, Point(0, old(database.store), Orchestration.Run.Run(alert, key, executionId, Entered)),
                Point(n, database.store, Orchestration.Run.Run(alert, key, executionId, Ended(outcome))))
    {
      var r := Orchestration.Run.Run(alert, key, executionId, Entered);
      ghost var start := Point(0, database.store, r);
      VisitsClosed(cfg, world, start);
      outcome, n := RunFrom(r, q => Visits(cfg, world, start, q));
    }
  }
}
