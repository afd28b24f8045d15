/** Where each step of a run leads and why: for every phase it can come to, the one condition
    under which it does (application/orchestrator.py:93-242). */
module Exits {
  import opened Base
  import opened Timestamps
  import opened Entities
  import opened Policy
  import opened Gateway
  import opened Store
  import opened Workflow
  import opened Orchestration

  /** How long the loop has run, in whole milliseconds of the clock. */
  function Elapsed(loop: Loop, clock: Instant): int
  {
    clock / 1000 - loop.startedAt / 1000
  }

  /** At its head the loop has time left. */
  predicate InTime(cfg: Config, r: Run, clock: Instant)
  {
    r.phase.Head? && Elapsed(r.phase.loop, clock) < cfg.limits.deadlineMs
  }

  /** The context can be built. */
  ghost predicate Showable(cfg: Config, r: Run)
  {
    r.phase.Head? && (cfg.guidance ==> ShownTargets(r.phase.loop.gateway.scope).Some?)
  }

  /** The record of a call is durable. */
  predicate Persisted(r: Run, ending: Ending)
  {
    r.phase.Persisting? && ending == Durable
  }

  /** Its evidence has room, and can be built. */
  predicate MayGoOn(cfg: Config, r: Run, ending: Ending, x: Input)
  {
    && Persisted(r, ending) && r.phase.result.status.Success?
    && |r.phase.loop.accumulated| < cfg.limits.maxEvidenceItems && ItemOf(cfg, r, x).Some?
  }

  function ItemOf(cfg: Config, r: Run, x: Input): Option<Accumulated>
    requires r.phase.Persisting?
  {
    var result := r.phase.result.result;
    ToEvidence(cfg, r.phase.record, if result.Some? then result.value else Json.Obj([]), x.newId)
  }

  /** The reasoner offers this candidate. */
  predicate Offered(r: Run, x: Input, c: CandidateAssessment)
  {
    r.phase.Thinking? && x.reasoner == ReasonerReturns(Some(CandidateStep(c)))
  }

  /** Why a run stops for a safe review. */
  ghost predicate Causes(cfg: Config, r: Run, ending: Ending, clock: Instant, x: Input, t: Termination)
  {
    match t
    case DeadlineExceeded =>
      || (r.phase.Head? && !InTime(cfg, r, clock))
      || (r.phase.Thinking? && x.reasoner.ReasonerTimesOut?)
    case ContextLimit =>
      || (InTime(cfg, r, clock) && Showable(cfg, r) && x.contextBytes > cfg.limits.maxContextBytes)
      || (Persisted(r, ending) && r.phase.result.status.Success? && |r.phase.loop.accumulated| >= cfg.limits.maxEvidenceItems)
    case ReasonerFailure => r.phase.Thinking? && x.reasoner.ReasonerRaises?
    case InvalidReasonerOutput => r.phase.Thinking? && x.reasoner == ReasonerReturns(None)
    case EvidenceReferenceViolation =>
      exists c :: Offered(r, x, c) && !CitesAccumulated(c, r.phase.loop.accumulated)
    case ToolRequestDenied =>
      Persisted(r, ending) && !r.phase.result.status.Success? && r.phase.result.authorization.Denied?
    case ToolFailed =>
      Persisted(r, ending) && !r.phase.result.status.Success? && r.phase.result.authorization.Allowed?
    case IterationLimit => MayGoOn(cfg, r, ending, x) && r.phase.loop.iteration >= cfg.limits.maxIterations
  }

  /** When the run's row was opened. */
  function OpenedAt(p: Phase): Instant
  {
    if p.Head? || p.Thinking? || p.Persisting? then p.loop.openedAt else 0
  }

  predicate StopsFor(next: Phase, t: Termination)
  {
    next.Finalizing? && next.reason == Terminated(t)
  }

  lemma HeadStops(cfg: Config, r: Run, ending: Ending, clock: Instant, x: Input, t: Termination)
    requires r.phase.Head?
    ensures HeadTurnOf(cfg, r.phase.loop, x.contextBytes, clock) == Stops(t) <==> Causes(cfg, r, ending, clock, x, t)
  {
  }

  lemma ThinkingStops(cfg: Config, r: Run, ending: Ending, clock: Instant, x: Input, t: Termination)
    requires r.phase.Thinking?
    ensures StepTurn(r.phase.loop, x.reasoner, x.newId) == Leaves(t) <==> Causes(cfg, r, ending, clock, x, t)
  {
    if x.reasoner.ReasonerReturns? && x.reasoner.step.Some? && x.reasoner.step.value.CandidateStep? {
      ReferencesExactly(x.reasoner.step.value.candidate, r.phase.loop.accumulated);
      assert Offered(r, x, x.reasoner.step.value.candidate);
    }
  }

  lemma PersistingStops(cfg: Config, r: Run, ending: Ending, clock: Instant, x: Input, t: Termination)
    requires r.phase.Persisting? && ending == Durable
    ensures var turn := CallTurn(cfg, r.phase.loop, r.phase.record, r.phase.result, x.newId);
      turn == Exits(t) || (turn.GoesOn? && r.phase.loop.iteration >= cfg.limits.maxIterations && t == IterationLimit)
      <==> Causes(cfg, r, ending, clock, x, t)
  {
  }

  /** The next phase is a stop for this reason exactly when there is the cause, and then it
      reviews unseen. */
  ghost predicate Stopping(r: Run, openedAt: Instant, clock: Instant, t: Termination, cause: bool, next: Phase)
  {
    && (StopsFor(next, t) <==> cause)
    && (StopsFor(next, t) ==>
      next.openedAt == openedAt && next.since == clock && ReviewsUnseen(next.decision, r.alert.alertId, clock))
  }

  lemma SafeExitStops(r: Run, openedAt: Instant, why: Termination, clock: Instant, t: Termination)
    ensures Stopping(r, openedAt, clock, t, why == t, SafeExit(r.alert, openedAt, why, clock))
  {
    SafeReviewMeaning(SafeReview(r.alert.alertId, clock), r.alert.alertId, clock);
  }

  lemma HeadLeads(r: Run, loop: Loop, turn: HeadTurn, clock: Instant, t: Termination)
    ensures Stopping(r, loop.openedAt, clock, t, turn == Stops(t), HeadPhase(r.alert, loop, turn, clock))
  {
    if turn.Stops? {
      SafeExitStops(r, loop.openedAt, turn.termination, clock, t);
    }
  }

  lemma ThinkingLeads(cfg: Config, r: Run, loop: Loop, turn: Consulted, actionIds: nat -> Id, clock: Instant, t: Termination)
    ensures Stopping(r, loop.openedAt, clock, t, turn == Leaves(t), ConsultedPhase(cfg, r.alert, loop, turn, actionIds, clock))
  {
    if turn.Leaves? {
      SafeExitStops(r, loop.openedAt, turn.termination, clock, t);
    }
  }

  lemma PersistingLeads(cfg: Config, r: Run, loop: Loop, g: GatewayContext, turn: Called, clock: Instant, t: Termination)
    ensures Stopping(r, loop.openedAt, clock, t,
              turn == Exits(t) || (turn.GoesOn? && loop.iteration >= cfg.limits.maxIterations && t == IterationLimit),
              CalledPhase(cfg, r.alert, loop, g, turn, clock))
  {
    if turn.Exits? {
      SafeExitStops(r, loop.openedAt, turn.termination, clock, t);
    } else if turn.GoesOn? {
      SafeExitStops(r, loop.openedAt, IterationLimit, clock, t);
    }
  }

  lemma OthersNeverStop(cfg: Config, r: Run, snap: Store, ending: Ending, clock: Instant, x: Input, t: Termination)
    requires !r.phase.Head? && !r.phase.Thinking? && !(r.phase.Persisting? && ending == Durable)
    ensures !StopsFor(Next(cfg, r, snap, ending, clock, x), t) && !Causes(cfg, r, ending, clock, x, t)
  {
  }

  /** A run stops for each reason exactly when it has that cause, and then with a review that
      saw no candidate. */
  lemma StopsExactly(cfg: Config, r: Run, snap: Store, ending: Ending, clock: Instant, x: Input, t: Termination)
    ensures var next := Next(cfg, r, snap, ending, clock, x);
      && (StopsFor(next, t) ==> r.phase.Head? || r.phase.Thinking? || r.phase.Persisting?)
      && Stopping(r, OpenedAt(r.phase), clock, t, Causes(cfg, r, ending, clock, x, t), next)
  {
    match r.phase
    case Head(loop, _) =>
      HeadStops(cfg, r, ending, clock, x, t);
      HeadLeads(r, loop, HeadTurnOf(cfg, loop, x.contextBytes, clock), clock, t);
    case Thinking(loop, _, _) =>
      ThinkingStops(cfg, r, ending, clock, x, t);
      ThinkingLeads(cfg, r, loop, StepTurn(loop, x.reasoner, x.newId), x.actionIds, clock, t);
    case Persisting(loop, g, record, result, _) =>
      if ending == Durable {
        PersistingStops(cfg, r, ending, clock, x, t);
        PersistingLeads(cfg, r, loop, g, CallTurn(cfg, loop, record, result, x.newId), clock, t);
      }
    case _ => OthersNeverStop(cfg, r, snap, ending, clock, x, t);
  }

  /** The policy's decision on the candidate, and the reason it gives. */
  ghost predicate DecidedBy(cfg: Config, r: Run, clock: Instant, x: Input, c: CandidateAssessment, d: PolicyDecision, reason: ReasonCode)
  {
    && d == Evaluation(cfg.sha, cfg.catalog, x.actionIds, c, r.alert.alertId, ScopeKeys(r.alert.entities), clock)
    && reason == if d.result.disposition.NeedsReview? then PolicySafeReview else CandidateCompleted
  }

  /** A candidate goes to the policy exactly when everything it cites was accumulated. */
  lemma DecidesExactly(cfg: Config, r: Run, snap: Store, ending: Ending, clock: Instant, x: Input)
    requires Deterministic(cfg)
    ensures var next := Next(cfg, r, snap, ending, clock, x);
      && (next.Finalizing? && !next.reason.Terminated? <==>
            exists c :: Offered(r, x, c) && CitesAccumulated(c, r.phase.loop.accumulated))
      && forall c | Offered(r, x, c) && CitesAccumulated(c, r.phase.loop.accumulated) ::
        && next.Finalizing? && DecidedBy(cfg, r, clock, x, c, next.decision, next.reason)
        && next.openedAt == r.phase.loop.openedAt && next.since == clock
  {
    if r.phase.Thinking? && x.reasoner.ReasonerReturns? && x.reasoner.step.Some? && x.reasoner.step.value.CandidateStep? {
      OfferDecides(cfg, r, snap, ending, clock, x, x.reasoner.step.value.candidate);
    }
  }

  lemma OfferDecides(cfg: Config, r: Run, snap: Store, ending: Ending, clock: Instant, x: Input, c: CandidateAssessment)
    requires Deterministic(cfg) && Offered(r, x, c)
    ensures var next := Next(cfg, r, snap, ending, clock, x);
      && (next.Finalizing? && !next.reason.Terminated? <==> CitesAccumulated(c, r.phase.loop.accumulated))
      && (CitesAccumulated(c, r.phase.loop.accumulated) ==>
        && next.Finalizing? && DecidedBy(cfg, r, clock, x, c, next.decision, next.reason)
        && next.openedAt == r.phase.loop.openedAt && next.since == clock)
  {
    ReferencesExactly(c, r.phase.loop.accumulated);
  }

  /** The reasoner is asked exactly from a head in time whose context can be built and fits. */
  lemma ThinksExactly(cfg: Config, r: Run, snap: Store, ending: Ending, clock: Instant, x: Input)
    ensures var next := Next(cfg, r, snap, ending, clock, x);
      && (next.Thinking? <==> InTime(cfg, r, clock) && Showable(cfg, r) && x.contextBytes <= cfg.limits.maxContextBytes)
      && (next.Thinking? ==> next.loop == r.phase.loop && next.since == clock)
      && (next.Thinking? ==> next.elapsedMs == if clock / 1000 < next.loop.startedAt / 1000 then 0 else Elapsed(next.loop, clock))
  {
  }

  /** A tool is called exactly when the reasoner asks for it, as it asks, under a new identifier. */
  lemma CallsExactly(cfg: Config, r: Run, snap: Store, ending: Ending, clock: Instant, x: Input)
    ensures var next := Next(cfg, r, snap, ending, clock, x);
      && (next.Calling? <==> r.phase.Thinking? && x.reasoner.ReasonerReturns? && x.reasoner.step.Some? && x.reasoner.step.value.ToolStep?)
      && (next.Calling? ==>
        && next.loop == r.phase.loop && next.since == clock
        && next.request == ProposedToolRequest(x.newId, x.reasoner.step.value.toolName, x.reasoner.step.value.arguments))
  {
  }

  /** A call is recorded exactly when it was made: what was asked, from when it began until now,
      with the gateway's answer. */
  lemma PersistsExactly(cfg: Config, r: Run, snap: Store, ending: Ending, clock: Instant, x: Input)
    requires r.phase.Calling? ==>
      var g := r.phase.loop.gateway;
      ValidRegistry(cfg.registry) && Accounted(cfg.registry, g) && g.scope == ScopeKeys(r.alert.entities)
    ensures var next := Next(cfg, r, snap, ending, clock, x);
      && (next.Persisting? <==> r.phase.Calling?)
      && (next.Persisting? ==>
        var g := r.phase.loop.gateway;
        && next.loop == r.phase.loop && next.since == clock && next.gateway.records == g.records + [next.record]
        && Recorded(g, r.phase.request, CallTimes(r.phase.since, clock), next.record, next.result)
        && AnswersCall(cfg.registry, r.alert.entities, g, r.phase.request, x.tool, next.record, next.gateway, next.result))
  {
    if r.phase.Calling? {
      InvokeExactly(cfg.registry, r.alert.entities, r.phase.loop.gateway, r.phase.request, x.tool, CallTimes(r.phase.since, clock));
    }
  }

  /** An iteration begins exactly after a durable start, as the first, or after a durable success
      whose evidence has room and can be built, with that evidence, while iterations are left. */
  lemma ContinuesExactly(cfg: Config, r: Run, snap: Store, ending: Ending, clock: Instant, x: Input)
    ensures var next := Next(cfg, r, snap, ending, clock, x);
      && (next.Head? <==>
            || (r.phase.Starting? && ending == Durable)
            || (MayGoOn(cfg, r, ending, x) && r.phase.loop.iteration < cfg.limits.maxIterations))
      && (next.Head? ==> next.since == clock)
      && (next.Head? && r.phase.Starting? ==>
        next.loop == Loop(r.phase.now, clock, 1, [],
          GatewayContext(r.executionId, ScopeKeys(r.alert.entities), cfg.gatewayLimits, [], 0, map[], {})))
      && (next.Head? && r.phase.Persisting? ==>
        next.loop == Loop(r.phase.loop.openedAt, r.phase.loop.startedAt, r.phase.loop.iteration + 1,
          r.phase.loop.accumulated + [ItemOf(cfg, r, x).value], r.phase.gateway))
  {
  }

  /** A failure is recorded exactly when a start or the record of a call is not durable, or a
      final commit fails. */
  lemma RecordsExactly(cfg: Config, r: Run, snap: Store, ending: Ending, clock: Instant, x: Input)
    ensures var next := Next(cfg, r, snap, ending, clock, x);
      && (next.Recording? <==>
            || ((r.phase.Starting? || r.phase.Persisting?) && ending != Durable)
            || (r.phase.Finalizing? && ending == Aborted))
      && (next.Recording? ==>
        && next.since == clock
        && next.openedAt == (if r.phase.Persisting? then r.phase.loop.openedAt else if r.phase.Starting? then r.phase.now else r.phase.openedAt)
        && next.category == (match r.phase
             case Starting(_) => StartPersistenceFailed
             case Persisting(_, _, _, _, _) => ToolPersistenceFailed
             case _ => FinalizationFailed))
  {
  }

  /** What the store answers for a key: the run stored under it, with its result if it has one. */
  ghost predicate Replays(s: Store, key: string, o: Outcome)
  {
    && key in s.keys && o.executionId == s.keys[key] && o.durable && o.reason == IdempotentReplay
    && (o.result.Some? <==> o.executionId in s.results)
    && (o.result.Some? ==> o.result.value == s.results[o.executionId])
  }

  /** The outcome that says nothing is durable. */
  predicate SaysNotDurable(o: Outcome, executionId: Id)
  {
    o.executionId == executionId && !o.durable && o.reason == PersistenceFailure && o.result == None
  }

  /** A run enters with the replay of its key, or a failed lookup, or goes on to start now. */
  lemma EntersExactly(cfg: Config, r: Run, snap: Store, ending: Ending, clock: Instant, x: Input)
    requires r.phase.Entered?
    ensures var next := Next(cfg, r, snap, ending, clock, x);
      if x.fault then next.Ended? && next.outcome.Some? && SaysNotDurable(next.outcome.value, r.executionId)
      else if r.key in snap.keys then next.Ended? && next.outcome.Some? && Replays(snap, r.key, next.outcome.value)
      else next == Starting(clock)
  {
  }

  /** A run ends with an outcome exactly on entry, after a final commit that is durable or finds
      no row, or after recording a failure; only a durable one carries its result. */
  lemma EndsExactly(cfg: Config, r: Run, snap: Store, ending: Ending, clock: Instant, x: Input)
    requires !r.phase.Ended?
    ensures var next := Next(cfg, r, snap, ending, clock, x);
      && (next.Ended? && next.outcome.Some? <==>
            || (r.phase.Entered? && (x.fault || r.key in snap.keys))
            || (r.phase.Finalizing? && ending != Aborted) || r.phase.Recording?)
      && (next.Ended? && next.outcome.Some? && !r.phase.Entered? ==>
        if r.phase.Finalizing? && ending == Durable
        then next.outcome.value == Outcome(r.executionId, true, r.phase.reason, Some(r.phase.decision.result))
        else SaysNotDurable(next.outcome.value, r.executionId))
  {
  }

  /** A decision's own result and reason are the outcome exactly when its commit is durable. */
  lemma DurableEndsExactly(cfg: Config, r: Run, snap: Store, ending: Ending, clock: Instant, x: Input)
    requires r.phase.Finalizing?
    ensures Next(cfg, r, snap, ending, clock, x) == Ended(Some(Outcome(r.executionId, true, r.phase.reason, Some(r.phase.decision.result))))
       <==> ending == Durable
  {
    EndsExactly(cfg, r, snap, ending, clock, x);
  }
}
