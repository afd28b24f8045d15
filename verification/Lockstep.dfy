/** The loop in step with the store: what a run has accumulated, what the gateway has counted
    and what is persisted agree at every point, and every committed result rests on rows the
    gateway allowed (application/orchestrator.py:114-220, 532-566). */
module Lockstep {
  import opened Base
  import opened Json
  import opened Timestamps
  import opened Entities
  import opened Triage
  import opened Policy
  import opened Gateway
  import opened Store
  import opened Workflow
  import opened Effects
  import opened Orchestration
  import opened Moves

  /** What the constructors of the settings check. */
  ghost predicate ValidConfig(cfg: Config)
  {
    ValidRegistry(cfg.registry) && Deterministic(cfg) && cfg.limits.maxIterations >= 1
  }

  // ---- Witnesses ------------------------------------------------------------------------------------------

  /** A persisted invocation of this execution that was allowed, succeeded, and was
      about one of these entities. */
  ghost predicate Witness(s: Store, e: Id, entities: seq<EntityReference>, id: Id)
  {
    && id in s.invocations
    && s.invocations[id].record.callId == id
    && s.invocations[id].record.executionId == e
    && s.invocations[id].record.authorization.Allowed?
    && s.invocations[id].record.outcome.Success?
    && AboutOneOf(s.invocations[id].record.arguments, entities)
  }

  ghost predicate EvidenceWitnessed(s: Store, e: Id, entities: seq<EntityReference>, v: EvidenceReference)
  {
    && v.toolInvocationId.Some? && Witness(s, e, entities, v.toolInvocationId.value)
    && var r := s.invocations[v.toolInvocationId.value].record;
      v.sourceType == r.toolName && v.sourceReference == r.callId && v.collectedAt == r.completedAt
  }

  ghost predicate CallWitnessed(s: Store, e: Id, entities: seq<EntityReference>, t: ToolCallReference)
  {
    && Witness(s, e, entities, t.invocationId)
    && var r := s.invocations[t.invocationId].record;
      t.toolName == r.toolName && t.calledAt == r.startedAt
  }

  /** Every evidence item and every tool call of the result is witnessed. */
  ghost predicate Supported(s: Store, e: Id, entities: seq<EntityReference>, r: TriageResult)
  {
    && (forall v | v in r.evidence :: EvidenceWitnessed(s, e, entities, v))
    && forall t | t in r.toolCalls :: CallWitnessed(s, e, entities, t)
  }

  lemma SupportedKept(s: Store, t: Store, e: Id, entities: seq<EntityReference>, r: TriageResult)
    requires Supported(s, e, entities, r) && Grows(s, t)
    ensures Supported(t, e, entities, r)
  {
    forall v | v in r.evidence ensures EvidenceWitnessed(t, e, entities, v) {
      assert EvidenceWitnessed(s, e, entities, v);
    }
    forall c | c in r.toolCalls ensures CallWitnessed(t, e, entities, c) {
      assert CallWitnessed(s, e, entities, c);
    }
  }

  // ---- The loop's invariant -----------------------------------------------------------------------------------

  type Records = seq<ToolInvocationRecord>

  /** The gateway context was opened for this run. */
  ghost predicate OpenedFor(cfg: Config, r: Run, g: GatewayContext)
  {
    g.executionId == r.executionId && g.scope == ScopeKeys(r.alert.entities) && g.limits == cfg.gatewayLimits
  }

  predicate AllSucceeded(rs: Records)
  {
    forall k | 0 <= k < |rs| :: rs[k].authorization.Allowed? && rs[k].outcome.Success?
  }

  predicate AccumulatedFrom(a: Accumulated, r: ToolInvocationRecord)
  {
    && a.reference.toolInvocationId == Some(r.callId)
    && a.reference.sourceType == r.toolName && a.reference.sourceReference == r.callId
    && a.reference.collectedAt == r.completedAt
    && a.toolCall.invocationId == r.callId && a.toolCall.toolName == r.toolName && a.toolCall.calledAt == r.startedAt
  }

  /** The rows stored for an execution are these records, one row each. */
  ghost predicate Persisted(s: Store, e: Id, rs: Records)
  {
    && (forall k | 0 <= k < |rs| :: rs[k].callId in s.invocations && s.invocations[rs[k].callId].record == rs[k])
    && (forall j, k | 0 <= j < k < |rs| :: rs[j].callId != rs[k].callId)
    && forall c | c in s.invocations && s.invocations[c].record.executionId == e :: s.invocations[c].record in rs
  }

  /** At the head of iteration i: i - 1 items, i - 1 records, all of them successes, and
      i - 1 rows. */
  ghost predicate Paced(cfg: Config, s: Store, r: Run, loop: Loop)
  {
    && 1 <= loop.iteration <= cfg.limits.maxIterations
    && |loop.accumulated| == |loop.gateway.records| == loop.iteration - 1
    && |loop.accumulated| <= cfg.limits.maxEvidenceItems
    && AllSucceeded(loop.gateway.records)
    && (forall k | 0 <= k < |loop.accumulated| :: AccumulatedFrom(loop.accumulated[k], loop.gateway.records[k]))
    && (forall k | 0 <= k < |loop.gateway.records| :: loop.gateway.records[k].executionId == r.executionId)
    && Persisted(s, r.executionId, loop.gateway.records)
  }

  /** Between a call and its row: one more record than rows. */
  ghost predicate OneAhead(r: Run, loop: Loop, g: GatewayContext, record: ToolInvocationRecord, result: GatewayResult)
  {
    && g.records == loop.gateway.records + [record]
    && record.executionId == r.executionId
    && result.status == record.outcome && result.authorization == record.authorization
    && (record.outcome.Success? ==> record.authorization.Allowed?)
  }

  ghost predicate GatewayKept(cfg: Config, r: Run, g: GatewayContext)
  {
    OpenedFor(cfg, r, g) && Accounted(cfg.registry, g)
  }

  /** The gateway's accounting in every phase that has a gateway. */
  ghost predicate RunAccounted(cfg: Config, r: Run)
  {
    match r.phase
    case Head(loop, _) => GatewayKept(cfg, r, loop.gateway)
    case Thinking(loop, _, _) => GatewayKept(cfg, r, loop.gateway)
    case Calling(loop, _, _) => GatewayKept(cfg, r, loop.gateway)
    case Persisting(loop, g, _, _, _) => GatewayKept(cfg, r, loop.gateway) && GatewayKept(cfg, r, g)
    case _ => true
  }

  /** The loop, the rows and the decision in every phase. */
  ghost predicate RunPaced(cfg: Config, s: Store, r: Run)
  {
    match r.phase
    case Head(loop, _) => Paced(cfg, s, r, loop)
    case Thinking(loop, _, _) => Paced(cfg, s, r, loop)
    case Calling(loop, _, _) => Paced(cfg, s, r, loop)
    case Persisting(loop, g, record, result, _) => Paced(cfg, s, r, loop) && OneAhead(r, loop, g, record, result)
    case Finalizing(_, decision, _, _) => Supported(s, r.executionId, r.alert.entities, decision.result)
    case _ => true
  }

  // ---- Steps of the loop ------------------------------------------------------------------------------------------

  lemma EmptyPaced(cfg: Config, s: Store, r: Run, now: Instant, clock: Instant, g: GatewayContext)
    requires ValidConfig(cfg) && g.records == []
    requires forall c | c in s.invocations :: s.invocations[c].record.executionId != r.executionId
    ensures Paced(cfg, s, r, Loop(now, clock, 1, [], g))
  {
  }

  /** A witnessed loop: each accumulated item stands for a stored, allowed success
      about an entity of the alert. */
  lemma ItemWitnessed(cfg: Config, s: Store, r: Run, loop: Loop, a: Accumulated)
    requires Paced(cfg, s, r, loop) && a in loop.accumulated
    requires AllowedInScope(cfg.registry, loop.gateway) && loop.gateway.scope == ScopeKeys(r.alert.entities)
    ensures EvidenceWitnessed(s, r.executionId, r.alert.entities, a.reference)
    ensures CallWitnessed(s, r.executionId, r.alert.entities, a.toolCall)
  {
    var k :| 0 <= k < |loop.accumulated| && loop.accumulated[k] == a;
    var record := loop.gateway.records[k];
    assert AccumulatedFrom(a, record) && record in loop.gateway.records;
    assert record.authorization.Allowed? && record.outcome.Success?;
    assert s.invocations[record.callId].record == record;
    InScopeExactly(record.arguments, r.alert.entities);
  }

  lemma CitedSupported(cfg: Config, s: Store, r: Run, loop: Loop, result: TriageResult)
    requires Paced(cfg, s, r, loop) && Cites(result, loop.accumulated)
    requires AllowedInScope(cfg.registry, loop.gateway) && loop.gateway.scope == ScopeKeys(r.alert.entities)
    ensures Supported(s, r.executionId, r.alert.entities, result)
  {
    forall v | v in result.evidence ensures EvidenceWitnessed(s, r.executionId, r.alert.entities, v) {
      var a :| a in loop.accumulated && a.reference == v;
      ItemWitnessed(cfg, s, r, loop, a);
    }
    forall t | t in result.toolCalls ensures CallWitnessed(s, r.executionId, r.alert.entities, t) {
      var a :| a in loop.accumulated && a.toolCall == t;
      ItemWitnessed(cfg, s, r, loop, a);
    }
  }

  /** Persisting the newest record brings the rows level with the records. */
  lemma PersistedNext(s: Store, e: Id, rs: Records, row: InvocationRow, t: Store)
    requires Persisted(s, e, rs) && ToolEffect(s, row, t) && row.record.executionId == e
    ensures Persisted(t, e, rs + [row.record])
  {
    var all := rs + [row.record];
    forall c | c in t.invocations && t.invocations[c].record.executionId == e ensures t.invocations[c].record in all {
      if c != row.record.callId {
        assert s.invocations[c].record in rs;
      } else {
        assert all[|rs|] == row.record;
      }
    }
  }

  lemma AccumulatedFromRecord(cfg: Config, record: ToolInvocationRecord, outcome: Json, evidenceId: Id)
    requires ToEvidence(cfg, record, outcome, evidenceId).Some?
    ensures AccumulatedFrom(ToEvidence(cfg, record, outcome, evidenceId).value, record)
  {
  }

  function Longer(loop: Loop, item: Accumulated, g: GatewayContext): Loop
  {
    loop.(iteration := loop.iteration + 1, accumulated := loop.accumulated + [item], gateway := g)
  }

  /** A durable success leads to the next head in step. */
  lemma AccumulatePaced(cfg: Config, s: Store, t: Store, r: Run, loop: Loop, g: GatewayContext,
    record: ToolInvocationRecord, item: Accumulated)
    requires Paced(cfg, s, r, loop) && g.records == loop.gateway.records + [record]
    requires record.authorization.Allowed? && record.outcome.Success? && record.executionId == r.executionId
    requires loop.iteration < cfg.limits.maxIterations && |loop.accumulated| < cfg.limits.maxEvidenceItems
    requires Persisted(t, r.executionId, loop.gateway.records + [record]) && AccumulatedFrom(item, record)
    ensures Paced(cfg, t, r, Longer(loop, item, g))
  {
  }

  lemma SafeReviewSupported(s: Store, e: Id, entities: seq<EntityReference>, alertId: Id, now: Instant)
    ensures Supported(s, e, entities, SafeReview(alertId, now).result)
  {
  }

  // ---- One step of one run --------------------------------------------------------------------------------------------

  lemma RunAccountedNext(cfg: Config, r: Run, snap: Store, ending: Ending, clock: Instant, x: Input)
    requires ValidConfig(cfg) && RunAccounted(cfg, r)
    ensures RunAccounted(cfg, r.(phase := Next(cfg, r, snap, ending, clock, x)))
  {
    match r.phase
    case Starting(now) => StartAccounted(cfg, r, now, ending, clock);
    case Head(_, _) => HeadAccounted(cfg, r, clock, x);
    case Thinking(_, _, _) => ThinkingAccounted(cfg, r, clock, x);
    case Calling(_, _, _) => CallAccounted(cfg, r, clock, x);
    case Persisting(_, _, _, _, _) => ToolAccounted(cfg, r, clock, x);
    case _ =>
  }

  lemma HeadAccounted(cfg: Config, r: Run, clock: Instant, x: Input)
    requires r.phase.Head? && GatewayKept(cfg, r, r.phase.loop.gateway)
    ensures RunAccounted(cfg, r.(phase := AfterHead(cfg, r.alert, r.phase.loop, x.contextBytes, clock)))
  {
  }

  lemma StartAccounted(cfg: Config, r: Run, now: Instant, ending: Ending, clock: Instant)
    ensures RunAccounted(cfg, r.(phase := AfterStart(cfg, r.alert, r.executionId, now, ending, clock)))
  {
    EmptyAccounted(cfg.registry, r.executionId, ScopeKeys(r.alert.entities), cfg.gatewayLimits);
  }

  lemma CallAccounted(cfg: Config, r: Run, clock: Instant, x: Input)
    requires ValidConfig(cfg) && r.phase.Calling? && GatewayKept(cfg, r, r.phase.loop.gateway)
    ensures RunAccounted(cfg, r.(phase :=
              AfterCall(cfg, r.phase.loop, r.phase.request, r.phase.since, x.tool, clock)))
  {
    InvokeAccounted(cfg.registry, r.phase.loop.gateway, r.phase.request, x.tool, CallTimes(r.phase.since, clock));
  }

  lemma ThinkingAccounted(cfg: Config, r: Run, clock: Instant, x: Input)
    requires r.phase.Thinking? && GatewayKept(cfg, r, r.phase.loop.gateway)
    ensures RunAccounted(cfg, r.(phase := AfterThinking(cfg, r.alert, r.phase.loop, x.reasoner, x.newId, x.actionIds, clock)))
  {
  }

  lemma ToolAccounted(cfg: Config, r: Run, clock: Instant, x: Input)
    requires r.phase.Persisting? && GatewayKept(cfg, r, r.phase.gateway)
    ensures RunAccounted(cfg, r.(phase :=
              AfterTool(cfg, r.alert, r.phase.loop, r.phase.gateway, r.phase.record, r.phase.result, x.newId, clock)))
  {
  }

  lemma StartingNext(cfg: Config, s: Store, r: Run, now: Instant, ending: Ending, clock: Instant, t: Store)
    requires ValidConfig(cfg) && ExecutionReferencesHold(s)
    requires ending == Durable ==> Changes(s, t, StartRun(r.alert, r.key, r.executionId, now))
    ensures RunPaced(cfg, t, r.(phase := AfterStart(cfg, r.alert, r.executionId, now, ending, clock)))
  {
    if ending == Durable {
      EmptyPaced(cfg, t, r, now, clock, EmptyContext(r.executionId, ScopeKeys(r.alert.entities), cfg.gatewayLimits));
    }
  }

  lemma HeadNext(cfg: Config, s: Store, r: Run, loop: Loop, contextBytes: nat, clock: Instant)
    requires Paced(cfg, s, r, loop)
    ensures RunPaced(cfg, s, r.(phase := AfterHead(cfg, r.alert, loop, contextBytes, clock)))
  {
    SafeReviewSupported(s, r.executionId, r.alert.entities, r.alert.alertId, clock);
  }

  lemma SafeExitPaced(cfg: Config, s: Store, r: Run, openedAt: Instant, why: Termination, clock: Instant)
    ensures RunPaced(cfg, s, r.(phase := SafeExit(r.alert, openedAt, why, clock)))
  {
    SafeReviewSupported(s, r.executionId, r.alert.entities, r.alert.alertId, clock);
  }

  lemma CandidatePaced(cfg: Config, s: Store, r: Run, loop: Loop, c: CandidateAssessment, actionIds: nat -> Id, clock: Instant)
    requires Deterministic(cfg) && Paced(cfg, s, r, loop) && GatewayKept(cfg, r, loop.gateway)
    requires CandidateReferencesValid(c, loop.accumulated)
    ensures RunPaced(cfg, s, r.(phase := CandidateExit(cfg, r.alert, loop.openedAt, c, actionIds, clock)))
  {
    var scope := ScopeKeys(r.alert.entities);
    EvaluationCites(cfg, actionIds, c, loop.accumulated, r.alert.alertId, scope, clock);
    CitedSupported(cfg, s, r, loop, cfg.policy(actionIds, c, r.alert.alertId, scope, clock).result);
  }

  lemma ThinkingNext(cfg: Config, s: Store, r: Run, loop: Loop, turn: Consulted, actionIds: nat -> Id, clock: Instant)
    requires Deterministic(cfg) && Paced(cfg, s, r, loop) && GatewayKept(cfg, r, loop.gateway)
    requires turn.Offers? ==> CandidateReferencesValid(turn.candidate, loop.accumulated)
    ensures RunPaced(cfg, s, r.(phase := ConsultedPhase(cfg, r.alert, loop, turn, actionIds, clock)))
  {
    match turn
    case Offers(c) => CandidatePaced(cfg, s, r, loop, c, actionIds, clock);
    case Leaves(why) => SafeExitPaced(cfg, s, r, loop.openedAt, why, clock);
    case Asks(_) =>
  }

  lemma CallingNext(cfg: Config, s: Store, r: Run, loop: Loop, request: ProposedToolRequest, since: Instant,
    tool: ToolBehaviour, clock: Instant)
    requires Paced(cfg, s, r, loop) && loop.gateway.executionId == r.executionId
    ensures RunPaced(cfg, s, r.(phase := AfterCall(cfg, loop, request, since, tool, clock)))
  {
    InvokeRecords(cfg.registry, loop.gateway, request, tool, CallTimes(since, clock));
    var g := Invoke(cfg.registry, loop.gateway, request, tool, CallTimes(since, clock)).0;
    assert g.records == loop.gateway.records + [g.records[|g.records| - 1]];
  }

  predicate NoReferences(r: TriageResult)
  {
    r.evidence == [] && r.toolCalls == []
  }

  /** Where a durable tool iteration can lead. */
  ghost predicate ToolLeads(cfg: Config, r: Run, next: Phase)
    requires r.phase.Persisting?
  {
    var (loop, record) := (r.phase.loop, r.phase.record);
    && (next.Head? || next.Ended? || (next.Finalizing? && NoReferences(next.decision.result)))
    && (next.Head? ==>
          && record.outcome.Success?
          && loop.iteration < cfg.limits.maxIterations && |loop.accumulated| < cfg.limits.maxEvidenceItems
          && exists item :: AccumulatedFrom(item, record) && next.loop == Longer(loop, item, r.phase.gateway))
  }

  lemma ToolLeadsTo(cfg: Config, r: Run, newId: Id, clock: Instant)
    requires r.phase.Persisting? && r.phase.result.status == r.phase.record.outcome
    ensures var p := r.phase;
      ToolLeads(cfg, r, AfterTool(cfg, r.alert, p.loop, p.gateway, p.record, p.result, newId, clock))
  {
    var p := r.phase;
    var next := AfterTool(cfg, r.alert, p.loop, p.gateway, p.record, p.result, newId, clock);
    if next.Head? {
      var outcome := if p.result.result.Some? then p.result.result.value else Obj([]);
      AccumulatedFromRecord(cfg, p.record, outcome, newId);
      assert next.loop == Longer(p.loop, ToEvidence(cfg, p.record, outcome, newId).value, p.gateway);
    }
  }

  lemma ToolNext(cfg: Config, s: Store, r: Run, t: Store, next: Phase)
    requires r.phase.Persisting? && RunPaced(cfg, s, r) && ToolLeads(cfg, r, next)
    requires ToolEffect(s, InvocationRow(r.phase.record, r.phase.result.result), t)
    ensures RunPaced(cfg, t, r.(phase := next))
  {
    var p := r.phase;
    PersistedNext(s, r.executionId, p.loop.gateway.records, InvocationRow(p.record, p.result.result), t);
    if next.Head? {
      var item :| AccumulatedFrom(item, p.record) && next.loop == Longer(p.loop, item, p.gateway);
      AccumulatePaced(cfg, s, t, r, p.loop, p.gateway, p.record, item);
    }
  }

  /** The store a run's step leaves: what its durable transaction makes of it, or no change. */
  ghost predicate StepStore(s: Store, r: Run, ending: Ending, clock: Instant, t: Store)
  {
    var x := TransactionOf(r, clock);
    if x.Some? && ending == Durable then Changes(s, t, x.value) else t == s
  }

  lemma WaitingPaced(cfg: Config, s: Store, snap: Store, r: Run, ending: Ending, clock: Instant, x: Input)
    requires Deterministic(cfg) && RunPaced(cfg, s, r) && RunAccounted(cfg, r)
    requires r.phase.Head? || r.phase.Thinking? || r.phase.Calling?
    ensures RunPaced(cfg, s, r.(phase := Next(cfg, r, snap, ending, clock, x)))
  {
    match r.phase
    case Head(loop, _) => HeadNext(cfg, s, r, loop, x.contextBytes, clock);
    case Thinking(loop, _, _) => ThinkingNext(cfg, s, r, loop, StepTurn(loop, x.reasoner, x.newId), x.actionIds, clock);
    case Calling(loop, request, since) => CallingNext(cfg, s, r, loop, request, since, x.tool, clock);
    case _ =>
  }

  lemma StartPaced(cfg: Config, s: Store, snap: Store, r: Run, ending: Ending, clock: Instant, x: Input, t: Store)
    requires ValidConfig(cfg) && ExecutionReferencesHold(s) && r.phase.Starting?
    requires StepStore(s, r, ending, clock, t)
    ensures RunPaced(cfg, t, r.(phase := Next(cfg, r, snap, ending, clock, x)))
  {
    StartingNext(cfg, s, r, r.phase.now, ending, clock, t);
  }

  lemma ToolPaced(cfg: Config, s: Store, snap: Store, r: Run, ending: Ending, clock: Instant, x: Input, t: Store)
    requires RunPaced(cfg, s, r) && r.phase.Persisting?
    requires ending == Durable ==> ToolEffect(s, InvocationRow(r.phase.record, r.phase.result.result), t)
    ensures RunPaced(cfg, t, r.(phase := Next(cfg, r, snap, ending, clock, x)))
  {
    if ending == Durable {
      ToolLeadsTo(cfg, r, x.newId, clock);
      ToolNext(cfg, s, r, t, Next(cfg, r, snap, ending, clock, x));
    }
  }

  lemma RunPacedNext(cfg: Config, s: Store, snap: Store, r: Run, ending: Ending, clock: Instant, x: Input, t: Store)
    requires ValidConfig(cfg) && ExecutionReferencesHold(s) && RunPaced(cfg, s, r) && RunAccounted(cfg, r)
    requires StepStore(s, r, ending, clock, t)
    ensures RunPaced(cfg, t, r.(phase := Next(cfg, r, snap, ending, clock, x)))
  {
    if r.phase.Head? || r.phase.Thinking? || r.phase.Calling? {
      WaitingPaced(cfg, s, snap, r, ending, clock, x);
    } else if r.phase.Starting? {
      StartPaced(cfg, s, snap, r, ending, clock, x, t);
    } else if r.phase.Persisting? {
      ToolPaced(cfg, s, snap, r, ending, clock, x, t);
    }
  }
}
