/** A run by itself, stage by stage: what each of its waits and transactions leads to when the
    run is the only one and every wait keeps to its limit. */
module Stages {
  import opened Base
  import opened Json
  import opened Timestamps
  import opened Entities
  import opened Actions
  import opened Policy
  import opened Gateway
  import opened Store
  import opened Workflow
  import opened Effects
  import opened Orchestration
  import opened System
  import opened Timing
  import opened Lockstep
  import opened Refinement

  /** Where a run stands when it is alone. */
  datatype Standing = Standing(run: Run, store: Store, clock: Instant)

  function At(r: Run, phase: Phase, s: Store, clock: Instant): Standing
  {
    Standing(r.(phase := phase), s, clock)
  }

  /** The run waits, within the limit of its phase. */
  predicate Waits(cfg: Config, p: nat, a: Standing, b: Standing)
  {
    a.clock <= b.clock && OnTime(cfg, p, a.run.phase, b.clock) && b == a.(clock := b.clock)
  }

  /** The run waits, and takes a step on this input. */
  ghost predicate Goes(cfg: Config, p: nat, a: Standing, x: Input, b: Standing)
  {
    && a.clock <= b.clock && OnTime(cfg, p, a.run.phase, b.clock) && x.lag == 0
    && Alone(cfg, a.run, a.store, b.clock, x) == (b.store, b.run)
  }

  /** Where a run may stand: waits and steps do not leave the set. */
  ghost predicate Onward(cfg: Config, p: nat, ok: Standing -> bool)
  {
    && (forall a, b {:trigger ok(a), ok(b)} :: ok(a) && Waits(cfg, p, a, b) ==> ok(b))
    && forall a, x, b {:trigger Goes(cfg, p, a, x, b)} :: ok(a) && Goes(cfg, p, a, x, b) ==> ok(b)
  }

  // ---- Where punctual systems stand -------------------------------------------------------------------------

  /** The only run of the system stands there. */
  ghost predicate Lone(s: System, a: Standing)
  {
    |s.runs| == 1 && Stands(s, 0, a.run, a.store, a.clock)
  }

  /** The run can come to stand there, alone in a punctual system. */
  ghost predicate Stood(cfg: Config, p: nat, a: Standing)
  {
    exists s :: PunctuallyReachable(cfg, p, s) && Lone(s, a)
  }

  lemma PunctualStep(cfg: Config, p: nat, s: System, step: Step)
    requires PunctuallyReachable(cfg, p, s) && Punctual(cfg, p, s, step, Apply(cfg, s, step))
    ensures PunctuallyReachable(cfg, p, Apply(cfg, s, step))
  {
    var steps: seq<Step> :| AllPunctual(cfg, p, steps) && s == RunSteps(cfg, steps);
    var more := steps + [step];
    assert more[..|more| - 1] == steps;
    assert RunSteps(cfg, more) == Apply(cfg, s, step);
    assert AllPunctual(cfg, p, more);
  }

  /** A run arrives at this time in an empty system. */
  lemma EntersStood(cfg: Config, p: nat, r: Run, at: Instant)
    ensures Stood(cfg, p, At(r, Entered, EMPTY_STORE, at))
  {
    assert AllPunctual(cfg, p, []) && RunSteps(cfg, []) == INITIAL;
    PunctualStep(cfg, p, INITIAL, Tick(at));
    var later := Apply(cfg, INITIAL, Tick(at));
    PunctualStep(cfg, p, later, Arrive(r.alert, r.key, r.executionId));
    var s := Apply(cfg, later, Arrive(r.alert, r.key, r.executionId));
    assert Lone(s, At(r, Entered, EMPTY_STORE, at));
  }

  lemma TickLone(cfg: Config, p: nat, s: System, a: Standing, b: Standing)
    requires Lone(s, a) && Waits(cfg, p, a, b)
    ensures var t := Apply(cfg, s, Tick(b.clock - a.clock)); Lone(t, b) && Punctual(cfg, p, s, Tick(b.clock - a.clock), t)
  {
    assert Apply(cfg, s, Tick(b.clock - a.clock)) == s.(clock := b.clock);
  }

  lemma WaitsStood(cfg: Config, p: nat, a: Standing, b: Standing)
    requires Stood(cfg, p, a) && Waits(cfg, p, a, b)
    ensures Stood(cfg, p, b)
  {
    var s :| PunctuallyReachable(cfg, p, s) && Lone(s, a);
    TickLone(cfg, p, s, a, b);
    PunctualStep(cfg, p, s, Tick(b.clock - a.clock));
  }

  lemma StepStood(cfg: Config, p: nat, a: Standing, x: Input, after: Store, next: Run)
    requires Stood(cfg, p, a) && x.lag == 0 && Alone(cfg, a.run, a.store, a.clock, x) == (after, next)
    ensures Stood(cfg, p, Standing(next, after, a.clock))
  {
    var s :| PunctuallyReachable(cfg, p, s) && Lone(s, a);
    StepIsAdvance(cfg, s, 0, a.run, a.store, a.clock, x);
    PunctualStep(cfg, p, s, Advance(0, x));
    assert Lone(Apply(cfg, s, Advance(0, x)), Standing(next, after, a.clock));
  }

  lemma StoodClosed(cfg: Config, p: nat)
    ensures Onward(cfg, p, a => Stood(cfg, p, a))
  {
    forall a, b | Stood(cfg, p, a) && Waits(cfg, p, a, b) ensures Stood(cfg, p, b) {
      WaitsStood(cfg, p, a, b);
    }
    forall a, x, b {:trigger Goes(cfg, p, a, x, b)} | Stood(cfg, p, a) && Goes(cfg, p, a, x, b) ensures Stood(cfg, p, b) {
      WaitsStood(cfg, p, a, a.(clock := b.clock));
      StepStood(cfg, p, a.(clock := b.clock), x, b.store, b.run);
    }
  }

  // ---- Inputs ---------------------------------------------------------------------------------------------

  function NoIds(): nat -> Id
  {
    k => ""
  }

  /** An input whose reasoner and tool play no part. */
  function Quiet(fault: bool): Input
  {
    Input(0, fault, 0, ReasonerTimesOut, "", TimesOut, NoIds())
  }

  function Asking(request: ProposedToolRequest): Input
  {
    Quiet(false).(reasoner := ReasonerReturns(Some(ToolStep(request.toolName, request.arguments))), newId := request.callId)
  }

  function Offering(candidate: CandidateAssessment, actionIds: nat -> Id): Input
  {
    Quiet(false).(reasoner := ReasonerReturns(Some(CandidateStep(candidate))), actionIds := actionIds)
  }

  // ---- Stages -----------------------------------------------------------------------------------------------

  /** The store after the first start. */
  function Opened(r: Run, at: Instant): Store
  {
    EMPTY_STORE.(alerts := map[r.alert.alertId := r.alert],
                 executions := map[r.executionId := ExecutionRow(r.alert.alertId, Running, r.key, at, at, None)],
                 keys := map[r.key := r.executionId],
                 audit := [ExecutionStarted(r.executionId)])
  }

  lemma StartStore(r: Run, at: Instant, t: Store)
    requires StartEffect(EMPTY_STORE, EMPTY_STORE, r.alert, r.key, r.executionId, at, t)
    ensures t == Opened(r, at)
  {
    var empty := EMPTY_STORE;
    assert empty.alerts[r.alert.alertId := r.alert] == Opened(r, at).alerts;
    assert empty.executions[r.executionId := ExecutionRow(r.alert.alertId, Running, r.key, at, at, None)] == Opened(r, at).executions;
    assert empty.keys[r.key := r.executionId] == Opened(r, at).keys;
    assert empty.audit + [ExecutionStarted(r.executionId)] == Opened(r, at).audit;
  }

  lemma StartCommits(cfg: Config, r: Run, at: Instant)
    requires IsIdentifier(r.key)
    ensures RunAttempt(EMPTY_STORE, EMPTY_STORE, StartRun(r.alert, r.key, r.executionId, at), false) == (Durable, Opened(r, at))
  {
    IdentifierIsStripped(r.key);
    GrowsReflexive(EMPTY_STORE);
    var x := StartRun(r.alert, r.key, r.executionId, at);
    DurableExactly(cfg, EMPTY_STORE, EMPTY_STORE, x, false);
    AttemptEffect(cfg, EMPTY_STORE, EMPTY_STORE, x, false);
    RunAttemptNow(cfg, EMPTY_STORE, x, false);
    StartStore(r, at, Attempt(cfg, EMPTY_STORE, EMPTY_STORE, x, false).1);
  }

  /** The loop of a run that opened and began its iterations at these times. */
  function FirstLoop(cfg: Config, r: Run, at: Instant, begun: Instant): Loop
  {
    Loop(at, begun, 1, [], EmptyContext(r.executionId, ScopeKeys(r.alert.entities), cfg.gatewayLimits))
  }

  /** The run finds nothing under its key, and its start commits. */
  lemma Starts(cfg: Config, p: nat, ok: Standing -> bool, r: Run, at: Instant, begun: Instant)
    requires Onward(cfg, p, ok) && ok(At(r, Entered, EMPTY_STORE, at))
    requires IsIdentifier(r.key) && at <= begun <= at + p
    ensures ok(At(r, Head(FirstLoop(cfg, r, at, begun), begun), Opened(r, at), begun))
  {
    assert Goes(cfg, p, At(r, Entered, EMPTY_STORE, at), Quiet(false), At(r, Starting(at), EMPTY_STORE, at));
    StartCommits(cfg, r, at);
    assert Goes(cfg, p, At(r, Starting(at), EMPTY_STORE, at), Quiet(false),
        At(r, Head(FirstLoop(cfg, r, at, begun), begun), Opened(r, at), begun));
  }

  /** The reasoner is consulted in the first millisecond. */
  function Asked(loop: Loop, since: Instant): Phase
  {
    Thinking(loop, 0, since)
  }

  /** Within a millisecond of its start and without guidance, the head leads to the reasoner. */
  lemma Consults(cfg: Config, p: nat, ok: Standing -> bool, r: Run, loop: Loop, st: Store, clock: Instant)
    requires Onward(cfg, p, ok) && ok(At(r, Head(loop, clock), st, clock))
    requires !cfg.guidance && 1 <= cfg.limits.deadlineMs && MonotonicMs(clock) == MonotonicMs(loop.startedAt)
    ensures ok(At(r, Asked(loop, clock), st, clock))
  {
    assert Goes(cfg, p, At(r, Head(loop, clock), st, clock), Quiet(false), At(r, Asked(loop, clock), st, clock));
  }

  /** The reasoner asks for a call. */
  lemma AsksFor(cfg: Config, p: nat, ok: Standing -> bool, r: Run, loop: Loop, st: Store, clock: Instant, later: Instant,
    request: ProposedToolRequest)
    requires Onward(cfg, p, ok) && ok(At(r, Asked(loop, clock), st, clock))
    requires clock <= later <= clock + DeadlineUs(cfg)
    ensures ok(At(r, Calling(loop, request, later), st, later))
  {
    assert Goes(cfg, p, At(r, Asked(loop, clock), st, clock), Asking(request), At(r, Calling(loop, request, later), st, later));
  }

  /** The reasoner offers a candidate at once. */
  lemma OffersAt(cfg: Config, p: nat, ok: Standing -> bool, r: Run, loop: Loop, st: Store, clock: Instant,
    candidate: CandidateAssessment, actionIds: nat -> Id)
    requires Onward(cfg, p, ok) && ok(At(r, Asked(loop, clock), st, clock))
    requires CandidateReferencesValid(candidate, loop.accumulated)
    ensures ok(At(r, CandidateExit(cfg, r.alert, loop.openedAt, candidate, actionIds, clock), st, clock))
  {
    assert Goes(cfg, p, At(r, Asked(loop, clock), st, clock), Offering(candidate, actionIds),
        At(r, CandidateExit(cfg, r.alert, loop.openedAt, candidate, actionIds, clock), st, clock));
  }

  /** The list ends with this record. */
  predicate EndsWith(rs: seq<ToolInvocationRecord>, record: ToolInvocationRecord)
  {
    rs != [] && rs[|rs| - 1] == record
  }

  /** The gateway answers a call this way. */
  lemma Calls(cfg: Config, p: nat, ok: Standing -> bool, r: Run, loop: Loop, request: ProposedToolRequest, st: Store,
    clock: Instant, later: Instant, tool: ToolBehaviour, g: GatewayContext, record: ToolInvocationRecord, result: GatewayResult)
    requires Onward(cfg, p, ok) && ok(At(r, Calling(loop, request, clock), st, clock))
    requires clock <= later <= clock + ToolWaitUs(cfg, request) && EndsWith(g.records, record)
    requires Invoke(cfg.registry, loop.gateway, request, tool, CallTimes(clock, later)) == (g, result)
    ensures ok(At(r, Persisting(loop, g, record, result, later), st, later))
  {
    assert Goes(cfg, p, At(r, Calling(loop, request, clock), st, clock), Quiet(false).(tool := tool),
        At(r, Persisting(loop, g, record, result, later), st, later));
  }

  /** The store after one more call. */
  function WithCall(st: Store, record: ToolInvocationRecord, result: Option<Json>): Store
  {
    st.(invocations := st.invocations[record.callId := InvocationRow(record, result)],
        audit := st.audit + [ToolInvoked(record.executionId, record.callId, record.authorization, record.outcome)])
  }

  /** The call is new, and its execution is stored. */
  predicate NewCall(st: Store, record: ToolInvocationRecord)
  {
    record.callId !in st.invocations && record.executionId in st.executions
  }

  lemma CallCommits(st: Store, record: ToolInvocationRecord, result: Option<Json>)
    requires NewCall(st, record)
    ensures RunAttempt(st, st, RecordTool(record, result), false) == (Durable, WithCall(st, record, result))
  {
    ToolDurable(st, InvocationRow(record, result));
    ToolApplies(st, InvocationRow(record, result));
  }

  function SuccessOf(q: ProposedToolRequest, outcome: Json): GatewayResult
  {
    GatewayResult(q.callId, q.toolName, Success, Allowed, Some(outcome))
  }

  function TimeoutOf(q: ProposedToolRequest): GatewayResult
  {
    GatewayResult(q.callId, q.toolName, Timeout, Allowed, None)
  }

  /** The record of a success commits at once, and its outcome becomes evidence. */
  lemma Gathers(cfg: Config, p: nat, ok: Standing -> bool, r: Run, loop: Loop, g: GatewayContext, record: ToolInvocationRecord,
    q: ProposedToolRequest, st: Store, clock: Instant, outcome: Json, evidenceId: Id, item: Accumulated)
    requires Onward(cfg, p, ok) && ok(At(r, Persisting(loop, g, record, SuccessOf(q, outcome), clock), st, clock))
    requires NewCall(st, record) && ToEvidence(cfg, record, outcome, evidenceId) == Some(item)
    requires |loop.accumulated| < cfg.limits.maxEvidenceItems && loop.iteration < cfg.limits.maxIterations
    ensures ok(At(r, Head(Longer(loop, item, g), clock), WithCall(st, record, Some(outcome)), clock))
  {
    CallCommits(st, record, Some(outcome));
    assert Goes(cfg, p, At(r, Persisting(loop, g, record, SuccessOf(q, outcome), clock), st, clock), Quiet(false).(newId := evidenceId),
        At(r, Head(Longer(loop, item, g), clock), WithCall(st, record, Some(outcome)), clock));
  }

  /** The record of a call that timed out commits, and the loop ends. */
  lemma EndsLoop(cfg: Config, p: nat, ok: Standing -> bool, r: Run, loop: Loop, g: GatewayContext, record: ToolInvocationRecord,
    q: ProposedToolRequest, st: Store, clock: Instant, later: Instant)
    requires Onward(cfg, p, ok) && ok(At(r, Persisting(loop, g, record, TimeoutOf(q), clock), st, clock))
    requires NewCall(st, record) && clock <= later <= clock + p
    ensures ok(At(r, SafeExit(r.alert, loop.openedAt, ToolFailed, later), WithCall(st, record, None), later))
  {
    CallCommits(st, record, None);
    assert Goes(cfg, p, At(r, Persisting(loop, g, record, TimeoutOf(q), clock), st, clock), Quiet(false),
        At(r, SafeExit(r.alert, loop.openedAt, ToolFailed, later), WithCall(st, record, None), later));
  }

  /** A run that came to its final commit waits for it. */
  lemma WaitsToFinish(cfg: Config, p: nat, ok: Standing -> bool, a: Standing, later: Instant)
    requires Onward(cfg, p, ok) && ok(a) && a.run.phase.Finalizing? && a.clock <= later && OnTime(cfg, p, a.run.phase, later)
    ensures ok(a.(clock := later))
  {
    assert Waits(cfg, p, a, a.(clock := later));
  }

  /** The final commit fails, and recording that takes as long. */
  lemma FailsToFinish(cfg: Config, p: nat, ok: Standing -> bool, r: Run, openedAt: Instant, d: PolicyDecision, why: ReasonCode,
    st: Store, clock: Instant, late: Instant, later: Instant)
    requires Onward(cfg, p, ok) && ok(At(r, Finalizing(openedAt, d, why, clock), st, clock))
    requires clock <= late <= clock + p && late <= later <= late + p
    ensures ok(At(r, Recording(openedAt, FinalizationFailed, late), st, later))
  {
    assert Goes(cfg, p, At(r, Finalizing(openedAt, d, why, clock), st, clock), Quiet(true),
        At(r, Recording(openedAt, FinalizationFailed, late), st, late));
    assert Waits(cfg, p, At(r, Recording(openedAt, FinalizationFailed, late), st, late),
        At(r, Recording(openedAt, FinalizationFailed, late), st, later));
  }
}
