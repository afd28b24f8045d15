/** One triage run as a machine: each step is one wait on the environment or one transaction
    (application/orchestrator.py, application/orchestration_contracts.py). */
module Orchestration {
  import opened Base
  import opened Json
  import opened Timestamps
  import opened Entities
  import opened Triage
  import opened Policy
  import opened Gateway
  import opened Store
  import opened Workflow

  // ---- Accumulated evidence ---------------------------------------------------------------------------

  datatype Accumulated = Accumulated(reference: EvidenceReference, toolCall: ToolCallReference, outcome: Json)

  function FieldOf(v: Json, key: string): Option<Json>
  {
    if v.Obj? then Find(v.members, key) else None
  }

  /** The text of a field: the default when it is absent, and how it is written when it is not
      text. */
  function TextOr(cfg: Config, v: Option<Json>, absent: string): string
  {
    if v.None? then absent else if v.value.Str? then v.value.text else cfg.repr(v.value)
  }

  function TextField(cfg: Config, v: Json, key: string, absent: string): string
  {
    TextOr(cfg, FieldOf(v, key), absent)
  }

  function BoundedText(raw: string, limit: nat): Option<string>
  {
    var s := Strip(raw);
    if 1 <= |s| <= limit then Some(s) else None
  }

  function ProvenanceOf(outcome: Json): Json
  {
    var field := FieldOf(outcome, "provenance");
    if field.Some? then field.value else Null
  }

  function StatusOf(cfg: Config, outcome: Json): string
  {
    TextField(cfg, outcome, "status", "UNKNOWN")
  }

  function VersionOf(cfg: Config, outcome: Json, key: string): Option<string>
  {
    BoundedText(TextField(cfg, ProvenanceOf(outcome), key, "unknown"), 64)
  }

  function CallSummary(toolName: Id, status: string): Option<string>
  {
    BoundedText(toolName + " returned " + status + ".", 512)
  }

  function EvidenceSummary(toolName: Id, status: string): Option<string>
  {
    BoundedText("Sanitized " + toolName + " outcome: " + status + ".", 512)
  }

  /** The reference to the call; None when it does not validate. */
  function CallReference(cfg: Config, record: ToolInvocationRecord, outcome: Json): Option<ToolCallReference>
  {
    var version, summary := VersionOf(cfg, outcome, "tool_version"), CallSummary(record.toolName, StatusOf(cfg, outcome));
    if version.Some? && summary.Some? then
      Some(ToolCallReference(record.callId, record.toolName, version.value, record.startedAt, summary.value))
    else None
  }

  /** The reference to the evidence; None when it does not validate. */
  function ItemReference(cfg: Config, record: ToolInvocationRecord, outcome: Json, evidenceId: Id): Option<EvidenceReference>
  {
    var version, summary := VersionOf(cfg, outcome, "fixture_version"), EvidenceSummary(record.toolName, StatusOf(cfg, outcome));
    if version.Some? && summary.Some? then
      Some(EvidenceReference(evidenceId, record.toolName, record.callId, record.completedAt,
        version.value, summary.value, Some(record.callId)))
    else None
  }

  /** `_to_evidence`; None when a reference does not validate, which raises. */
  function ToEvidence(cfg: Config, record: ToolInvocationRecord, outcome: Json, evidenceId: Id): Option<Accumulated>
  {
    var call, item := CallReference(cfg, record, outcome), ItemReference(cfg, record, outcome, evidenceId);
    if call.Some? && item.Some? then Some(Accumulated(item.value, call.value, outcome)) else None
  }

  /** What the dictionary built from the accumulated items holds under an identifier: the
      last item with it. */
  function ReferenceFor(items: seq<Accumulated>, id: Id): Option<EvidenceReference>
  {
    if items == [] then None
    else if items[|items| - 1].reference.evidenceId == id then Some(items[|items| - 1].reference)
    else ReferenceFor(items[..|items| - 1], id)
  }

  function CallFor(items: seq<Accumulated>, id: Id): Option<ToolCallReference>
  {
    if items == [] then None
    else if items[|items| - 1].toolCall.invocationId == id then Some(items[|items| - 1].toolCall)
    else CallFor(items[..|items| - 1], id)
  }

  predicate CandidateReferencesValid(c: CandidateAssessment, items: seq<Accumulated>)
  {
    && (forall v | v in c.evidence :: ReferenceFor(items, v.evidenceId) == Some(v))
    && forall t | t in c.toolCalls :: CallFor(items, t.invocationId) == Some(t)
  }

  /** No later item has this one's evidence identifier. */
  predicate LastReference(items: seq<Accumulated>, i: nat)
  {
    i < |items| && forall j | i < j < |items| :: items[j].reference.evidenceId != items[i].reference.evidenceId
  }

  predicate LastCall(items: seq<Accumulated>, i: nat)
  {
    i < |items| && forall j | i < j < |items| :: items[j].toolCall.invocationId != items[i].toolCall.invocationId
  }

  /** The reference is that of some item, the last with its identifier. */
  ghost predicate Accumulates(items: seq<Accumulated>, v: EvidenceReference)
  {
    exists i: nat :: LastReference(items, i) && items[i].reference == v
  }

  ghost predicate AccumulatesCall(items: seq<Accumulated>, t: ToolCallReference)
  {
    exists i: nat :: LastCall(items, i) && items[i].toolCall == t
  }

  lemma {:induction false} ReferenceForExactly(items: seq<Accumulated>, v: EvidenceReference)
    ensures ReferenceFor(items, v.evidenceId) == Some(v) <==> Accumulates(items, v)
  {
    if items != [] {
      var n := |items| - 1;
      var init := items[..n];
      ReferenceForExactly(init, v);
      if items[n].reference.evidenceId == v.evidenceId {
        assert LastReference(items, n);
      } else {
        if i: nat :| LastReference(init, i) && init[i].reference == v {
          assert LastReference(items, i) && items[i].reference == v;
        }
        if i: nat :| LastReference(items, i) && items[i].reference == v {
          assert LastReference(init, i) && init[i].reference == v;
        }
      }
    }
  }

  lemma {:induction false} CallForExactly(items: seq<Accumulated>, t: ToolCallReference)
    ensures CallFor(items, t.invocationId) == Some(t) <==> AccumulatesCall(items, t)
  {
    if items != [] {
      var n := |items| - 1;
      var init := items[..n];
      CallForExactly(init, t);
      if items[n].toolCall.invocationId == t.invocationId {
        assert LastCall(items, n);
      } else {
        if i: nat :| LastCall(init, i) && init[i].toolCall == t {
          assert LastCall(items, i) && items[i].toolCall == t;
        }
        if i: nat :| LastCall(items, i) && items[i].toolCall == t {
          assert LastCall(init, i) && init[i].toolCall == t;
        }
      }
    }
  }

  /** Everything the candidate cites was accumulated, whole, and nothing later took its place. */
  ghost predicate CitesAccumulated(c: CandidateAssessment, items: seq<Accumulated>)
  {
    (forall v | v in c.evidence :: Accumulates(items, v)) && forall t | t in c.toolCalls :: AccumulatesCall(items, t)
  }

  /** The references check out exactly for the candidates that cite what was accumulated. */
  lemma ReferencesExactly(c: CandidateAssessment, items: seq<Accumulated>)
    ensures CandidateReferencesValid(c, items) <==> CitesAccumulated(c, items)
  {
    forall v | v in c.evidence ensures ReferenceFor(items, v.evidenceId) == Some(v) <==> Accumulates(items, v) {
      ReferenceForExactly(items, v);
    }
    forall t | t in c.toolCalls ensures CallFor(items, t.invocationId) == Some(t) <==> AccumulatesCall(items, t) {
      CallForExactly(items, t);
    }
  }

  /** Every item and call of a result is, whole, one that was accumulated. */
  ghost predicate Cites(r: TriageResult, items: seq<Accumulated>)
  {
    && (forall v | v in r.evidence :: exists a :: a in items && a.reference == v)
    && forall t | t in r.toolCalls :: exists a :: a in items && a.toolCall == t
  }

  /** A candidate whose references check out leads to a decision that cites only what was
      accumulated, whatever else it says. */
  lemma EvaluationCites(
    cfg: Config, newId: nat -> Id, c: CandidateAssessment, items: seq<Accumulated>,
    alertId: Id, scope: set<string>, timestamp: Instant)
    requires Deterministic(cfg) && CandidateReferencesValid(c, items)
    ensures Cites(cfg.policy(newId, c, alertId, scope, timestamp).result, items)
  {
    ReferencesExactly(c, items);
    forall v | v in c.evidence ensures exists a :: a in items && a.reference == v {
      var i: nat :| LastReference(items, i) && items[i].reference == v;
      assert items[i] in items;
    }
    forall t | t in c.toolCalls ensures exists a :: a in items && a.toolCall == t {
      var i: nat :| LastCall(items, i) && items[i].toolCall == t;
      assert items[i] in items;
    }
  }

  // ---- Phases -------------------------------------------------------------------------------------------

  datatype Termination =
    | IterationLimit | DeadlineExceeded | ToolRequestDenied | ToolFailed | ContextLimit
    | ReasonerFailure | InvalidReasonerOutput | EvidenceReferenceViolation

  datatype ReasonCode =
    | CandidateCompleted | PolicySafeReview | Terminated(termination: Termination)
    | IdempotentReplay | PersistenceFailure

  datatype Outcome = Outcome(executionId: Id, durable: bool, reason: ReasonCode, result: Option<TriageResult>)

  datatype ReasonerStep =
    | ToolStep(toolName: Id, arguments: RawArguments)
    | CandidateStep(candidate: CandidateAssessment)

  /** What the reasoner's future does before the remaining deadline; `None` fails validation. */
  datatype ReasonerBehaviour = ReasonerTimesOut | ReasonerRaises | ReasonerReturns(step: Option<ReasonerStep>)

  /** The state of the loop: when the run opened (its stored time) and started its clock, the
      iteration, what it has accumulated and the gateway's accounting. */
  datatype Loop = Loop(
    openedAt: Instant, startedAt: Instant, iteration: nat, accumulated: seq<Accumulated>, gateway: GatewayContext)

  datatype Phase =
    | Entered
    | Starting(now: Instant)
    | Head(loop: Loop, since: Instant)
    | Thinking(loop: Loop, elapsedMs: nat, since: Instant)
    | Calling(loop: Loop, request: ProposedToolRequest, since: Instant)
    | Persisting(
        loop: Loop, gateway: GatewayContext, record: ToolInvocationRecord, result: GatewayResult, since: Instant)
    | Finalizing(openedAt: Instant, decision: PolicyDecision, reason: ReasonCode, since: Instant)
    | Recording(openedAt: Instant, category: FailureCategory, since: Instant)
    | Ended(outcome: Option<Outcome>)

  /** The key is the caller's text: it is looked up as it is, and stored as the Identifier it
      parses to. */
  datatype Run = Run(alert: SecurityAlert, key: string, executionId: Id, phase: Phase)

  /** Everything the environment chooses in one step. */
  datatype Input = Input(
    lag: nat, fault: bool, contextBytes: nat, reasoner: ReasonerBehaviour,
    newId: Id, tool: ToolBehaviour, actionIds: nat -> Id)

  function MonotonicMs(clock: Instant): nat
  {
    clock / 1000
  }

  function NotDurable(executionId: Id): Phase
  {
    Ended(Some(Outcome(executionId, false, PersistenceFailure, None)))
  }

  function SafeExit(alert: SecurityAlert, openedAt: Instant, t: Termination, clock: Instant): Phase
  {
    Finalizing(openedAt, SafeReview(alert.alertId, clock), Terminated(t), clock)
  }

  /** The exit with a candidate: the policy's decision and the reason it gives. */
  function CandidateExit(
    cfg: Config, alert: SecurityAlert, openedAt: Instant, candidate: CandidateAssessment, actionIds: nat -> Id, clock: Instant): Phase
  {
    var decision := cfg.policy(actionIds, candidate, alert.alertId, ScopeKeys(alert.entities), clock);
    Finalizing(openedAt, decision,
      if decision.result.disposition.NeedsReview? then PolicySafeReview else CandidateCompleted, clock)
  }

  function Lookup(s: Store, key: string): Option<Outcome>
  {
    if key !in s.keys then None
    else
      var e := s.keys[key];
      Some(Outcome(e, true, IdempotentReplay, if e in s.results then Some(s.results[e]) else None))
  }

  function AfterLookup(key: string, executionId: Id, snap: Store, fault: bool, clock: Instant): Phase
  {
    if fault then NotDurable(executionId)
    else
      match Lookup(snap, key)
      case Some(outcome) => Ended(Some(outcome))
      case None => Starting(clock)
  }

  function AfterStart(cfg: Config, alert: SecurityAlert, executionId: Id, now: Instant, ending: Ending, clock: Instant): Phase
  {
    if ending == Durable then
      Head(Loop(now, clock, 1, [],
        EmptyContext(executionId, ScopeKeys(alert.entities), cfg.gatewayLimits)), clock)
    else Recording(now, StartPersistenceFailed, clock)
  }

  // ---- The branches of an iteration ---------------------------------------------------------------------

  /** The checks at the head of an iteration. */
  datatype HeadTurn = Proceeds(elapsedMs: nat) | Stops(termination: Termination) | Throws

  function HeadTurnOf(cfg: Config, loop: Loop, contextBytes: nat, clock: Instant): HeadTurn
  {
    var elapsed := MonotonicMs(clock) - MonotonicMs(loop.startedAt);
    if elapsed >= cfg.limits.deadlineMs then Stops(DeadlineExceeded)
    else if cfg.guidance && ShownTargets(loop.gateway.scope).None? then Throws
    else if contextBytes > cfg.limits.maxContextBytes then Stops(ContextLimit)
    else Proceeds(if elapsed < 0 then 0 else elapsed)
  }

  function HeadPhase(alert: SecurityAlert, loop: Loop, turn: HeadTurn, clock: Instant): Phase
  {
    match turn
    case Stops(t) => SafeExit(alert, loop.openedAt, t, clock)
    case Throws => Ended(None)
    case Proceeds(elapsedMs) => Thinking(loop, elapsedMs, clock)
  }

  function AfterHead(cfg: Config, alert: SecurityAlert, loop: Loop, contextBytes: nat, clock: Instant): Phase
  {
    HeadPhase(alert, loop, HeadTurnOf(cfg, loop, contextBytes, clock), clock)
  }

  /** What the reasoner's behaviour amounts to. */
  datatype Consulted =
    | Asks(request: ProposedToolRequest)
    | Offers(candidate: CandidateAssessment)
    | Leaves(termination: Termination)

  function StepTurn(loop: Loop, b: ReasonerBehaviour, newId: Id): Consulted
  {
    match b
    case ReasonerTimesOut => Leaves(DeadlineExceeded)
    case ReasonerRaises => Leaves(ReasonerFailure)
    case ReasonerReturns(None) => Leaves(InvalidReasonerOutput)
    case ReasonerReturns(Some(CandidateStep(c))) =>
      if CandidateReferencesValid(c, loop.accumulated) then Offers(c) else Leaves(EvidenceReferenceViolation)
    case ReasonerReturns(Some(ToolStep(toolName, arguments))) => Asks(ProposedToolRequest(newId, toolName, arguments))
  }

  function ConsultedPhase(
    cfg: Config, alert: SecurityAlert, loop: Loop, turn: Consulted, actionIds: nat -> Id, clock: Instant): Phase
  {
    match turn
    case Asks(request) => Calling(loop, request, clock)
    case Offers(c) => CandidateExit(cfg, alert, loop.openedAt, c, actionIds, clock)
    case Leaves(t) => SafeExit(alert, loop.openedAt, t, clock)
  }

  function AfterThinking(
    cfg: Config, alert: SecurityAlert, loop: Loop, behaviour: ReasonerBehaviour, newId: Id, actionIds: nat -> Id,
    clock: Instant): Phase
  {
    ConsultedPhase(cfg, alert, loop, StepTurn(loop, behaviour, newId), actionIds, clock)
  }

  function AfterCall(cfg: Config, loop: Loop, request: ProposedToolRequest, since: Instant, tool: ToolBehaviour, clock: Instant)
    : Phase
  {
    var (gateway, result) := Invoke(cfg.registry, loop.gateway, request, tool, CallTimes(since, clock));
    Persisting(loop, gateway, gateway.records[|gateway.records| - 1], result, clock)
  }

  /** What a durable call amounts to. */
  datatype Called = GoesOn(item: Accumulated) | Exits(termination: Termination) | Escapes

  function CallTurn(cfg: Config, loop: Loop, record: ToolInvocationRecord, result: GatewayResult, newId: Id): Called
  {
    if !result.status.Success? then Exits(if result.authorization.Denied? then ToolRequestDenied else ToolFailed)
    else if |loop.accumulated| >= cfg.limits.maxEvidenceItems then Exits(ContextLimit)
    else
      match ToEvidence(cfg, record, if result.result.Some? then result.result.value else Obj([]), newId)
      case None => Escapes
      case Some(item) => GoesOn(item)
  }

  function CalledPhase(cfg: Config, alert: SecurityAlert, loop: Loop, gateway: GatewayContext, turn: Called, clock: Instant)
    : Phase
  {
    match turn
    case GoesOn(item) =>
      if loop.iteration >= cfg.limits.maxIterations then SafeExit(alert, loop.openedAt, IterationLimit, clock)
      else
        Head(loop.(iteration := loop.iteration + 1, accumulated := loop.accumulated + [item], gateway := gateway), clock)
    case Exits(t) => SafeExit(alert, loop.openedAt, t, clock)
    case Escapes => Ended(None)
  }

  /** What follows a tool iteration that is durable. */
  function AfterTool(
    cfg: Config, alert: SecurityAlert, loop: Loop, gateway: GatewayContext, record: ToolInvocationRecord,
    result: GatewayResult, newId: Id, clock: Instant): Phase
  {
    CalledPhase(cfg, alert, loop, gateway, CallTurn(cfg, loop, record, result, newId), clock)
  }

  /** The transaction of the phases that have one. */
  function TransactionOf(r: Run, clock: Instant): Option<Transaction>
  {
    match r.phase
    case Starting(now) => Some(StartRun(r.alert, r.key, r.executionId, now))
    case Persisting(_, _, record, result, _) => Some(RecordTool(record, result.result))
    case Finalizing(_, decision, _, _) => Some(FinishRun(r.executionId, decision, clock))
    case Recording(_, category, _) => Some(FailRun(r.executionId, category, clock))
    case _ => None
  }

  /** The next phase; `ending` is how the phase's transaction ended. */
  function Next(cfg: Config, r: Run, snap: Store, ending: Ending, clock: Instant, x: Input): Phase
  {
    match r.phase
    case Entered => AfterLookup(r.key, r.executionId, snap, x.fault, clock)
    case Starting(now) => AfterStart(cfg, r.alert, r.executionId, now, ending, clock)
    case Head(loop, _) => AfterHead(cfg, r.alert, loop, x.contextBytes, clock)
    case Thinking(loop, _, _) => AfterThinking(cfg, r.alert, loop, x.reasoner, x.newId, x.actionIds, clock)
    case Calling(loop, request, since) => AfterCall(cfg, loop, request, since, x.tool, clock)
    case Persisting(loop, gateway, record, result, _) =>
      if ending == Durable then AfterTool(cfg, r.alert, loop, gateway, record, result, x.newId, clock)
      else Recording(loop.openedAt, ToolPersistenceFailed, clock)
    case Finalizing(openedAt, decision, reason, _) =>
      (match ending
       case Durable => Ended(Some(Outcome(r.executionId, true, reason, Some(decision.result))))
       case Left => NotDurable(r.executionId)
       case Aborted => Recording(openedAt, FinalizationFailed, clock))
    case Recording(_, _, _) => NotDurable(r.executionId)
    case Ended(outcome) => Ended(outcome)
  }

  /** One step of a run over a store nobody else is using: the next store and the next phase. */
  ghost function Alone(cfg: Config, r: Run, s: Store, clock: Instant, x: Input): (Store, Run)
  {
    var tx := TransactionOf(r, clock);
    var (ending, t) := if tx.Some? then RunAttempt(s, s, tx.value, x.fault) else (Left, s);
    (t, r.(phase := Next(cfg, r, s, ending, clock, x)))
  }
}
