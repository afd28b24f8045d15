/** One deployment and one alert, small enough to follow a run through: two evidence tools about
    a user, one action, one reviewer. Its deadline and its tool cap are left open. */
module Deployment {
  import opened Base
  import opened Json
  import opened Timestamps
  import opened Entities
  import opened Actions
  import opened Triage
  import opened Policy
  import opened Gateway
  import opened Workflow
  import opened Lockstep
  import opened Orchestration
  import opened Escapes
  import opened Stages

  // ---- The alert and its evidence ---------------------------------------------------------------------

  const TARGET := EntityReference(User, "user-1")

  const ALERT := SecurityAlert("alert-1", "sha256:1", [TARGET])

  const ARGUMENTS: seq<Member> := [Member("user_id", Str("user-1"))]

  const PROPOSED := Encodable(Obj(ARGUMENTS))

  const PROVENANCE := Obj([Member("tool_version", Str("1.0.0")), Member("fixture_version", Str("v1"))])

  const OUTCOME := Obj([Member("status", Str("FOUND")), Member("provenance", PROVENANCE)])

  function Normalized(raw: RawArguments): Option<Arguments>
  {
    if raw == PROPOSED then Some(ARGUMENTS) else None
  }

  function UserTool(name: Id, timeoutMs: nat): Tool
  {
    Tool(name, ReadOnly, timeoutMs, Normalized)
  }

  // ---- The settings -----------------------------------------------------------------------------------------

  const ACTION := ActionDefinition("disable_account", "1.0.0", {User}, HighImpact, true, SimulatedOnly, _ => true)

  const CATALOG: Catalog := map["disable_account" := ACTION]

  function Tools(timeoutMs: nat): Registry
  {
    map["get_user_risk" := UserTool("get_user_risk", timeoutMs),
        "get_identity_context" := UserTool("get_identity_context", timeoutMs)]
  }

  function Identity(x: string): string
  {
    x
  }

  /** The deployment with this deadline, this cap on tools, whose own timeouts are longer, and
      this limit on the size of requests and outcomes. */
  function Settings(deadlineMs: nat, capMs: nat, maxBytes: nat): Config
  {
    Config(Identity, CATALOG,
      (newId, c, alertId, scope, timestamp) => Evaluation(Identity, CATALOG, newId, c, alertId, scope, timestamp),
      Tools(capMs + 1), OrchestrationLimits(8, deadlineMs, 16, 131_072),
      GatewayLimits(10, 5, maxBytes, maxBytes, capMs),
      false, {"reviewer-1"}, 3_600_000_000, "SIMULATED", v => "")
  }

  /** The limit admits the request and the outcome. */
  predicate Roomy(maxBytes: nat)
  {
    EncodedSize(PROPOSED) <= maxBytes && |CanonicalText(OUTCOME, Ascii)| <= maxBytes
  }

  lemma SettingsValid(deadlineMs: nat, capMs: nat, maxBytes: nat)
    ensures ValidConfig(Settings(deadlineMs, capMs, maxBytes))
  {
    var reg := Tools(capMs + 1);
    forall n | n in reg
      ensures ApprovedTool(n) && reg[n].name == n && reg[n].access.ReadOnly? && reg[n].timeoutMs > 0
      ensures forall raw :: reg[n].normalize(raw).Some? ==> TextArguments(reg[n].normalize(raw).value)
    {
      assert n == "get_user_risk" || n == "get_identity_context";
      forall raw | reg[n].normalize(raw).Some? ensures TextArguments(reg[n].normalize(raw).value) {
        assert reg[n].normalize(raw) == Normalized(raw) == Some(ARGUMENTS);
      }
    }
  }

  // ---- Calls ----------------------------------------------------------------------------------------------------

  function FirstRequest(): ProposedToolRequest
  {
    ProposedToolRequest("call-1", "get_user_risk", PROPOSED)
  }

  function SecondRequest(): ProposedToolRequest
  {
    ProposedToolRequest("call-2", "get_identity_context", PROPOSED)
  }

  lemma ArgumentsInScope()
    ensures RequestScopeKey(ARGUMENTS) == Some(ScopeKey(TARGET)) && ScopeKey(TARGET) in ScopeKeys(ALERT.entities)
  {
    assert TARGET in ALERT.entities;
    assert ARGUMENTS[0].key == "user_id" && Find(ARGUMENTS, "user_id") == Some(Str("user-1"));
    assert TypeName(User) + ":" == "USER:";
    assert ScopeKey(TARGET) == "USER:" + "user-1" == "USER:" + TextOf(Find(ARGUMENTS, "user_id"));
  }

  /** What admission comes to for a request that passes its checks. */
  lemma AdmittedWhen(reg: Registry, g: GatewayContext, q: ProposedToolRequest, args: Arguments, key: string)
    requires q.toolName in reg && reg[q.toolName].access.ReadOnly? && reg[q.toolName].normalize(q.arguments) == Some(args)
    requires EncodedSize(q.arguments) <= g.limits.maxInputBytes && RequestScopeKey(args) == Some(key) && key in g.scope
    requires Fingerprint(q.toolName, args) !in g.seen && g.total < g.limits.totalCalls
    requires CountOf(g.perTool, q.toolName) < g.limits.perToolCalls
    ensures Admit(reg, g, q) == Admitted(args)
  {
  }

  /** A call by one of the two tools is admitted when nothing of the kind was called before. */
  lemma CallAdmitted(deadlineMs: nat, capMs: nat, maxBytes: nat, g: GatewayContext, q: ProposedToolRequest)
    requires q.arguments == PROPOSED && q.toolName in Tools(capMs + 1) && Roomy(maxBytes)
    requires g.limits == Settings(deadlineMs, capMs, maxBytes).gatewayLimits && g.scope == ScopeKeys(ALERT.entities)
    requires Fingerprint(q.toolName, ARGUMENTS) !in g.seen && g.total < 10 && CountOf(g.perTool, q.toolName) < 5
    ensures Admit(Tools(capMs + 1), g, q) == Admitted(ARGUMENTS)
  {
    ArgumentsInScope();
    var reg := Tools(capMs + 1);
    assert reg[q.toolName].access.ReadOnly? && reg[q.toolName].normalize(PROPOSED) == Normalized(PROPOSED);
    AdmittedWhen(reg, g, q, ARGUMENTS, ScopeKey(TARGET));
  }

  lemma FingerprintsDiffer(args: Arguments)
    ensures Fingerprint("get_user_risk", args) != Fingerprint("get_identity_context", args)
  {
    PrefixesDiffer("get_user_risk", "get_identity_context", CanonicalText(Obj(args), Ascii));
  }

  lemma PrefixesDiffer(a: string, b: string, x: string)
    requires |a| > 4 && |b| > 4 && a[4] != b[4]
    ensures a + ":" + x != b + ":" + x
  {
    assert (a + ":" + x)[4] == a[4] && (b + ":" + x)[4] == b[4];
  }

  lemma OutcomeValidated()
    ensures ValidatedOutcome(OUTCOME)
  {
    assert FieldOf(OUTCOME, "status") == Some(Str("FOUND"));
    assert OUTCOME.members[1..] == [Member("provenance", PROVENANCE)];
    assert Find(OUTCOME.members, "provenance") == Find(OUTCOME.members[1..], "provenance") == Some(PROVENANCE);
    assert FieldOf(PROVENANCE, "tool_version") == Some(Str("1.0.0"));
    assert PROVENANCE.members[1..] == [Member("fixture_version", Str("v1"))];
    assert Find(PROVENANCE.members, "fixture_version") == Find(PROVENANCE.members[1..], "fixture_version") == Some(Str("v1"));
    StripFixpoint("1.0.0");
    StripFixpoint("v1");
  }

  /** The outcome becomes an item of evidence. */
  lemma OutcomeBecomesEvidence(cfg: Config, record: ToolInvocationRecord, evidenceId: Id)
    requires ApprovedTool(record.toolName)
    ensures ToEvidence(cfg, record, OUTCOME, evidenceId).Some?
  {
    OutcomeValidated();
    ValidatedNeverFails(cfg, record.toolName, OUTCOME);
    EvidenceFailsExactly(cfg, record, OUTCOME, evidenceId);
  }

  // ---- The two calls ----------------------------------------------------------------------------------------------

  /** A size limit with room for the request and the outcome. */
  lemma RoomFor() returns (maxBytes: nat)
    ensures Roomy(maxBytes)
  {
    maxBytes := EncodedSize(PROPOSED) + |CanonicalText(OUTCOME, Ascii)|;
  }

  /** The gateway has made one call for this run, and allowed it. */
  ghost predicate OneCall(g: GatewayContext, e: Id, scope: set<string>, limits: GatewayLimits, q: ProposedToolRequest, args: Arguments)
  {
    && g.limits == limits && g.scope == scope && g.executionId == e
    && g.seen == {Fingerprint(q.toolName, args)} && g.total == 1 && g.perTool == map[q.toolName := 1]
    && |g.records| == 1 && g.records[0].callId == q.callId && g.records[0].executionId == e && g.records[0].toolName == q.toolName
  }

  /** An admitted first call that succeeds. */
  lemma FirstCallMade(reg: Registry, e: Id, scope: set<string>, limits: GatewayLimits, q: ProposedToolRequest, args: Arguments,
    outcome: Json, times: CallTimes) returns (g: GatewayContext)
    requires Admit(reg, EmptyContext(e, scope, limits), q) == Admitted(args)
    requires |CanonicalText(outcome, Ascii)| <= limits.maxOutputBytes
    ensures OneCall(g, e, scope, limits, q, args)
    ensures Invoke(reg, EmptyContext(e, scope, limits), q, Returns(Some(outcome)), times) == (g, SuccessOf(q, outcome))
  {
    var empty := EmptyContext(e, scope, limits);
    g := Allow(empty, Record(empty, q, args, Allowed, Success, times));
  }

  /** An admitted second call that times out. */
  lemma SecondCallMade(reg: Registry, e: Id, scope: set<string>, limits: GatewayLimits, first: ProposedToolRequest, q: ProposedToolRequest,
    args: Arguments, g: GatewayContext, times: CallTimes) returns (h: GatewayContext)
    requires OneCall(g, e, scope, limits, first, args) && Admit(reg, g, q) == Admitted(args)
    ensures Invoke(reg, g, q, TimesOut, times) == (h, TimeoutOf(q))
    ensures |h.records| == 2 && h.records[1].callId == q.callId && h.records[1].executionId == e
  {
    h := Allow(g, Record(g, q, args, Allowed, Timeout, times));
  }

  lemma FirstAdmitted(d: nat, c: nat, maxBytes: nat, e: Id)
    requires Roomy(maxBytes)
    ensures Admit(Tools(c + 1), EmptyContext(e, ScopeKeys(ALERT.entities), Settings(d, c, maxBytes).gatewayLimits), FirstRequest())
         == Admitted(ARGUMENTS)
  {
    CallAdmitted(d, c, maxBytes, EmptyContext(e, ScopeKeys(ALERT.entities), Settings(d, c, maxBytes).gatewayLimits), FirstRequest());
  }

  /** The other tool may be called after it. */
  lemma SecondAdmitted(d: nat, c: nat, maxBytes: nat, e: Id, g: GatewayContext)
    requires Roomy(maxBytes)
    requires OneCall(g, e, ScopeKeys(ALERT.entities), Settings(d, c, maxBytes).gatewayLimits, FirstRequest(), ARGUMENTS)
    ensures Admit(Tools(c + 1), g, SecondRequest()) == Admitted(ARGUMENTS)
  {
    FingerprintsDiffer(ARGUMENTS);
    CallAdmitted(d, c, maxBytes, g, SecondRequest());
  }

  // ---- A scene -----------------------------------------------------------------------------------------------------

  /** When a run opens, begins its loop, is asked for two calls, has the second answered, and
      has that stored. */
  datatype Times = Times(openedAt: Instant, begun: Instant, firstCall: Instant, secondCall: Instant, ended: Instant, stored: Instant)

  /** A deployment, a run that enters it, two calls it makes and what becomes of them, and an
      action that its policy accepts and this reviewer may approve. */
  datatype Scene = Scene(cfg: Config, run: Run, times: Times,
    first: ProposedToolRequest, outcome: Json, firstGateway: GatewayContext, firstRecord: ToolInvocationRecord, item: Accumulated,
    second: ProposedToolRequest, secondGateway: GatewayContext, secondRecord: ToolInvocationRecord,
    remedy: Material, reviewer: Id)

  /** The record was made for this call of this run. */
  predicate RecordsCall(record: ToolInvocationRecord, r: Run, q: ProposedToolRequest)
  {
    record.callId == q.callId && record.executionId == r.executionId
  }

  /** The first call is allowed, succeeds, and its outcome becomes the item. */
  ghost predicate FirstPlays(sc: Scene)
  {
    && Invoke(sc.cfg.registry, EmptyContext(sc.run.executionId, ScopeKeys(sc.run.alert.entities), sc.cfg.gatewayLimits),
         sc.first, Returns(Some(sc.outcome)), CallTimes(sc.times.firstCall, sc.times.firstCall))
       == (sc.firstGateway, SuccessOf(sc.first, sc.outcome))
    && EndsWith(sc.firstGateway.records, sc.firstRecord) && RecordsCall(sc.firstRecord, sc.run, sc.first)
    && ToEvidence(sc.cfg, sc.firstRecord, sc.outcome, "evidence-1") == Some(sc.item)
  }

  /** The second call is another, is allowed, by a tool that may take all of the cap, and times
      out. */
  ghost predicate SecondPlays(sc: Scene)
  {
    && Invoke(sc.cfg.registry, sc.firstGateway, sc.second, TimesOut, CallTimes(sc.times.secondCall, sc.times.ended))
       == (sc.secondGateway, TimeoutOf(sc.second))
    && EndsWith(sc.secondGateway.records, sc.secondRecord) && RecordsCall(sc.secondRecord, sc.run, sc.second)
    && sc.second.callId != sc.first.callId
    && sc.second.toolName in sc.cfg.registry
    && sc.cfg.registry[sc.second.toolName].timeoutMs > sc.cfg.gatewayLimits.timeoutCapMs
  }

  /** The settings that matter to the run. */
  predicate Configured(sc: Scene, d: nat, c: nat)
  {
    && !sc.cfg.guidance
    && sc.cfg.limits.deadlineMs == d && sc.cfg.gatewayLimits.timeoutCapMs == c
    && sc.cfg.limits.maxIterations == 8 && sc.cfg.limits.maxEvidenceItems == 16
    && IsIdentifier(sc.run.key)
  }

  /** The policy accepts the action for the alert and asks for its approval, which the reviewer
      may give, and an approval lets the executor simulate it. */
  ghost predicate Remediable(cfg: Config, alert: SecurityAlert, m: Material, reviewer: Id)
  {
    && ValidMaterial(m) && m.catalogActionId in cfg.catalog
    && Screen(cfg.catalog, ScopeKeys(alert.entities), ActionRecommendation(m, "")).None?
    && cfg.catalog[m.catalogActionId].approvalRequired && cfg.catalog[m.catalogActionId].support.SimulatedOnly?
    && cfg.executorMode == "SIMULATED" && reviewer in cfg.reviewers && IsIdentifier(reviewer)
    && 0 < cfg.lifetime <= 3_600_000_000
  }

  lemma RemedyMade(d: nat, c: nat, maxBytes: nat) returns (m: Material, reviewer: Id)
    ensures Remediable(Settings(d, c, maxBytes), ALERT, m, reviewer)
  {
    m, reviewer := Material("disable_account", TARGET, Proxy([])), "reviewer-1";
    assert TARGET in ALERT.entities;
    assert DeeplyFrozen(m.parameters) && Thaw(m.parameters) == Obj([]);
  }

  ghost predicate Remedies(sc: Scene)
  {
    Remediable(sc.cfg, sc.run.alert, sc.remedy, sc.reviewer)
  }

  /** The calls, without what they are made of. */
  lemma CallsMade(d: nat, c: nat, e: Id, first: CallTimes, second: CallTimes)
    returns (cfg: Config, alert: SecurityAlert, q: ProposedToolRequest, outcome: Json, g: GatewayContext, item: Accumulated,
      q': ProposedToolRequest, h: GatewayContext, m: Material, reviewer: Id)
    ensures Remediable(cfg, alert, m, reviewer)
    ensures ValidConfig(cfg) && !cfg.guidance && cfg.limits.deadlineMs == d && cfg.gatewayLimits.timeoutCapMs == c
    ensures cfg.limits.maxIterations == 8 && cfg.limits.maxEvidenceItems == 16
    ensures q'.toolName in cfg.registry && cfg.registry[q'.toolName].timeoutMs > c && q.callId != q'.callId
    ensures |g.records| == 1 && g.records[0].callId == q.callId && g.records[0].executionId == e
    ensures |h.records| == 2 && h.records[1].callId == q'.callId && h.records[1].executionId == e
    ensures Invoke(cfg.registry, EmptyContext(e, ScopeKeys(alert.entities), cfg.gatewayLimits), q, Returns(Some(outcome)), first)
         == (g, SuccessOf(q, outcome))
    ensures ToEvidence(cfg, g.records[0], outcome, "evidence-1") == Some(item)
    ensures Invoke(cfg.registry, g, q', TimesOut, second) == (h, TimeoutOf(q'))
  {
    var maxBytes := RoomFor();
    cfg, alert, q, outcome, q' := Settings(d, c, maxBytes), ALERT, FirstRequest(), OUTCOME, SecondRequest();
    SettingsValid(d, c, maxBytes);
    var scope, limits := ScopeKeys(alert.entities), cfg.gatewayLimits;
    FirstAdmitted(d, c, maxBytes, e);
    g := FirstCallMade(cfg.registry, e, scope, limits, q, ARGUMENTS, outcome, first);
    SecondAdmitted(d, c, maxBytes, e, g);
    h := SecondCallMade(cfg.registry, e, scope, limits, q, q', ARGUMENTS, g, second);
    item := OutcomeItem(cfg, g.records[0]);
    m, reviewer := RemedyMade(d, c, maxBytes);
  }

  /** A run about the alert, with a call that succeeds and one that times out. */
  lemma SceneMade(d: nat, c: nat, key: Id, e: Id, times: Times) returns (sc: Scene)
    requires IsIdentifier(key)
    ensures sc.run.key == key && sc.run.executionId == e && sc.times == times
    ensures Remedies(sc) && ValidConfig(sc.cfg) && Configured(sc, d, c) && FirstPlays(sc) && SecondPlays(sc)
  {
    var cfg, alert, q, outcome, g, item, q', h, m, reviewer := CallsMade(d, c, e,
      CallTimes(times.firstCall, times.firstCall), CallTimes(times.secondCall, times.ended));
    sc := Scene(cfg, Run(alert, key, e, Entered), times, q, outcome, g, g.records[0], item, q', h, h.records[1], m, reviewer);
  }

  lemma OutcomeItem(cfg: Config, record: ToolInvocationRecord) returns (item: Accumulated)
    requires ApprovedTool(record.toolName)
    ensures ToEvidence(cfg, record, OUTCOME, "evidence-1") == Some(item)
  {
    OutcomeBecomesEvidence(cfg, record, "evidence-1");
    item := ToEvidence(cfg, record, OUTCOME, "evidence-1").value;
  }
}
