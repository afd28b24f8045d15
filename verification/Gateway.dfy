/** The authorization gateway for evidence-tool calls and its per-execution accounting
    (application/tool_gateway.py, application/tool_registry.py). */
module Gateway {
  import opened Base
  import opened Json
  import opened Timestamps
  import opened Entities

  // ---- Tools and the registry -------------------------------------------------------------------

  datatype ToolAccess = ReadOnly | ReadWrite

  /** Proposed arguments: a dictionary that `json.dumps` can write, or one it cannot. */
  datatype RawArguments = Encodable(tree: Json) | Unencodable

  /** Arguments after strict validation, as the request model dumps them. */
  type Arguments = seq<Member>

  datatype Tool = Tool(
    name: Id, access: ToolAccess, timeoutMs: int, normalize: RawArguments -> Option<Arguments>)

  type Registry = map<Id, Tool>

  /** The closed set of tool names. */
  predicate ApprovedTool(name: Id)
  {
    || name == "get_recent_signins" || name == "get_user_risk" || name == "get_device_context"
    || name == "get_ip_reputation" || name == "get_mfa_events" || name == "find_related_alerts"
    || name == "get_identity_context"
  }

  const EVIDENCE_TOOLS: set<Id> := {"get_recent_signins", "get_user_risk", "get_device_context", "get_ip_reputation",
    "get_mfa_events", "find_related_alerts", "get_identity_context"}

  /** Every request model has text fields only, each once. */
  predicate TextArguments(args: Arguments)
  {
    DistinctKeys(args) && forall i | 0 <= i < |args| :: args[i].value.Str?
  }

  /** What `ToolRegistry.__init__` admits. */
  ghost predicate ValidRegistry(reg: Registry)
  {
    forall n | n in reg ::
      && ApprovedTool(n) && reg[n].name == n && reg[n].access.ReadOnly? && reg[n].timeoutMs > 0
      && forall raw :: reg[n].normalize(raw).Some? ==> TextArguments(reg[n].normalize(raw).value)
  }

  /** The checks `ToolRegistry.__init__` makes on one tool. */
  predicate Registrable(t: Tool)
  {
    ApprovedTool(t.name) && t.access.ReadOnly? && t.timeoutMs > 0
  }

  ghost predicate Registers(reg: Registry, tools: seq<Tool>)
  {
    && (forall i | 0 <= i < |tools| :: tools[i].name in reg && reg[tools[i].name] == tools[i])
    && forall n | n in reg :: reg[n] in tools && reg[n].name == n
  }

  ghost predicate DifferentNames(tools: seq<Tool>)
  {
    forall i, j | 0 <= i < j < |tools| :: tools[i].name != tools[j].name
  }

  /** The next tool's name is registered exactly when an earlier tool has it. */
  lemma NameTaken(registered: Registry, tools: seq<Tool>, n: nat)
    requires n < |tools| && DifferentNames(tools[..n]) && Registers(registered, tools[..n])
    ensures tools[n].name in registered ==> !DifferentNames(tools)
    ensures tools[n].name !in registered ==>
              && DifferentNames(tools[..n + 1])
              && Registers(registered[tools[n].name := tools[n]], tools[..n + 1])
  {
    var done := tools[..n];
    if tools[n].name in registered {
      var i :| 0 <= i < n && done[i] == registered[tools[n].name];
      assert tools[i].name == tools[n].name;
    } else {
      assert tools[..n + 1] == done + [tools[n]];
      forall i | 0 <= i < n ensures done[i].name != tools[n].name {
        assert done[i].name in registered;
      }
    }
  }

  /** Build the registry, or raise ToolRegistrationError (None). */
  method BuildRegistry(tools: seq<Tool>) returns (r: Option<Registry>)
    ensures r.Some? <==>
              && DifferentNames(tools)
              && forall i | 0 <= i < |tools| :: tools[i].name in EVIDENCE_TOOLS && tools[i].access == ReadOnly && 0 < tools[i].timeoutMs
    ensures r.Some? ==> Registers(r.value, tools)
  {
    var registered: Registry := map[];
    for n := 0 to |tools|
      invariant DifferentNames(tools[..n]) && Registers(registered, tools[..n])
      invariant forall i | 0 <= i < n :: Registrable(tools[i])
    {
      var tool := tools[n];
      if !Registrable(tool) {
        return None;
      }
      NameTaken(registered, tools, n);
      if tool.name in registered {
        return None;
      }
      registered := registered[tool.name := tool];
    }
    assert tools[..|tools|] == tools;
    r := Some(registered);
  }

  /** A built registry is valid when its request models dump text fields. */
  lemma BuiltRegistryValid(reg: Registry, tools: seq<Tool>)
    requires Registers(reg, tools) && forall i | 0 <= i < |tools| :: Registrable(tools[i])
    requires forall i, raw | 0 <= i < |tools| && tools[i].normalize(raw).Some? ::
               TextArguments(tools[i].normalize(raw).value)
    ensures ValidRegistry(reg)
  {
    forall n | n in reg
      ensures Registrable(reg[n]) && reg[n].name == n
      ensures forall raw :: reg[n].normalize(raw).Some? ==> TextArguments(reg[n].normalize(raw).value)
    {
      var i :| 0 <= i < |tools| && tools[i] == reg[n];
    }
  }

  // ---- Requests, results and records ------------------------------------------------------------

  datatype GatewayStatus =
    | Success | ToolNotFound | InvalidRequest | OutOfScope | ReadOnlyRequired
    | BudgetExceeded | DuplicateRequest | Timeout | InvalidAdapterResult | AdapterFailure

  datatype Authorization = Allowed | Denied

  datatype ProposedToolRequest = ProposedToolRequest(callId: Id, toolName: Id, arguments: RawArguments)

  datatype GatewayResult = GatewayResult(
    callId: Id, toolName: Id, status: GatewayStatus, authorization: Authorization, result: Option<Json>)

  datatype ToolInvocationRecord = ToolInvocationRecord(
    executionId: Id, callId: Id, toolName: Id, arguments: Arguments,
    authorization: Authorization, outcome: GatewayStatus, startedAt: Instant, completedAt: Instant)

  datatype GatewayLimits = GatewayLimits(
    totalCalls: nat, perToolCalls: nat, maxInputBytes: nat, maxOutputBytes: nat, timeoutCapMs: nat)

  /** How an admitted call ends: what the adapter does with it, and the validated serialized
      outcome when it returns one. */
  datatype ToolBehaviour = TimesOut | Raises | Returns(validated: Option<Json>)

  /** The accounting state of one execution. */
  datatype GatewayContext = GatewayContext(
    executionId: Id, scope: set<string>, limits: GatewayLimits,
    records: seq<ToolInvocationRecord>, total: nat, perTool: map<Id, nat>, seen: set<string>)

  function EmptyContext(executionId: Id, scope: set<string>, limits: GatewayLimits): GatewayContext
  {
    GatewayContext(executionId, scope, limits, [], 0, map[], {})
  }

  function Find(ms: seq<Member>, key: string): Option<Json>
  {
    if ms == [] then None else if ms[0].key == key then Some(ms[0].value) else Find(ms[1..], key)
  }

  function TextOf(v: Option<Json>): string
  {
    if v.Some? && v.value.Str? then v.value.text else ""
  }

  /** The scope key of the entity a request is about; None when it names no entity. */
  function RequestScopeKey(args: Arguments): Option<string>
  {
    var user, device, address := Find(args, "user_id"), Find(args, "device_id"), Find(args, "ip_address");
    if user.Some? then Some("USER:" + TextOf(user))
    else if device.Some? then Some("DEVICE:" + TextOf(device))
    else if address.Some? then Some("IP_ADDRESS:" + TextOf(address))
    else None
  }

  function Fingerprint(toolName: Id, args: Arguments): string
  {
    toolName + ":" + CanonicalText(Obj(args), Ascii)
  }

  function EncodedSize(raw: RawArguments): nat
  {
    match raw
    case Encodable(tree) => |CanonicalText(tree, Ascii)|
    case Unencodable => 1_000_001
  }

  function CountOf(counts: map<Id, nat>, t: Id): nat
  {
    if t in counts then counts[t] else 0
  }

  // ---- One call ----------------------------------------------------------------------------------

  datatype Admission =
    | Refused(status: GatewayStatus, arguments: Arguments)
    | Admitted(arguments: Arguments)

  function Admit(reg: Registry, ctx: GatewayContext, p: ProposedToolRequest): Admission
  {
    if p.toolName !in reg then Refused(ToolNotFound, [])
    else if !reg[p.toolName].access.ReadOnly? then Refused(ReadOnlyRequired, [])
    else if EncodedSize(p.arguments) > ctx.limits.maxInputBytes then Refused(InvalidRequest, [])
    else
      match reg[p.toolName].normalize(p.arguments)
      case None => Refused(InvalidRequest, [])
      case Some(args) =>
        if RequestScopeKey(args).None? || RequestScopeKey(args).value !in ctx.scope then
          Refused(OutOfScope, args)
        else if Fingerprint(p.toolName, args) in ctx.seen then Refused(DuplicateRequest, args)
        else if ctx.total >= ctx.limits.totalCalls then Refused(BudgetExceeded, args)
        else if CountOf(ctx.perTool, p.toolName) >= ctx.limits.perToolCalls then Refused(BudgetExceeded, args)
        else Admitted(args)
  }

  function Conclusion(limits: GatewayLimits, b: ToolBehaviour): (GatewayStatus, Option<Json>)
  {
    match b
    case TimesOut => (Timeout, None)
    case Raises => (AdapterFailure, None)
    case Returns(None) => (InvalidAdapterResult, None)
    case Returns(Some(tree)) =>
      if |CanonicalText(tree, Ascii)| > limits.maxOutputBytes then (InvalidAdapterResult, None)
      else (Success, Some(tree))
  }

  datatype CallTimes = CallTimes(startedAt: Instant, completedAt: Instant)

  function Record(
    ctx: GatewayContext, p: ProposedToolRequest, args: Arguments,
    authorization: Authorization, status: GatewayStatus, times: CallTimes): ToolInvocationRecord
  {
    ToolInvocationRecord(
      ctx.executionId, p.callId, p.toolName, args, authorization, status, times.startedAt, times.completedAt)
  }

  function Deny(ctx: GatewayContext, r: ToolInvocationRecord): GatewayContext
  {
    ctx.(records := ctx.records + [r])
  }

  function Allow(ctx: GatewayContext, r: ToolInvocationRecord): GatewayContext
  {
    ctx.(records := ctx.records + [r],
         total := ctx.total + 1,
         perTool := ctx.perTool[r.toolName := CountOf(ctx.perTool, r.toolName) + 1],
         seen := ctx.seen + {Fingerprint(r.toolName, r.arguments)})
  }

  /** The state after a call, and the call's result. */
  function Invoke(
    reg: Registry, ctx: GatewayContext, p: ProposedToolRequest, b: ToolBehaviour, times: CallTimes)
    : (GatewayContext, GatewayResult)
  {
    match Admit(reg, ctx, p)
    case Refused(status, args) =>
      (Deny(ctx, Record(ctx, p, args, Denied, status, times)),
       GatewayResult(p.callId, p.toolName, status, Denied, None))
    case Admitted(args) =>
      var (status, result) := Conclusion(ctx.limits, b);
      (Allow(ctx, Record(ctx, p, args, Allowed, status, times)),
       GatewayResult(p.callId, p.toolName, status, Allowed, result))
  }

  /** The mutable context of one execution, and the gateway's `invoke` on it. */
  class ToolExecutionContext {
    const executionId: Id
    const entityScope: set<string>
    const limits: GatewayLimits
    var invocationRecords: seq<ToolInvocationRecord>
    var totalCalls: nat
    var perToolCalls: map<Id, nat>
    var seenCalls: set<string>

    constructor (executionId: Id, entityScope: set<string>, limits: GatewayLimits)
      ensures Value() == EmptyContext(executionId, entityScope, limits)
    {
      this.executionId, this.entityScope, this.limits := executionId, entityScope, limits;
      invocationRecords, totalCalls, perToolCalls, seenCalls := [], 0, map[], {};
    }

    function Value(): GatewayContext
      reads this
    {
      GatewayContext(executionId, entityScope, limits, invocationRecords, totalCalls, perToolCalls, seenCalls)
    }

    /** Record the attempt and build its sanitized result. */
    method Finish(
      p: ProposedToolRequest, args: Arguments, authorization: Authorization,
      status: GatewayStatus, result: Option<Json>, times: CallTimes)
      returns (r: GatewayResult)
      modifies this`invocationRecords
      ensures invocationRecords
        == old(invocationRecords) + [Record(old(Value()), p, args, authorization, status, times)]
      ensures r == GatewayResult(p.callId, p.toolName, status, authorization, result)
    {
      var record := ToolInvocationRecord(
        executionId, p.callId, p.toolName, args, authorization, status, times.startedAt, times.completedAt);
      invocationRecords := invocationRecords + [record];
      r := GatewayResult(p.callId, p.toolName, status, authorization, result);
    }

    method InvokeTool(reg: Registry, p: ProposedToolRequest, b: ToolBehaviour, times: CallTimes)
      returns (r: GatewayResult)
      modifies this
      ensures (Value(), r) == Invoke(reg, old(Value()), p, b, times)
    {
      if p.toolName !in reg {
        r := Finish(p, [], Denied, ToolNotFound, None, times);
        return;
      }
      var tool := reg[p.toolName];
      if !tool.access.ReadOnly? {
        r := Finish(p, [], Denied, ReadOnlyRequired, None, times);
        return;
      }
      if EncodedSize(p.arguments) > limits.maxInputBytes {
        r := Finish(p, [], Denied, InvalidRequest, None, times);
        return;
      }
      var request := tool.normalize(p.arguments);
      if request.None? {
        r := Finish(p, [], Denied, InvalidRequest, None, times);
        return;
      }
      var sanitized := request.value;
      var scopeKey := RequestScopeKey(sanitized);
      if scopeKey.None? || scopeKey.value !in entityScope {
        r := Finish(p, sanitized, Denied, OutOfScope, None, times);
        return;
      }
      var fingerprint := Fingerprint(p.toolName, sanitized);
      if fingerprint in seenCalls {
        r := Finish(p, sanitized, Denied, DuplicateRequest, None, times);
        return;
      }
      if totalCalls >= limits.totalCalls || CountOf(perToolCalls, p.toolName) >= limits.perToolCalls {
        r := Finish(p, sanitized, Denied, BudgetExceeded, None, times);
        return;
      }
      seenCalls := seenCalls + {fingerprint};
      totalCalls := totalCalls + 1;
      perToolCalls := perToolCalls[p.toolName := CountOf(perToolCalls, p.toolName) + 1];
      var (status, result) := Conclusion(limits, b);
      r := Finish(p, sanitized, Allowed, status, result, times);
    }
  }

  // ---- The entity a request is about ---------------------------------------------------------------

  /** With distinct keys a key has the value of the member it is in. */
  lemma {:induction false} FindExactly(ms: seq<Member>, key: string)
    requires DistinctKeys(ms)
    ensures forall v :: Find(ms, key) == Some(v) <==> Member(key, v) in ms
  {
    if ms != [] {
      FindExactly(ms[1..], key);
      assert ms == [ms[0]] + ms[1..];
      forall m | m in ms[1..] ensures m.key != ms[0].key {
        var i :| 0 <= i < |ms[1..]| && ms[1..][i] == m;
        assert ms[i + 1] == m;
      }
    }
  }

  /** The argument that names an entity of this type. */
  function EntityField(t: EntityType): string
  {
    match t
    case User => "user_id"
    case Device => "device_id"
    case IpAddress => "ip_address"
  }

  /** The arguments give an entity of this type. */
  ghost predicate Gives(args: Arguments, t: EntityType)
  {
    exists v :: Member(EntityField(t), v) in args
  }

  /** The request is about this entity: it is given, and it is a user, or a device and no user is
      given, or an address and neither of them is. */
  ghost predicate IsAbout(args: Arguments, e: EntityReference)
  {
    && Member(EntityField(e.entityType), Str(e.identifier)) in args
    && (e.entityType.Device? ==> !Gives(args, User))
    && (e.entityType.IpAddress? ==> !Gives(args, User) && !Gives(args, Device))
  }

  lemma GivesExactly(args: Arguments, t: EntityType)
    requires TextArguments(args)
    ensures Gives(args, t) <==> Find(args, EntityField(t)).Some?
    ensures forall text :: Member(EntityField(t), Str(text)) in args <==> Find(args, EntityField(t)) == Some(Str(text))
    ensures Find(args, EntityField(t)).Some? ==> Find(args, EntityField(t)).value.Str?
  {
    FindExactly(args, EntityField(t));
    if v :| Member(EntityField(t), v) in args {
      assert Find(args, EntityField(t)) == Some(v);
    }
    if Find(args, EntityField(t)).Some? {
      var v := Find(args, EntityField(t)).value;
      var i :| 0 <= i < |args| && args[i] == Member(EntityField(t), v);
    }
  }

  /** A request has the key of the entity it is about, and no key when it gives none. */
  lemma RequestKeyExactly(args: Arguments, e: EntityReference)
    requires TextArguments(args)
    ensures RequestScopeKey(args) == Some(ScopeKey(e)) <==> IsAbout(args, e)
    ensures RequestScopeKey(args).None? <==> !Gives(args, User) && !Gives(args, Device) && !Gives(args, IpAddress)
  {
    GivesExactly(args, User);
    GivesExactly(args, Device);
    GivesExactly(args, IpAddress);
    var given := if Gives(args, User) then User else if Gives(args, Device) then Device else IpAddress;
    if Gives(args, given) {
      var entity := EntityReference(given, TextOf(Find(args, EntityField(given))));
      assert "USER" + ":" == "USER:" && "DEVICE" + ":" == "DEVICE:" && "IP_ADDRESS" + ":" == "IP_ADDRESS:";
      assert RequestScopeKey(args) == Some(ScopeKey(entity));
      ScopeKeyInjective(entity, e);
    }
  }

  /** The request is about one of these entities. */
  ghost predicate AboutOneOf(args: Arguments, entities: seq<EntityReference>)
  {
    exists e :: e in entities && IsAbout(args, e)
  }

  /** A request is in the scope of an alert exactly when it is about one of its entities. */
  lemma InScopeExactly(args: Arguments, entities: seq<EntityReference>)
    requires TextArguments(args)
    ensures RequestScopeKey(args).Some? && RequestScopeKey(args).value in ScopeKeys(entities) <==> AboutOneOf(args, entities)
  {
    if RequestScopeKey(args).Some? && RequestScopeKey(args).value in ScopeKeys(entities) {
      var e :| e in entities && ScopeKey(e) == RequestScopeKey(args).value;
      RequestKeyExactly(args, e);
    }
    if e :| e in entities && IsAbout(args, e) {
      RequestKeyExactly(args, e);
    }
  }

  // ---- What the fingerprints stand for -----------------------------------------------------------

  predicate ColonFree(t: string)
  {
    forall i | 0 <= i < |t| :: t[i] != ':'
  }

  lemma ApprovedNamesColonFree(t: Id)
    requires ApprovedTool(t)
    ensures ColonFree(t)
  {
  }

  /** The fingerprint belongs to the calls of tool `t`. */
  predicate Belongs(f: string, t: Id)
  {
    |t| < |f| && f[..|t|] == t && f[|t|] == ':'
  }

  lemma FingerprintBelongs(t: Id, args: Arguments, u: Id)
    requires ColonFree(t) && ColonFree(u)
    ensures Belongs(Fingerprint(t, args), u) <==> t == u
  {
    var f := Fingerprint(t, args);
    assert f[..|t|] == t && f[|t|] == ':';
    assert |u| < |t| ==> f[|u|] == t[|u|];
    assert |t| < |u| < |f| ==> f[..|u|][|t|] == f[|t|];
  }

  /** Fingerprints are equal exactly for the same tool with the same normalized arguments. */
  lemma FingerprintFaithful(t: Id, x: Arguments, u: Id, y: Arguments)
    requires ColonFree(t) && ColonFree(u) && TextArguments(x) && TextArguments(y)
    ensures Fingerprint(t, x) == Fingerprint(u, y) <==> t == u && Same(Obj(x), Obj(y))
  {
    FingerprintBelongs(t, x, t);
    FingerprintBelongs(u, y, t);
    CanonicalTextFaithful(Obj(x), Obj(y), Ascii);
    if Fingerprint(t, x) == Fingerprint(u, y) {
      assert CanonicalText(Obj(x), Ascii) == Fingerprint(t, x)[|t| + 1..];
      assert CanonicalText(Obj(y), Ascii) == Fingerprint(u, y)[|u| + 1..];
    }
  }

  // ---- Accounting over any sequence of calls ------------------------------------------------------

  function CountAllowed(rs: seq<ToolInvocationRecord>): nat
  {
    if rs == [] then 0
    else CountAllowed(rs[..|rs| - 1]) + (if rs[|rs| - 1].authorization.Allowed? then 1 else 0)
  }

  function CountAllowedOf(rs: seq<ToolInvocationRecord>, t: Id): nat
  {
    if rs == [] then 0
    else
      CountAllowedOf(rs[..|rs| - 1], t)
        + (if rs[|rs| - 1].authorization.Allowed? && rs[|rs| - 1].toolName == t then 1 else 0)
  }

  ghost function Sum(counts: map<Id, nat>): nat
  {
    if counts == map[] then 0
    else
      var k :| k in counts;
      counts[k] + Sum(counts - {k})
  }

  lemma {:induction false} SumWithout(counts: map<Id, nat>, k: Id)
    requires k in counts
    ensures Sum(counts) == counts[k] + Sum(counts - {k})
    decreases |counts|
  {
    var j :| j in counts && Sum(counts) == counts[j] + Sum(counts - {j});
    if j != k {
      SumWithout(counts - {j}, k);
      SumWithout(counts - {k}, j);
      assert counts - {j} - {k} == counts - {k} - {j};
    }
  }

  lemma SumIncrement(counts: map<Id, nat>, k: Id)
    ensures Sum(counts[k := CountOf(counts, k) + 1]) == Sum(counts) + 1
  {
    var more := counts[k := CountOf(counts, k) + 1];
    SumWithout(more, k);
    assert more - {k} == counts - {k};
    if k in counts {
      SumWithout(counts, k);
    } else {
      assert counts - {k} == counts;
    }
  }

  function FingerprintOf(r: ToolInvocationRecord): string
  {
    Fingerprint(r.toolName, r.arguments)
  }

  /** The budgets, the counters and the seen set agree with the record list. */
  ghost predicate Counted(ctx: GatewayContext)
  {
    && ctx.total == |ctx.seen| == CountAllowed(ctx.records) == Sum(ctx.perTool)
    && ctx.total <= ctx.limits.totalCalls
    && forall t :: CountOf(ctx.perTool, t) == CountAllowedOf(ctx.records, t) <= ctx.limits.perToolCalls
  }

  /** Each tool's counter is the number of seen fingerprints of that tool. */
  ghost predicate SeenPerTool(ctx: GatewayContext)
  {
    forall t | ColonFree(t) :: CountOf(ctx.perTool, t) == |set f | f in ctx.seen && Belongs(f, t)|
  }

  /** Allowed calls were of registered tools, in scope, and the seen set is theirs. */
  ghost predicate AllowedInScope(reg: Registry, ctx: GatewayContext)
  {
    && (forall r | r in ctx.records && r.authorization.Allowed? ::
      && r.toolName in reg && TextArguments(r.arguments)
      && RequestScopeKey(r.arguments).Some? && RequestScopeKey(r.arguments).value in ctx.scope
      && FingerprintOf(r) in ctx.seen)
    && forall f | f in ctx.seen :: exists r :: r in ctx.records && r.authorization.Allowed? && FingerprintOf(r) == f
  }

  /** The same tool with the same normalized arguments. */
  ghost predicate SameCall(q: ToolInvocationRecord, r: ToolInvocationRecord)
  {
    q.toolName == r.toolName && Same(Obj(q.arguments), Obj(r.arguments))
  }

  /** No two allowed calls were of the same tool with the same normalized arguments. */
  ghost predicate AllowedDistinct(ctx: GatewayContext)
  {
    forall i, j | 0 <= i < j < |ctx.records|
      && ctx.records[i].authorization.Allowed? && ctx.records[j].authorization.Allowed? ::
      !SameCall(ctx.records[i], ctx.records[j])
  }

  ghost predicate Accounted(reg: Registry, ctx: GatewayContext)
  {
    Counted(ctx) && SeenPerTool(ctx) && AllowedInScope(reg, ctx) && AllowedDistinct(ctx)
  }

  lemma EmptyAccounted(reg: Registry, executionId: Id, scope: set<string>, limits: GatewayLimits)
    ensures Accounted(reg, EmptyContext(executionId, scope, limits))
  {
    var ctx := EmptyContext(executionId, scope, limits);
    forall t | ColonFree(t) ensures |set f | f in ctx.seen && Belongs(f, t)| == 0 {
      assert (set f | f in ctx.seen && Belongs(f, t)) == {};
    }
  }

  /** What the gateway has established about a call it records as allowed. */
  ghost predicate Admissible(reg: Registry, ctx: GatewayContext, r: ToolInvocationRecord)
  {
    && r.authorization.Allowed?
    && r.toolName in reg && TextArguments(r.arguments)
    && RequestScopeKey(r.arguments).Some? && RequestScopeKey(r.arguments).value in ctx.scope
    && FingerprintOf(r) !in ctx.seen
    && ctx.total < ctx.limits.totalCalls && CountOf(ctx.perTool, r.toolName) < ctx.limits.perToolCalls
  }

  lemma AllowCounted(reg: Registry, ctx: GatewayContext, r: ToolInvocationRecord)
    requires Counted(ctx) && Admissible(reg, ctx, r)
    ensures Counted(Allow(ctx, r))
  {
    assert Allow(ctx, r).records[..|ctx.records|] == ctx.records;
    SumIncrement(ctx.perTool, r.toolName);
  }

  lemma DenyCounted(ctx: GatewayContext, r: ToolInvocationRecord)
    requires Counted(ctx) && r.authorization.Denied?
    ensures Counted(Deny(ctx, r))
  {
    assert Deny(ctx, r).records[..|ctx.records|] == ctx.records;
  }

  lemma AllowSeenPerTool(reg: Registry, ctx: GatewayContext, r: ToolInvocationRecord)
    requires SeenPerTool(ctx) && Admissible(reg, ctx, r) && ColonFree(r.toolName)
    ensures SeenPerTool(Allow(ctx, r))
  {
    var ctx' := Allow(ctx, r);
    forall t | ColonFree(t)
      ensures CountOf(ctx'.perTool, t) == |set f | f in ctx'.seen && Belongs(f, t)|
    {
      FingerprintBelongs(r.toolName, r.arguments, t);
      var was, now := set f | f in ctx.seen && Belongs(f, t), set f | f in ctx'.seen && Belongs(f, t);
      assert now == if t == r.toolName then was + {FingerprintOf(r)} else was;
    }
  }

  lemma AllowInScope(reg: Registry, ctx: GatewayContext, r: ToolInvocationRecord)
    requires AllowedInScope(reg, ctx) && Admissible(reg, ctx, r)
    ensures AllowedInScope(reg, Allow(ctx, r))
  {
    var ctx' := Allow(ctx, r);
    assert r in ctx'.records;
    forall f | f in ctx'.seen
      ensures exists q :: q in ctx'.records && q.authorization.Allowed? && FingerprintOf(q) == f
    {
      if f in ctx.seen {
        var q :| q in ctx.records && q.authorization.Allowed? && FingerprintOf(q) == f;
        assert q in ctx'.records;
      }
    }
  }

  lemma DenyInScope(reg: Registry, ctx: GatewayContext, r: ToolInvocationRecord)
    requires AllowedInScope(reg, ctx) && r.authorization.Denied?
    ensures AllowedInScope(reg, Deny(ctx, r))
  {
    var ctx' := Deny(ctx, r);
    forall f | f in ctx'.seen
      ensures exists q :: q in ctx'.records && q.authorization.Allowed? && FingerprintOf(q) == f
    {
      var q :| q in ctx.records && q.authorization.Allowed? && FingerprintOf(q) == f;
      assert q in ctx'.records;
    }
  }

  /** An unseen fingerprint is an unseen call. */
  lemma NotCalledBefore(reg: Registry, ctx: GatewayContext, r: ToolInvocationRecord, q: ToolInvocationRecord)
    requires AllowedInScope(reg, ctx) && Admissible(reg, ctx, r)
    requires forall n | n in reg :: ColonFree(n)
    requires q in ctx.records && q.authorization.Allowed?
    ensures !SameCall(q, r)
  {
    FingerprintFaithful(q.toolName, q.arguments, r.toolName, r.arguments);
  }

  lemma AllowDistinct(reg: Registry, ctx: GatewayContext, r: ToolInvocationRecord)
    requires AllowedInScope(reg, ctx) && AllowedDistinct(ctx) && Admissible(reg, ctx, r)
    requires forall n | n in reg :: ColonFree(n)
    ensures AllowedDistinct(Allow(ctx, r))
  {
    var rs, all := ctx.records, Allow(ctx, r).records;
    forall i, j | 0 <= i < j < |all| && all[i].authorization.Allowed? && all[j].authorization.Allowed?
      ensures !SameCall(all[i], all[j])
    {
      if j == |rs| {
        assert all[i] in rs;
        NotCalledBefore(reg, ctx, r, all[i]);
      } else {
        assert all[i] == rs[i] && all[j] == rs[j];
      }
    }
  }

  lemma RegistryNamesColonFree(reg: Registry)
    requires ValidRegistry(reg)
    ensures forall n | n in reg :: ColonFree(n)
  {
    forall n | n in reg ensures ColonFree(n) {
      ApprovedNamesColonFree(n);
    }
  }

  /** An admitted call is admissible; a refused one is recorded as denied. */
  lemma InvokeShape(reg: Registry, ctx: GatewayContext, p: ProposedToolRequest, b: ToolBehaviour, times: CallTimes)
    requires ValidRegistry(reg)
    ensures var ctx' := Invoke(reg, ctx, p, b, times).0;
      exists r :: ctx'.records == ctx.records + [r]
        && ((r.authorization.Denied? && ctx' == Deny(ctx, r))
            || (Admissible(reg, ctx, r) && ctx' == Allow(ctx, r)))
  {
    var ctx' := Invoke(reg, ctx, p, b, times).0;
    var r := ctx'.records[|ctx.records|];
    assert ctx'.records == ctx.records + [r];
  }

  lemma AllowAccounted(reg: Registry, ctx: GatewayContext, r: ToolInvocationRecord)
    requires Accounted(reg, ctx) && Admissible(reg, ctx, r)
    requires forall n | n in reg :: ColonFree(n)
    ensures Accounted(reg, Allow(ctx, r))
  {
    AllowCounted(reg, ctx, r);
    AllowSeenPerTool(reg, ctx, r);
    AllowInScope(reg, ctx, r);
    AllowDistinct(reg, ctx, r);
  }

  lemma DenyAccounted(reg: Registry, ctx: GatewayContext, r: ToolInvocationRecord)
    requires Accounted(reg, ctx) && r.authorization.Denied?
    ensures Accounted(reg, Deny(ctx, r))
  {
    DenyCounted(ctx, r);
    DenyInScope(reg, ctx, r);
  }

  /** One call keeps the accounting and adds exactly one record. */
  lemma InvokeAccounted(reg: Registry, ctx: GatewayContext, p: ProposedToolRequest, b: ToolBehaviour, times: CallTimes)
    requires ValidRegistry(reg) && Accounted(reg, ctx)
    ensures var ctx' := Invoke(reg, ctx, p, b, times).0;
      && Accounted(reg, ctx')
      && |ctx'.records| == |ctx.records| + 1 && ctx'.records[..|ctx.records|] == ctx.records
      && ctx'.limits == ctx.limits && ctx'.scope == ctx.scope && ctx'.executionId == ctx.executionId
  {
    InvokeShape(reg, ctx, p, b, times);
    RegistryNamesColonFree(reg);
    var ctx' := Invoke(reg, ctx, p, b, times).0;
    var r :| ctx'.records == ctx.records + [r]
      && ((r.authorization.Denied? && ctx' == Deny(ctx, r)) || (Admissible(reg, ctx, r) && ctx' == Allow(ctx, r)));
    if r.authorization.Denied? {
      DenyAccounted(reg, ctx, r);
    } else {
      AllowAccounted(reg, ctx, r);
    }
  }

  /** What one call leaves on record, and what it answers. */
  lemma InvokeRecords(reg: Registry, ctx: GatewayContext, p: ProposedToolRequest, b: ToolBehaviour, times: CallTimes)
    ensures var (next, result) := Invoke(reg, ctx, p, b, times);
      && |next.records| == |ctx.records| + 1 && next.records[..|ctx.records|] == ctx.records
      && next.executionId == ctx.executionId && next.scope == ctx.scope && next.limits == ctx.limits
      && var r := next.records[|ctx.records|];
        && r.executionId == ctx.executionId && r.callId == p.callId && r.toolName == p.toolName
        && result.status == r.outcome && result.authorization == r.authorization
        && (r.outcome.Success? ==> r.authorization.Allowed?)
        && next.total == ctx.total + (if r.authorization.Allowed? then 1 else 0)
  {
  }

  datatype Call = Call(request: ProposedToolRequest, behaviour: ToolBehaviour, times: CallTimes)

  function InvokeAll(reg: Registry, ctx: GatewayContext, calls: seq<Call>): GatewayContext
  {
    if calls == [] then ctx
    else
      var c := calls[|calls| - 1];
      Invoke(reg, InvokeAll(reg, ctx, calls[..|calls| - 1]), c.request, c.behaviour, c.times).0
  }

  /** Any sequence of calls whatever keeps the accounting, one record for each call. */
  lemma {:induction false} EveryCallSequenceAccounted(
    reg: Registry, executionId: Id, scope: set<string>, limits: GatewayLimits, calls: seq<Call>)
    requires ValidRegistry(reg)
    ensures var ctx := InvokeAll(reg, EmptyContext(executionId, scope, limits), calls);
      Accounted(reg, ctx) && |ctx.records| == |calls| && ctx.limits == limits && ctx.scope == scope
  {
    if calls == [] {
      EmptyAccounted(reg, executionId, scope, limits);
    } else {
      var c := calls[|calls| - 1];
      EveryCallSequenceAccounted(reg, executionId, scope, limits, calls[..|calls| - 1]);
      InvokeAccounted(reg, InvokeAll(reg, EmptyContext(executionId, scope, limits), calls[..|calls| - 1]),
        c.request, c.behaviour, c.times);
    }
  }

  // ---- Admission, read off the audit records -------------------------------------------------------

  ghost predicate AllowedBefore(ctx: GatewayContext, t: Id, args: Arguments)
  {
    exists r :: r in ctx.records && r.authorization.Allowed? && r.toolName == t && Same(Obj(r.arguments), Obj(args))
  }

  /** What the gateway checks of a call. */
  datatype Check =
    | IsRegistered | OnlyReads | FitsInput | Validates | IsInScope | IsNew | WithinTotal | WithinTool

  /** The checks in the order they are made. */
  const GATE := [IsRegistered, OnlyReads, FitsInput, Validates, IsInScope, IsNew, WithinTotal, WithinTool]

  function RefusalFor(c: Check): GatewayStatus
  {
    match c
    case IsRegistered => ToolNotFound
    case OnlyReads => ReadOnlyRequired
    case FitsInput => InvalidRequest
    case Validates => InvalidRequest
    case IsInScope => OutOfScope
    case IsNew => DuplicateRequest
    case WithinTotal => BudgetExceeded
    case WithinTool => BudgetExceeded
  }

  /** The call passes the check, by the alert's entities and the audit records alone: no scope
      key, no counter, no seen set. */
  ghost predicate Passes(reg: Registry, entities: seq<EntityReference>, ctx: GatewayContext, p: ProposedToolRequest, c: Check)
  {
    match c
    case IsRegistered => p.toolName in reg
    case OnlyReads => p.toolName in reg && reg[p.toolName].access.ReadOnly?
    case FitsInput =>
      if p.arguments.Encodable? then |CanonicalText(p.arguments.tree, Ascii)| <= ctx.limits.maxInputBytes
      else 1_000_000 < ctx.limits.maxInputBytes
    case Validates => p.toolName in reg && reg[p.toolName].normalize(p.arguments).Some?
    case IsInScope => AboutOneOf(Normal(reg, p), entities)
    case IsNew => !AllowedBefore(ctx, p.toolName, Normal(reg, p))
    case WithinTotal => CountAllowed(ctx.records) < ctx.limits.totalCalls
    case WithinTool => CountAllowedOf(ctx.records, p.toolName) < ctx.limits.perToolCalls
  }

  /** The arguments as the tool's request model dumps them. */
  ghost function Normal(reg: Registry, p: ProposedToolRequest): Arguments
  {
    if p.toolName in reg && reg[p.toolName].normalize(p.arguments).Some? then reg[p.toolName].normalize(p.arguments).value else []
  }

  /** The first check the call does not pass. */
  ghost predicate FirstFailed(reg: Registry, entities: seq<EntityReference>, ctx: GatewayContext, p: ProposedToolRequest, k: nat)
  {
    && k < |GATE| && !Passes(reg, entities, ctx, p, GATE[k])
    && forall j | 0 <= j < k :: Passes(reg, entities, ctx, p, GATE[j])
  }

  /** A seen fingerprint is an allowed call on record. */
  lemma SeenExactly(reg: Registry, ctx: GatewayContext, t: Id, args: Arguments)
    requires ValidRegistry(reg) && AllowedInScope(reg, ctx) && t in reg && TextArguments(args)
    ensures Fingerprint(t, args) in ctx.seen <==> AllowedBefore(ctx, t, args)
  {
    var f := Fingerprint(t, args);
    ApprovedNamesColonFree(t);
    forall r | r in ctx.records && r.authorization.Allowed?
      ensures FingerprintOf(r) == f <==> r.toolName == t && Same(Obj(r.arguments), Obj(args))
    {
      ApprovedNamesColonFree(r.toolName);
      FingerprintFaithful(r.toolName, r.arguments, t, args);
    }
  }

  lemma GateByNumber()
    ensures GATE[0] == IsRegistered && GATE[1] == OnlyReads && GATE[2] == FitsInput && GATE[3] == Validates
    ensures GATE[4] == IsInScope && GATE[5] == IsNew && GATE[6] == WithinTotal && GATE[7] == WithinTool
  {
  }

  /** The fast admission, by scope keys, counters and fingerprints, admits a call exactly when it
      passes every check, and refuses it with the code of the first it does not pass. */
  lemma AdmitRefinesRecords(reg: Registry, entities: seq<EntityReference>, ctx: GatewayContext, p: ProposedToolRequest)
    requires ValidRegistry(reg) && Accounted(reg, ctx) && ctx.scope == ScopeKeys(entities)
    ensures Admit(reg, ctx, p).Admitted? <==> forall k | 0 <= k < |GATE| :: Passes(reg, entities, ctx, p, GATE[k])
    ensures Admit(reg, ctx, p).Admitted? ==> Admit(reg, ctx, p).arguments == Normal(reg, p)
    ensures forall k: nat | FirstFailed(reg, entities, ctx, p, k) ::
              Admit(reg, ctx, p) == Refused(RefusalFor(GATE[k]), if k <= 3 then [] else Normal(reg, p))
  {
    if p.toolName in reg && reg[p.toolName].normalize(p.arguments).Some? {
      SeenExactly(reg, ctx, p.toolName, Normal(reg, p));
      InScopeExactly(Normal(reg, p), entities);
    }
    AdmitByChecks(reg, entities, ctx, p);
  }

  /** The counters, the scope keys and the seen set answer the last four checks for this call. */
  ghost predicate Tallied(reg: Registry, entities: seq<EntityReference>, ctx: GatewayContext, p: ProposedToolRequest)
  {
    var args := Normal(reg, p);
    && (RequestScopeKey(args).Some? && RequestScopeKey(args).value in ctx.scope <==> AboutOneOf(args, entities))
    && (Fingerprint(p.toolName, args) in ctx.seen <==> AllowedBefore(ctx, p.toolName, args))
    && ctx.total == CountAllowed(ctx.records) && CountOf(ctx.perTool, p.toolName) == CountAllowedOf(ctx.records, p.toolName)
  }

  lemma AdmitByChecks(reg: Registry, entities: seq<EntityReference>, ctx: GatewayContext, p: ProposedToolRequest)
    requires p.toolName in reg && reg[p.toolName].normalize(p.arguments).Some? ==> Tallied(reg, entities, ctx, p)
    ensures Admit(reg, ctx, p).Admitted? <==> forall k | 0 <= k < |GATE| :: Passes(reg, entities, ctx, p, GATE[k])
    ensures Admit(reg, ctx, p).Admitted? ==> Admit(reg, ctx, p).arguments == Normal(reg, p)
    ensures forall k: nat | FirstFailed(reg, entities, ctx, p, k) ::
              Admit(reg, ctx, p) == Refused(RefusalFor(GATE[k]), if k <= 3 then [] else Normal(reg, p))
  {
    GateByNumber();
  }

  // ---- What a call answers ------------------------------------------------------------------------------

  /** How an admitted call ends, case by case: the size that counts is that of the outcome's text. */
  ghost predicate Concludes(limits: GatewayLimits, b: ToolBehaviour, status: GatewayStatus, result: Option<Json>)
  {
    && (status.Timeout? <==> b.TimesOut?)
    && (status.AdapterFailure? <==> b.Raises?)
    && (status.Success? <==> b.Returns? && b.validated.Some? && |CanonicalText(b.validated.value, Ascii)| <= limits.maxOutputBytes)
    && (status.InvalidAdapterResult? <==> b.Returns? && !status.Success?)
    && result == (if status.Success? then b.validated else None)
  }

  /** One record is added, with what was asked, when, and how it ended, and the answer agrees. */
  ghost predicate Recorded(ctx: GatewayContext, p: ProposedToolRequest, times: CallTimes, r: ToolInvocationRecord, result: GatewayResult)
  {
    && r.executionId == ctx.executionId && r.callId == p.callId && r.toolName == p.toolName
    && r.startedAt == times.startedAt && r.completedAt == times.completedAt
    && result.callId == p.callId && result.toolName == p.toolName
    && result.status == r.outcome && result.authorization == r.authorization
  }

  /** The whole answer of one call: a refused call is denied without reaching the tool, with the
      code of the first check it fails and the arguments as far as they were validated; an
      admitted one is allowed, charged, and ends as the tool does. */
  ghost predicate AnswersCall(
    reg: Registry, entities: seq<EntityReference>, ctx: GatewayContext, p: ProposedToolRequest, b: ToolBehaviour,
    r: ToolInvocationRecord, next: GatewayContext, result: GatewayResult)
  {
    && (r.authorization.Allowed? <==> forall k | 0 <= k < |GATE| :: Passes(reg, entities, ctx, p, GATE[k]))
    && (r.authorization.Allowed? ==> r.arguments == Normal(reg, p) && Concludes(ctx.limits, b, r.outcome, result.result))
    && (r.authorization.Denied? ==> result.result.None? && next == ctx.(records := next.records))
    && forall k: nat | FirstFailed(reg, entities, ctx, p, k) ::
      r.authorization.Denied? && r.outcome == RefusalFor(GATE[k]) && r.arguments == if k <= 3 then [] else Normal(reg, p)
  }

  lemma InvokeExactly(reg: Registry, entities: seq<EntityReference>, ctx: GatewayContext, p: ProposedToolRequest, b: ToolBehaviour, times: CallTimes)
    requires ValidRegistry(reg) && Accounted(reg, ctx) && ctx.scope == ScopeKeys(entities)
    ensures var (next, result) := Invoke(reg, ctx, p, b, times);
      && |next.records| == |ctx.records| + 1
      && var r := next.records[|ctx.records|];
        && next.records == ctx.records + [r] && Recorded(ctx, p, times, r, result)
        && AnswersCall(reg, entities, ctx, p, b, r, next, result)
  {
    AdmitRefinesRecords(reg, entities, ctx, p);
  }

  /** Over any sequence of calls, every allowed call was about an entity of the alert. */
  lemma AllowedAboutEntities(reg: Registry, executionId: Id, entities: seq<EntityReference>, limits: GatewayLimits, calls: seq<Call>,
    r: ToolInvocationRecord)
    requires ValidRegistry(reg)
    requires r in InvokeAll(reg, EmptyContext(executionId, ScopeKeys(entities), limits), calls).records && r.authorization.Allowed?
    ensures AboutOneOf(r.arguments, entities)
  {
    EveryCallSequenceAccounted(reg, executionId, ScopeKeys(entities), limits, calls);
    InScopeExactly(r.arguments, entities);
  }
}
