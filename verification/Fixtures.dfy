/** The fixture validator and the seven fixture-backed evidence tools
    (adapters/tools/fixture_models.py, adapters/tools/fixtures.py). */
module Fixtures {
  import opened Base
  import opened Timestamps
  import opened Entities

  // ---- Records -------------------------------------------------------------------------------------------

  /** Each record keeps the fields the validator and the tools look at; `detail` stands for the
      rest, which they only pass on. */
  datatype Identity = Identity(userId: Id, deviceIds: seq<Id>, detail: string)

  datatype UserRisk = UserRisk(userId: Id, detail: string)

  datatype Device = Device(deviceId: Id, owners: seq<Id>, detail: string)

  datatype SignIn = SignIn(signInId: Id, userId: Id, deviceId: Id, ipAddress: string, occurredAt: Instant, detail: string)

  datatype IpReputation = IpReputation(ipAddress: string, detail: string)

  datatype MfaEvent = MfaEvent(mfaEventId: Id, userId: Id, occurredAt: Instant, sourceSignInId: Id, detail: string)

  datatype RelatedAlerts = RelatedAlerts(userId: Id, alertIds: seq<Id>)

  datatype Alert = Alert(alertId: Id, entities: seq<EntityReference>, occurredAt: Instant, detail: string)

  datatype Dataset = Dataset(
    fixtureVersion: string, schemaVersion: string, referenceTime: Instant, windowHours: nat,
    identities: seq<Identity>, risks: seq<UserRisk>, devices: seq<Device>, signIns: seq<SignIn>,
    reputations: seq<IpReputation>, mfaEvents: seq<MfaEvent>, related: seq<RelatedAlerts>, alerts: seq<Alert>)

  function UserOf(i: Identity): Id { i.userId }
  function RiskUser(r: UserRisk): Id { r.userId }
  function DeviceOf(d: Device): Id { d.deviceId }
  function SignInOf(s: SignIn): Id { s.signInId }
  function AddressOf(r: IpReputation): Id { r.ipAddress }
  function EventOf(e: MfaEvent): Id { e.mfaEventId }
  function RelatedUser(r: RelatedAlerts): Id { r.userId }
  function AlertOf(a: Alert): Id { a.alertId }

  // ---- Unique indexes ---------------------------------------------------------------------------------------

  ghost predicate UniqueKeys<T(!new)>(xs: seq<T>, key: T -> Id)
  {
    forall i, j | 0 <= i < j < |xs| :: key(xs[i]) != key(xs[j])
  }

  /** The dictionary holds each record under its key, and nothing else. */
  ghost predicate IndexOf<T(!new)>(m: map<Id, T>, xs: seq<T>, key: T -> Id)
  {
    && (forall i | 0 <= i < |xs| :: key(xs[i]) in m && m[key(xs[i])] == xs[i])
    && forall k | k in m :: m[k] in xs && key(m[k]) == k
  }

  /** `_make_unique_index`; None is the duplicate it raises on. */
  method MakeUniqueIndex<T(!new)>(xs: seq<T>, key: T -> Id) returns (r: Option<map<Id, T>>)
    ensures r.Some? <==> UniqueKeys(xs, key)
    ensures r.Some? ==> IndexOf(r.value, xs, key)
  {
    var index: map<Id, T> := map[];
    for n := 0 to |xs|
      invariant UniqueKeys(xs[..n], key) && IndexOf(index, xs[..n], key)
    {
      var done := xs[..n];
      assert xs[..n + 1] == done + [xs[n]];
      if key(xs[n]) in index {
        assert index[key(xs[n])] in done;
        ghost var i :| 0 <= i < n && done[i] == index[key(xs[n])];
        assert key(xs[i]) == key(xs[n]);
        return None;
      }
      forall i | 0 <= i < n ensures key(xs[i]) != key(xs[n]) {
        assert done[i] == xs[i] && key(done[i]) in index;
      }
      index := index[key(xs[n]) := xs[n]];
    }
    assert xs[..|xs|] == xs;
    r := Some(index);
  }

  /** A record with this key exists. */
  ghost predicate Has<T(!new)>(xs: seq<T>, key: T -> Id, k: Id)
  {
    exists x | x in xs :: key(x) == k
  }

  lemma IndexHas<T(!new)>(m: map<Id, T>, xs: seq<T>, key: T -> Id, k: Id)
    requires IndexOf(m, xs, key)
    ensures k in m <==> Has(xs, key, k)
    ensures k in m ==> m[k] in xs && key(m[k]) == k
    ensures forall x | x in xs && key(x) == k :: k in m && m[k] == x
  {
    forall x | x in xs && key(x) == k ensures k in m && m[k] == x {
      var i :| 0 <= i < |xs| && xs[i] == x;
    }
  }

  // ---- The declarative integrity of a dataset -----------------------------------------------------------------

  /** The device is owned both ways: it exists once and names the user among its owners. */
  ghost predicate OwnedBy(ds: Dataset, d: Id, u: Id)
  {
    exists device | device in ds.devices :: device.deviceId == d && u in device.owners
  }

  ghost predicate Uses(ds: Dataset, u: Id, d: Id)
  {
    exists identity | identity in ds.identities :: identity.userId == u && d in identity.deviceIds
  }

  predicate MentionsUser(a: Alert, u: Id)
  {
    exists e | e in a.entities :: e.entityType.User? && e.identifier == u
  }

  ghost predicate AlertAbout(ds: Dataset, id: Id, u: Id)
  {
    exists a | a in ds.alerts :: a.alertId == id && MentionsUser(a, u)
  }

  ghost predicate EntityKnown(ds: Dataset, e: EntityReference)
  {
    match e.entityType
    case User => Has(ds.identities, UserOf, e.identifier)
    case Device => Has(ds.devices, DeviceOf, e.identifier)
    case IpAddress => Has(ds.reputations, AddressOf, e.identifier)
  }

  ghost predicate IdentityIntegral(ds: Dataset, i: Identity)
  {
    Distinct(i.deviceIds) && forall d | d in i.deviceIds :: OwnedBy(ds, d, i.userId)
  }

  ghost predicate DeviceIntegral(ds: Dataset, d: Device)
  {
    Distinct(d.owners) && forall u | u in d.owners :: Uses(ds, u, d.deviceId)
  }

  ghost predicate SignInIntegral(ds: Dataset, s: SignIn)
  {
    && Has(ds.identities, UserOf, s.userId) && Has(ds.reputations, AddressOf, s.ipAddress)
    && OwnedBy(ds, s.deviceId, s.userId)
  }

  ghost predicate EventIntegral(ds: Dataset, e: MfaEvent)
  {
    && Has(ds.identities, UserOf, e.userId)
    && exists s | s in ds.signIns :: s.signInId == e.sourceSignInId && s.userId == e.userId
  }

  ghost predicate RelatedIntegral(ds: Dataset, r: RelatedAlerts)
  {
    && Has(ds.identities, UserOf, r.userId) && Distinct(r.alertIds)
    && forall id | id in r.alertIds :: AlertAbout(ds, id, r.userId)
  }

  ghost predicate AlertIntegral(ds: Dataset, a: Alert)
  {
    forall e | e in a.entities :: EntityKnown(ds, e)
  }

  ghost predicate KeysUnique(ds: Dataset)
  {
    && (forall i, j | 0 <= i < j < |ds.identities| :: ds.identities[i].userId != ds.identities[j].userId)
    && (forall i, j | 0 <= i < j < |ds.risks| :: ds.risks[i].userId != ds.risks[j].userId)
    && (forall i, j | 0 <= i < j < |ds.devices| :: ds.devices[i].deviceId != ds.devices[j].deviceId)
    && (forall i, j | 0 <= i < j < |ds.signIns| :: ds.signIns[i].signInId != ds.signIns[j].signInId)
    && (forall i, j | 0 <= i < j < |ds.reputations| :: ds.reputations[i].ipAddress != ds.reputations[j].ipAddress)
    && (forall i, j | 0 <= i < j < |ds.mfaEvents| :: ds.mfaEvents[i].mfaEventId != ds.mfaEvents[j].mfaEventId)
    && (forall i, j | 0 <= i < j < |ds.related| :: ds.related[i].userId != ds.related[j].userId)
    && forall i, j | 0 <= i < j < |ds.alerts| :: ds.alerts[i].alertId != ds.alerts[j].alertId
  }

  /** Symmetric ownership and no dangling reference. */
  ghost predicate ReferencesIntegral(ds: Dataset)
  {
    && (forall i | i in ds.identities :: IdentityIntegral(ds, i))
    && (forall d | d in ds.devices :: DeviceIntegral(ds, d))
    && (forall r | r in ds.risks :: Has(ds.identities, UserOf, r.userId))
    && (forall s | s in ds.signIns :: SignInIntegral(ds, s))
    && (forall e | e in ds.mfaEvents :: EventIntegral(ds, e))
    && (forall r | r in ds.related :: RelatedIntegral(ds, r))
    && forall a | a in ds.alerts :: AlertIntegral(ds, a)
  }

  /** Supported versions, unique keys, and references that all resolve. */
  ghost predicate Integral(ds: Dataset)
  {
    ds.fixtureVersion == "v1" && ds.schemaVersion == "1.0" && KeysUnique(ds) && ReferencesIntegral(ds)
  }

  // ---- The validator --------------------------------------------------------------------------------------------

  method UniqueValues(values: seq<Id>) returns (ok: bool)
    ensures ok <==> Distinct(values)
  {
    SizesAgreeMeansDistinct(values);
    ok := |set v | v in values| == |values|;
  }

  method CheckIdentity(ds: Dataset, devices: map<Id, Device>, i: Identity) returns (ok: bool)
    requires IndexOf(devices, ds.devices, DeviceOf)
    ensures ok <==> IdentityIntegral(ds, i)
  {
    ok := UniqueValues(i.deviceIds);
    if !ok {
      return;
    }
    for n := 0 to |i.deviceIds|
      invariant forall k | 0 <= k < n :: OwnedBy(ds, i.deviceIds[k], i.userId)
    {
      var d := i.deviceIds[n];
      IndexHas(devices, ds.devices, DeviceOf, d);
      if d !in devices || i.userId !in devices[d].owners {
        assert !OwnedBy(ds, d, i.userId);
        return false;
      }
      assert devices[d].deviceId == d;
    }
  }

  method CheckDevice(ds: Dataset, identities: map<Id, Identity>, d: Device) returns (ok: bool)
    requires IndexOf(identities, ds.identities, UserOf)
    ensures ok <==> DeviceIntegral(ds, d)
  {
    ok := UniqueValues(d.owners);
    if !ok {
      return;
    }
    for n := 0 to |d.owners|
      invariant forall k | 0 <= k < n :: Uses(ds, d.owners[k], d.deviceId)
    {
      var u := d.owners[n];
      IndexHas(identities, ds.identities, UserOf, u);
      if u !in identities || d.deviceId !in identities[u].deviceIds {
        assert !Uses(ds, u, d.deviceId);
        return false;
      }
      assert identities[u].userId == u;
    }
  }

  method CheckSignIn(ds: Dataset, identities: map<Id, Identity>, devices: map<Id, Device>,
    reputations: map<Id, IpReputation>, s: SignIn) returns (ok: bool)
    requires IndexOf(identities, ds.identities, UserOf) && IndexOf(devices, ds.devices, DeviceOf)
    requires IndexOf(reputations, ds.reputations, AddressOf)
    ensures ok <==> SignInIntegral(ds, s)
  {
    IndexHas(identities, ds.identities, UserOf, s.userId);
    IndexHas(devices, ds.devices, DeviceOf, s.deviceId);
    IndexHas(reputations, ds.reputations, AddressOf, s.ipAddress);
    if s.userId !in identities || s.deviceId !in devices || s.ipAddress !in reputations {
      return false;
    }
    ok := s.userId in devices[s.deviceId].owners;
    assert devices[s.deviceId].deviceId == s.deviceId;
  }

  method CheckEvent(ds: Dataset, identities: map<Id, Identity>, signIns: map<Id, SignIn>, e: MfaEvent) returns (ok: bool)
    requires IndexOf(identities, ds.identities, UserOf) && IndexOf(signIns, ds.signIns, SignInOf)
    ensures ok <==> EventIntegral(ds, e)
  {
    IndexHas(identities, ds.identities, UserOf, e.userId);
    IndexHas(signIns, ds.signIns, SignInOf, e.sourceSignInId);
    if e.userId !in identities || e.sourceSignInId !in signIns {
      return false;
    }
    ok := signIns[e.sourceSignInId].userId == e.userId;
    assert signIns[e.sourceSignInId].signInId == e.sourceSignInId;
  }

  method CheckRelated(ds: Dataset, identities: map<Id, Identity>, alerts: map<Id, Alert>, r: RelatedAlerts) returns (ok: bool)
    requires IndexOf(identities, ds.identities, UserOf) && IndexOf(alerts, ds.alerts, AlertOf)
    ensures ok <==> RelatedIntegral(ds, r)
  {
    IndexHas(identities, ds.identities, UserOf, r.userId);
    if r.userId !in identities {
      return false;
    }
    ok := UniqueValues(r.alertIds);
    if !ok {
      return;
    }
    for n := 0 to |r.alertIds|
      invariant forall k | 0 <= k < n :: AlertAbout(ds, r.alertIds[k], r.userId)
    {
      var id := r.alertIds[n];
      IndexHas(alerts, ds.alerts, AlertOf, id);
      if id !in alerts || !MentionsUser(alerts[id], r.userId) {
        assert !AlertAbout(ds, id, r.userId);
        return false;
      }
      assert alerts[id].alertId == id;
    }
  }

  method CheckAlert(ds: Dataset, identities: map<Id, Identity>, devices: map<Id, Device>,
    reputations: map<Id, IpReputation>, a: Alert) returns (ok: bool)
    requires IndexOf(identities, ds.identities, UserOf) && IndexOf(devices, ds.devices, DeviceOf)
    requires IndexOf(reputations, ds.reputations, AddressOf)
    ensures ok <==> AlertIntegral(ds, a)
  {
    for n := 0 to |a.entities|
      invariant forall k | 0 <= k < n :: EntityKnown(ds, a.entities[k])
    {
      var e := a.entities[n];
      IndexHas(identities, ds.identities, UserOf, e.identifier);
      IndexHas(devices, ds.devices, DeviceOf, e.identifier);
      IndexHas(reputations, ds.reputations, AddressOf, e.identifier);
      var known := match e.entityType
        case User => e.identifier in identities
        case Device => e.identifier in devices
        case IpAddress => e.identifier in reputations;
      if !known {
        assert !EntityKnown(ds, e);
        return false;
      }
    }
    ok := true;
  }

  // ---- The cross-record loops, on complete indexes -------------------------------------------------------

  method CheckIdentities(ds: Dataset, devices: map<Id, Device>) returns (ok: bool)
    requires IndexOf(devices, ds.devices, DeviceOf)
    ensures ok <==> forall x | x in ds.identities :: IdentityIntegral(ds, x)
  {
    ok := false;
    for n := 0 to |ds.identities|
      invariant forall k | 0 <= k < n :: IdentityIntegral(ds, ds.identities[k])
    {
      var fine := CheckIdentity(ds, devices, ds.identities[n]);
      if !fine {
        return;
      }
    }
    ok := true;
  }

  method CheckDevices(ds: Dataset, identities: map<Id, Identity>) returns (ok: bool)
    requires IndexOf(identities, ds.identities, UserOf)
    ensures ok <==> forall x | x in ds.devices :: DeviceIntegral(ds, x)
  {
    ok := false;
    for n := 0 to |ds.devices|
      invariant forall k | 0 <= k < n :: DeviceIntegral(ds, ds.devices[k])
    {
      var fine := CheckDevice(ds, identities, ds.devices[n]);
      if !fine {
        return;
      }
    }
    ok := true;
  }

  method CheckRisks(ds: Dataset, identities: map<Id, Identity>) returns (ok: bool)
    requires IndexOf(identities, ds.identities, UserOf)
    ensures ok <==> forall r | r in ds.risks :: Has(ds.identities, UserOf, r.userId)
  {
    ok := false;
    for n := 0 to |ds.risks|
      invariant forall k | 0 <= k < n :: Has(ds.identities, UserOf, ds.risks[k].userId)
    {
      IndexHas(identities, ds.identities, UserOf, ds.risks[n].userId);
      if ds.risks[n].userId !in identities {
        assert ds.risks[n] in ds.risks;
        return;
      }
    }
    ok := true;
  }

  method CheckSignIns(ds: Dataset, identities: map<Id, Identity>, devices: map<Id, Device>,
    reputations: map<Id, IpReputation>) returns (ok: bool)
    requires IndexOf(identities, ds.identities, UserOf)
    requires IndexOf(devices, ds.devices, DeviceOf)
    requires IndexOf(reputations, ds.reputations, AddressOf)
    ensures ok <==> forall x | x in ds.signIns :: SignInIntegral(ds, x)
  {
    ok := false;
    for n := 0 to |ds.signIns|
      invariant forall k | 0 <= k < n :: SignInIntegral(ds, ds.signIns[k])
    {
      var fine := CheckSignIn(ds, identities, devices, reputations, ds.signIns[n]);
      if !fine {
        return;
      }
    }
    ok := true;
  }

  method CheckEvents(ds: Dataset, identities: map<Id, Identity>, signIns: map<Id, SignIn>) returns (ok: bool)
    requires IndexOf(identities, ds.identities, UserOf)
    requires IndexOf(signIns, ds.signIns, SignInOf)
    ensures ok <==> forall x | x in ds.mfaEvents :: EventIntegral(ds, x)
  {
    ok := false;
    for n := 0 to |ds.mfaEvents|
      invariant forall k | 0 <= k < n :: EventIntegral(ds, ds.mfaEvents[k])
    {
      var fine := CheckEvent(ds, identities, signIns, ds.mfaEvents[n]);
      if !fine {
        return;
      }
    }
    ok := true;
  }

  method CheckAllRelated(ds: Dataset, identities: map<Id, Identity>, alerts: map<Id, Alert>) returns (ok: bool)
    requires IndexOf(identities, ds.identities, UserOf)
    requires IndexOf(alerts, ds.alerts, AlertOf)
    ensures ok <==> forall x | x in ds.related :: RelatedIntegral(ds, x)
  {
    ok := false;
    for n := 0 to |ds.related|
      invariant forall k | 0 <= k < n :: RelatedIntegral(ds, ds.related[k])
    {
      var fine := CheckRelated(ds, identities, alerts, ds.related[n]);
      if !fine {
        return;
      }
    }
    ok := true;
  }

  method CheckAlerts(ds: Dataset, identities: map<Id, Identity>, devices: map<Id, Device>,
    reputations: map<Id, IpReputation>) returns (ok: bool)
    requires IndexOf(identities, ds.identities, UserOf)
    requires IndexOf(devices, ds.devices, DeviceOf)
    requires IndexOf(reputations, ds.reputations, AddressOf)
    ensures ok <==> forall x | x in ds.alerts :: AlertIntegral(ds, x)
  {
    ok := false;
    for n := 0 to |ds.alerts|
      invariant forall k | 0 <= k < n :: AlertIntegral(ds, ds.alerts[k])
    {
      var fine := CheckAlert(ds, identities, devices, reputations, ds.alerts[n]);
      if !fine {
        return;
      }
    }
    ok := true;
  }

  method CheckReferences(ds: Dataset, identities: map<Id, Identity>, devices: map<Id, Device>, signIns: map<Id, SignIn>,
    reputations: map<Id, IpReputation>, alerts: map<Id, Alert>) returns (ok: bool)
    requires IndexOf(identities, ds.identities, UserOf)
    requires IndexOf(devices, ds.devices, DeviceOf)
    requires IndexOf(signIns, ds.signIns, SignInOf)
    requires IndexOf(reputations, ds.reputations, AddressOf)
    requires IndexOf(alerts, ds.alerts, AlertOf)
    ensures ok <==> ReferencesIntegral(ds)
  {
    ok := CheckIdentities(ds, devices);
    if ok {
      ok := CheckDevices(ds, identities);
    }
    if ok {
      ok := CheckRisks(ds, identities);
    }
    if ok {
      ok := CheckSignIns(ds, identities, devices, reputations);
    }
    if ok {
      ok := CheckEvents(ds, identities, signIns);
    }
    if ok {
      ok := CheckAllRelated(ds, identities, alerts);
    }
    if ok {
      ok := CheckAlerts(ds, identities, devices, reputations);
    }
  }

  /** `validate_fixture_dataset` accepts exactly the datasets with integrity. */
  method Validate(ds: Dataset) returns (ok: bool)
    ensures ok <==> Integral(ds)
  {
    if ds.fixtureVersion != "v1" || ds.schemaVersion != "1.0" {
      return false;
    }
    var identities := MakeUniqueIndex(ds.identities, UserOf);
    if identities.None? { return false; }
    var risks := MakeUniqueIndex(ds.risks, RiskUser);
    if risks.None? { return false; }
    var devices := MakeUniqueIndex(ds.devices, DeviceOf);
    if devices.None? { return false; }
    var signIns := MakeUniqueIndex(ds.signIns, SignInOf);
    if signIns.None? { return false; }
    var reputations := MakeUniqueIndex(ds.reputations, AddressOf);
    if reputations.None? { return false; }
    var events := MakeUniqueIndex(ds.mfaEvents, EventOf);
    if events.None? { return false; }
    var related := MakeUniqueIndex(ds.related, RelatedUser);
    if related.None? { return false; }
    var alerts := MakeUniqueIndex(ds.alerts, AlertOf);
    if alerts.None? { return false; }
    ok := CheckReferences(ds, identities.value, devices.value, signIns.value, reputations.value, alerts.value);
  }

  // ---- Lookups ---------------------------------------------------------------------------------------------------

  datatype ToolOutcome<+T> = Found(data: T) | NotFound(resourceType: string, identifier: string) | Raises

  /** `next((item for item in records if key(item) == k), None)`. */
  function FirstMatch<T>(xs: seq<T>, key: T -> Id, k: Id): Option<T>
  {
    if xs == [] then None else if key(xs[0]) == k then Some(xs[0]) else FirstMatch(xs[1..], key, k)
  }

  /** With unique keys the first match is the lookup in the index. */
  lemma {:induction false} FirstMatchIsLookup<T(!new)>(xs: seq<T>, key: T -> Id, k: Id, m: map<Id, T>)
    requires IndexOf(m, xs, key)
    ensures FirstMatch(xs, key, k) == if k in m then Some(m[k]) else None
  {
    FirstMatchFound(xs, key, k);
    IndexHas(m, xs, key, k);
  }

  lemma {:induction false} FirstMatchFound<T(!new)>(xs: seq<T>, key: T -> Id, k: Id)
    ensures FirstMatch(xs, key, k).Some? <==> Has(xs, key, k)
    ensures FirstMatch(xs, key, k).Some? ==>
              FirstMatch(xs, key, k).value in xs && key(FirstMatch(xs, key, k).value) == k
  {
    if xs != [] {
      FirstMatchFound(xs[1..], key, k);
      if Has(xs, key, k) && key(xs[0]) != k {
        var x :| x in xs && key(x) == k;
        assert x in xs[1..];
      }
    }
  }

  /** `_not_found`: its identifier must be an Identifier, so building it can raise. */
  function Missing<T>(resourceType: string, k: string): ToolOutcome<T>
  {
    match ParseIdentifier(k)
    case Some(id) => NotFound(resourceType, id)
    case None => Raises
  }

  function Lookup<T>(xs: seq<T>, key: T -> Id, k: Id, resourceType: string): ToolOutcome<T>
  {
    match FirstMatch(xs, key, k)
    case Some(x) => Found(x)
    case None => Missing(resourceType, k)
  }

  lemma SameKeySame<T(!new)>(xs: seq<T>, key: T -> Id, x: T, y: T)
    requires UniqueKeys(xs, key) && x in xs && y in xs && key(x) == key(y)
    ensures x == y
  {
    var i :| 0 <= i < |xs| && xs[i] == x;
    var j :| 0 <= j < |xs| && xs[j] == y;
    assert !(i < j) && !(j < i);
  }

  /** A lookup tool answers the one record with the key; without one it answers that the key is
      not found, or raises because the key cannot be named in that answer. */
  lemma LookupExact<T(!new)>(xs: seq<T>, key: T -> Id, k: Id, resourceType: string)
    requires UniqueKeys(xs, key)
    ensures forall x :: Lookup(xs, key, k, resourceType) == Found(x) <==> x in xs && key(x) == k
    ensures Lookup(xs, key, k, resourceType).NotFound? <==> !Has(xs, key, k) && ParseIdentifier(k).Some?
    ensures Lookup(xs, key, k, resourceType).Raises? <==> !Has(xs, key, k) && ParseIdentifier(k).None?
  {
    FirstMatchFound(xs, key, k);
    forall x, y | x in xs && y in xs && key(x) == k && key(y) == k ensures x == y {
      SameKeySame(xs, key, x, y);
    }
  }

  function UserRiskTool(ds: Dataset, u: Id): ToolOutcome<UserRisk>
  {
    Lookup(ds.risks, RiskUser, u, "user-risk")
  }

  function DeviceContextTool(ds: Dataset, d: Id): ToolOutcome<Device>
  {
    Lookup(ds.devices, DeviceOf, d, "device")
  }

  function IpReputationTool(ds: Dataset, address: string): ToolOutcome<IpReputation>
  {
    Lookup(ds.reputations, AddressOf, address, "ip-reputation")
  }

  function IdentityContextTool(ds: Dataset, u: Id): ToolOutcome<Identity>
  {
    Lookup(ds.identities, UserOf, u, "identity")
  }

  /** What a lookup by Identifier answers: the one record, or NotFound naming the key. */
  ghost predicate AnswersKey<T(!new)>(r: ToolOutcome<T>, xs: seq<T>, key: T -> Id, k: Id, resourceType: string)
  {
    && !r.Raises?
    && (forall x :: r == Found(x) <==> x in xs && key(x) == k)
    && (r == NotFound(resourceType, k) <==> forall x | x in xs :: key(x) != k)
  }

  lemma LookupAnswers<T(!new)>(xs: seq<T>, key: T -> Id, k: Id, resourceType: string)
    requires UniqueKeys(xs, key) && IsIdentifier(k)
    ensures AnswersKey(Lookup(xs, key, k, resourceType), xs, key, k, resourceType)
  {
    LookupExact(xs, key, k, resourceType);
    IdentifierIsStripped(k);
  }

  /** The dataset has an identity of this user. */
  ghost predicate KnownUser(ds: Dataset, u: Id)
  {
    exists i :: i in ds.identities && i.userId == u
  }

  lemma KnownUserExactly(ds: Dataset, u: Id)
    ensures Has(ds.identities, UserOf, u) <==> KnownUser(ds, u)
  {
    if KnownUser(ds, u) {
      var i :| i in ds.identities && i.userId == u;
      assert UserOf(i) == u;
    }
  }

  lemma UserRiskExact(ds: Dataset, u: Id)
    requires Integral(ds) && IsIdentifier(u)
    ensures var r := UserRiskTool(ds, u);
      && !r.Raises? && (forall x :: r == Found(x) <==> x in ds.risks && x.userId == u)
      && (r == NotFound("user-risk", u) <==> forall x | x in ds.risks :: x.userId != u)
    ensures UserRiskTool(ds, u).Found? ==> KnownUser(ds, u)
  {
    LookupAnswers(ds.risks, RiskUser, u, "user-risk");
    KnownUserExactly(ds, u);
  }

  lemma DeviceContextExact(ds: Dataset, d: Id)
    requires Integral(ds) && IsIdentifier(d)
    ensures var r := DeviceContextTool(ds, d);
      && !r.Raises? && (forall x :: r == Found(x) <==> x in ds.devices && x.deviceId == d)
      && (r == NotFound("device", d) <==> forall x | x in ds.devices :: x.deviceId != d)
    ensures DeviceContextTool(ds, d).Found? ==>
              forall u | u in DeviceContextTool(ds, d).data.owners :: exists i :: i in ds.identities && i.userId == u && d in i.deviceIds
  {
    LookupAnswers(ds.devices, DeviceOf, d, "device");
    if DeviceContextTool(ds, d).Found? {
      forall u | u in DeviceContextTool(ds, d).data.owners ensures exists i :: i in ds.identities && i.userId == u && d in i.deviceIds {
        assert Uses(ds, u, d);
      }
    }
  }

  lemma IdentityContextExact(ds: Dataset, u: Id)
    requires Integral(ds) && IsIdentifier(u)
    ensures var r := IdentityContextTool(ds, u);
      && !r.Raises? && (forall x :: r == Found(x) <==> x in ds.identities && x.userId == u)
      && (r == NotFound("identity", u) <==> forall x | x in ds.identities :: x.userId != u)
    ensures IdentityContextTool(ds, u).Found? ==>
              forall d | d in IdentityContextTool(ds, u).data.deviceIds :: exists x :: x in ds.devices && x.deviceId == d && u in x.owners
  {
    LookupAnswers(ds.identities, UserOf, u, "identity");
    if IdentityContextTool(ds, u).Found? {
      forall d | d in IdentityContextTool(ds, u).data.deviceIds ensures exists x :: x in ds.devices && x.deviceId == d && u in x.owners {
        assert OwnedBy(ds, d, u);
      }
    }
  }

  lemma KnownAddress(ds: Dataset, address: string)
    ensures Has(ds.reputations, AddressOf, address) <==> exists x :: x in ds.reputations && x.ipAddress == address
  {
    if x :| x in ds.reputations && x.ipAddress == address {
      assert AddressOf(x) == address;
    }
  }

  /** The address tool finds the one record of the address; without one it raises exactly for
      the addresses that are not Identifiers. */
  lemma IpReputationExact(ds: Dataset, address: string)
    requires Integral(ds) && IsAddressText(address)
    ensures var r, known := IpReputationTool(ds, address), exists x :: x in ds.reputations && x.ipAddress == address;
      && (forall x :: r == Found(x) <==> x in ds.reputations && x.ipAddress == address)
      && (r == NotFound("ip-reputation", address) <==> !known && IsIdentifier(address))
      && (r.Raises? <==> !known && !IsIdentifier(address))
  {
    KnownAddress(ds, address);
    LookupExact(ds.reputations, AddressOf, address, "ip-reputation");
    if IsIdentifier(address) {
      IdentifierIsStripped(address);
    } else {
      AddressNotIdentifier(address);
    }
  }

  /** The loopback address is one: on any accepted dataset that does not list it, the tool
      raises. */
  lemma UnlistedLoopbackRaises(ds: Dataset)
    requires Integral(ds)
    ensures IsAddressText("::1")
    ensures IpReputationTool(ds, "::1").Raises? <==> forall x | x in ds.reputations :: x.ipAddress != "::1"
  {
    assert IsAddressBody("::1", 3);
    IpReputationExact(ds, "::1");
  }

  // ---- Sorted results -----------------------------------------------------------------------------------------------

  /** What results are ordered by, newest first: time, then identifier. */
  datatype Stamp = Stamp(time: Instant, id: Id)

  predicate Newer(x: Stamp, y: Stamp)
  {
    x.time > y.time || (x.time == y.time && Less(y.id, x.id))
  }

  lemma NewerTransitive(x: Stamp, y: Stamp, z: Stamp)
    requires Newer(x, y) && Newer(y, z)
    ensures Newer(x, z)
  {
    if x.time == y.time == z.time {
      LessTransitive(z.id, y.id, x.id);
    }
  }

  lemma NewerTotal(x: Stamp, y: Stamp)
    ensures Newer(x, y) || x == y || Newer(y, x)
  {
    LessTotal(x.id, y.id);
  }

  function Place<T>(x: T, xs: seq<T>, stamp: T -> Stamp): seq<T>
  {
    if xs == [] || Newer(stamp(x), stamp(xs[0])) then [x] + xs else [xs[0]] + Place(x, xs[1..], stamp)
  }

  /** `sorted(records, key=..., reverse=True)` on records with different keys. */
  function NewestFirst<T>(xs: seq<T>, stamp: T -> Stamp): seq<T>
  {
    if xs == [] then [] else Place(xs[0], NewestFirst(xs[1..], stamp), stamp)
  }

  ghost predicate Descends<T(!new)>(xs: seq<T>, stamp: T -> Stamp)
  {
    forall i, j | 0 <= i < j < |xs| :: Newer(stamp(xs[i]), stamp(xs[j]))
  }

  ghost predicate UniqueStamps<T(!new)>(xs: seq<T>, stamp: T -> Stamp)
  {
    forall i, j | 0 <= i < j < |xs| :: stamp(xs[i]) != stamp(xs[j])
  }

  lemma {:induction false} PlacePermutes<T(!new)>(x: T, xs: seq<T>, stamp: T -> Stamp)
    ensures multiset(Place(x, xs, stamp)) == multiset([x] + xs)
  {
    if xs != [] && !Newer(stamp(x), stamp(xs[0])) {
      PlacePermutes(x, xs[1..], stamp);
      assert xs == [xs[0]] + xs[1..];
    }
  }

  lemma {:induction false} PlaceDescends<T(!new)>(x: T, xs: seq<T>, stamp: T -> Stamp)
    requires Descends(xs, stamp) && forall i | 0 <= i < |xs| :: stamp(xs[i]) != stamp(x)
    ensures Descends(Place(x, xs, stamp), stamp)
  {
    if xs == [] {
    } else if Newer(stamp(x), stamp(xs[0])) {
      forall j | 1 <= j < |xs| ensures Newer(stamp(x), stamp(xs[j])) {
        NewerTransitive(stamp(x), stamp(xs[0]), stamp(xs[j]));
      }
    } else {
      var rest := Place(x, xs[1..], stamp);
      PlaceDescends(x, xs[1..], stamp);
      PlacePermutes(x, xs[1..], stamp);
      NewerTotal(stamp(x), stamp(xs[0]));
      forall j | 0 <= j < |rest| ensures Newer(stamp(xs[0]), stamp(rest[j])) {
        PermutationFacts(rest, [x] + xs[1..]);
        assert rest[j] in [x] + xs[1..];
        if rest[j] in xs[1..] {
          var k :| 0 <= k < |xs[1..]| && xs[1..][k] == rest[j];
          assert xs[k + 1] == rest[j];
        }
      }
    }
  }

  lemma {:induction false} NewestFirstSorts<T(!new)>(xs: seq<T>, stamp: T -> Stamp)
    requires UniqueStamps(xs, stamp)
    ensures multiset(NewestFirst(xs, stamp)) == multiset(xs)
    ensures Descends(NewestFirst(xs, stamp), stamp)
  {
    if xs != [] {
      var tail := NewestFirst(xs[1..], stamp);
      NewestFirstSorts(xs[1..], stamp);
      PlacePermutes(xs[0], tail, stamp);
      assert xs == [xs[0]] + xs[1..];
      PermutationFacts(tail, xs[1..]);
      forall i | 0 <= i < |tail| ensures stamp(tail[i]) != stamp(xs[0]) {
        assert tail[i] in xs[1..];
        var k :| 0 <= k < |xs[1..]| && xs[1..][k] == tail[i];
        assert xs[k + 1] == tail[i];
      }
      PlaceDescends(xs[0], tail, stamp);
    }
  }

  function Matching<T>(xs: seq<T>, keep: T -> bool): seq<T>
  {
    if xs == [] then [] else (if keep(xs[0]) then [xs[0]] else []) + Matching(xs[1..], keep)
  }

  lemma {:induction false} MatchingMembers<T(!new)>(xs: seq<T>, keep: T -> bool)
    ensures forall x :: x in Matching(xs, keep) <==> x in xs && keep(x)
  {
    if xs != [] {
      MatchingMembers(xs[1..], keep);
      assert xs == [xs[0]] + xs[1..];
    }
  }

  /** Records with unique keys have unique stamps, and so have those of them that match. */
  lemma {:induction false} MatchingUnique<T(!new)>(xs: seq<T>, keep: T -> bool, key: T -> Id, stamp: T -> Stamp)
    requires UniqueKeys(xs, key) && forall x :: stamp(x).id == key(x)
    ensures UniqueStamps(Matching(xs, keep), stamp)
  {
    if xs != [] {
      MatchingUnique(xs[1..], keep, key, stamp);
      MatchingMembers(xs[1..], keep);
      var rest := Matching(xs[1..], keep);
      forall i | 0 <= i < |rest| ensures stamp(rest[i]) != stamp(xs[0]) {
        assert rest[i] in xs[1..];
        var k :| 0 <= k < |xs[1..]| && xs[1..][k] == rest[i];
        assert key(xs[0]) != key(xs[k + 1]);
      }
    }
  }

  /** Matching records of a table with unique keys, newest first: exactly they, each once. */
  lemma MatchesSorted<T(!new)>(xs: seq<T>, keep: T -> bool, key: T -> Id, stamp: T -> Stamp)
    requires UniqueKeys(xs, key) && forall x :: stamp(x).id == key(x)
    ensures var r := NewestFirst(Matching(xs, keep), stamp);
      && multiset(r) == multiset(Matching(xs, keep))
      && (forall x :: x in r <==> x in xs && keep(x))
      && Descends(r, stamp)
  {
    var hits := Matching(xs, keep);
    MatchingMembers(xs, keep);
    MatchingUnique(xs, keep, key, stamp);
    NewestFirstSorts(hits, stamp);
    PermutationFacts(NewestFirst(hits, stamp), hits);
  }

  // ---- The windowed and sorted tools -----------------------------------------------------------------------------------

  const HOUR_US: nat := 3_600_000_000

  function SignInStamp(s: SignIn): Stamp { Stamp(s.occurredAt, s.signInId) }
  function EventStamp(e: MfaEvent): Stamp { Stamp(e.occurredAt, e.mfaEventId) }
  function AlertStamp(a: Alert): Stamp { Stamp(a.occurredAt, a.alertId) }

  /** In the window, for this user. */
  predicate Recent(ds: Dataset, u: Id, s: SignIn)
  {
    s.userId == u && ds.referenceTime - HOUR_US * ds.windowHours <= s.occurredAt <= ds.referenceTime
  }

  /** `get_recent_signins`; subtracting the window from a time too close to year 1 raises. */
  function RecentSignInsTool(ds: Dataset, u: Id): ToolOutcome<seq<SignIn>>
  {
    if FirstMatch(ds.identities, UserOf, u).None? then Missing("identity", u)
    else if ds.referenceTime < HOUR_US * ds.windowHours then Raises
    else Found(NewestFirst(Matching(ds.signIns, s => Recent(ds, u, s)), SignInStamp))
  }

  function MfaEventsTool(ds: Dataset, u: Id): ToolOutcome<seq<MfaEvent>>
  {
    if FirstMatch(ds.identities, UserOf, u).None? then Missing("identity", u)
    else Found(NewestFirst(Matching(ds.mfaEvents, (e: MfaEvent) => e.userId == u), EventStamp))
  }

  /** The alerts behind the identifiers, in order; None when one is missing. */
  function AlertsFor(alerts: seq<Alert>, ids: seq<Id>): Option<seq<Alert>>
  {
    if ids == [] then Some([])
    else
      match (LastMatch(alerts, ids[0]), AlertsFor(alerts, ids[1..]))
      case (Some(a), Some(rest)) => Some([a] + rest)
      case _ => None
  }

  /** What the dictionary of alerts by identifier holds: the last with the identifier. */
  function LastMatch(alerts: seq<Alert>, id: Id): Option<Alert>
  {
    if alerts == [] then None
    else if alerts[|alerts| - 1].alertId == id then Some(alerts[|alerts| - 1])
    else LastMatch(alerts[..|alerts| - 1], id)
  }

  function RelatedIds(ds: Dataset, u: Id): seq<Id>
  {
    match FirstMatch(ds.related, RelatedUser, u)
    case Some(mapping) => mapping.alertIds
    case None => []
  }

  /** `find_related_alerts`; an identifier that no alert has would raise. */
  function RelatedAlertsTool(ds: Dataset, u: Id): ToolOutcome<seq<Alert>>
  {
    if FirstMatch(ds.identities, UserOf, u).None? then Missing("identity", u)
    else
      match AlertsFor(ds.alerts, RelatedIds(ds, u))
      case None => Raises
      case Some(alerts) => Found(NewestFirst(alerts, AlertStamp))
  }

  /** This time is later than that, or the same with the greater identifier. */
  predicate Later(time: Instant, id: Id, otherTime: Instant, otherId: Id)
  {
    otherTime < time || (otherTime == time && Less(otherId, id))
  }

  // ---- The guarantees ----------------------------------------------------------------------------------------------------

  /** For a user a request can name, the NotFound answer is built without raising. */
  lemma UserLookup(ds: Dataset, u: Id)
    requires IsIdentifier(u)
    ensures FirstMatch(ds.identities, UserOf, u).Some? <==> Has(ds.identities, UserOf, u)
    ensures ParseIdentifier(u) == Some(u)
  {
    FirstMatchFound(ds.identities, UserOf, u);
    IdentifierIsStripped(u);
  }

  /** On an accepted dataset the sign-in tool raises exactly when the window reaches before the
      first representable time; otherwise it answers the user's sign-ins of the window, each
      once, strictly newest first. */
  lemma RecentSignInsExact(ds: Dataset, u: Id)
    requires Integral(ds) && IsIdentifier(u)
    ensures RecentSignInsTool(ds, u) == NotFound("identity", u) <==> !KnownUser(ds, u)
    ensures RecentSignInsTool(ds, u).NotFound? ==> RecentSignInsTool(ds, u).identifier == u
    ensures RecentSignInsTool(ds, u).Raises? <==>
              KnownUser(ds, u) && ds.referenceTime < 3_600_000_000 * ds.windowHours
    ensures RecentSignInsTool(ds, u).Found? ==>
              var r := RecentSignInsTool(ds, u).data;
              && (forall s :: s in r <==>
                    && s in ds.signIns && s.userId == u
                    && s.occurredAt <= ds.referenceTime <= s.occurredAt + 3_600_000_000 * ds.windowHours)
              && forall i, j | 0 <= i < j < |r| :: Later(r[i].occurredAt, r[i].signInId, r[j].occurredAt, r[j].signInId)
  {
    UserLookup(ds, u);
    KnownUserExactly(ds, u);
    MatchesSorted(ds.signIns, s => Recent(ds, u, s), SignInOf, SignInStamp);
  }

  /** A dataset the validator accepts on which the sign-in tool raises: one user, and a window
      of one hour that ends at the first representable time. */
  const EARLIEST := Dataset("v1", "1.0", 0, 1, [Identity("user", [], "")], [], [], [], [], [], [], [])

  lemma EarliestWindowRaises()
    ensures Integral(EARLIEST) && IsIdentifier("user")
    ensures RecentSignInsTool(EARLIEST, "user").Raises?
  {
    assert EARLIEST.identities[0].userId == "user" && EARLIEST.identities[0] in EARLIEST.identities;
    FirstMatchFound(EARLIEST.identities, UserOf, "user");
  }

  lemma MfaEventsExact(ds: Dataset, u: Id)
    requires Integral(ds) && IsIdentifier(u)
    ensures MfaEventsTool(ds, u) == NotFound("identity", u) <==> !KnownUser(ds, u)
    ensures MfaEventsTool(ds, u).NotFound? ==> MfaEventsTool(ds, u).identifier == u
    ensures !MfaEventsTool(ds, u).Raises?
    ensures MfaEventsTool(ds, u).Found? ==>
              var r := MfaEventsTool(ds, u).data;
              && (forall e :: e in r <==> e in ds.mfaEvents && e.userId == u)
              && forall i, j | 0 <= i < j < |r| :: Later(r[i].occurredAt, r[i].mfaEventId, r[j].occurredAt, r[j].mfaEventId)
  {
    UserLookup(ds, u);
    KnownUserExactly(ds, u);
    MatchesSorted(ds.mfaEvents, (e: MfaEvent) => e.userId == u, EventOf, EventStamp);
  }

  lemma {:induction false} LastMatchFound(alerts: seq<Alert>, id: Id)
    ensures LastMatch(alerts, id).Some? <==> Has(alerts, AlertOf, id)
    ensures LastMatch(alerts, id).Some? ==> LastMatch(alerts, id).value in alerts && LastMatch(alerts, id).value.alertId == id
  {
    if alerts != [] {
      var n := |alerts| - 1;
      LastMatchFound(alerts[..n], id);
      assert alerts == alerts[..n] + [alerts[n]];
      assert alerts[n] in alerts && (AlertOf(alerts[n]) == id ==> Has(alerts, AlertOf, id));
      if Has(alerts, AlertOf, id) && alerts[n].alertId != id {
        var a :| a in alerts && AlertOf(a) == id;
        assert a in alerts[..n];
      }
    }
  }

  lemma {:induction false} AlertsForExact(alerts: seq<Alert>, ids: seq<Id>)
    requires forall id | id in ids :: Has(alerts, AlertOf, id)
    ensures AlertsFor(alerts, ids).Some?
    ensures var r := AlertsFor(alerts, ids).value;
      |r| == |ids| && forall i | 0 <= i < |ids| :: r[i] in alerts && r[i].alertId == ids[i]
  {
    if ids != [] {
      LastMatchFound(alerts, ids[0]);
      AlertsForExact(alerts, ids[1..]);
    }
  }

  /** The mapping lists the alert for the user. */
  ghost predicate MappedTo(ds: Dataset, u: Id, id: Id)
  {
    exists m :: m in ds.related && m.userId == u && id in m.alertIds
  }

  lemma MappedExactly(ds: Dataset, u: Id)
    requires Integral(ds)
    ensures forall id :: id in RelatedIds(ds, u) <==> MappedTo(ds, u, id)
  {
    FirstMatchFound(ds.related, RelatedUser, u);
    forall id ensures id in RelatedIds(ds, u) <==> MappedTo(ds, u, id) {
      if m :| m in ds.related && m.userId == u && id in m.alertIds {
        assert Has(ds.related, RelatedUser, u);
        SameKeySame(ds.related, RelatedUser, m, FirstMatch(ds.related, RelatedUser, u).value);
      }
    }
  }

  /** The alerts behind different identifiers that all have one, newest first. */
  lemma AlertsSorted(ds: Dataset, ids: seq<Id>)
    requires KeysUnique(ds) && Distinct(ids) && forall id | id in ids :: Has(ds.alerts, AlertOf, id)
    ensures AlertsFor(ds.alerts, ids).Some?
    ensures var r := NewestFirst(AlertsFor(ds.alerts, ids).value, AlertStamp);
      && (forall a :: a in r <==> a in ds.alerts && a.alertId in ids)
      && Descends(r, AlertStamp)
  {
    AlertsForExact(ds.alerts, ids);
    var alerts := AlertsFor(ds.alerts, ids).value;
    forall i, j | 0 <= i < j < |alerts| ensures AlertStamp(alerts[i]) != AlertStamp(alerts[j]) {
      assert ids[i] != ids[j];
    }
    NewestFirstSorts(alerts, AlertStamp);
    PermutationFacts(NewestFirst(alerts, AlertStamp), alerts);
    forall a | a in ds.alerts && a.alertId in ids ensures a in alerts {
      var i :| 0 <= i < |ids| && ids[i] == a.alertId;
      SameKeySame(ds.alerts, AlertOf, a, alerts[i]);
    }
  }

  /** On an accepted dataset the related-alert tool never raises: it answers the alerts mapped to
      the user, each about the user, strictly newest first. */
  lemma RelatedAlertsExact(ds: Dataset, u: Id)
    requires Integral(ds) && IsIdentifier(u)
    ensures RelatedAlertsTool(ds, u) == NotFound("identity", u) <==> !KnownUser(ds, u)
    ensures RelatedAlertsTool(ds, u).NotFound? ==> RelatedAlertsTool(ds, u).identifier == u
    ensures !RelatedAlertsTool(ds, u).Raises?
    ensures RelatedAlertsTool(ds, u).Found? ==>
              var r := RelatedAlertsTool(ds, u).data;
              && (forall a :: a in r <==> a in ds.alerts && MappedTo(ds, u, a.alertId))
              && (forall a | a in r :: EntityReference(User, u) in a.entities)
              && forall i, j | 0 <= i < j < |r| :: Later(r[i].occurredAt, r[i].alertId, r[j].occurredAt, r[j].alertId)
  {
    UserLookup(ds, u);
    KnownUserExactly(ds, u);
    MappedExactly(ds, u);
    RelatedIdsResolve(ds, u);
    AlertsSorted(ds, RelatedIds(ds, u));
  }

  /** Every mapped alert exists. */
  lemma MappedAlertsExist(ds: Dataset, u: Id, id: Id)
    requires Integral(ds) && MappedTo(ds, u, id)
    ensures exists a :: a in ds.alerts && a.alertId == id
  {
    MappedExactly(ds, u);
    RelatedIdsResolve(ds, u);
    var a :| a in ds.alerts && AlertOf(a) == id;
  }

  lemma RelatedIdsResolve(ds: Dataset, u: Id)
    requires Integral(ds)
    ensures Distinct(RelatedIds(ds, u))
    ensures forall id | id in RelatedIds(ds, u) :: Has(ds.alerts, AlertOf, id)
    ensures forall a | a in ds.alerts && a.alertId in RelatedIds(ds, u) :: EntityReference(User, u) in a.entities
  {
    FirstMatchFound(ds.related, RelatedUser, u);
    var m := FirstMatch(ds.related, RelatedUser, u);
    if m.Some? {
      assert RelatedIntegral(ds, m.value);
      forall id | id in m.value.alertIds ensures Has(ds.alerts, AlertOf, id) {
        assert AlertAbout(ds, id, m.value.userId);
      }
      forall a | a in ds.alerts && a.alertId in m.value.alertIds ensures EntityReference(User, u) in a.entities {
        assert AlertAbout(ds, a.alertId, u);
        var b :| b in ds.alerts && b.alertId == a.alertId && MentionsUser(b, u);
        SameKeySame(ds.alerts, AlertOf, a, b);
      }
    }
  }
}
