/** Entity references, the textual scope keys that stand in for them, and the copy of the
    authorized targets shown to the reasoner (domain/entities.py,
    application/orchestration_contracts.py). */
module Entities {
  import opened Base

  datatype EntityType = User | Device | IpAddress

  datatype EntityReference = EntityReference(entityType: EntityType, identifier: string)

  function TypeName(t: EntityType): string
  {
    match t
    case User => "USER"
    case Device => "DEVICE"
    case IpAddress => "IP_ADDRESS"
  }

  function TypeOfName(name: string): Option<EntityType>
  {
    if name == "USER" then Some(User)
    else if name == "DEVICE" then Some(Device)
    else if name == "IP_ADDRESS" then Some(IpAddress)
    else None
  }

  predicate IsHexDigit(c: char)
  {
    '0' <= c <= '9' || 'a' <= c <= 'f'
  }

  predicate IsAddressChar(c: char)
  {
    IsHexDigit(c) || c == '.' || c == ':'
  }

  /** The first `n` characters are an address: lower-case hexadecimal digits, dots and
      colons, at most 45, and a scope id follows if anything does. */
  predicate IsAddressBody(s: string, n: nat)
  {
    && 1 <= n <= |s| && n <= 45
    && (n == |s| || s[n] == '%')
    && (IsHexDigit(s[0]) || s[0] == ':')
    && forall i | 0 <= i < n :: IsAddressChar(s[i])
  }

  /** The normalized text of an IPv4 or IPv6 address. */
  predicate IsAddressText(s: string)
  {
    exists n | 0 <= n <= |s| :: IsAddressBody(s, n)
  }

  predicate ValidEntity(e: EntityReference)
  {
    if e.entityType.IpAddress? then IsAddressText(e.identifier) else IsIdentifier(e.identifier)
  }

  function ScopeKey(e: EntityReference): string
  {
    TypeName(e.entityType) + ":" + e.identifier
  }

  // ---- Parsing at the first colon ------------------------------------------------------------

  /** The position of the first colon, or the length when there is none. */
  function FirstColon(s: string): (n: nat)
    ensures n <= |s|
    ensures n < |s| ==> s[n] == ':'
    ensures forall i | 0 <= i < n :: s[i] != ':'
  {
    if s == "" || s[0] == ':' then 0 else 1 + FirstColon(s[1..])
  }

  /** `AuthorizedToolTarget.from_scope_key`; None is the ValueError it raises. */
  function FromScopeKey(key: string): Option<EntityReference>
  {
    var n := FirstColon(key);
    if n == |key| then None
    else
      var entityType, identifier := TypeOfName(key[..n]), ParseIdentifier(key[n + 1..]);
      if entityType.None? || identifier.None? then None
      else Some(EntityReference(entityType.value, identifier.value))
  }

  lemma FirstColonOfKey(e: EntityReference)
    ensures FirstColon(ScopeKey(e)) == |TypeName(e.entityType)|
    ensures ScopeKey(e)[..|TypeName(e.entityType)|] == TypeName(e.entityType)
    ensures ScopeKey(e)[|TypeName(e.entityType)| + 1..] == e.identifier
  {
    var k, t := ScopeKey(e), TypeName(e.entityType);
    assert k[|t|] == ':';
    assert forall i | 0 <= i < |t| :: k[i] == t[i] && t[i] != ':';
  }

  /** Scope keys are injective, colons inside identifiers included. */
  lemma ScopeKeyInjective(a: EntityReference, b: EntityReference)
    ensures ScopeKey(a) == ScopeKey(b) <==> a == b
  {
    if ScopeKey(a) == ScopeKey(b) {
      FirstColonOfKey(a);
      FirstColonOfKey(b);
      assert TypeOfName(TypeName(a.entityType)) == Some(a.entityType);
      assert TypeOfName(TypeName(b.entityType)) == Some(b.entityType);
    }
  }

  /** Parsing inverts the encoding exactly for the texts that are Identifiers. */
  lemma FromScopeKeyInverts(e: EntityReference)
    requires ValidEntity(e)
    ensures FromScopeKey(ScopeKey(e)) == (if IsIdentifier(e.identifier) then Some(e) else None)
  {
    FirstColonOfKey(e);
    if IsIdentifier(e.identifier) {
      IdentifierIsStripped(e.identifier);
    } else {
      AddressNotIdentifier(e.identifier);
    }
  }

  /** An address that is not an Identifier stays one after stripping: what pydantic strips
      from the end can only be part of a scope id, and the percent sign remains. */
  lemma AddressNotIdentifier(s: string)
    requires IsAddressText(s) && !IsIdentifier(s)
    ensures ParseIdentifier(s).None?
  {
    var n :| 0 <= n <= |s| && IsAddressBody(s, n);
    assert IsAddressChar(s[n - 1]);
    assert IsAddressChar(s[0]) && StripLeft(s) == s;
    StripRightKeepsPrefix(s, n);
    var t := StripRight(s);
    if n < |s| {
      assert !IsSpace(s[n]);
      StripRightKeepsPrefix(s, n + 1);
      assert t[n] == '%' && !IsIdentifierChar(t[n]);
    } else {
      assert t == s;
    }
  }

  lemma {:induction false} StripRightKeepsPrefix(s: string, n: nat)
    requires 1 <= n <= |s| && !IsSpace(s[n - 1])
    ensures n <= |StripRight(s)| && StripRight(s)[..n] == s[..n]
    decreases |s|
  {
    if IsSpace(s[|s| - 1]) {
      StripRightKeepsPrefix(s[..|s| - 1], n);
      assert s[..|s| - 1][..n] == s[..n];
    }
  }

  /** So a user or device key always parses, and an unscoped address parses exactly when its
      text does not begin with a colon: `::1` is the family that raises. */
  lemma FromScopeKeyTotality(e: EntityReference)
    requires ValidEntity(e)
    ensures !e.entityType.IpAddress? ==> FromScopeKey(ScopeKey(e)) == Some(e)
    ensures e.entityType.IpAddress? && '%' !in e.identifier ==>
      (FromScopeKey(ScopeKey(e)) == Some(e) <==> e.identifier[0] != ':')
    ensures e.entityType.IpAddress? && '%' in e.identifier ==> FromScopeKey(ScopeKey(e)).None?
  {
    FromScopeKeyInverts(e);
    var s := e.identifier;
    if e.entityType.IpAddress? {
      var n :| 0 <= n <= |s| && IsAddressBody(s, n);
      if '%' in s {
        var k :| 0 <= k < |s| && s[k] == '%';
        assert !IsIdentifierChar(s[k]);
      } else {
        assert n == |s|;
        forall i | 0 <= i < |s| ensures IsIdentifierChar(s[i]) {
          assert IsAddressChar(s[i]);
        }
      }
    }
  }

  lemma LoopbackKeyRaises()
    ensures ValidEntity(EntityReference(IpAddress, "::1"))
    ensures FromScopeKey(ScopeKey(EntityReference(IpAddress, "::1"))).None?
  {
    var e := EntityReference(IpAddress, "::1");
    assert IsAddressBody(e.identifier, 3);
    FromScopeKeyInverts(e);
  }

  // ---- The targets shown to the reasoner ------------------------------------------------------

  function ScopeKeys(entities: seq<EntityReference>): set<string>
  {
    set e | e in entities :: ScopeKey(e)
  }

  /** The targets parsed from the authorized keys; None when one of them raises. */
  function ShownTargets(keys: set<string>): Option<set<EntityReference>>
  {
    if exists k | k in keys :: FromScopeKey(k).None? then None
    else Some(set k | k in keys :: FromScopeKey(k).value)
  }

  /** The reasoner is shown exactly the targets whose key the gateway admits, unless some
      entity's text is not an Identifier: then building the context raises. */
  lemma ShownTargetsAreAdmitted(entities: seq<EntityReference>)
    requires forall i | 0 <= i < |entities| :: ValidEntity(entities[i])
    ensures ShownTargets(ScopeKeys(entities)).Some? <==>
      forall i | 0 <= i < |entities| :: IsIdentifier(entities[i].identifier)
    ensures ShownTargets(ScopeKeys(entities)).Some? ==>
      forall t :: t in ShownTargets(ScopeKeys(entities)).value <==> ScopeKey(t) in ScopeKeys(entities)
  {
    var keys := ScopeKeys(entities);
    forall i | 0 <= i < |entities|
      ensures ScopeKey(entities[i]) in keys
      ensures FromScopeKey(ScopeKey(entities[i])) ==
        if IsIdentifier(entities[i].identifier) then Some(entities[i]) else None
    {
      assert entities[i] in entities;
      FromScopeKeyInverts(entities[i]);
    }
    forall k | k in keys ensures exists i :: 0 <= i < |entities| && ScopeKey(entities[i]) == k {
      var e :| e in entities && ScopeKey(e) == k;
    }
    if ShownTargets(keys).Some? {
      var shown := ShownTargets(keys).value;
      forall t ensures t in shown <==> ScopeKey(t) in keys {
        if t in shown {
          var k :| k in keys && FromScopeKey(k).value == t;
          var i :| 0 <= i < |entities| && ScopeKey(entities[i]) == k;
          assert FromScopeKey(k) == Some(entities[i]);
        }
        if ScopeKey(t) in keys {
          var i :| 0 <= i < |entities| && ScopeKey(entities[i]) == ScopeKey(t);
          ScopeKeyInjective(entities[i], t);
          assert FromScopeKey(ScopeKey(t)) == Some(t);
        }
      }
    }
  }
}
