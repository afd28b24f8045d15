/** JSON trees, the deep freeze applied to action parameters, and the compact sorted text
    that action digests and call fingerprints are taken over (domain/actions.py,
    application/tool_gateway.py; sections 4, 5 and 7 of RFC 8259). */
module Json {
  import opened Base

  /** A JSON value. An object is the list of its members in insertion order; a float is
      the text that `json.dumps` writes for it. */
  datatype Json =
    | Null
    | Bool(flag: bool)
    | Int(number: int)
    | Float(lexeme: string)
    | Str(text: string)
    | Arr(items: seq<Json>)
    | Obj(members: seq<Member>)

  datatype Member = Member(key: string, value: Json)

  predicate IsDigit(c: char)
  {
    '0' <= c <= '9'
  }

  predicate IsFloatMark(c: char)
  {
    c == '.' || c == 'e' || c == 'N' || c == 'I'
  }

  predicate IsFloatChar(c: char)
  {
    IsDigit(c) || IsFloatMark(c) || c == '+' || c == '-'
    || c == 'a' || c == 'n' || c == 'f' || c == 'i' || c == 't' || c == 'y'
  }

  /** Float texts: a mark tells them from integers, the first character from words. */
  predicate IsFloatLexeme(t: string)
  {
    && t != "" && (IsDigit(t[0]) || t[0] == '-' || t[0] == 'N' || t[0] == 'I')
    && (forall i | 0 <= i < |t| :: IsFloatChar(t[i]))
    && exists i | 0 <= i < |t| :: IsFloatMark(t[i])
  }

  predicate DistinctKeys(ms: seq<Member>)
  {
    forall i, j | 0 <= i < j < |ms| :: ms[i].key != ms[j].key
  }

  /** What a Python tree of JSON values guarantees: float texts are float texts and a
      dictionary has no key twice. */
  predicate WellFormed(v: Json)
  {
    match v
    case Float(t) => IsFloatLexeme(t)
    case Arr(xs) => forall i | 0 <= i < |xs| :: WellFormed(xs[i])
    case Obj(ms) => DistinctKeys(ms) && forall i | 0 <= i < |ms| :: WellFormed(ms[i].value)
    case _ => true
  }

  /** Equality of trees up to the order of object members. */
  predicate Same(a: Json, b: Json)
  {
    match (a, b)
    case (Arr(x), Arr(y)) => |x| == |y| && forall i | 0 <= i < |x| :: Same(x[i], y[i])
    case (Obj(x), Obj(y)) => |x| == |y| && forall i | 0 <= i < |x| :: Matched(x[i], y)
    case (_, _) => a == b
  }

  predicate Matched(m: Member, y: seq<Member>)
  {
    exists j | 0 <= j < |y| :: m.key == y[j].key && Same(m.value, y[j].value)
  }

  /** Objects with the same distinct keys in the same places agree member by member. */
  lemma SameRecords(x: seq<Member>, y: seq<Member>)
    requires DistinctKeys(x) && |x| == |y| && forall i | 0 <= i < |x| :: x[i].key == y[i].key
    ensures Same(Obj(x), Obj(y)) <==> forall i | 0 <= i < |x| :: Same(x[i].value, y[i].value)
  {
    if forall i | 0 <= i < |x| :: Same(x[i].value, y[i].value) {
      forall i | 0 <= i < |x| ensures Matched(x[i], y) {
        assert x[i].key == y[i].key && Same(x[i].value, y[i].value);
      }
    }
    if Same(Obj(x), Obj(y)) {
      forall i | 0 <= i < |x| ensures Same(x[i].value, y[i].value) {
        assert Matched(x[i], y);
      var j :| 0 <= j < |y| && x[i].key == y[j].key && Same(x[i].value, y[j].value);
        assert x[j].key == y[j].key;
      }
    }
  }

  // ---- Sorting of members ----------------------------------------------------------------

  function Insert(m: Member, ms: seq<Member>): (r: seq<Member>)
  {
    if ms == [] || Less(m.key, ms[0].key) then [m] + ms else [ms[0]] + Insert(m, ms[1..])
  }

  function Sort(ms: seq<Member>): seq<Member>
  {
    if ms == [] then [] else Insert(ms[0], Sort(ms[1..]))
  }

  predicate Ascending(ms: seq<Member>)
  {
    forall i, j | 0 <= i < j < |ms| :: Less(ms[i].key, ms[j].key)
  }

  lemma {:induction false} InsertPermutes(m: Member, ms: seq<Member>)
    ensures multiset(Insert(m, ms)) == multiset{m} + multiset(ms)
  {
    if ms == [] || Less(m.key, ms[0].key) {
    } else {
      InsertPermutes(m, ms[1..]);
      assert ms == [ms[0]] + ms[1..];
    }
  }

  lemma {:induction false} SortIsPermutation(ms: seq<Member>)
    ensures multiset(Sort(ms)) == multiset(ms)
  {
    if ms != [] {
      SortIsPermutation(ms[1..]);
      InsertPermutes(ms[0], Sort(ms[1..]));
      assert ms == [ms[0]] + ms[1..];
    }
  }

  lemma SortPermutes(ms: seq<Member>)
    ensures |Sort(ms)| == |ms|
    ensures forall m :: m in Sort(ms) <==> m in ms
  {
    SortIsPermutation(ms);
    PermutationFacts(Sort(ms), ms);
  }

  lemma {:induction false} InsertAscends(m: Member, ms: seq<Member>)
    requires Ascending(ms) && forall i | 0 <= i < |ms| :: ms[i].key != m.key
    ensures Ascending(Insert(m, ms))
  {
    if ms == [] {
    } else if Less(m.key, ms[0].key) {
      forall j | 0 < j < |ms| ensures Less(m.key, ms[j].key) {
        LessTransitive(m.key, ms[0].key, ms[j].key);
      }
    } else {
      LessTotal(m.key, ms[0].key);
      InsertAscends(m, ms[1..]);
      InsertPermutes(m, ms[1..]);
      var rest := Insert(m, ms[1..]);
      forall j | 0 <= j < |rest| ensures Less(ms[0].key, rest[j].key) {
        assert rest[j] in multiset(rest);
        assert rest[j] == m || rest[j] in ms[1..];
      }
    }
  }

  lemma {:induction false} SortAscends(ms: seq<Member>)
    requires DistinctKeys(ms)
    ensures Ascending(Sort(ms))
  {
    if ms != [] {
      SortAscends(ms[1..]);
      SortPermutes(ms[1..]);
      var rest := Sort(ms[1..]);
      forall i | 0 <= i < |rest| ensures rest[i].key != ms[0].key {
        assert rest[i] in rest;
      }
      InsertAscends(ms[0], rest);
    }
  }

  lemma FoundLater(t: seq<Member>, k: nat, m: Member)
    requires Ascending(t) && k < |t| && m in t && Less(t[k].key, m.key)
    ensures m in t[k + 1..]
  {
    var j :| 0 <= j < |t| && t[j] == m;
    LessAsymmetric(t[k].key, m.key);
    assert k < j;
    assert t[k + 1..][j - k - 1] == m;
  }

  lemma DropAscends(s: seq<Member>, k: nat)
    requires Ascending(s) && k <= |s|
    ensures Ascending(s[k..])
  {
  }

  lemma Rejoin(s: seq<Member>, t: seq<Member>)
    requires s != [] && t != [] && s[0] == t[0] && s[1..] == t[1..]
    ensures s == t
  {
    assert s == [s[0]] + s[1..] && t == [t[0]] + t[1..];
  }

  /** A strictly ascending list embedded in another is no longer, and equal when as long. */
  lemma {:induction false} AscendingEmbedding(s: seq<Member>, t: seq<Member>)
    requires Ascending(s) && Ascending(t)
    requires forall i | 0 <= i < |s| :: s[i] in t
    ensures |s| <= |t|
    ensures |s| == |t| ==> s == t
    decreases |s|
  {
    if s != [] {
      var k :| 0 <= k < |t| && t[k] == s[0];
      var s', t' := s[1..], t[k + 1..];
      forall i | 0 <= i < |s'| ensures s'[i] in t' {
        assert s'[i] == s[i + 1];
        FoundLater(t, k, s[i + 1]);
      }
      DropAscends(s, 1);
      DropAscends(t, k + 1);
      AscendingEmbedding(s', t');
      if |s| == |t| {
        Rejoin(s, t);
      }
    }
  }

  // ---- The canonical tree ------------------------------------------------------------------

  /** The tree `json.dumps(..., sort_keys=True)` writes: members in ascending key order at
      every level. */
  function Canon(v: Json): Json
  {
    match v
    case Arr(xs) => Arr(seq(|xs|, i requires 0 <= i < |xs| => Canon(xs[i])))
    case Obj(ms) =>
      Obj(Sort(seq(|ms|, i requires 0 <= i < |ms| => Member(ms[i].key, Canon(ms[i].value)))))
    case _ => v
  }

  function CanonMembers(ms: seq<Member>): (r: seq<Member>)
  {
    seq(|ms|, i requires 0 <= i < |ms| => Member(ms[i].key, Canon(ms[i].value)))
  }

  /** Two trees have one canonical tree exactly when they differ only in member order. */
  lemma {:induction false} CanonDecidesSame(a: Json, b: Json)
    requires WellFormed(a) && WellFormed(b)
    ensures Canon(a) == Canon(b) <==> Same(a, b)
    decreases a
  {
    match (a, b)
    case (Arr(x), Arr(y)) =>
      if |x| == |y| {
        forall i | 0 <= i < |x| ensures Canon(x[i]) == Canon(y[i]) <==> Same(x[i], y[i]) {
          CanonDecidesSame(x[i], y[i]);
        }
        if Canon(a) == Canon(b) {
          forall i | 0 <= i < |x| ensures Same(x[i], y[i]) {
            assert Canon(a).items[i] == Canon(b).items[i];
          }
        }
      } else {
        assert |Canon(a).items| == |x| && |Canon(b).items| == |y|;
      }
    case (Obj(x), Obj(y)) =>
      assert Canon(a) == Obj(Sort(CanonMembers(x))) && Canon(b) == Obj(Sort(CanonMembers(y)));
      forall i, j | 0 <= i < |x| && 0 <= j < |y|
        ensures Canon(x[i].value) == Canon(y[j].value) <==> Same(x[i].value, y[j].value)
      {
        CanonDecidesSame(x[i].value, y[j].value);
      }
      if Canon(a) == Canon(b) {
        SameSortedMembers(x, y);
      } else if Same(a, b) {
        SortedMembersSame(x, y);
      }
    case (_, _) =>
  }

  ghost predicate MembersCorrespond(x: seq<Member>, y: seq<Member>)
  {
    forall i, j | 0 <= i < |x| && 0 <= j < |y| ::
      Canon(x[i].value) == Canon(y[j].value) <==> Same(x[i].value, y[j].value)
  }

  lemma SameSortedMembers(x: seq<Member>, y: seq<Member>)
    requires MembersCorrespond(x, y)
    requires Sort(CanonMembers(x)) == Sort(CanonMembers(y))
    ensures Same(Obj(x), Obj(y))
  {
    var cx, cy := CanonMembers(x), CanonMembers(y);
    SortPermutes(cx);
    SortPermutes(cy);
    forall i | 0 <= i < |x| ensures Matched(x[i], y) {
      assert cx[i] in cx;
      var j :| 0 <= j < |cy| && cy[j] == cx[i];
      assert x[i].key == y[j].key && Same(x[i].value, y[j].value);
    }
  }

  lemma SortedMembersSame(x: seq<Member>, y: seq<Member>)
    requires DistinctKeys(x) && DistinctKeys(y) && MembersCorrespond(x, y)
    requires Same(Obj(x), Obj(y))
    ensures Sort(CanonMembers(x)) == Sort(CanonMembers(y))
  {
    var cx, cy := CanonMembers(x), CanonMembers(y);
    SortPermutes(cx);
    SortPermutes(cy);
    SortAscends(cx);
    SortAscends(cy);
    forall i | 0 <= i < |x| ensures cx[i] in cy {
      assert Matched(x[i], y);
      var j :| 0 <= j < |y| && x[i].key == y[j].key && Same(x[i].value, y[j].value);
      assert cx[i] == cy[j];
    }
    forall k | 0 <= k < |Sort(cx)| ensures Sort(cx)[k] in Sort(cy) {
      assert Sort(cx)[k] in Sort(cx);
    }
    AscendingEmbedding(Sort(cx), Sort(cy));
  }

  lemma {:induction false} CanonWellFormed(v: Json)
    requires WellFormed(v)
    ensures WellFormed(Canon(v))
  {
    match v
    case Arr(xs) =>
      forall i | 0 <= i < |xs| ensures WellFormed(Canon(xs[i])) {
        CanonWellFormed(xs[i]);
      }
    case Obj(ms) =>
      var cm := CanonMembers(ms);
      assert Canon(v) == Obj(Sort(cm));
      forall i | 0 <= i < |ms| ensures WellFormed(Canon(ms[i].value)) {
        CanonWellFormed(ms[i].value);
      }
      SortPermutes(cm);
      SortAscends(cm);
      var s := Sort(cm);
      forall i, j | 0 <= i < j < |s| ensures s[i].key != s[j].key {
        LessAsymmetric(s[i].key, s[j].key);
      }
      forall i | 0 <= i < |s| ensures WellFormed(s[i].value) {
        assert s[i] in s && s[i] in cm;
      }
    case _ =>
  }

  /** The members of every object are in ascending key order. */
  predicate SortedTree(v: Json)
  {
    match v
    case Arr(xs) => forall i | 0 <= i < |xs| :: SortedTree(xs[i])
    case Obj(ms) => Ascending(ms) && forall i | 0 <= i < |ms| :: SortedTree(ms[i].value)
    case _ => true
  }

  /** The canonical tree is sorted at every level, and the same up to the order of members. */
  lemma {:induction false} CanonSorts(v: Json)
    requires WellFormed(v)
    ensures SortedTree(Canon(v)) && Same(Canon(v), v)
  {
    match v
    case Arr(xs) =>
      forall i | 0 <= i < |xs| ensures SortedTree(Canon(xs[i])) && Same(Canon(xs[i]), xs[i]) {
        CanonSorts(xs[i]);
      }
    case Obj(ms) =>
      var cm := CanonMembers(ms);
      assert Canon(v) == Obj(Sort(cm));
      SortPermutes(cm);
      SortAscends(cm);
      forall i | 0 <= i < |ms| ensures SortedTree(Canon(ms[i].value)) && Same(Canon(ms[i].value), ms[i].value) {
        CanonSorts(ms[i].value);
      }
      forall k | 0 <= k < |ms| ensures SortedTree(Sort(cm)[k].value) && Matched(Sort(cm)[k], ms) {
        assert Sort(cm)[k] in cm;
        var i :| 0 <= i < |cm| && cm[i] == Sort(cm)[k];
        assert Sort(cm)[k].key == ms[i].key && Same(Sort(cm)[k].value, ms[i].value);
      }
    case _ =>
  }

  // ---- Compact text ------------------------------------------------------------------------

  /** `ensure_ascii=False` (digests) and `ensure_ascii=True` (call fingerprints). */
  datatype Charset = Unicode | Ascii

  function HexDigit(k: nat): char
    requires k < 16
  {
    if k < 10 then ('0' as int + k) as char else ('a' as int + k - 10) as char
  }

  function Hex2(n: nat): string
    requires n < 0x100
  {
    [HexDigit(n / 16), HexDigit(n % 16)]
  }

  function Hex4(n: nat): string
    requires n < 0x10000
  {
    Hex2(n / 0x100) + Hex2(n % 0x100)
  }

  function UnicodeEscape(n: nat): (r: string)
    requires n < 0x10000
    ensures |r| == 6
  {
    "\\u" + Hex4(n)
  }

  predicate Control(c: char)
  {
    c as int < 0x20
  }

  /** The letter after the backslash in a two-character escape. */
  function ShortEscape(c: char): Option<char>
  {
    if c == '\"' then Some('\"')
    else if c == '\\' then Some('\\')
    else if c == '\n' then Some('n')
    else if c == '\r' then Some('r')
    else if c == '\t' then Some('t')
    else if c as int == 0x08 then Some('b')
    else if c as int == 0x0C then Some('f')
    else None
  }

  function EscapeChar(c: char, cs: Charset): (r: string)
    ensures r != "" && r[0] != '\"'
  {
    var n := c as int;
    if ShortEscape(c).Some? then ['\\', ShortEscape(c).value]
    else if Control(c) || (cs == Ascii && 0x7F <= n < 0x10000) then UnicodeEscape(n)
    else if cs == Ascii && n >= 0x10000 then UnicodeEscape(HighUnit(n)) + UnicodeEscape(LowUnit(n))
    else [c]
  }

  /** The UTF-16 surrogates of a supplementary code point. */
  function HighUnit(n: nat): (r: nat)
    requires 0x10000 <= n < 0x110000
    ensures 0xD800 <= r < 0xDC00
  {
    0xD800 + (n - 0x10000) / 0x400
  }

  function LowUnit(n: nat): (r: nat)
    requires 0x10000 <= n < 0x110000
    ensures 0xDC00 <= r < 0xE000
  {
    0xDC00 + (n - 0x10000) % 0x400
  }

  function Escape(s: string, cs: Charset): string
  {
    if s == "" then "" else EscapeChar(s[0], cs) + Escape(s[1..], cs)
  }

  function Quote(s: string, cs: Charset): string
  {
    "\"" + Escape(s, cs) + "\""
  }

  function Digits(n: nat): (r: string)
  {
    if n < 10 then [HexDigit(n)] else Digits(n / 10) + [HexDigit(n % 10)]
  }

  function IntText(n: int): string
  {
    if n < 0 then "-" + Digits(-n) else Digits(n)
  }

  /** `json.dumps` with separators "," and ":". */
  function Compact(v: Json, cs: Charset): string
    decreases v, 1
  {
    match v
    case Null => "null"
    case Bool(b) => if b then "true" else "false"
    case Int(n) => IntText(n)
    case Float(t) => t
    case Str(s) => Quote(s, cs)
    case Arr(xs) => "[" + Elements(xs, true, cs)
    case Obj(ms) => "{" + Members(ms, true, cs)
  }

  function Elements(xs: seq<Json>, first: bool, cs: Charset): string
    decreases xs, 0
  {
    if xs == [] then "]"
    else (if first then "" else ",") + Compact(xs[0], cs) + Elements(xs[1..], false, cs)
  }

  function Members(ms: seq<Member>, first: bool, cs: Charset): string
    decreases ms, 0
  {
    if ms == [] then "}"
    else
      (if first then "" else ",") + Quote(ms[0].key, cs) + ":" + Compact(ms[0].value, cs)
        + Members(ms[1..], false, cs)
  }

  /** The text that is hashed or compared: `json.dumps(..., sort_keys=True)`. */
  function CanonicalText(v: Json, cs: Charset): string
  {
    Compact(Canon(v), cs)
  }

  // ---- Reading strings back ------------------------------------------------------------

  function HexValue(c: char): int
  {
    if '0' <= c <= '9' then c as int - '0' as int else if 'a' <= c <= 'f' then c as int - 'a' as int + 10 else -1
  }

  /** The code unit that four hexadecimal digits spell. */
  function UnitOf(t: string): int
    requires |t| == 4
  {
    ((HexValue(t[0]) * 16 + HexValue(t[1])) * 16 + HexValue(t[2])) * 16 + HexValue(t[3])
  }

  predicate IsScalarValue(n: int)
  {
    0 <= n < 0xD800 || 0xE000 <= n < 0x110000
  }

  /** A character and the text after it. */
  datatype Reading<T> = Reading(value: T, rest: string)

  /** One character of a string's text, escaped or not (section 7 of RFC 8259). */
  function ReadChar(t: string): (r: Option<Reading<char>>)
    ensures r.Some? ==> |r.value.rest| < |t|
  {
    if t == "" then None
    else if t[0] != '\\' then Some(Reading(t[0], t[1..]))
    else if |t| < 2 then None
    else
      match t[1]
      case '\"' => Some(Reading('\"', t[2..]))
      case '\\' => Some(Reading('\\', t[2..]))
      case 'n' => Some(Reading('\n', t[2..]))
      case 'r' => Some(Reading('\r', t[2..]))
      case 't' => Some(Reading('\t', t[2..]))
      case 'b' => Some(Reading(8 as char, t[2..]))
      case 'f' => Some(Reading(12 as char, t[2..]))
      case 'u' => ReadUnits(t)
      case _ => None
  }

  /** A character written as one UTF-16 code unit, or as a pair of surrogates. */
  function ReadUnits(t: string): (r: Option<Reading<char>>)
    ensures r.Some? ==> |r.value.rest| < |t|
  {
    if |t| < 6 then None
    else
      var u := UnitOf(t[2..6]);
      if IsScalarValue(u) then Some(Reading(u as char, t[6..]))
      else if |t| < 12 || t[6..8] != "\\u" then None
      else
        var n := 0x10000 + (u - 0xD800) * 0x400 + (UnitOf(t[8..12]) - 0xDC00);
        if 0x10000 <= n < 0x110000 then Some(Reading(n as char, t[12..])) else None
  }

  /** A string's text after its opening quote. */
  function ReadString(t: string): Option<Reading<string>>
    decreases |t|
  {
    if t != "" && t[0] == '\"' then Some(Reading("", t[1..]))
    else
      match ReadChar(t)
      case None => None
      case Some(first) =>
        match ReadString(first.rest)
        case None => None
        case Some(more) => Some(Reading([first.value] + more.value, more.rest))
  }

  lemma UnitRead(n: nat)
    requires n < 0x10000
    ensures UnitOf(Hex4(n)) == n
    ensures UnicodeEscape(n)[..2] == "\\u" && UnicodeEscape(n)[2..] == Hex4(n)
  {
    var h, l := n / 0x100, n % 0x100;
    assert Hex4(n) == [HexDigit(h / 16), HexDigit(h % 16), HexDigit(l / 16), HexDigit(l % 16)];
    forall k | 0 <= k < 16 ensures HexValue(HexDigit(k)) == k {
    }
  }

  lemma OneUnitRead(n: nat, r: string)
    requires n < 0x10000 && IsScalarValue(n)
    ensures ReadUnits(UnicodeEscape(n) + r) == Some(Reading(n as char, r))
  {
    UnitRead(n);
    var t := UnicodeEscape(n) + r;
    assert t[2..6] == Hex4(n) && t[6..] == r;
  }

  lemma TwoUnitsRead(n: nat, r: string)
    requires 0x10000 <= n < 0x110000
    ensures ReadUnits(UnicodeEscape(HighUnit(n)) + UnicodeEscape(LowUnit(n)) + r) == Some(Reading(n as char, r))
  {
    var high, low := HighUnit(n), LowUnit(n);
    UnitRead(high);
    UnitRead(low);
    var t := UnicodeEscape(high) + UnicodeEscape(low) + r;
    assert t[2..6] == Hex4(high) && t[6..8] == UnicodeEscape(low)[..2] && t[8..12] == Hex4(low) && t[12..] == r;
  }

  lemma UnitsRead(c: char, r: string, cs: Charset)
    requires |EscapeChar(c, cs)| >= 6
    ensures ReadUnits(EscapeChar(c, cs) + r) == Some(Reading(c, r))
  {
    if |EscapeChar(c, cs)| == 6 {
      OneUnitRead(c as int, r);
    } else {
      TwoUnitsRead(c as int, r);
    }
  }

  /** Escaping a character keeps it, in either character set. */
  lemma CharRead(c: char, r: string, cs: Charset)
    ensures ReadChar(EscapeChar(c, cs) + r) == Some(Reading(c, r))
  {
    var e := EscapeChar(c, cs);
    var t := e + r;
    if |e| >= 6 {
      UnitsRead(c, r, cs);
      assert t[0] == e[0] && t[1] == e[1];
    } else {
      assert t[|e|..] == r;
    }
  }

  lemma Concatenated(a: string, b: string, c: string)
    ensures (a + b) + c == a + (b + c)
  {
  }

  /** A quoted string reads back as the string, whatever follows it. */
  lemma {:induction false} StringRead(s: string, r: string, cs: Charset)
    ensures ReadString(Escape(s, cs) + ("\"" + r)) == Some(Reading(s, r))
  {
    var t := Escape(s, cs) + ("\"" + r);
    if s == "" {
      assert t == "\"" + r;
    } else {
      var e, more := EscapeChar(s[0], cs), Escape(s[1..], cs);
      Concatenated(e, more, "\"" + r);
      assert t == e + (more + ("\"" + r)) && t[0] == e[0];
      CharRead(s[0], more + ("\"" + r), cs);
      StringRead(s[1..], r, cs);
      assert s == [s[0]] + s[1..];
    }
  }

  lemma QuoteRead(s: string, r: string, cs: Charset)
    ensures var t := Quote(s, cs) + r; ReadString(t[1..]) == Some(Reading(s, r))
  {
    assert (Quote(s, cs) + r)[1..] == Escape(s, cs) + ("\"" + r);
    StringRead(s, r, cs);
  }

  lemma QuotePrefixFree(a: string, b: string, r: string, s: string, cs: Charset)
    requires Quote(a, cs) + r == Quote(b, cs) + s
    ensures a == b && r == s
  {
    QuoteRead(a, r, cs);
    QuoteRead(b, s, cs);
  }

  // ---- Numbers ----------------------------------------------------------------------------

  function NumberOf(s: string): nat
    requires forall i | 0 <= i < |s| :: IsDigit(s[i])
  {
    if s == "" then 0
    else
      assert IsDigit(s[|s| - 1]);
      NumberOf(s[..|s| - 1]) * 10 + (s[|s| - 1] as int - '0' as int)
  }

  lemma {:induction false} DigitsRead(n: nat)
    ensures Digits(n) != "" && forall i | 0 <= i < |Digits(n)| :: IsDigit(Digits(n)[i])
    ensures NumberOf(Digits(n)) == n
  {
    if n >= 10 {
      DigitsRead(n / 10);
      assert Digits(n)[..|Digits(n)| - 1] == Digits(n / 10);
    } else {
      assert Digits(n)[..0] == "";
      assert NumberOf(Digits(n)[..0]) == 0;
    }
  }

  lemma IntTextInjective(m: int, n: int)
    requires IntText(m) == IntText(n)
    ensures m == n
  {
    var a, b := if m < 0 then -m else m, if n < 0 then -n else n;
    DigitsRead(a);
    DigitsRead(b);
    assert m < 0 ==> IntText(m)[0] == '-' && IntText(m)[1..] == Digits(a);
    assert n < 0 ==> IntText(n)[0] == '-' && IntText(n)[1..] == Digits(b);
  }

  // ---- What the text of a value is -----------------------------------------------------

  /** The texts with a comma between neighbours. */
  function Joined(ts: seq<string>): string
  {
    if ts == [] then "" else if |ts| == 1 then ts[0] else Joined(ts[..|ts| - 1]) + "," + ts[|ts| - 1]
  }

  function ElementTexts(xs: seq<Json>, cs: Charset): (r: seq<string>)
    ensures |r| == |xs| && forall i | 0 <= i < |r| :: r[i] == Compact(xs[i], cs)
  {
    seq(|xs|, i requires 0 <= i < |xs| => Compact(xs[i], cs))
  }

  function MemberTexts(ms: seq<Member>, cs: Charset): (r: seq<string>)
    ensures |r| == |ms| && forall i | 0 <= i < |r| :: r[i] == Quote(ms[i].key, cs) + ":" + Compact(ms[i].value, cs)
  {
    seq(|ms|, i requires 0 <= i < |ms| => Quote(ms[i].key, cs) + ":" + Compact(ms[i].value, cs))
  }

  /** The texts, each but the first after a comma, and what closes them. */
  function Listed(ts: seq<string>, first: bool, close: string): string
  {
    if ts == [] then close else (if first then "" else ",") + ts[0] + Listed(ts[1..], false, close)
  }

  lemma JoinedNext(ts: seq<string>, t: string, rest: string)
    ensures Joined(ts) + ((if ts == [] then "" else ",") + t + rest) == Joined(ts + [t]) + rest
  {
    var all := ts + [t];
    assert all[..|all| - 1] == ts;
  }

  lemma {:induction false} ListedJoined(done: seq<string>, ts: seq<string>, close: string)
    ensures Joined(done) + Listed(ts, done == [], close) == Joined(done + ts) + close
    decreases |ts|
  {
    if ts == [] {
      assert done + ts == done;
    } else {
      JoinedNext(done, ts[0], Listed(ts[1..], false, close));
      ListedJoined(done + [ts[0]], ts[1..], close);
      assert done + [ts[0]] + ts[1..] == done + ts;
    }
  }

  lemma {:induction false} ElementsListed(xs: seq<Json>, first: bool, cs: Charset)
    ensures Elements(xs, first, cs) == Listed(ElementTexts(xs, cs), first, "]")
    decreases |xs|
  {
    if xs != [] {
      ElementsListed(xs[1..], false, cs);
      assert ElementTexts(xs, cs)[1..] == ElementTexts(xs[1..], cs);
    }
  }

  lemma {:induction false} MembersListed(ms: seq<Member>, first: bool, cs: Charset)
    ensures Members(ms, first, cs) == Listed(MemberTexts(ms, cs), first, "}")
    decreases |ms|
  {
    if ms != [] {
      MembersListed(ms[1..], false, cs);
      var ts := MemberTexts(ms, cs);
      assert ts[1..] == MemberTexts(ms[1..], cs);
      MemberRegrouped(if first then "" else ",", Quote(ms[0].key, cs), Compact(ms[0].value, cs), Members(ms[1..], false, cs));
    }
  }

  lemma MemberRegrouped(comma: string, key: string, value: string, rest: string)
    ensures comma + key + ":" + value + rest == comma + (key + ":" + value) + rest
  {
  }

  lemma ListText(ts: seq<string>, open: string, close: string)
    ensures open + Listed(ts, true, close) == open + Joined(ts) + close
  {
    ListedJoined([], ts, close);
    assert [] + ts == ts;
    assert Joined([]) + Listed(ts, true, close) == Listed(ts, true, close);
    Concatenated(open, Joined(ts), close);
  }

  /** The integer a text of digits, with a minus sign before them or not, denotes. */
  function IntOf(t: string): int
  {
    if t != "" && t[0] == '-' then -(DigitsValue(t[1..]) as int) else DigitsValue(t)
  }

  function DigitsValue(t: string): nat
  {
    if forall i | 0 <= i < |t| :: IsDigit(t[i]) then NumberOf(t) else 0
  }

  /** The text of a value by the grammar of section 2 of RFC 8259, without white space: a string
      reads back, a number denotes the number, and a container lists its texts in order. */
  lemma CompactMeaning(v: Json, cs: Charset)
    ensures var t := Compact(v, cs);
      match v
      case Null => t == "null"
      case Bool(b) => t == if b then "true" else "false"
      case Int(n) => IntOf(t) == n
      case Float(lexeme) => t == lexeme
      case Str(s) => t != "" && t[0] == '\"' && ReadString(t[1..]) == Some(Reading(s, ""))
      case Arr(xs) => t == "[" + Joined(ElementTexts(xs, cs)) + "]"
      case Obj(ms) => t == "{" + Joined(MemberTexts(ms, cs)) + "}"
  {
    var t := Compact(v, cs);
    match v
    case Int(n) =>
      DigitsRead(if n < 0 then -n else n);
      assert n < 0 ==> t[1..] == Digits(-n);
    case Str(s) =>
      StringRead(s, "", cs);
      assert t[1..] == Escape(s, cs) + ("\"" + "");
    case Arr(xs) =>
      ElementsListed(xs, true, cs);
      ListText(ElementTexts(xs, cs), "[", "]");
    case Obj(ms) =>
      MembersListed(ms, true, cs);
      ListText(MemberTexts(ms, cs), "{", "}");
    case _ =>
  }

  // ---- Scalars as tokens ------------------------------------------------------------------

  predicate IsDelimiter(c: char)
  {
    c == ',' || c == ']' || c == '}'
  }

  /** The text after a value: nothing, or a delimiter of the enclosing container. */
  ghost predicate Ends(r: string)
  {
    r == "" || IsDelimiter(r[0])
  }

  ghost predicate IsToken(t: string)
  {
    forall i | 0 <= i < |t| :: !IsDelimiter(t[i])
  }

  lemma {:induction false} TokenEnds(t: string, u: string, r: string, s: string)
    requires IsToken(t) && IsToken(u) && Ends(r) && Ends(s)
    requires t + r == u + s
    ensures t == u && r == s
    decreases |t|
  {
    var w := t + r;
    assert (t == "" ==> w == r) && (t != "" ==> w[0] == t[0]);
    assert (u == "" ==> w == s) && (u != "" ==> w[0] == u[0]);
    if t != "" && u != "" {
      assert w[1..] == t[1..] + r && w[1..] == u[1..] + s;
      TokenEnds(t[1..], u[1..], r, s);
      assert t == [t[0]] + t[1..] && u == [u[0]] + u[1..];
    }
  }

  predicate IsScalar(v: Json)
  {
    v.Null? || v.Bool? || v.Int? || v.Float?
  }

  predicate IsNumberChar(c: char)
  {
    c == '-' || IsDigit(c)
  }

  lemma IntTextChars(n: int)
    ensures IntText(n) != "" && forall i | 0 <= i < |IntText(n)| :: IsNumberChar(IntText(n)[i])
  {
    DigitsRead(if n < 0 then -n else n);
  }

  lemma ScalarText(v: Json, cs: Charset)
    requires IsScalar(v) && WellFormed(v)
    ensures Compact(v, cs) != "" && IsToken(Compact(v, cs))
    ensures var c := Compact(v, cs)[0]; c == 'n' || c == 't' || c == 'f' || c == 'N' || c == 'I' || IsNumberChar(c)
  {
    match v
    case Int(n) =>
      IntTextChars(n);
      assert Compact(v, cs) == IntText(n);
      forall i | 0 <= i < |IntText(n)| ensures !IsDelimiter(IntText(n)[i]) {
        assert IsNumberChar(IntText(n)[i]);
      }
    case Float(t) =>
      assert Compact(v, cs) == t;
      forall i | 0 <= i < |t| ensures !IsDelimiter(t[i]) {
        assert IsFloatChar(t[i]);
      }
    case _ =>
  }

  lemma ScalarTextInjective(a: Json, b: Json, cs: Charset)
    requires IsScalar(a) && IsScalar(b) && WellFormed(a) && WellFormed(b)
    requires Compact(a, cs) == Compact(b, cs)
    ensures a == b
  {
    if a.Int? && b.Int? {
      IntTextInjective(a.number, b.number);
    } else if a.Int? {
      IntTextIsNotWord(a.number, b, cs);
    } else if b.Int? {
      IntTextIsNotWord(b.number, a, cs);
    }
  }

  lemma IntTextIsNotWord(n: int, v: Json, cs: Charset)
    requires IsScalar(v) && WellFormed(v) && !v.Int?
    ensures IntText(n) != Compact(v, cs)
  {
    IntTextChars(n);
    var t := IntText(n);
    assert IsNumberChar(t[0]);
    if v.Float? {
      var i :| 0 <= i < |v.lexeme| && IsFloatMark(v.lexeme[i]);
      assert i < |t| ==> IsNumberChar(t[i]);
    }
  }

  // ---- Whole values -------------------------------------------------------------------------

  lemma SameKind(a: Json, b: Json, r: string, s: string, cs: Charset)
    requires WellFormed(a) && WellFormed(b)
    requires Compact(a, cs) + r == Compact(b, cs) + s
    ensures (a.Str? <==> b.Str?) && (a.Arr? <==> b.Arr?) && (a.Obj? <==> b.Obj?)
  {
    FirstCharacter(a, r, cs);
    FirstCharacter(b, s, cs);
  }

  lemma ScalarPrefixFree(a: Json, b: Json, r: string, s: string, cs: Charset)
    requires IsScalar(a) && IsScalar(b) && WellFormed(a) && WellFormed(b) && Ends(r) && Ends(s)
    requires Compact(a, cs) + r == Compact(b, cs) + s
    ensures a == b && r == s
  {
    ScalarText(a, cs);
    ScalarText(b, cs);
    TokenEnds(Compact(a, cs), Compact(b, cs), r, s);
    ScalarTextInjective(a, b, cs);
  }

  /** Both texts go on after their value; if they agree, the values and the rests agree. */
  lemma {:induction false} CompactPrefixFree(a: Json, b: Json, r: string, s: string, cs: Charset)
    requires WellFormed(a) && WellFormed(b) && Ends(r) && Ends(s)
    requires Compact(a, cs) + r == Compact(b, cs) + s
    ensures a == b && r == s
    decreases a, 1
  {
    SameKind(a, b, r, s, cs);
    match a
    case Str(t) => QuotePrefixFree(t, b.text, r, s, cs);
    case Arr(xs) =>
      Peel("[", Elements(xs, true, cs), r);
      Peel("[", Elements(b.items, true, cs), s);
      ElementsPrefixFree(xs, b.items, true, r, s, cs);
    case Obj(ms) =>
      Peel("{", Members(ms, true, cs), r);
      Peel("{", Members(b.members, true, cs), s);
      MembersPrefixFree(ms, b.members, true, r, s, cs);
    case _ => ScalarPrefixFree(a, b, r, s, cs);
  }

  lemma Peel(bracket: string, body: string, r: string)
    requires |bracket| == 1
    ensures (bracket + body + r)[1..] == body + r
  {
  }

  lemma FirstCharacter(v: Json, r: string, cs: Charset)
    requires WellFormed(v)
    ensures Compact(v, cs) != ""
    ensures var c := (Compact(v, cs) + r)[0];
      && (v.Str? <==> c == '\"') && (v.Arr? <==> c == '[') && (v.Obj? <==> c == '{')
      && c != ']' && c != '}'
  {
    if IsScalar(v) {
      ScalarText(v, cs);
    }
  }

  lemma {:induction false} ElementsPrefixFree(
    xs: seq<Json>, ys: seq<Json>, first: bool, r: string, s: string, cs: Charset)
    requires forall i | 0 <= i < |xs| :: WellFormed(xs[i])
    requires forall i | 0 <= i < |ys| :: WellFormed(ys[i])
    requires Elements(xs, first, cs) + r == Elements(ys, first, cs) + s
    ensures xs == ys && r == s
    decreases xs, 0
  {
    var x, y := Elements(xs, first, cs) + r, Elements(ys, first, cs) + s;
    ElementsUnfold(xs, first, r, cs);
    ElementsUnfold(ys, first, s, cs);
    assert x[0] == y[0];
    if xs == [] {
      assert r == x[1..] && s == y[1..];
    } else {
      var k := if first then 0 else 1;
      var rx, ry := Elements(xs[1..], false, cs) + r, Elements(ys[1..], false, cs) + s;
      assert Compact(xs[0], cs) + rx == x[k..] && Compact(ys[0], cs) + ry == y[k..];
      ElementsUnfold(xs[1..], false, r, cs);
      ElementsUnfold(ys[1..], false, s, cs);
      CompactPrefixFree(xs[0], ys[0], rx, ry, cs);
      ElementsPrefixFree(xs[1..], ys[1..], false, r, s, cs);
      assert xs == [xs[0]] + xs[1..] && ys == [ys[0]] + ys[1..];
    }
  }

  lemma ElementsUnfold(xs: seq<Json>, first: bool, r: string, cs: Charset)
    requires forall i | 0 <= i < |xs| :: WellFormed(xs[i])
    ensures var x := Elements(xs, first, cs) + r;
      && x != ""
      && (x[0] == ']' <==> xs == [])
      && (!first ==> Ends(x))
      && (xs == [] ==> x == "]" + r)
      && (xs != [] ==>
        x == (if first then "" else ",") + (Compact(xs[0], cs) + (Elements(xs[1..], false, cs) + r)))
  {
    if xs != [] {
      var rest := Elements(xs[1..], false, cs);
      var v := Compact(xs[0], cs);
      FirstCharacter(xs[0], rest + r, cs);
      Concatenated(v, rest, r);
      if !first {
        Concatenated(",", v, rest);
        Concatenated(",", v + rest, r);
      } else {
        assert "" + v == v && "" + (v + (rest + r)) == v + (rest + r);
      }
    }
  }

  lemma {:induction false} MembersPrefixFree(
    xs: seq<Member>, ys: seq<Member>, first: bool, r: string, s: string, cs: Charset)
    requires forall i | 0 <= i < |xs| :: WellFormed(xs[i].value)
    requires forall i | 0 <= i < |ys| :: WellFormed(ys[i].value)
    requires Members(xs, first, cs) + r == Members(ys, first, cs) + s
    ensures xs == ys && r == s
    decreases xs, 0
  {
    var x, y := Members(xs, first, cs) + r, Members(ys, first, cs) + s;
    MembersUnfold(xs, first, r, cs);
    MembersUnfold(ys, first, s, cs);
    assert x[0] == y[0];
    if xs == [] {
      assert r == x[1..] && s == y[1..];
    } else {
      var k := if first then 0 else 1;
      var rx, ry := Members(xs[1..], false, cs) + r, Members(ys[1..], false, cs) + s;
      var vx, vy := Compact(xs[0].value, cs) + rx, Compact(ys[0].value, cs) + ry;
      assert Quote(xs[0].key, cs) + (":" + vx) == x[k..] && Quote(ys[0].key, cs) + (":" + vy) == y[k..];
      QuotePrefixFree(xs[0].key, ys[0].key, ":" + vx, ":" + vy, cs);
      assert vx == (":" + vx)[1..] && vy == (":" + vy)[1..];
      MembersUnfold(xs[1..], false, r, cs);
      MembersUnfold(ys[1..], false, s, cs);
      CompactPrefixFree(xs[0].value, ys[0].value, rx, ry, cs);
      MembersPrefixFree(xs[1..], ys[1..], false, r, s, cs);
      assert xs == [xs[0]] + xs[1..] && ys == [ys[0]] + ys[1..];
    }
  }

  lemma MembersUnfold(xs: seq<Member>, first: bool, r: string, cs: Charset)
    ensures var x := Members(xs, first, cs) + r;
      && x != ""
      && (x[0] == '}' <==> xs == [])
      && (!first ==> Ends(x))
      && (xs == [] ==> x == "}" + r)
      && (xs != [] ==>
        x == (if first then "" else ",")
             + (Quote(xs[0].key, cs) + (":" + (Compact(xs[0].value, cs) + (Members(xs[1..], false, cs) + r)))))
  {
    if xs != [] {
      var rest := Members(xs[1..], false, cs);
      var k, v := Quote(xs[0].key, cs), Compact(xs[0].value, cs);
      Associate(if first then "" else ",", k, ":", v, rest, r);
      assert k[0] == '\"';
      assert first ==> "" + (k + (":" + (v + (rest + r)))) == k + (":" + (v + (rest + r)));
    }
  }

  lemma Associate(a: string, b: string, c: string, d: string, e: string, f: string)
    ensures (a + b + c + d + e) + f == a + (b + (c + (d + (e + f))))
  {
  }

  lemma CompactInjective(a: Json, b: Json, cs: Charset)
    requires WellFormed(a) && WellFormed(b)
    requires Compact(a, cs) == Compact(b, cs)
    ensures a == b
  {
    assert Compact(a, cs) + "" == Compact(b, cs) + "";
    CompactPrefixFree(a, b, "", "", cs);
  }

  /** The sorted compact text is one text per tree, up to the order of object members. */
  lemma CanonicalTextFaithful(a: Json, b: Json, cs: Charset)
    requires WellFormed(a) && WellFormed(b)
    ensures CanonicalText(a, cs) == CanonicalText(b, cs) <==> Same(a, b)
  {
    CanonDecidesSame(a, b);
    CanonWellFormed(a);
    CanonWellFormed(b);
    if CanonicalText(a, cs) == CanonicalText(b, cs) {
      CompactInjective(Canon(a), Canon(b), cs);
    }
  }
}
