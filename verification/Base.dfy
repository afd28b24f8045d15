/** Shared vocabulary: optional values, code-point order on text, and the text constraints
    that every domain model applies to its fields (domain/_base.py). */
module Base {

  datatype Option<+T> = None | Some(value: T)

  datatype Result<+T, +E> = Ok(value: T) | Err(error: E)

  type Id = string

  // ---- Code-point order ----------------------------------------------------------------

  /** Lexicographic order by code point: Python's `<` on str and SQL's binary collation. */
  predicate Less(a: string, b: string)
  {
    b != "" && (a == "" || a[0] < b[0] || (a[0] == b[0] && Less(a[1..], b[1..])))
  }

  lemma LessIrreflexive(a: string)
    ensures !Less(a, a)
  {
  }

  lemma {:induction false} LessTransitive(a: string, b: string, c: string)
    requires Less(a, b) && Less(b, c)
    ensures Less(a, c)
    decreases |a|
  {
    if a != "" && a[0] == b[0] && b[0] == c[0] {
      LessTransitive(a[1..], b[1..], c[1..]);
    }
  }

  lemma {:induction false} LessTotal(a: string, b: string)
    ensures Less(a, b) || a == b || Less(b, a)
    decreases |a|
  {
    if a != "" && b != "" && a[0] == b[0] {
      LessTotal(a[1..], b[1..]);
      if a[1..] == b[1..] {
        assert a == [a[0]] + a[1..] == [b[0]] + b[1..] == b;
      }
    }
  }

  lemma LessAsymmetric(a: string, b: string)
    requires Less(a, b)
    ensures !Less(b, a) && a != b
  {
    LessIrreflexive(a);
    if Less(b, a) {
      LessTransitive(a, b, a);
    }
  }

  /** Fixed-width leading fields decide before what follows them. */
  lemma {:induction false} LessOfConcat(x: string, y: string, u: string, v: string)
    requires |x| == |y|
    ensures Less(x + u, y + v) <==> Less(x, y) || (x == y && Less(u, v))
    decreases |x|
  {
    if x == "" {
      assert x + u == u && y + v == v;
    } else {
      assert (x + u)[1..] == x[1..] + u;
      assert (y + v)[1..] == y[1..] + v;
      LessOfConcat(x[1..], y[1..], u, v);
      if x[0] == y[0] && x[1..] == y[1..] {
        assert x == [x[0]] + x[1..] == y;
      }
    }
  }

  // ---- Stripped text -------------------------------------------------------------------

  /** The characters with the Unicode White_Space property. */
  predicate IsSpace(c: char)
  {
    var n := c as int;
    || 0x09 <= n <= 0x0D || n == 0x20 || n == 0x85 || n == 0xA0 || n == 0x1680
    || 0x2000 <= n <= 0x200A || n == 0x2028 || n == 0x2029 || n == 0x202F || n == 0x205F
    || n == 0x3000
  }

  function StripLeft(s: string): string
  {
    if s != "" && IsSpace(s[0]) then StripLeft(s[1..]) else s
  }

  function StripRight(s: string): string
  {
    if s != "" && IsSpace(s[|s| - 1]) then StripRight(s[..|s| - 1]) else s
  }

  /** `strip_whitespace=True` of every constrained string. */
  function Strip(s: string): string
  {
    StripRight(StripLeft(s))
  }

  predicate Stripped(s: string)
  {
    s == "" || (!IsSpace(s[0]) && !IsSpace(s[|s| - 1]))
  }

  lemma StripLeftEnds(s: string)
    ensures StripLeft(s) != "" ==> !IsSpace(StripLeft(s)[0])
    ensures |StripLeft(s)| <= |s|
    ensures StripLeft(s) == s <==> s == "" || !IsSpace(s[0])
  {
  }

  lemma StripRightEnds(s: string)
    ensures |StripRight(s)| <= |s|
    ensures StripRight(s) != "" ==> s[0] == StripRight(s)[0] && !IsSpace(StripRight(s)[|StripRight(s)| - 1])
    ensures StripRight(s) == s <==> s == "" || !IsSpace(s[|s| - 1])
  {
  }

  /** Stripping leaves exactly the stripped texts alone, and always yields one. */
  lemma StripFixpoint(s: string)
    ensures Stripped(Strip(s))
    ensures Strip(s) == s <==> Stripped(s)
  {
    StripLeftEnds(s);
    StripRightEnds(StripLeft(s));
  }

  predicate AllSpace(s: string)
  {
    forall i | 0 <= i < |s| :: IsSpace(s[i])
  }

  lemma {:induction false} StripLeftRemoves(s: string) returns (left: string)
    ensures AllSpace(left) && s == left + StripLeft(s)
  {
    if s != "" && IsSpace(s[0]) {
      var rest := StripLeftRemoves(s[1..]);
      left := [s[0]] + rest;
    } else {
      left := "";
    }
  }

  lemma {:induction false} StripRightRemoves(s: string) returns (right: string)
    ensures AllSpace(right) && s == StripRight(s) + right
  {
    if s != "" && IsSpace(s[|s| - 1]) {
      var rest := StripRightRemoves(s[..|s| - 1]);
      right := rest + [s[|s| - 1]];
    } else {
      right := "";
    }
  }

  /** What is stripped is white space at the two ends, all of it and nothing else. */
  lemma StripMeaning(s: string) returns (left: string, right: string)
    ensures AllSpace(left) && AllSpace(right) && s == left + Strip(s) + right && Stripped(Strip(s))
  {
    left := StripLeftRemoves(s);
    right := StripRightRemoves(StripLeft(s));
    StripFixpoint(s);
  }

  /** NonEmptyText: stripped, 1 to 4096 characters. */
  function NonEmptyText(raw: string): (r: Option<string>)
  {
    var s := Strip(raw);
    if 1 <= |s| <= 4096 then Some(s) else None
  }

  predicate IsAlphanumeric(c: char)
  {
    'A' <= c <= 'Z' || 'a' <= c <= 'z' || '0' <= c <= '9'
  }

  predicate IsIdentifierChar(c: char)
  {
    IsAlphanumeric(c) || c in "._:/-"
  }

  /** The Identifier pattern, for text that is already stripped. */
  predicate IsIdentifier(s: string)
  {
    1 <= |s| <= 128 && IsAlphanumeric(s[0]) && forall i | 0 <= i < |s| :: IsIdentifierChar(s[i])
  }

  predicate IsLetterOrDigit(n: int)
  {
    48 <= n <= 57 || 65 <= n <= 90 || 97 <= n <= 122
  }

  /** The pattern by code points: a letter or digit, then these and hyphens, dots, slashes,
      colons and underscores, at most 128 in all. */
  lemma IdentifierMeaning(s: string)
    ensures IsIdentifier(s) <==>
      && 0 < |s| < 129 && IsLetterOrDigit(s[0] as int)
      && forall i | 0 <= i < |s| ::
        var n := s[i] as int; IsLetterOrDigit(n) || n == 45 || n == 46 || n == 47 || n == 58 || n == 95
  {
    forall i | 0 <= i < |s|
      ensures var n := s[i] as int;
        IsIdentifierChar(s[i]) <==> IsLetterOrDigit(n) || n == 45 || n == 46 || n == 47 || n == 58 || n == 95
    {
    }
  }

  /** The white space that is stripped, one by one. */
  lemma SpaceCharacters(c: char)
    ensures IsSpace(c) <==>
              c in "\t\n\U{B}\U{C}\r \U{85}\U{A0}\U{1680}\U{2000}\U{2001}\U{2002}\U{2003}\U{2004}\U{2005}\U{2006}\U{2007}\U{2008}\U{2009}\U{200A}\U{2028}\U{2029}\U{202F}\U{205F}\U{3000}"
  {
  }

  function ParseIdentifier(raw: string): (r: Option<string>)
  {
    var s := Strip(raw);
    if IsIdentifier(s) then Some(s) else None
  }

  lemma IdentifierIsStripped(s: string)
    requires IsIdentifier(s)
    ensures Strip(s) == s
  {
    assert IsIdentifierChar(s[0]) && IsIdentifierChar(s[|s| - 1]);
    StripFixpoint(s);
  }

  // ---- Sequences -----------------------------------------------------------------------

  predicate Distinct<T(==)>(xs: seq<T>)
  {
    forall i, j | 0 <= i < j < |xs| :: xs[i] != xs[j]
  }

  lemma DistinctExtend<T>(xs: seq<T>, x: T)
    requires Distinct(xs) && x !in xs
    ensures Distinct(xs + [x])
  {
  }

  lemma DistinctPrefix<T>(xs: seq<T>, n: nat)
    requires Distinct(xs) && n <= |xs|
    ensures Distinct(xs[..n])
  {
  }

  lemma PermutationFacts<T>(s: seq<T>, t: seq<T>)
    requires multiset(s) == multiset(t)
    ensures |s| == |t|
    ensures forall x :: x in s <==> x in t
  {
    assert |multiset(s)| == |s| && |multiset(t)| == |t|;
    forall x ensures x in s <==> x in t {
      assert x in multiset(s) <==> x in multiset(t);
    }
  }

  /** The source's uniqueness test: `len(values) == len(set(values))`. */
  predicate SizesAgree<T(==)>(xs: seq<T>)
  {
    |set x | x in xs| == |xs|
  }

  lemma {:induction false} SizesAgreeMeansDistinct<T>(xs: seq<T>)
    ensures SizesAgree(xs) <==> Distinct(xs)
    ensures |set x | x in xs| <= |xs|
  {
    if xs != [] {
      var init, last := xs[..|xs| - 1], xs[|xs| - 1];
      SizesAgreeMeansDistinct(init);
      assert xs == init + [last];
      if last in init {
        assert (set x | x in xs) == (set x | x in init);
        var i :| 0 <= i < |init| && init[i] == last;
        assert xs[i] == xs[|xs| - 1];
      } else {
        assert (set x | x in xs) == (set x | x in init) + {last};
        if Distinct(init) {
          assert Distinct(xs);
        }
        if Distinct(xs) {
          assert forall i | 0 <= i < |init| :: init[i] == xs[i];
        }
      }
    }
  }
}
