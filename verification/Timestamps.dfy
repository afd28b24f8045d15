/** UTC timestamps, the instants they denote, and the `isoformat` text that the store keeps
    and compares (domain/_base.py, adapters/persistence/repositories.py). The text has a
    six-digit fraction or none (beyond section 5.1 of RFC 3339, which assumes one precision). */
module Timestamps {
  import opened Base
  import opened Json

  datatype Utc = Utc(
    year: nat, month: nat, day: nat, hour: nat, minute: nat, second: nat, micro: nat)

  // ---- The calendar ----------------------------------------------------------------------------

  predicate IsLeap(y: nat)
  {
    y % 4 == 0 && (y % 100 != 0 || y % 400 == 0)
  }

  function DaysInMonth(y: nat, m: nat): (d: nat)
    requires 1 <= m <= 12
    ensures 28 <= d <= 31
  {
    if m == 2 then (if IsLeap(y) then 29 else 28)
    else if m == 4 || m == 6 || m == 9 || m == 11 then 30
    else 31
  }

  function DaysBeforeMonth(y: nat, m: nat): (d: nat)
    requires 1 <= m <= 13
  {
    if m == 1 then 0 else DaysBeforeMonth(y, m - 1) + DaysInMonth(y, m - 1)
  }

  function DaysInYear(y: nat): nat
  {
    if IsLeap(y) then 366 else 365
  }

  /** Days from 0001-01-01 to the first of January of year `y`. */
  function DaysBeforeYear(y: nat): nat
    requires 1 <= y
  {
    365 * (y - 1) + (y - 1) / 4 - (y - 1) / 100 + (y - 1) / 400
  }

  predicate Valid(t: Utc)
  {
    && 1 <= t.year <= 9999 && 1 <= t.month <= 12 && 1 <= t.day <= DaysInMonth(t.year, t.month)
    && t.hour < 24 && t.minute < 60 && t.second < 60 && t.micro < 1_000_000
  }

  function DayNumber(t: Utc): nat
    requires Valid(t)
  {
    DaysBeforeYear(t.year) + DaysBeforeMonth(t.year, t.month) + t.day - 1
  }

  function Seconds(t: Utc): nat
    requires Valid(t)
  {
    (t.hour * 60 + t.minute) * 60 + t.second
  }

  /** Microseconds since 0001-01-01T00:00:00. */
  function ToInstant(t: Utc): nat
    requires Valid(t)
  {
    (DayNumber(t) * 86_400 + Seconds(t)) * 1_000_000 + t.micro
  }

  lemma YearStep(y: nat)
    requires 1 <= y
    ensures DaysBeforeYear(y + 1) == DaysBeforeYear(y) + DaysInYear(y)
  {
    QuotientsStep(y);
    DivisibleChain(y);
  }

  lemma QuotientsStep(y: nat)
    requires 1 <= y
    ensures y / 4 == (y - 1) / 4 + (if y % 4 == 0 then 1 else 0)
    ensures y / 100 == (y - 1) / 100 + (if y % 100 == 0 then 1 else 0)
    ensures y / 400 == (y - 1) / 400 + (if y % 400 == 0 then 1 else 0)
  {
  }

  lemma DivisibleChain(y: nat)
    ensures y % 400 == 0 ==> y % 100 == 0
    ensures y % 100 == 0 ==> y % 4 == 0
  {
    if y % 400 == 0 {
      MultipleOf100(y, 4 * (y / 400));
    }
    if y % 100 == 0 {
      MultipleOf4(y, 25 * (y / 100));
    }
  }

  lemma MultipleOf100(y: nat, m: nat)
    requires y == 100 * m
    ensures y % 100 == 0
  {
  }

  lemma MultipleOf4(y: nat, m: nat)
    requires y == 4 * m
    ensures y % 4 == 0
  {
  }

  lemma {:induction false} YearsGrow(y: nat, z: nat)
    requires 1 <= y < z
    ensures DaysBeforeYear(y) + DaysInYear(y) <= DaysBeforeYear(z)
    decreases z - y
  {
    YearStep(y);
    if y + 1 < z {
      YearsGrow(y + 1, z);
    }
  }

  lemma {:induction false} MonthsGrow(y: nat, m: nat, n: nat)
    requires 1 <= m < n <= 13
    ensures DaysBeforeMonth(y, m) + DaysInMonth(y, m) <= DaysBeforeMonth(y, n)
    decreases n - m
  {
    if m + 1 < n {
      MonthsGrow(y, m + 1, n);
    }
  }

  lemma MonthSums(y: nat)
    ensures var f := DaysInMonth(y, 2);
      && DaysBeforeMonth(y, 1) == 0 && DaysBeforeMonth(y, 2) == 31 && DaysBeforeMonth(y, 3) == 31 + f
      && DaysBeforeMonth(y, 4) == 62 + f && DaysBeforeMonth(y, 5) == 92 + f && DaysBeforeMonth(y, 6) == 123 + f
      && DaysBeforeMonth(y, 7) == 153 + f && DaysBeforeMonth(y, 8) == 184 + f && DaysBeforeMonth(y, 9) == 215 + f
      && DaysBeforeMonth(y, 10) == 245 + f && DaysBeforeMonth(y, 11) == 276 + f && DaysBeforeMonth(y, 12) == 306 + f
  {
    var f := DaysInMonth(y, 2);
    assert DaysBeforeMonth(y, 2) == 31;
    assert DaysBeforeMonth(y, 3) == 31 + f;
    assert DaysBeforeMonth(y, 4) == 62 + f;
    assert DaysBeforeMonth(y, 5) == 92 + f;
    assert DaysBeforeMonth(y, 6) == 123 + f;
    assert DaysBeforeMonth(y, 7) == 153 + f;
    assert DaysBeforeMonth(y, 8) == 184 + f;
    assert DaysBeforeMonth(y, 9) == 215 + f;
    assert DaysBeforeMonth(y, 10) == 245 + f;
    assert DaysBeforeMonth(y, 11) == 276 + f;
  }

  lemma YearHasTwelveMonths(y: nat)
    ensures DaysBeforeMonth(y, 13) == DaysInYear(y)
  {
    MonthSums(y);
  }

  /** The days before a month by the rule of thirty and a fraction, counted from March. */
  lemma MonthFormula(y: nat, m: nat)
    requires 1 <= m <= 12
    ensures DaysBeforeMonth(y, m) ==
      if m <= 2 then 31 * (m - 1) else (153 * (m - 3) + 2) / 5 + 59 + (if IsLeap(y) then 1 else 0)
  {
    MonthSums(y);
  }

  // ---- Chronological order is the order of the fields --------------------------------------------

  function Fields(t: Utc): seq<nat>
  {
    [t.year, t.month, t.day, t.hour, t.minute, t.second]
  }

  predicate FieldsLess(a: seq<nat>, b: seq<nat>)
    requires |a| == |b|
  {
    a != [] && (a[0] < b[0] || (a[0] == b[0] && FieldsLess(a[1..], b[1..])))
  }

  predicate Before(a: Utc, b: Utc)
  {
    FieldsLess(Fields(a), Fields(b)) || (Fields(a) == Fields(b) && a.micro < b.micro)
  }

  predicate DateLess(a: Utc, b: Utc)
  {
    a.year < b.year || (a.year == b.year && (a.month < b.month || (a.month == b.month && a.day < b.day)))
  }

  lemma DateLessDayNumber(a: Utc, b: Utc)
    requires Valid(a) && Valid(b) && DateLess(a, b)
    ensures DayNumber(a) < DayNumber(b)
  {
    MonthsGrow(a.year, a.month, 13);
    YearHasTwelveMonths(a.year);
    if a.year < b.year {
      YearsGrow(a.year, b.year);
    } else if a.month < b.month {
      MonthsGrow(a.year, a.month, b.month);
    }
  }

  lemma BeforeUnfolds(a: Utc, b: Utc)
    ensures Before(a, b) <==>
      DateLess(a, b)
      || (a.year == b.year && a.month == b.month && a.day == b.day
          && (a.hour < b.hour || (a.hour == b.hour
          && (a.minute < b.minute || (a.minute == b.minute
          && (a.second < b.second || (a.second == b.second && a.micro < b.micro)))))))
  {
    var x, y := Fields(a), Fields(b);
    var x1, y1 := [a.month, a.day, a.hour, a.minute, a.second], [b.month, b.day, b.hour, b.minute, b.second];
    var x2, y2 := [a.day, a.hour, a.minute, a.second], [b.day, b.hour, b.minute, b.second];
    var x3, y3 := [a.hour, a.minute, a.second], [b.hour, b.minute, b.second];
    var x4, y4 := [a.minute, a.second], [b.minute, b.second];
    var x5, y5 := [a.second], [b.second];
    assert x[1..] == x1 && y[1..] == y1 && x1[1..] == x2 && y1[1..] == y2;
    assert x2[1..] == x3 && y2[1..] == y3 && x3[1..] == x4 && y3[1..] == y4;
    assert x4[1..] == x5 && y4[1..] == y5 && x5[1..] == [] && y5[1..] == [];
    assert FieldsLess(x5, y5) <==> a.second < b.second;
    assert FieldsLess(x4, y4) <==> a.minute < b.minute || (a.minute == b.minute && FieldsLess(x5, y5));
    assert FieldsLess(x3, y3) <==> a.hour < b.hour || (a.hour == b.hour && FieldsLess(x4, y4));
    assert FieldsLess(x2, y2) <==> a.day < b.day || (a.day == b.day && FieldsLess(x3, y3));
    assert FieldsLess(x1, y1) <==> a.month < b.month || (a.month == b.month && FieldsLess(x2, y2));
    assert FieldsLess(x, y) <==> a.year < b.year || (a.year == b.year && FieldsLess(x1, y1));
    assert x == y <==> x[0] == y[0] && x[1] == y[1] && x[2] == y[2] && x[3] == y[3] && x[4] == y[4] && x[5] == y[5];
  }

  lemma BeforeIsEarlier(a: Utc, b: Utc)
    requires Valid(a) && Valid(b) && Before(a, b)
    ensures ToInstant(a) < ToInstant(b)
  {
    BeforeUnfolds(a, b);
    if DateLess(a, b) {
      DateLessDayNumber(a, b);
    }
  }

  lemma BeforeTotal(a: Utc, b: Utc)
    ensures Before(a, b) || a == b || Before(b, a)
  {
    BeforeUnfolds(a, b);
    BeforeUnfolds(b, a);
  }

  /** Chronological order, by instants, is lexicographic order of the fields. */
  lemma ChronologicalOrder(a: Utc, b: Utc)
    requires Valid(a) && Valid(b)
    ensures ToInstant(a) < ToInstant(b) <==> Before(a, b)
    ensures ToInstant(a) == ToInstant(b) <==> a == b
  {
    BeforeTotal(a, b);
    if Before(a, b) {
      BeforeIsEarlier(a, b);
    } else if Before(b, a) {
      BeforeIsEarlier(b, a);
    }
  }

  // ---- The stored text ------------------------------------------------------------------------

  function Digit(d: nat): char
    requires d < 10
  {
    ('0' as int + d) as char
  }

  function Pad(width: nat, n: nat): (s: string)
    ensures |s| == width
  {
    if width == 0 then "" else Pad(width - 1, n / 10) + [Digit(n % 10)]
  }

  function Pow10(k: nat): nat
  {
    if k == 0 then 1 else 10 * Pow10(k - 1)
  }

  datatype Slot = Slot(width: nat, separator: string)

  const LAYOUT := [Slot(4, "-"), Slot(2, "-"), Slot(2, "T"), Slot(2, ":"), Slot(2, ":"), Slot(2, "")]

  function FieldsText(layout: seq<Slot>, fields: seq<nat>): string
    requires |layout| == |fields|
  {
    if layout == [] then ""
    else Pad(layout[0].width, fields[0]) + (layout[0].separator + FieldsText(layout[1..], fields[1..]))
  }

  /** The fraction, absent when the microsecond is zero, and the UTC offset. */
  function Suffix(micro: nat): string
  {
    if micro == 0 then "+00:00" else "." + (Pad(6, micro) + "+00:00")
  }

  /** `datetime.isoformat()` of a UTC timestamp. */
  function IsoText(t: Utc): string
  {
    FieldsText(LAYOUT, Fields(t)) + Suffix(t.micro)
  }

  lemma {:induction false} PadOrder(width: nat, a: nat, b: nat)
    requires a < Pow10(width) && b < Pow10(width)
    ensures Less(Pad(width, a), Pad(width, b)) <==> a < b
    ensures Pad(width, a) == Pad(width, b) <==> a == b
    decreases width
  {
    if width > 0 {
      PadOrder(width - 1, a / 10, b / 10);
      LessOfConcat(Pad(width - 1, a / 10), Pad(width - 1, b / 10), [Digit(a % 10)], [Digit(b % 10)]);
      assert Less([Digit(a % 10)], [Digit(b % 10)]) <==> a % 10 < b % 10;
      var x, y := Pad(width, a), Pad(width, b);
      assert x[..width - 1] == Pad(width - 1, a / 10) && y[..width - 1] == Pad(width - 1, b / 10);
      assert x == y ==> x[width - 1] == y[width - 1];
    }
  }

  ghost predicate Fits(layout: seq<Slot>, fields: seq<nat>)
  {
    |layout| == |fields| && forall i | 0 <= i < |layout| :: fields[i] < Pow10(layout[i].width)
  }

  lemma {:induction false} FieldsTextOrder(layout: seq<Slot>, a: seq<nat>, b: seq<nat>, u: string, v: string)
    requires Fits(layout, a) && Fits(layout, b)
    ensures Less(FieldsText(layout, a) + u, FieldsText(layout, b) + v) <==>
      FieldsLess(a, b) || (a == b && Less(u, v))
    decreases |layout|
  {
    if layout == [] {
      assert "" + u == u && "" + v == v;
    } else {
      var p, q := Pad(layout[0].width, a[0]), Pad(layout[0].width, b[0]);
      var s := layout[0].separator;
      var x, y := FieldsText(layout[1..], a[1..]), FieldsText(layout[1..], b[1..]);
      Regroup(p, s, x, u);
      Regroup(q, s, y, v);
      LessOfConcat(p, q, s + (x + u), s + (y + v));
      LessOfConcat(s, s, x + u, y + v);
      LessIrreflexive(s);
      PadOrder(layout[0].width, a[0], b[0]);
      FieldsTextOrder(layout[1..], a[1..], b[1..], u, v);
      HeadAndTail(a, b);
    }
  }

  lemma HeadAndTail(a: seq<nat>, b: seq<nat>)
    requires a != [] && b != []
    ensures a == b <==> a[0] == b[0] && a[1..] == b[1..]
  {
    assert a == [a[0]] + a[1..] && b == [b[0]] + b[1..];
  }

  lemma Regroup(p: string, s: string, x: string, u: string)
    ensures (p + (s + x)) + u == p + (s + (x + u))
  {
  }

  lemma SuffixOrder(m: nat, n: nat)
    requires m < 1_000_000 && n < 1_000_000
    ensures Less(Suffix(m), Suffix(n)) <==> m < n
  {
    assert '+' < '.';
    if m == 0 || n == 0 {
      if m == 0 && n == 0 {
        LessIrreflexive("+00:00");
      }
    } else {
      PowersOfTen();
      LessOfConcat(".", ".", Pad(6, m) + "+00:00", Pad(6, n) + "+00:00");
      LessIrreflexive(".");
      LessOfConcat(Pad(6, m), Pad(6, n), "+00:00", "+00:00");
      LessIrreflexive("+00:00");
      PadOrder(6, m, n);
    }
  }

  lemma PowersOfTen()
    ensures Pow10(2) == 100 && Pow10(4) == 10_000 && Pow10(6) == 1_000_000
  {
    assert Pow10(1) == 10 * Pow10(0);
    assert Pow10(3) == 10 * Pow10(2);
    assert Pow10(5) == 10 * Pow10(4);
  }

  /** Stored texts compare as the times they denote, with or without a fraction. */
  lemma TextOrderIsChronological(a: Utc, b: Utc)
    requires Valid(a) && Valid(b)
    ensures Less(IsoText(a), IsoText(b)) <==> ToInstant(a) < ToInstant(b)
  {
    PowersOfTen();
    FieldsTextOrder(LAYOUT, Fields(a), Fields(b), Suffix(a.micro), Suffix(b.micro));
    SuffixOrder(a.micro, b.micro);
    ChronologicalOrder(a, b);
  }

  /** The text is these digits and denotes this number. */
  predicate Denotes(text: string, width: nat, n: nat)
  {
    |text| == width && (forall i | 0 <= i < |text| :: IsDigit(text[i])) && NumberOf(text) == n
  }

  lemma {:induction false} PadDenotes(width: nat, n: nat)
    requires n < Pow10(width)
    ensures Denotes(Pad(width, n), width, n)
  {
    if width > 0 {
      PadDenotes(width - 1, n / 10);
      var t := Pad(width, n);
      assert t[..width - 1] == Pad(width - 1, n / 10);
      assert t[width - 1] == Digit(n % 10);
    }
  }

  /** The date. */
  function DateText(t: Utc): string
  {
    Pad(4, t.year) + ("-" + (Pad(2, t.month) + ("-" + Pad(2, t.day))))
  }

  /** The date and the time of day, from the layout. */
  lemma LayoutText(t: Utc)
    ensures FieldsText(LAYOUT, Fields(t)) == DateText(t) + ("T" + ClockText(t))
  {
    var f := Fields(t);
    var l1, f1 := LAYOUT[1..], f[1..];
    var l2, f2 := l1[1..], f1[1..];
    assert l2[1..] == [Slot(2, ":"), Slot(2, ":"), Slot(2, "")] && f2[1..] == [t.hour, t.minute, t.second];
    assert FieldsText(l2, f2) == Pad(2, t.day) + ("T" + ClockText(t));
    assert FieldsText(l1, f1) == Pad(2, t.month) + ("-" + FieldsText(l2, f2));
    Regroup(Pad(2, t.month), "-", Pad(2, t.day), "T" + ClockText(t));
    Regroup(Pad(4, t.year), "-", Pad(2, t.month) + ("-" + Pad(2, t.day)), "T" + ClockText(t));
  }

  lemma DateReads(t: Utc)
    requires Valid(t)
    ensures var d := DateText(t);
      && |d| == 10 && d[4] == '-' && d[7] == '-'
      && Denotes(d[..4], 4, t.year) && Denotes(d[5..7], 2, t.month) && Denotes(d[8..], 2, t.day)
  {
    PowersOfTen();
    PadDenotes(4, t.year);
    PadDenotes(2, t.month);
    PadDenotes(2, t.day);
    var d := DateText(t);
    assert d[..4] == Pad(4, t.year) && d[5..7] == Pad(2, t.month) && d[8..] == Pad(2, t.day);
  }

  /** The time of day. */
  function ClockText(t: Utc): string
  {
    FieldsText([Slot(2, ":"), Slot(2, ":"), Slot(2, "")], [t.hour, t.minute, t.second])
  }

  lemma ClockReads(t: Utc)
    requires Valid(t)
    ensures var c := ClockText(t);
      && |c| == 8 && c[2] == ':' && c[5] == ':'
      && Denotes(c[..2], 2, t.hour) && Denotes(c[3..5], 2, t.minute) && Denotes(c[6..], 2, t.second)
  {
    var a, b := [Slot(2, ":"), Slot(2, ":"), Slot(2, "")], [t.hour, t.minute, t.second];
    assert a[1..] == [Slot(2, ":"), Slot(2, "")] && b[1..] == [t.minute, t.second];
    assert a[1..][1..] == [Slot(2, "")] && b[1..][1..] == [t.second];
    assert [Slot(2, "")][1..] == [] && [t.second][1..] == [];
    assert FieldsText([Slot(2, "")], [t.second]) == Pad(2, t.second);
    assert FieldsText(a[1..], b[1..]) == Pad(2, t.minute) + (":" + Pad(2, t.second));
    var c := ClockText(t);
    assert c == Pad(2, t.hour) + (":" + (Pad(2, t.minute) + (":" + Pad(2, t.second))));
    PowersOfTen();
    PadDenotes(2, t.hour);
    PadDenotes(2, t.minute);
    PadDenotes(2, t.second);
    assert c[..2] == Pad(2, t.hour) && c[3..5] == Pad(2, t.minute) && c[6..] == Pad(2, t.second);
  }

  /** The text reads back: year, month, day, hour, minute, second and, unless it is zero, the
      microsecond, each at its place, in the extended format of section 5.6 of RFC 3339. */
  lemma IsoTextReads(t: Utc)
    requires Valid(t)
    ensures var x := IsoText(t);
      && |x| == (if t.micro == 0 then 25 else 32)
      && x[4] == '-' && x[7] == '-' && x[10] == 'T' && x[13] == ':' && x[16] == ':'
      && Denotes(x[..4], 4, t.year) && Denotes(x[5..7], 2, t.month) && Denotes(x[8..10], 2, t.day)
      && Denotes(x[11..13], 2, t.hour) && Denotes(x[14..16], 2, t.minute) && Denotes(x[17..19], 2, t.second)
      && (t.micro != 0 ==> x[19] == '.' && Denotes(x[20..26], 6, t.micro))
      && x[|x| - 6..] == "+00:00"
  {
    var x, d, c := IsoText(t), DateText(t), ClockText(t);
    LayoutText(t);
    DateReads(t);
    ClockReads(t);
    assert x[..10] == d && x[11..19] == c && x[19..] == Suffix(t.micro);
    assert x[..4] == d[..4] && x[5..7] == d[5..7] && x[8..10] == d[8..];
    assert x[11..13] == c[..2] && x[14..16] == c[3..5] && x[17..19] == c[6..];
    SuffixReads(t.micro);
    assert t.micro != 0 ==> x[20..26] == Suffix(t.micro)[1..7];
    assert x[|x| - 6..] == Suffix(t.micro)[|Suffix(t.micro)| - 6..];
  }

  lemma SuffixReads(micro: nat)
    requires micro < 1_000_000
    ensures var s := Suffix(micro);
      && |s| == (if micro == 0 then 6 else 13) && s[|s| - 6..] == "+00:00"
      && (micro != 0 ==> s[0] == '.' && Denotes(s[1..7], 6, micro))
  {
    PowersOfTen();
    PadDenotes(6, micro);
    assert micro != 0 ==> Suffix(micro)[1..7] == Pad(6, micro);
  }

  // ---- Every instant is a timestamp -------------------------------------------------------------

  const MAX_INSTANT: nat := 315_537_897_600_000_000

  /** What the application's clock and its additions of time spans range over. */
  type Instant = x: int | 0 <= x < MAX_INSTANT witness 0

  function YearOf(day: nat, y: nat): (r: nat)
    requires 1 <= y && DaysBeforeYear(y) <= day
    ensures y <= r && DaysBeforeYear(r) <= day < DaysBeforeYear(r) + DaysInYear(r)
    decreases day - DaysBeforeYear(y)
  {
    YearStep(y);
    if day < DaysBeforeYear(y) + DaysInYear(y) then y else YearOf(day, y + 1)
  }

  function MonthOf(y: nat, day: nat, m: nat): (r: nat)
    requires 1 <= m <= 12 && DaysBeforeMonth(y, m) <= day < DaysInYear(y)
    ensures 1 <= r <= 12 && DaysBeforeMonth(y, r) <= day < DaysBeforeMonth(y, r) + DaysInMonth(y, r)
    decreases 12 - m
  {
    YearHasTwelveMonths(y);
    if day < DaysBeforeMonth(y, m) + DaysInMonth(y, m) then m else MonthOf(y, day, m + 1)
  }

  lemma LastYear(y: nat)
    requires 10_000 <= y
    ensures DaysBeforeYear(y) >= 3_652_059
  {
    assert DaysBeforeYear(10_000) == 3_652_059;
    if y > 10_000 {
      YearsGrow(10_000, y);
    }
  }

  function FromInstant(i: Instant): (t: Utc)
    ensures Valid(t) && ToInstant(t) == i
  {
    var micro, secs := i % 1_000_000, i / 1_000_000;
    var clock, day := secs % 86_400, secs / 86_400;
    var y := YearOf(day, 1);
    var m := MonthOf(y, day - DaysBeforeYear(y), 1);
    assert y <= 9999 by {
      if y >= 10_000 { LastYear(y); }
    }
    Utc(y, m, day - DaysBeforeYear(y) - DaysBeforeMonth(y, m) + 1,
        clock / 3600, clock / 60 % 60, clock % 60, micro)
  }

  /** The text a timestamp column holds. */
  function StoredText(i: Instant): string
  {
    IsoText(FromInstant(i))
  }

  lemma StoredTextOrder(i: Instant, j: Instant)
    ensures Less(StoredText(i), StoredText(j)) <==> i < j
    ensures StoredText(i) == StoredText(j) <==> i == j
  {
    TextOrderIsChronological(FromInstant(i), FromInstant(j));
    TextOrderIsChronological(FromInstant(j), FromInstant(i));
    LessIrreflexive(StoredText(i));
  }
}
