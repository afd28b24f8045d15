/** The counting identifier generator, and why its identifiers are fresh
    (application/orchestration_contracts.py:126-133). */
module Identifiers {
  import opened Base
  import opened Json
  import opened Policy

  /** `{count:04d}`: decimal digits, padded with zeros to four places. */
  function Padded(n: nat): string
  {
    if n < 10 then "000" + Digits(n)
    else if n < 100 then "00" + Digits(n)
    else if n < 1000 then "0" + Digits(n)
    else Digits(n)
  }

  function SequenceId(purpose: string, count: nat): Id
  {
    purpose + "-" + Padded(count)
  }

  lemma {:induction false} NumberOfPadding(zeros: string, s: string)
    requires forall i | 0 <= i < |zeros| :: zeros[i] == '0'
    requires forall i | 0 <= i < |s| :: IsDigit(s[i])
    ensures forall i | 0 <= i < |zeros + s| :: IsDigit((zeros + s)[i])
    ensures NumberOf(zeros + s) == NumberOf(s)
    decreases |zeros| + |s|
  {
    var t := zeros + s;
    if s != "" {
      NumberOfPadding(zeros, s[..|s| - 1]);
      assert t[..|t| - 1] == zeros + s[..|s| - 1];
    } else if zeros != "" {
      NumberOfPadding(zeros[..|zeros| - 1], s);
      assert t[..|t| - 1] == zeros[..|zeros| - 1] + s;
    }
  }

  lemma PaddedReads(n: nat)
    ensures forall i | 0 <= i < |Padded(n)| :: IsDigit(Padded(n)[i])
    ensures NumberOf(Padded(n)) == n
  {
    DigitsRead(n);
    var zeros := if n < 10 then "000" else if n < 100 then "00" else if n < 1000 then "0" else "";
    NumberOfPadding(zeros, Digits(n));
    assert Padded(n) == zeros + Digits(n);
  }

  /** The purpose, a hyphen, and the count in decimal with at least four digits and no more
      leading zeros than that takes. */
  lemma SequenceIdFormat(purpose: string, count: nat)
    ensures var id, n := SequenceId(purpose, count), |purpose| + 1;
      && |id| >= n + 4 && id[..n] == purpose + "-" && IntOf(id[n..]) == count
      && (|id| > n + 4 ==> id[n] != '0')
  {
    PaddedReads(count);
    assert SequenceId(purpose, count)[|purpose| + 1..] == Padded(count);
    if count >= 1 {
      DigitsLength(count);
    }
  }

  lemma {:induction false} DigitsLength(n: nat)
    requires n >= 1
    ensures Digits(n)[0] != '0'
    ensures n >= 1000 ==> |Digits(n)| >= 4
    ensures n < 10 ==> |Digits(n)| == 1
    ensures 10 <= n < 100 ==> |Digits(n)| == 2
    ensures 100 <= n < 1000 ==> |Digits(n)| == 3
    decreases n
  {
    if n >= 10 {
      DigitsLength(n / 10);
    }
  }

  /** A text splits at its last hyphen in one way. */
  lemma LastHyphen(p: string, x: string, q: string, y: string)
    requires p + "-" + x == q + "-" + y
    requires forall i | 0 <= i < |x| :: IsDigit(x[i])
    requires forall i | 0 <= i < |y| :: IsDigit(y[i])
    ensures p == q && x == y
  {
    var t := p + "-" + x;
    assert t[|p|] == '-' && t[|q|] == '-';
    assert forall i | |p| < i < |t| :: t[i] == x[i - |p| - 1];
    assert forall i | |q| < i < |t| :: t[i] == y[i - |q| - 1];
    assert |p| == |q|;
    assert p == t[..|p|] && q == t[..|q|] && x == t[|p| + 1..] && y == t[|q| + 1..];
  }

  /** Different purposes or counts give different identifiers, hyphens in purposes included. */
  lemma SequenceIdInjective(p: string, m: nat, q: string, n: nat)
    ensures SequenceId(p, m) == SequenceId(q, n) <==> p == q && m == n
  {
    if SequenceId(p, m) == SequenceId(q, n) {
      PaddedReads(m);
      PaddedReads(n);
      LastHyphen(p, Padded(m), q, Padded(n));
    }
  }

  /** So the action identifiers a policy draws from one generator are fresh. */
  lemma SequenceIdsFresh(purpose: string, start: nat)
    ensures Fresh((k: nat) => SequenceId(purpose, start + k))
  {
    var f := (k: nat) => SequenceId(purpose, start + k);
    forall i: nat, j: nat | i != j ensures f(i) != f(j) {
      SequenceIdInjective(purpose, start + i, purpose, start + j);
    }
  }

  class SequenceIdentifierGenerator {
    var counts: map<string, nat>

    constructor ()
      ensures counts == map[]
    {
      counts := map[];
    }

    /** The identifiers handed out so far. */
    ghost predicate Issued(id: Id)
      reads this
    {
      exists p, k | p in counts && 1 <= k <= counts[p] :: id == SequenceId(p, k)
    }

    /** Hand out an identifier that was never handed out before, and remember it. */
    method NextId(purpose: string) returns (id: Id)
      modifies this
      ensures !old(Issued(id)) && Issued(id)
      ensures forall x :: Issued(x) <==> old(Issued(x)) || x == id
    {
      ghost var before := counts;
      var count := (if purpose in counts then counts[purpose] else 0) + 1;
      id := SequenceId(purpose, count);
      forall p, k | p in before && 1 <= k <= before[p] ensures SequenceId(p, k) != id {
        SequenceIdInjective(p, k, purpose, count);
      }
      counts := counts[purpose := count];
      forall x ensures Issued(x) <==> old(Issued(x)) || x == id {
        if Issued(x) {
          var p, k :| p in counts && 1 <= k <= counts[p] && x == SequenceId(p, k);
          assert (p == purpose && k == count) || (p in before && 1 <= k <= before[p]);
        }
        if old(Issued(x)) {
          var p, k :| p in before && 1 <= k <= before[p] && x == SequenceId(p, k);
          assert p in counts && 1 <= k <= counts[p];
        }
        assert purpose in counts && 1 <= count <= counts[purpose];
      }
    }
  }
}
