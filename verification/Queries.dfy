/** The stale-row queries: selection by comparing stored timestamp text, and ORDER BY
    (time, identifier) (adapters/persistence/repositories.py). */
module Queries {
  import opened Base
  import opened Timestamps
  import opened Actions
  import opened Store

  // ---- Ranks --------------------------------------------------------------------------------------

  /** What a query orders a row by: a timestamp column, then a primary key. */
  datatype Rank = Rank(time: Instant, tie: Id)

  predicate RankBefore(x: Rank, y: Rank)
  {
    x.time < y.time || (x.time == y.time && Less(x.tie, y.tie))
  }

  /** The comparison the database makes, on the stored text of the times. */
  predicate TextBefore(x: Rank, y: Rank)
  {
    Less(StoredText(x.time), StoredText(y.time))
    || (StoredText(x.time) == StoredText(y.time) && Less(x.tie, y.tie))
  }

  lemma TextOrdersRanks(x: Rank, y: Rank)
    ensures TextBefore(x, y) <==> RankBefore(x, y)
  {
    StoredTextOrder(x.time, y.time);
  }

  lemma RankBeforeTransitive(x: Rank, y: Rank, z: Rank)
    requires RankBefore(x, y) && RankBefore(y, z)
    ensures RankBefore(x, z)
  {
    if x.time == y.time == z.time {
      LessTransitive(x.tie, y.tie, z.tie);
    }
  }

  lemma RankBeforeDecides(x: Rank, y: Rank)
    ensures if x.tie == y.tie && x.time == y.time then !RankBefore(x, y)
            else if x.tie != y.tie then RankBefore(x, y) == !RankBefore(y, x) else true
    ensures RankBefore(x, y) ==> x.time <= y.time
  {
    LessTotal(x.tie, y.tie);
    LessIrreflexive(x.tie);
    if Less(x.tie, y.tie) {
      LessAsymmetric(x.tie, y.tie);
    }
  }

  // ---- Sorting by any strict total order ---------------------------------------------------------

  type Order = (Id, Id) -> bool

  ghost predicate TotalOn(before: Order, keys: set<Id>)
  {
    && (forall a, b, c | a in keys && b in keys && c in keys && before(a, b) && before(b, c) :: before(a, c))
    && forall a, b | a in keys && b in keys :: if a == b then !before(a, b) else before(a, b) == !before(b, a)
  }

  ghost predicate Ascending(before: Order, ids: seq<Id>)
  {
    forall i, j | 0 <= i < j < |ids| :: before(ids[i], ids[j])
  }

  /** The keys, each once, in order. */
  ghost predicate Lists(before: Order, keys: set<Id>, ids: seq<Id>)
  {
    (forall k :: k in ids <==> k in keys) && Ascending(before, ids)
  }

  function Place(before: Order, k: Id, ids: seq<Id>): seq<Id>
  {
    if ids == [] || before(k, ids[0]) then [k] + ids else [ids[0]] + Place(before, k, ids[1..])
  }

  lemma {:induction false} PlaceMembers(before: Order, k: Id, ids: seq<Id>)
    ensures forall x :: x in Place(before, k, ids) <==> x == k || x in ids
  {
    if ids != [] && !before(k, ids[0]) {
      PlaceMembers(before, k, ids[1..]);
    }
  }

  lemma {:induction false} PlaceAscends(before: Order, keys: set<Id>, k: Id, ids: seq<Id>)
    requires TotalOn(before, keys) && k in keys && k !in ids && Ascending(before, ids)
    requires forall x | x in ids :: x in keys
    ensures Ascending(before, Place(before, k, ids))
  {
    if ids != [] {
      if before(k, ids[0]) {
        forall j | 1 <= j < |ids| ensures before(k, ids[j]) {
          assert ids[0] in keys && ids[j] in keys && before(ids[0], ids[j]);
        }
      } else {
        var rest := Place(before, k, ids[1..]);
        assert ids[0] in keys && before(ids[0], k);
        PlaceAscends(before, keys, k, ids[1..]);
        PlaceMembers(before, k, ids[1..]);
        forall j | 0 <= j < |rest| ensures before(ids[0], rest[j]) {
          assert rest[j] in rest;
          if rest[j] != k {
            var m :| 0 <= m < |ids[1..]| && ids[1..][m] == rest[j];
            assert ids[m + 1] == rest[j];
          }
        }
      }
    }
  }

  lemma FirstIsLeast(before: Order, ids: seq<Id>, i: nat)
    requires Ascending(before, ids) && i < |ids|
    ensures ids[0] == ids[i] || before(ids[0], ids[i])
  {
    assert 0 < i ==> before(ids[0], ids[i]);
  }

  lemma ListsHead(before: Order, keys: set<Id>, xs: seq<Id>, ys: seq<Id>)
    requires TotalOn(before, keys) && Lists(before, keys, xs) && Lists(before, keys, ys) && xs != []
    ensures ys != [] && xs[0] == ys[0]
  {
    assert xs[0] in keys;
    assert ys != [];
    var i :| 0 <= i < |ys| && ys[i] == xs[0];
    assert ys[0] in keys;
    var j :| 0 <= j < |xs| && xs[j] == ys[0];
    FirstIsLeast(before, ys, i);
    FirstIsLeast(before, xs, j);
  }

  lemma ListsTail(before: Order, keys: set<Id>, xs: seq<Id>)
    requires TotalOn(before, keys) && Lists(before, keys, xs) && xs != []
    ensures Lists(before, keys - {xs[0]}, xs[1..])
  {
    assert xs[0] in keys;
    forall k ensures k in xs[1..] <==> k in keys && k != xs[0] {
      if k in keys && k != xs[0] {
        var i :| 0 <= i < |xs| && xs[i] == k;
        assert xs[1..][i - 1] == k;
      }
      if k in xs[1..] {
        var i :| 0 <= i < |xs[1..]| && xs[1..][i] == k;
        assert xs[i + 1] == k && before(xs[0], xs[i + 1]);
      }
    }
  }

  /** The answer is determined by the rows selected. */
  lemma {:induction false} ListingUnique(before: Order, keys: set<Id>, xs: seq<Id>, ys: seq<Id>)
    requires TotalOn(before, keys) && Lists(before, keys, xs) && Lists(before, keys, ys)
    ensures xs == ys
    decreases |xs|
  {
    if xs != [] {
      ListsHead(before, keys, xs, ys);
      ListsTail(before, keys, xs);
      ListsTail(before, keys, ys);
      ListingUnique(before, keys - {xs[0]}, xs[1..], ys[1..]);
      assert xs == [xs[0]] + xs[1..] && ys == [ys[0]] + ys[1..];
    } else if ys != [] {
      ListsHead(before, keys, ys, xs);
    }
  }

  /** There is such a listing for every set of rows. */
  lemma {:induction false} ListingExists(before: Order, keys: set<Id>) returns (ids: seq<Id>)
    requires TotalOn(before, keys)
    ensures Lists(before, keys, ids)
    decreases keys
  {
    if keys == {} {
      ids := [];
    } else {
      var k :| k in keys;
      var rest := ListingExists(before, keys - {k});
      PlaceMembers(before, k, rest);
      PlaceAscends(before, keys, k, rest);
      ids := Place(before, k, rest);
    }
  }

  method OrderRows(before: Order, keys: set<Id>) returns (ids: seq<Id>)
    requires TotalOn(before, keys)
    ensures Lists(before, keys, ids)
  {
    ids := [];
    var rest := keys;
    while rest != {}
      invariant rest <= keys
      invariant forall k :: k in ids <==> k in keys && k !in rest
      invariant Ascending(before, ids)
      decreases rest
    {
      var k :| k in rest;
      PlaceMembers(before, k, ids);
      PlaceAscends(before, keys, k, ids);
      ids := Place(before, k, ids);
      rest := rest - {k};
    }
  }

  // ---- The queries, in terms of time -------------------------------------------------------------------

  predicate OverdueRun(s: Store, e: Id, cutoff: int)
  {
    e in s.executions && s.executions[e].state == Running && s.executions[e].updatedAt < cutoff
  }

  predicate OverdueAction(s: Store, a: Id, cutoff: int)
  {
    a in s.actionExecutions && s.actionExecutions[a].state == Executing && s.actionExecutions[a].startedAt < cutoff
  }

  function OverdueRuns(s: Store, cutoff: int): set<Id>
  {
    set e | e in s.executions && OverdueRun(s, e, cutoff)
  }

  function OverdueActions(s: Store, cutoff: int): set<Id>
  {
    set a | a in s.actionExecutions && OverdueAction(s, a, cutoff)
  }

  function RunRank(s: Store, e: Id): Rank
    requires e in s.executions
  {
    Rank(s.executions[e].updatedAt, e)
  }

  function ActionRank(s: Store, a: Id): Rank
    requires a in s.actionExecutions
  {
    Rank(s.actionExecutions[a].startedAt, s.actionExecutions[a].actionExecutionId)
  }

  function RunOrder(s: Store): Order
  {
    (a, b) => a in s.executions && b in s.executions && RankBefore(RunRank(s, a), RunRank(s, b))
  }

  function ActionOrder(s: Store): Order
  {
    (a, b) => a in s.actionExecutions && b in s.actionExecutions && RankBefore(ActionRank(s, a), ActionRank(s, b))
  }

  /** `ids` lists the overdue rows in order of time. */
  ghost predicate StaleRuns(s: Store, cutoff: Instant, ids: seq<Id>)
  {
    Lists(RunOrder(s), OverdueRuns(s, cutoff), ids)
  }

  ghost predicate StaleActions(s: Store, cutoff: Instant, ids: seq<Id>)
  {
    Lists(ActionOrder(s), OverdueActions(s, cutoff), ids)
  }

  // ---- WHERE and ORDER BY on stored text -----------------------------------------------------------------

  /** `list_running_before` selects the RUNNING rows whose stored text is below the cutoff's. */
  function RunningBefore(s: Store, cutoff: Instant): set<Id>
  {
    set e | e in s.executions && s.executions[e].state == Running
      && Less(StoredText(s.executions[e].updatedAt), StoredText(cutoff))
  }

  /** `list_executing_before`, by action. */
  function ExecutingBefore(s: Store, cutoff: Instant): set<Id>
  {
    set a | a in s.actionExecutions && s.actionExecutions[a].state == Executing
      && Less(StoredText(s.actionExecutions[a].startedAt), StoredText(cutoff))
  }

  function RunTextOrder(s: Store): Order
  {
    (a, b) => a in s.executions && b in s.executions && TextBefore(RunRank(s, a), RunRank(s, b))
  }

  function ActionTextOrder(s: Store): Order
  {
    (a, b) => a in s.actionExecutions && b in s.actionExecutions && TextBefore(ActionRank(s, a), ActionRank(s, b))
  }

  /** `ids` is what each query answers, comparing text, in its order. */
  ghost predicate RunQuery(s: Store, cutoff: Instant, ids: seq<Id>)
  {
    Lists(RunTextOrder(s), RunningBefore(s, cutoff), ids)
  }

  ghost predicate ActionQuery(s: Store, cutoff: Instant, ids: seq<Id>)
  {
    Lists(ActionTextOrder(s), ExecutingBefore(s, cutoff), ids)
  }

  /** Orders that agree everywhere list the same. */
  lemma SameListing(x: Order, y: Order, keys: set<Id>, ids: seq<Id>)
    requires forall a, b :: x(a, b) == y(a, b)
    ensures Lists(x, keys, ids) <==> Lists(y, keys, ids)
  {
  }

  lemma RunningIsOverdue(s: Store, cutoff: Instant)
    ensures RunningBefore(s, cutoff) == OverdueRuns(s, cutoff)
  {
    forall e | e in s.executions
      ensures Less(StoredText(s.executions[e].updatedAt), StoredText(cutoff)) <==> s.executions[e].updatedAt < cutoff
    {
      StoredTextOrder(s.executions[e].updatedAt, cutoff);
    }
  }

  lemma ExecutingIsOverdue(s: Store, cutoff: Instant)
    ensures ExecutingBefore(s, cutoff) == OverdueActions(s, cutoff)
  {
    forall a | a in s.actionExecutions
      ensures Less(StoredText(s.actionExecutions[a].startedAt), StoredText(cutoff))
        <==> s.actionExecutions[a].startedAt < cutoff
    {
      StoredTextOrder(s.actionExecutions[a].startedAt, cutoff);
    }
  }

  lemma RunTextOrderExact(s: Store, a: Id, b: Id)
    ensures RunTextOrder(s)(a, b) == RunOrder(s)(a, b)
  {
    if a in s.executions && b in s.executions {
      TextOrdersRanks(RunRank(s, a), RunRank(s, b));
    }
  }

  lemma ActionTextOrderExact(s: Store, a: Id, b: Id)
    ensures ActionTextOrder(s)(a, b) == ActionOrder(s)(a, b)
  {
    if a in s.actionExecutions && b in s.actionExecutions {
      TextOrdersRanks(ActionRank(s, a), ActionRank(s, b));
    }
  }

  /** The comparison of text answers exactly what a comparison of times would, row by row and
      in the same order. */
  lemma RunQueryExact(s: Store, cutoff: Instant, ids: seq<Id>)
    ensures RunQuery(s, cutoff, ids) <==> StaleRuns(s, cutoff, ids)
  {
    RunningIsOverdue(s, cutoff);
    forall a, b ensures RunTextOrder(s)(a, b) == RunOrder(s)(a, b) {
      RunTextOrderExact(s, a, b);
    }
    SameListing(RunTextOrder(s), RunOrder(s), OverdueRuns(s, cutoff), ids);
  }

  lemma ActionQueryExact(s: Store, cutoff: Instant, ids: seq<Id>)
    ensures ActionQuery(s, cutoff, ids) <==> StaleActions(s, cutoff, ids)
  {
    ExecutingIsOverdue(s, cutoff);
    forall a, b ensures ActionTextOrder(s)(a, b) == ActionOrder(s)(a, b) {
      ActionTextOrderExact(s, a, b);
    }
    SameListing(ActionTextOrder(s), ActionOrder(s), OverdueActions(s, cutoff), ids);
  }

  // ---- What the orders promise -------------------------------------------------------------------------------

  /** Both queries order their rows totally, and the order is by time, then by key. */
  lemma RunOrderTotal(s: Store)
    ensures TotalOn(RunOrder(s), s.executions.Keys)
    ensures forall a, b | a in s.executions && b in s.executions ::
              var x, y := s.executions[a].updatedAt, s.executions[b].updatedAt;
              RunOrder(s)(a, b) <==> x < y || (x == y && Less(a, b))
  {
    var before, keys := RunOrder(s), s.executions.Keys;
    forall a, b | a in keys && b in keys
      ensures if a == b then !before(a, b) else before(a, b) == !before(b, a)
    {
      RankBeforeDecides(Rank(s.executions[a].updatedAt, a), Rank(s.executions[b].updatedAt, b));
    }
    forall a, b, c | a in keys && b in keys && c in keys && before(a, b) && before(b, c) ensures before(a, c) {
      RankBeforeTransitive(Rank(s.executions[a].updatedAt, a), Rank(s.executions[b].updatedAt, b),
        Rank(s.executions[c].updatedAt, c));
    }
  }

  lemma ActionOrderTotal(s: Store)
    requires PrimaryKeysUnique(s)
    ensures TotalOn(ActionOrder(s), s.actionExecutions.Keys)
    ensures forall a, b | a in s.actionExecutions && b in s.actionExecutions ::
              var x, y := s.actionExecutions[a], s.actionExecutions[b];
              ActionOrder(s)(a, b) <==>
                x.startedAt < y.startedAt || (x.startedAt == y.startedAt && Less(x.actionExecutionId, y.actionExecutionId))
  {
    var before, rows, keys := ActionOrder(s), s.actionExecutions, s.actionExecutions.Keys;
    forall a, b | a in keys && b in keys
      ensures if a == b then !before(a, b) else before(a, b) == !before(b, a)
    {
      RankBeforeDecides(Rank(rows[a].startedAt, rows[a].actionExecutionId),
        Rank(rows[b].startedAt, rows[b].actionExecutionId));
    }
    forall a, b, c | a in keys && b in keys && c in keys && before(a, b) && before(b, c) ensures before(a, c) {
      RankBeforeTransitive(Rank(rows[a].startedAt, rows[a].actionExecutionId),
        Rank(rows[b].startedAt, rows[b].actionExecutionId), Rank(rows[c].startedAt, rows[c].actionExecutionId));
    }
  }

  lemma SameTotal(x: Order, y: Order, keys: set<Id>)
    requires TotalOn(y, keys) && forall a, b :: x(a, b) == y(a, b)
    ensures TotalOn(x, keys)
  {
  }

  lemma RunTextOrderTotal(s: Store)
    ensures TotalOn(RunTextOrder(s), s.executions.Keys)
  {
    RunOrderTotal(s);
    forall a, b ensures RunTextOrder(s)(a, b) == RunOrder(s)(a, b) {
      RunTextOrderExact(s, a, b);
    }
    SameTotal(RunTextOrder(s), RunOrder(s), s.executions.Keys);
  }

  lemma ActionTextOrderTotal(s: Store)
    requires PrimaryKeysUnique(s)
    ensures TotalOn(ActionTextOrder(s), s.actionExecutions.Keys)
  {
    ActionOrderTotal(s);
    forall a, b ensures ActionTextOrder(s)(a, b) == ActionOrder(s)(a, b) {
      ActionTextOrderExact(s, a, b);
    }
    SameTotal(ActionTextOrder(s), ActionOrder(s), s.actionExecutions.Keys);
  }

  /** The sequence names every member of the set, once. */
  ghost predicate Enumerates(ids: seq<Id>, selected: set<Id>)
  {
    (forall k :: k in ids <==> k in selected) && |ids| == |selected|
  }

  lemma AscendingOnce(before: Order, all: set<Id>, ids: seq<Id>, selected: set<Id>)
    requires TotalOn(before, all) && Ascending(before, ids) && selected <= all
    requires forall k :: k in ids <==> k in selected
    ensures Enumerates(ids, selected)
  {
    forall i, j | 0 <= i < j < |ids| ensures ids[i] != ids[j] {
      assert before(ids[i], ids[j]) && ids[i] in selected;
    }
    SizesAgreeMeansDistinct(ids);
    assert (set k | k in ids) == selected;
  }

  /** The stale-run query answers exactly the running rows updated before the cutoff. */
  lemma RunsSelected(s: Store, cutoff: Instant, ids: seq<Id>)
    requires StaleRuns(s, cutoff, ids)
    ensures Enumerates(ids, OverdueRuns(s, cutoff))
  {
    RunOrderTotal(s);
    AscendingOnce(RunOrder(s), s.executions.Keys, ids, OverdueRuns(s, cutoff));
  }

  lemma ActionsSelected(s: Store, cutoff: Instant, ids: seq<Id>)
    requires StaleActions(s, cutoff, ids) && PrimaryKeysUnique(s)
    ensures Enumerates(ids, OverdueActions(s, cutoff))
  {
    ActionOrderTotal(s);
    AscendingOnce(ActionOrder(s), s.actionExecutions.Keys, ids, OverdueActions(s, cutoff));
  }

  ghost predicate OldestRunFirst(s: Store, ids: seq<Id>)
  {
    forall i, j | 0 <= i < j < |ids| ::
      ids[i] in s.executions && ids[j] in s.executions
      && s.executions[ids[i]].updatedAt <= s.executions[ids[j]].updatedAt
  }

  ghost predicate OldestActionFirst(s: Store, ids: seq<Id>)
  {
    forall i, j | 0 <= i < j < |ids| ::
      ids[i] in s.actionExecutions && ids[j] in s.actionExecutions
      && s.actionExecutions[ids[i]].startedAt <= s.actionExecutions[ids[j]].startedAt
  }

  lemma OldestRunFirstByOrder(s: Store, ids: seq<Id>)
    requires Ascending(RunOrder(s), ids) && forall e | e in ids :: e in s.executions
    ensures OldestRunFirst(s, ids)
  {
    RunOrderTotal(s);
    forall i, j | 0 <= i < j < |ids|
      ensures ids[i] in s.executions && ids[j] in s.executions
      ensures s.executions[ids[i]].updatedAt <= s.executions[ids[j]].updatedAt
    {
      assert ids[i] in ids && ids[j] in ids && RunOrder(s)(ids[i], ids[j]);
    }
  }

  lemma OldestActionFirstByOrder(s: Store, ids: seq<Id>)
    requires PrimaryKeysUnique(s)
    requires Ascending(ActionOrder(s), ids) && forall a | a in ids :: a in s.actionExecutions
    ensures OldestActionFirst(s, ids)
  {
    ActionOrderTotal(s);
    forall i, j | 0 <= i < j < |ids|
      ensures ids[i] in s.actionExecutions && ids[j] in s.actionExecutions
      ensures s.actionExecutions[ids[i]].startedAt <= s.actionExecutions[ids[j]].startedAt
    {
      assert ids[i] in ids && ids[j] in ids && ActionOrder(s)(ids[i], ids[j]);
    }
  }

  /** Both queries have an answer on every state. */
  lemma StaleRunsExist(s: Store, cutoff: Instant) returns (ids: seq<Id>)
    ensures StaleRuns(s, cutoff, ids) && Enumerates(ids, OverdueRuns(s, cutoff))
  {
    RunOrderTotal(s);
    ids := ListingExists(RunOrder(s), OverdueRuns(s, cutoff));
    RunsSelected(s, cutoff, ids);
  }

  lemma StaleActionsExist(s: Store, cutoff: Instant) returns (ids: seq<Id>)
    requires PrimaryKeysUnique(s)
    ensures StaleActions(s, cutoff, ids) && Enumerates(ids, OverdueActions(s, cutoff))
  {
    ActionOrderTotal(s);
    ids := ListingExists(ActionOrder(s), OverdueActions(s, cutoff));
    ActionsSelected(s, cutoff, ids);
  }

  /** `list_running_before`: the stale runs, oldest first. */
  method ListRunningBefore(s: Store, cutoff: Instant) returns (ids: seq<Id>)
    ensures StaleRuns(s, cutoff, ids)
    ensures Enumerates(ids, OverdueRuns(s, cutoff))
    ensures OldestRunFirst(s, ids)
  {
    RunTextOrderTotal(s);
    ids := OrderRows(RunTextOrder(s), RunningBefore(s, cutoff));
    RunQueryExact(s, cutoff, ids);
    RunsSelected(s, cutoff, ids);
    OldestRunFirstByOrder(s, ids);
  }

  /** `list_executing_before`: the stale action executions, oldest first. */
  method ListExecutingBefore(s: Store, cutoff: Instant) returns (ids: seq<Id>)
    requires PrimaryKeysUnique(s)
    ensures StaleActions(s, cutoff, ids)
    ensures Enumerates(ids, OverdueActions(s, cutoff))
    ensures OldestActionFirst(s, ids)
  {
    ActionTextOrderTotal(s);
    ids := OrderRows(ActionTextOrder(s), ExecutingBefore(s, cutoff));
    ActionQueryExact(s, cutoff, ids);
    ActionsSelected(s, cutoff, ids);
    OldestActionFirstByOrder(s, ids);
  }
}
