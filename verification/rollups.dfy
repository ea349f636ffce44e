/**
 * The grouped aggregates behind the charts: revenue per departure or
 * arrival station (`groupby(..)["Price"].sum().sort_values(ascending=False)
 * .head(10)`) and the count per journey status (`value_counts()`).
 * Both are a group-by-sum over (key, value) pairs followed by a sort on the
 * summed value, largest first. Null keys form no group; the order among
 * equal sums is not modelled.
 */
module Rollups {
  import opened Records

  /** How many stations the revenue charts show. */
  const TOP_N: nat := 10

  /** One bar or slice: a station with its revenue, or a status with its count. */
  datatype Group = Group(key: string, total: int)

  /** One row projected onto the grouping key and the value summed for it. */
  datatype Keyed = Keyed(key: Option<string>, value: int)

  /** The key of every pair, in order. */
  function KeyColumn(kv: seq<Keyed>): (ks: seq<Option<string>>)
    ensures |ks| == |kv|
    ensures forall i :: 0 <= i < |kv| ==> ks[i] == kv[i].key
  {
    if kv == [] then [] else [kv[0].key] + KeyColumn(kv[1..])
  }

  predicate Distinct(ks: seq<string>) {
    forall i, j :: 0 <= i < j < |ks| ==> ks[i] != ks[j]
  }

  predicate DistinctGroupKeys(gs: seq<Group>) {
    forall i, j :: 0 <= i < j < |gs| ==> gs[i].key != gs[j].key
  }

  predicate SortedDesc(gs: seq<Group>) {
    forall i, j :: 0 <= i < j < |gs| ==> gs[i].total >= gs[j].total
  }

  /** The sum of the values whose key is s: one group's sum. */
  function Total(kv: seq<Keyed>, s: string): int {
    if kv == [] then 0
    else (if kv[0].key == Some(s) then kv[0].value else 0) + Total(kv[1..], s)
  }

  /** The sum of the values that have a key at all. */
  function KeyedSum(kv: seq<Keyed>): int {
    if kv == [] then 0
    else (if kv[0].key.Some? then kv[0].value else 0) + KeyedSum(kv[1..])
  }

  /** The group keys: every non-null key once. */
  function DistinctKeys(kv: seq<Keyed>): (ks: seq<string>)
    ensures Distinct(ks)
    ensures forall s :: s in ks <==> Some(s) in KeyColumn(kv)
  {
    if kv == [] then []
    else
      var rest := DistinctKeys(kv[1..]);
      assert KeyColumn(kv) == [kv[0].key] + KeyColumn(kv[1..]);
      if kv[0].key.Some? && kv[0].key.value !in rest then [kv[0].key.value] + rest else rest
  }

  /** One group per key of ks, with its sum. */
  function GroupsFor(ks: seq<string>, kv: seq<Keyed>): (gs: seq<Group>)
    ensures |gs| == |ks|
    ensures forall i :: 0 <= i < |ks| ==> gs[i].key == ks[i]
  {
    if ks == [] then [] else [Group(ks[0], Total(kv, ks[0]))] + GroupsFor(ks[1..], kv)
  }

  /**
   * `groupby(key)[value].sum()`, in an unspecified group order: one group
   * per non-null key, holding the sum of that key's values; together the
   * groups hold every keyed value exactly once.
   */
  function GroupBySum(kv: seq<Keyed>): (r: seq<Group>)
    ensures DistinctGroupKeys(r)
    ensures forall g :: g in r <==> Some(g.key) in KeyColumn(kv) && g.total == Total(kv, g.key)
    ensures SumTotals(r) == KeyedSum(kv)
  {
    var ks := DistinctKeys(kv);
    GroupsForMembers(ks, kv);
    GroupsPartition(ks, kv);
    GroupsFor(ks, kv)
  }

  function SumTotals(gs: seq<Group>): int {
    if gs == [] then 0 else gs[0].total + SumTotals(gs[1..])
  }

  lemma SumTotalsCons(g: Group, gs: seq<Group>)
    ensures SumTotals([g] + gs) == g.total + SumTotals(gs)
  {
    assert ([g] + gs)[1..] == gs;
  }

  lemma {:induction false} GroupsForMembers(ks: seq<string>, kv: seq<Keyed>)
    ensures forall g :: g in GroupsFor(ks, kv) <==> g.key in ks && g.total == Total(kv, g.key)
  {
    if ks != [] {
      GroupsForMembers(ks[1..], kv);
      assert GroupsFor(ks, kv) == [Group(ks[0], Total(kv, ks[0]))] + GroupsFor(ks[1..], kv);
      assert ks == [ks[0]] + ks[1..];
    }
  }

  /** The groups sum over the empty pairs to 0. */
  lemma {:induction false} GroupsOfNothing(ks: seq<string>)
    ensures SumTotals(GroupsFor(ks, [])) == 0
  {
    if ks != [] {
      GroupsOfNothing(ks[1..]);
    }
  }

  /** Group sums split over the first pair and the rest. */
  lemma {:induction false} GroupsSplit(ks: seq<string>, kv: seq<Keyed>)
    requires kv != []
    ensures SumTotals(GroupsFor(ks, kv)) == SumTotals(GroupsFor(ks, kv[..1])) + SumTotals(GroupsFor(ks, kv[1..]))
  {
    if ks != [] {
      GroupsSplit(ks[1..], kv);
      assert kv[..1][1..] == [] && kv[..1][0] == kv[0];
      assert Total(kv[..1], ks[0]) == (if kv[0].key == Some(ks[0]) then kv[0].value else 0);
      assert Total(kv, ks[0]) == Total(kv[..1], ks[0]) + Total(kv[1..], ks[0]);
      SumTotalsCons(Group(ks[0], Total(kv, ks[0])), GroupsFor(ks[1..], kv));
      SumTotalsCons(Group(ks[0], Total(kv[..1], ks[0])), GroupsFor(ks[1..], kv[..1]));
      SumTotalsCons(Group(ks[0], Total(kv[1..], ks[0])), GroupsFor(ks[1..], kv[1..]));
    }
  }

  /** A single pair lands in exactly the group of its key, if that key is listed. */
  lemma {:induction false} GroupsOfOne(ks: seq<string>, x: Keyed)
    requires Distinct(ks)
    ensures SumTotals(GroupsFor(ks, [x])) == if x.key.Some? && x.key.value in ks then x.value else 0
  {
    if ks != [] {
      assert Distinct(ks[1..]);
      GroupsOfOne(ks[1..], x);
      assert [x][1..] == [];
      assert Total([x], ks[0]) == (if x.key == Some(ks[0]) then x.value else 0);
      SumTotalsCons(Group(ks[0], Total([x], ks[0])), GroupsFor(ks[1..], [x]));
      if x.key == Some(ks[0]) {
        assert x.key.value !in ks[1..];
      }
    }
  }

  /**
   * Summing the groups of distinct keys that cover every key gives the sum
   * of all keyed values: the group-by loses and duplicates nothing.
   */
  lemma {:induction false} GroupsPartition(ks: seq<string>, kv: seq<Keyed>)
    requires Distinct(ks)
    requires forall s :: Some(s) in KeyColumn(kv) ==> s in ks
    ensures SumTotals(GroupsFor(ks, kv)) == KeyedSum(kv)
    decreases |kv|
  {
    if kv == [] {
      GroupsOfNothing(ks);
    } else {
      assert KeyColumn(kv) == [kv[0].key] + KeyColumn(kv[1..]);
      GroupsSplit(ks, kv);
      assert kv[..1] == [kv[0]];
      GroupsOfOne(ks, kv[0]);
      GroupsPartition(ks, kv[1..]);
    }
  }

  /** Insert into a list sorted largest first. */
  function Insert(g: Group, gs: seq<Group>): (r: seq<Group>)
    requires SortedDesc(gs)
    ensures SortedDesc(r)
    ensures |r| == |gs| + 1
    ensures forall x :: x in r <==> x == g || x in gs
    ensures multiset(r) == multiset(gs) + multiset{g}
    ensures SumTotals(r) == g.total + SumTotals(gs)
  {
    if gs == [] || g.total >= gs[0].total then [g] + gs
    else
      var rest := Insert(g, gs[1..]);
      assert gs == [gs[0]] + gs[1..];
      [gs[0]] + rest
  }

  /** Sort by total, largest first (insertion sort; tie order unspecified). */
  function SortDesc(gs: seq<Group>): (r: seq<Group>)
    ensures SortedDesc(r)
    ensures |r| == |gs|
    ensures forall x :: x in r <==> x in gs
    ensures multiset(r) == multiset(gs)
    ensures SumTotals(r) == SumTotals(gs)
  {
    if gs == [] then []
    else
      assert gs == [gs[0]] + gs[1..];
      Insert(gs[0], SortDesc(gs[1..]))
  }

  /** Putting a group with a new key in front keeps the keys distinct. */
  lemma ConsKeepsKeysDistinct(h: Group, gs: seq<Group>)
    requires DistinctGroupKeys(gs)
    requires forall x :: x in gs ==> x.key != h.key
    ensures DistinctGroupKeys([h] + gs)
  {
    var r := [h] + gs;
    forall i, j | 0 <= i < j < |r| ensures r[i].key != r[j].key {
      assert r[j] == gs[j - 1];
      if i > 0 {
        assert r[i] == gs[i - 1];
      }
    }
  }

  lemma {:induction false} InsertKeepsKeysDistinct(g: Group, gs: seq<Group>)
    requires SortedDesc(gs) && DistinctGroupKeys(gs)
    requires forall x :: x in gs ==> x.key != g.key
    ensures DistinctGroupKeys(Insert(g, gs))
  {
    if gs == [] || g.total >= gs[0].total {
      ConsKeepsKeysDistinct(g, gs);
    } else {
      var tail := gs[1..];
      InsertKeepsKeysDistinct(g, tail);
      var rest := Insert(g, tail);
      forall x | x in rest ensures x.key != gs[0].key {
        if x != g {
          var k :| 0 <= k < |tail| && tail[k] == x;
          assert gs[k + 1] == x;
        }
      }
      ConsKeepsKeysDistinct(gs[0], rest);
    }
  }

  lemma {:induction false} SortKeepsKeysDistinct(gs: seq<Group>)
    requires DistinctGroupKeys(gs)
    ensures DistinctGroupKeys(SortDesc(gs))
  {
    if gs != [] {
      SortKeepsKeysDistinct(gs[1..]);
      forall x | x in SortDesc(gs[1..]) ensures x.key != gs[0].key {
        var k :| 0 <= k < |gs[1..]| && gs[1..][k] == x;
        assert gs[k + 1] == x;
      }
      InsertKeepsKeysDistinct(gs[0], SortDesc(gs[1..]));
    }
  }

  /** pandas `head(n)`: the first n entries, or all of them if there are fewer. */
  function Head(gs: seq<Group>, n: nat): (r: seq<Group>)
    ensures |r| == if |gs| <= n then |gs| else n
    ensures r == gs[..|r|]
    ensures |gs| <= n ==> r == gs
  {
    if |gs| <= n then gs else gs[..n]
  }

  /**
   * The grouped sums sorted largest first: every group once, and each
   * entry the sum of its key's values.
   */
  lemma RankedGroups(kv: seq<Keyed>)
    ensures SortedDesc(SortDesc(GroupBySum(kv)))
    ensures DistinctGroupKeys(SortDesc(GroupBySum(kv)))
    ensures forall g :: g in SortDesc(GroupBySum(kv)) <==> Some(g.key) in KeyColumn(kv) && g.total == Total(kv, g.key)
    ensures SumTotals(SortDesc(GroupBySum(kv))) == KeyedSum(kv)
  {
    SortKeepsKeysDistinct(GroupBySum(kv));
  }

  // ---------------------------------------------------------------------
  // Revenue by station

  /** Each row as (station, price), a null price counting as 0. */
  function RevenuePairs(rows: seq<Record>, side: Side): (kv: seq<Keyed>)
    ensures KeyColumn(kv) == StationColumn(rows, side)
  {
    if rows == [] then []
    else
      [Keyed(StationOf(rows[0], side), match rows[0].ticket.price case Some(p) => p case None => 0)]
      + RevenuePairs(rows[1..], side)
  }

  /** The mask of the rows at one station. */
  function AtStation(side: Side, s: string): Record -> bool {
    r => StationOf(r, side) == Some(s)
  }

  /** The mask of the rows whose station cell is null. */
  function NoStation(side: Side): Record -> bool {
    r => StationOf(r, side) == None
  }

  /** The revenue of a selection, split over its first row and the rest. */
  lemma SelectCons(rows: seq<Record>, p: Record -> bool)
    requires rows != []
    ensures PriceSum(Select(rows, p)) ==
              (if p(rows[0]) then PriceSum([rows[0]]) else 0) + PriceSum(Select(rows[1..], p))
  {
    var sel := Select(rows, p);
    if p(rows[0]) {
      assert sel == [rows[0]] + Select(rows[1..], p);
      assert sel[0] == rows[0] && sel[1..] == Select(rows[1..], p);
    } else {
      assert sel == Select(rows[1..], p);
    }
  }

  /** A station's group sum is the revenue of the rows at that station. */
  lemma {:induction false} GroupSumIsStationRevenue(rows: seq<Record>, side: Side, s: string)
    ensures Total(RevenuePairs(rows, side), s) == PriceSum(Select(rows, AtStation(side, s)))
  {
    if rows != [] {
      GroupSumIsStationRevenue(rows[1..], side, s);
      SelectCons(rows, AtStation(side, s));
    }
  }

  /** The keyed revenue is the total revenue less the rows without a station. */
  lemma {:induction false} KeyedRevenue(rows: seq<Record>, side: Side)
    ensures KeyedSum(RevenuePairs(rows, side)) == PriceSum(rows) - PriceSum(Select(rows, NoStation(side)))
  {
    if rows != [] {
      KeyedRevenue(rows[1..], side);
      SelectCons(rows, NoStation(side));
    }
  }

  /**
   * Total revenue is the sum over all station groups plus the revenue of
   * the rows whose station cell is null (which no group holds).
   */
  lemma RevenueSplitsByStation(rows: seq<Record>, side: Side)
    ensures PriceSum(rows) == SumTotals(GroupBySum(RevenuePairs(rows, side))) + PriceSum(Select(rows, NoStation(side)))
  {
    KeyedRevenue(rows, side);
  }

  /**
   * The station groups, largest revenue first: every station with a
   * non-null cell has exactly one group, whose total is the revenue of the
   * rows at that station.
   */
  function RankedStations(rows: seq<Record>, side: Side): (r: seq<Group>)
    ensures SortedDesc(r)
    ensures DistinctGroupKeys(r)
    ensures forall g :: g in r <==>
              Some(g.key) in StationColumn(rows, side) && g.total == PriceSum(Select(rows, AtStation(side, g.key)))
  {
    RankedGroups(RevenuePairs(rows, side));
    forall s ensures Total(RevenuePairs(rows, side), s) == PriceSum(Select(rows, AtStation(side, s))) {
      GroupSumIsStationRevenue(rows, side, s);
    }
    SortDesc(GroupBySum(RevenuePairs(rows, side)))
  }

  /**
   * The first n of a ranked list: still ranked and keyed, drawn from the
   * list, and whatever it leaves out is no larger than the last one kept.
   */
  lemma HeadOfRanked(ranked: seq<Group>, n: nat)
    requires SortedDesc(ranked) && DistinctGroupKeys(ranked) && n > 0
    ensures SortedDesc(Head(ranked, n)) && DistinctGroupKeys(Head(ranked, n))
    ensures forall g :: g in Head(ranked, n) ==> g in ranked
    ensures forall g :: g in ranked && g !in Head(ranked, n) ==>
              |Head(ranked, n)| == n && g.total <= Head(ranked, n)[n - 1].total
  {
    var r := Head(ranked, n);
    forall g | g in ranked && g !in r ensures |r| == n && g.total <= r[n - 1].total {
      var k :| 0 <= k < |ranked| && ranked[k] == g;
    }
  }

  /**
   * Top stations by revenue: at most ten, largest first, each station
   * once with the revenue of its rows, and every station left out earns
   * no more than the tenth.
   */
  function TopStations(rows: seq<Record>, side: Side): (r: seq<Group>)
    ensures |r| <= TOP_N
    ensures SortedDesc(r)
    ensures DistinctGroupKeys(r)
    ensures forall g :: g in r ==>
              Some(g.key) in StationColumn(rows, side) && g.total == PriceSum(Select(rows, AtStation(side, g.key)))
    ensures forall s :: Some(s) in StationColumn(rows, side) && (forall g :: g in r ==> g.key != s) ==>
              |r| == TOP_N && PriceSum(Select(rows, AtStation(side, s))) <= r[TOP_N - 1].total
  {
    var ranked := RankedStations(rows, side);
    HeadOfRanked(ranked, TOP_N);
    var r := Head(ranked, TOP_N);
    forall s | Some(s) in StationColumn(rows, side) && (forall g :: g in r ==> g.key != s)
      ensures |r| == TOP_N && PriceSum(Select(rows, AtStation(side, s))) <= r[TOP_N - 1].total
    {
      var g := Group(s, PriceSum(Select(rows, AtStation(side, s))));
      assert g in ranked;
      assert g !in r;
    }
    r
  }

  // ---------------------------------------------------------------------
  // Journey status counts

  /** Each row as (status, 1). */
  function StatusPairs(rows: seq<Record>): (kv: seq<Keyed>)
    ensures KeyColumn(kv) == StatusColumn(rows)
  {
    if rows == [] then [] else [Keyed(rows[0].ticket.status, 1)] + StatusPairs(rows[1..])
  }

  /** A status's group sum is its number of occurrences in the column. */
  lemma {:induction false} StatusTotalIsOccurrences(rows: seq<Record>, s: string)
    ensures Total(StatusPairs(rows), s) == multiset(StatusColumn(rows))[Some(s)]
  {
    if rows != [] {
      StatusTotalIsOccurrences(rows[1..], s);
      assert StatusColumn(rows) == [rows[0].ticket.status] + StatusColumn(rows[1..]);
    }
  }

  /** The keyed count is the number of non-null statuses. */
  lemma {:induction false} KeyedStatusCount(rows: seq<Record>)
    ensures KeyedSum(StatusPairs(rows)) == |rows| - multiset(StatusColumn(rows))[None]
  {
    if rows != [] {
      KeyedStatusCount(rows[1..]);
      assert StatusColumn(rows) == [rows[0].ticket.status] + StatusColumn(rows[1..]);
    }
  }

  /**
   * Status counts: largest first, one entry per distinct non-null status
   * with its (positive) number of occurrences, adding up to the number of
   * rows that have a status.
   */
  function StatusCounts(rows: seq<Record>): (r: seq<Group>)
    ensures SortedDesc(r)
    ensures DistinctGroupKeys(r)
    ensures forall g :: g in r ==> g.total > 0 && g.total == multiset(StatusColumn(rows))[Some(g.key)]
    ensures forall s :: Some(s) in StatusColumn(rows) ==> Group(s, multiset(StatusColumn(rows))[Some(s)]) in r
    ensures SumTotals(r) == |rows| - multiset(StatusColumn(rows))[None]
  {
    var kv := StatusPairs(rows);
    RankedGroups(kv);
    KeyedStatusCount(rows);
    forall s ensures Total(kv, s) == multiset(StatusColumn(rows))[Some(s)] {
      StatusTotalIsOccurrences(rows, s);
    }
    SortDesc(GroupBySum(kv))
  }
}
