/**
 * Worked examples of the pipeline on small datasets: three tickets, the
 * same three filtered to one departure station, a station the coordinate
 * table does not know, an empty dataset, and the inputs on which the
 * script stops with an error.
 */
module Scenarios {
  import opened Records
  import opened Stations
  import opened GeoJoin
  import opened Filters
  import opened Kpi
  import opened Rollups
  import opened Dashboard

  /** A CSV with all six columns. */
  const ALL: Columns := Columns(true, true, true, true, true, true)

  /** A CSV with every column but Arrival Destination. */
  const NO_ARRIVAL: Columns := Columns(true, true, true, false, true, true)

  /** A CSV with a departure station, a price and a status column only. */
  const COLS: Columns := Columns(false, false, true, false, true, true)

  function Trip(departure: string, price: int, status: string): Ticket {
    Ticket(None, None, Some(departure), None, Some(price), Some(status))
  }

  const THREE: seq<Ticket> := [
    Trip("London Euston", 50, "On Time"),
    Trip("York", 30, "Delayed"),
    Trip("London Euston", 20, "Delayed")
  ]

  const NO_FILTER: Criteria := Criteria({}, {}, {}, {})

  const EUSTON: Coord := Coord(51.5281, -0.1337)
  const YORK: Coord := Coord(53.9576, -1.0930)

  lemma KnownStations()
    ensures StationLookup(Some("London Euston")) == Some(EUSTON)
    ensures StationLookup(Some("York")) == Some(YORK)
  {
    StationTableIsKeyed();
    LookupFindsEntry(STATION_TABLE, 0);
    LookupFindsEntry(STATION_TABLE, 7);
  }

  /** The three tickets once enriched. */
  const ROWS: seq<Record> := [
    Record(THREE[0], Some(EUSTON), None),
    Record(THREE[1], Some(YORK), None),
    Record(THREE[2], Some(EUSTON), None)]

  /** Both departures are in the table, so every row gets coordinates. */
  lemma ThreeTicketsJoined()
    ensures Joined(COLS, THREE) == ROWS
  {
    KnownStations();
    assert JoinRow(COLS, THREE[0]) == ROWS[0];
    assert JoinRow(COLS, THREE[1]) == ROWS[1];
    assert JoinRow(COLS, THREE[2]) == ROWS[2];
  }

  /** Revenue 100, mean 100/3, two of three delayed. */
  lemma ThreeTicketKpis()
    ensures Filtered(ROWS, NO_FILTER) == ROWS
    ensures Compute(COLS, ROWS).totalRevenue == 100
    ensures Compute(COLS, ROWS).avgPrice == Some(100.0 / 3.0)
    ensures Compute(COLS, ROWS).delayedPct == 200.0 / 3.0
  {
    assert PriceSum(ROWS[2..]) == 20 && PriceCount(ROWS[2..]) == 1;
    assert PriceSum(ROWS[1..]) == 50 && PriceCount(ROWS[1..]) == 2;
    assert PriceSum(ROWS) == 100 && PriceCount(ROWS) == 3;
    assert StatusColumn(ROWS) == [Some("On Time"), Some("Delayed"), Some("Delayed")];
    assert multiset(StatusColumn(ROWS))[Some(DELAYED)] == 2;
  }

  /** The (departure, price) pairs of the three rows. */
  const PAIRS: seq<Keyed> :=
    [Keyed(Some("London Euston"), 50), Keyed(Some("York"), 30), Keyed(Some("London Euston"), 20)]

  lemma ThreeTicketPairs()
    ensures RevenuePairs(ROWS, Departure) == PAIRS
  {
    assert ROWS[2..] == [ROWS[2]] && ROWS[2..][1..] == [] && ROWS[1..][1..] == ROWS[2..];
    assert RevenuePairs(ROWS[2..], Departure) == [PAIRS[2]];
    assert RevenuePairs(ROWS[1..], Departure) == PAIRS[1..];
  }

  /** The groupby meets York first and London Euston second. */
  lemma ThreeTicketGroups()
    ensures GroupBySum(PAIRS) == [Group("York", 30), Group("London Euston", 70)]
  {
    assert PAIRS[2..][1..] == [] && PAIRS[1..][1..] == PAIRS[2..];
    assert DistinctKeys(PAIRS[2..]) == ["London Euston"];
    assert DistinctKeys(PAIRS[1..]) == ["York", "London Euston"];
    var ks := DistinctKeys(PAIRS);
    assert ks == ["York", "London Euston"];
    assert Total(PAIRS[2..], "York") == 0 && Total(PAIRS[2..], "London Euston") == 20;
    assert Total(PAIRS[1..], "York") == 30 && Total(PAIRS[1..], "London Euston") == 20;
    assert Total(PAIRS, "York") == 30 && Total(PAIRS, "London Euston") == 70;
    assert ks[1..] == ["London Euston"] && ks[1..][1..] == [];
    assert GroupsFor(ks[1..], PAIRS) == [Group("London Euston", 70)];
  }

  /** Insertion sort moves the larger total to the front. */
  lemma ThreeTicketSort()
    ensures SortDesc([Group("York", 30), Group("London Euston", 70)]) == [Group("London Euston", 70), Group("York", 30)]
  {
    var york, euston := Group("York", 30), Group("London Euston", 70);
    assert [york, euston][1..] == [euston] && [euston][1..] == [];
    assert SortDesc([euston]) == [euston];
    assert Insert(york, []) == [york];
    assert Insert(york, [euston]) == [euston, york];
  }

  /** Ranking puts London Euston (70) ahead of York (30). */
  lemma ThreeTicketRanking()
    ensures RankedStations(ROWS, Departure) == [Group("London Euston", 70), Group("York", 30)]
  {
    ThreeTicketPairs();
    ThreeTicketGroups();
    ThreeTicketSort();
  }

  /** The chart lists London Euston with 70 and then York with 30. */
  lemma ThreeTicketRollup()
    ensures TopStations(ROWS, Departure) == [Group("London Euston", 70), Group("York", 30)]
  {
    ThreeTicketRanking();
  }

  /** Filtering on Departure Station = {York} keeps the one York trip: revenue 30, all delayed. */
  lemma YorkOnly()
    ensures Filtered(ROWS, Criteria({}, {}, {"York"}, {})) == [ROWS[1]]
    ensures Compute(COLS, [ROWS[1]]).totalRevenue == 30
    ensures Compute(COLS, [ROWS[1]]).delayedPct == 100.0
  {
    var crit := Criteria({}, {}, {"York"}, {});
    assert !Satisfies(ROWS[0], crit) && Satisfies(ROWS[1], crit) && !Satisfies(ROWS[2], crit);
    assert Select(ROWS[2..], Matching(crit)) == [];
    assert Select(ROWS[1..], Matching(crit)) == [ROWS[1]];
    assert [ROWS[1]][1..] == [];
    assert PriceSum([ROWS[1]]) == 30;
    assert StatusColumn([ROWS[1]]) == [Some("Delayed")];
    assert multiset(StatusColumn([ROWS[1]]))[Some(DELAYED)] == 1;
    var k := Compute(COLS, [ROWS[1]]);
    assert k.delayedCount == 1 && k.totalTrips == 1;
    assert k.delayedPct * 1.0 == 100.0;
    assert k.delayedPct == 100.0;
  }

  /** A departure the table does not know keeps its row, with null coordinates. */
  lemma UnknownStationKept()
    ensures Joined(COLS, [Trip("Leeds", 40, "On Time")]) == [Record(Trip("Leeds", 40, "On Time"), None, None)]
  {
    assert forall i :: 0 <= i < |STATION_TABLE| ==> STATION_TABLE[i].station != "Leeds";
    assert Lookup(STATION_TABLE, "Leeds") == None;
  }

  /**
   * No rows: revenue 0, delay share 0, no rollup entries. The mean of an
   * empty Price column is NaN, not 0.
   */
  lemma EmptyDataset()
    ensures Compute(COLS, []).totalRevenue == 0
    ensures Compute(COLS, []).avgPrice == None
    ensures Compute(COLS, []).delayedPct == 0.0
    ensures TopStations([], Departure) == []
    ensures StatusCounts([]) == []
  {
  }

  /** With every column present, an empty dataset stops at the first revenue chart. */
  lemma EmptyDatasetCharts()
    ensures Visualize(ALL, []) == TypeError("Price")
  {
  }

  /** Loaded without an Arrival Destination column, the three tickets merge and enrich to the same rows. */
  lemma NoArrivalJoined()
    ensures Mergeable(NO_ARRIVAL, THREE)
    ensures Joined(NO_ARRIVAL, THREE) == ROWS
  {
    assert TicketStation(THREE[0], Departure).Some?;
    KnownStations();
    assert JoinRow(NO_ARRIVAL, THREE[0]) == ROWS[0];
    assert JoinRow(NO_ARRIVAL, THREE[1]) == ROWS[1];
    assert JoinRow(NO_ARRIVAL, THREE[2]) == ROWS[2];
  }

  /**
   * Those rows (NoArrivalJoined) have no ticket class, so the box plot has
   * no group to draw.
   */
  lemma NoClassGroup()
    ensures Visualize(NO_ARRIVAL, ROWS) == ValueError("Ticket Class")
  {
    assert !HasClassGroup(ROWS);
  }

  /** A departure column with no name in it is refused by the merge; a header-only file is not. */
  lemma NamelessDepartures()
    ensures !Mergeable(COLS, [Ticket(None, None, None, None, Some(5), Some("On Time"))])
    ensures Mergeable(COLS, [])
    ensures Mergeable(COLS, THREE)
    ensures !Mergeable(ALL, THREE)
  {
    assert TicketStation(THREE[0], Departure).Some?;
  }
}
