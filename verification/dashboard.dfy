/**
 * The dashboard script end to end, minus rendering: merge coordinates
 * into the loaded rows, filter them by the sidebar selections, compute the
 * KPI cards from the filtered rows, and compute the chart and map data
 * from the whole (unfiltered) dataset. The chart section stops at the
 * first column pandas cannot find.
 */
module Dashboard {
  import opened Records
  import opened Stations
  import opened GeoJoin
  import opened Filters
  import opened Kpi
  import opened Rollups
  import opened MapData

  /** The data each chart and map layer is drawn from. */
  datatype Charts = Charts(
    departureRevenue: seq<Group>,
    statusCounts: seq<Group>,
    arrivalRevenue: seq<Group>,
    mapPoints: seq<Coord>,
    routes: seq<Record>)

  datatype Page = Page(df: seq<Record>, filtered: seq<Record>, kpis: Kpis, charts: Outcome<Charts>)

  /** Some row has a ticket class, so the box plot has a group to draw. */
  predicate HasClassGroup(df: seq<Record>) {
    exists i :: 0 <= i < |df| && df[i].ticket.ticketClass.Some?
  }

  /**
   * The chart section over the dataset it is given. In script order it
   * reads Price, then Departure Station, draws the departure revenue bars
   * (an empty dataset leaves an untyped, hence non-numeric, revenue
   * series, which pandas refuses to plot), reads Ticket Class for the box
   * plot (which fails when there is no class group at all), then Journey
   * Status and Arrival Destination; the coordinate columns exist whenever
   * their station column does.
   */
  function Visualize(cols: Columns, df: seq<Record>): (o: Outcome<Charts>)
    ensures o.Ok? <==>
              cols.price && cols.departure && df != [] && cols.ticketClass && HasClassGroup(df) &&
              cols.status && cols.arrival
    ensures !cols.price ==> o == KeyError("Price")
    ensures cols.price && !cols.departure ==> o == KeyError("Departure Station")
    ensures cols.price && cols.departure && df == [] ==> o == TypeError("Price")
    ensures cols.price && cols.departure && df != [] && !cols.ticketClass ==> o == KeyError("Ticket Class")
    ensures cols.price && cols.departure && cols.ticketClass && !HasClassGroup(df) && df != [] ==>
              o == ValueError("Ticket Class")
    ensures cols.price && cols.departure && cols.ticketClass && HasClassGroup(df) && !cols.status ==>
              o == KeyError("Journey Status")
    ensures cols.price && cols.departure && cols.ticketClass && HasClassGroup(df) && cols.status && !cols.arrival ==>
              o == KeyError("Arrival Destination")
    ensures o.Ok? ==> o.value == Charts(TopStations(df, Departure), StatusCounts(df), TopStations(df, Arrival),
                                        MapPoints(df), RouteData(df))
    ensures o.Ok? ==> |o.value.departureRevenue| <= TOP_N && |o.value.arrivalRevenue| <= TOP_N
    ensures o.Ok? ==> SortedDesc(o.value.departureRevenue) && SortedDesc(o.value.arrivalRevenue)
    ensures o.Ok? ==> SumTotals(o.value.statusCounts) == |df| - multiset(StatusColumn(df))[None]
    ensures o.Ok? ==> |o.value.mapPoints| <= |df| && IsSubsequence(o.value.routes, df)
  {
    if !cols.price then KeyError("Price")
    else if !cols.departure then KeyError("Departure Station")
    else if df == [] then TypeError("Price")
    else if !cols.ticketClass then KeyError("Ticket Class")
    else if !HasClassGroup(df) then ValueError("Ticket Class")
    else if !cols.status then KeyError("Journey Status")
    else if !cols.arrival then KeyError("Arrival Destination")
    else
      Ok(Charts(
        TopStations(df, Departure),
        StatusCounts(df),
        TopStations(df, Arrival),
        MapPoints(df),
        RouteData(df)))
  }

  /**
   * One run of the script for the loaded tickets and the sidebar
   * selections: it stops if a coordinate merge is refused; otherwise the
   * KPI cards see the filtered rows, the charts and the map see the whole
   * enriched dataset.
   */
  method Run(cols: Columns, tickets: seq<Ticket>, crit: Criteria) returns (result: Outcome<Page>)
    requires Offered(cols, crit)
    ensures result.Ok? <==> Mergeable(cols, tickets)
    ensures !result.Ok? ==> result.ValueError?
    ensures result.Ok? ==> result.value.df == Joined(cols, tickets)
    ensures result.Ok? ==> result.value.filtered == Filtered(result.value.df, crit)
    ensures result.Ok? ==> IsSubsequence(result.value.filtered, result.value.df)
    ensures result.Ok? ==>
              (forall x :: multiset(result.value.filtered)[x] == if Satisfies(x, crit) then multiset(result.value.df)[x] else 0)
    ensures result.Ok? ==> result.value.kpis.totalTrips == |result.value.filtered|
    ensures result.Ok? ==> result.value.kpis == Compute(cols, result.value.filtered)
    ensures result.Ok? ==> result.value.charts == Visualize(cols, result.value.df)
  {
    var merged := Enrich(cols, tickets);
    if !merged.Ok? {
      return ValueError(merged.column);
    }
    var df := merged.value;
    var filtered := ApplyFilters(cols, df, crit);
    var kpis := Compute(cols, filtered);
    result := Ok(Page(df, filtered, kpis, Visualize(cols, df)));
  }
}
