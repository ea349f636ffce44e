/**
 * The row selections behind the map: the departure points
 * (`df[["Departure_Lat", "Departure_Lon"]].dropna()`) and the route rows
 * (`df.dropna(subset=[the four coordinate columns])`).
 */
module MapData {
  import opened Records
  import opened Stations
  import opened GeoJoin

  /** The row has both a departure and an arrival coordinate. */
  predicate IsRoute(r: Record) {
    r.depCoord.Some? && r.arrCoord.Some?
  }

  function HasRoute(): Record -> bool {
    r => IsRoute(r)
  }

  /** The coordinate table knows both station names of the ticket. */
  predicate IsKnownTrip(t: Ticket) {
    StationLookup(t.departure).Some? && StationLookup(t.arrival).Some?
  }

  function BothKnown(): Ticket -> bool {
    t => IsKnownTrip(t)
  }

  /** The coordinate table knows the ticket's departure name. */
  predicate IsKnownDeparture(t: Ticket) {
    StationLookup(t.departure).Some?
  }

  function DepartureKnown(): Ticket -> bool {
    t => IsKnownDeparture(t)
  }

  /** The row has a departure coordinate. */
  predicate IsPoint(r: Record) {
    r.depCoord.Some?
  }

  function HasDeparture(): Record -> bool {
    r => IsPoint(r)
  }

  /**
   * The departure points: the coordinate of each row that has one, in row
   * order, and nothing else.
   */
  function MapPoints(rows: seq<Record>): (pts: seq<Coord>)
    ensures |pts| == |Select(rows, HasDeparture())|
    ensures forall i :: 0 <= i < |pts| ==> Select(rows, HasDeparture())[i].depCoord == Some(pts[i])
  {
    if rows == [] then []
    else
      var head := match rows[0].depCoord case Some(c) => [c] case None => [];
      var rest := MapPoints(rows[1..]);
      assert Select(rows, HasDeparture()) ==
               (if rows[0].depCoord.Some? then [rows[0]] else []) + Select(rows[1..], HasDeparture());
      head + rest
  }

  /**
   * On the enriched dataset the map shows, in input order, the table
   * coordinates of each ticket whose departure station the table knows.
   */
  lemma {:induction false} MapPointsOfJoined(cols: Columns, tickets: seq<Ticket>)
    requires cols.departure
    ensures |MapPoints(Joined(cols, tickets))| == |Select(tickets, DepartureKnown())|
    ensures forall i :: 0 <= i < |MapPoints(Joined(cols, tickets))| ==>
              StationLookup(Select(tickets, DepartureKnown())[i].departure) == Some(MapPoints(Joined(cols, tickets))[i])
    ensures forall p :: p in MapPoints(Joined(cols, tickets)) ==> exists e :: e in STATION_TABLE && e.coord == p
  {
    DepartureMaskOfJoined(cols, tickets);
    var pts := MapPoints(Joined(cols, tickets));
    var known := Select(tickets, DepartureKnown());
    forall i | 0 <= i < |pts|
      ensures StationLookup(known[i].departure) == Some(pts[i])
      ensures StationCoordinate(known[i].departure.value, pts[i]) in STATION_TABLE
    {
      assert Joined(cols, known)[i] == JoinRow(cols, known[i]);
    }
  }

  lemma {:induction false} DepartureMaskOfJoined(cols: Columns, tickets: seq<Ticket>)
    requires cols.departure
    ensures Select(Joined(cols, tickets), HasDeparture()) == Joined(cols, Select(tickets, DepartureKnown()))
  {
    if tickets != [] {
      DepartureMaskOfJoined(cols, tickets[1..]);
      var rows := Joined(cols, tickets);
      assert rows[1..] == Joined(cols, tickets[1..]);
      assert HasDeparture()(rows[0]) == DepartureKnown()(tickets[0]);
      if DepartureKnown()(tickets[0]) {
        assert Select(tickets, DepartureKnown()) == [tickets[0]] + Select(tickets[1..], DepartureKnown());
      }
    }
  }

  /** The route rows: those with all four coordinates, in row order. */
  function RouteData(rows: seq<Record>): (r: seq<Record>)
    ensures IsSubsequence(r, rows)
    ensures forall x :: x in r <==> x in rows && x.depCoord.Some? && x.arrCoord.Some?
    ensures forall x :: multiset(r)[x] == if x.depCoord.Some? && x.arrCoord.Some? then multiset(rows)[x] else 0
  {
    SelectIsSubsequence(rows, HasRoute());
    SelectMembers(rows, HasRoute());
    SelectCounts(rows, HasRoute());
    Select(rows, HasRoute())
  }

  /**
   * On the enriched dataset the route rows are exactly the enriched
   * tickets whose two stations the table knows, in input order.
   */
  lemma {:induction false} RoutesOfJoined(cols: Columns, tickets: seq<Ticket>)
    requires cols.departure && cols.arrival
    ensures RouteData(Joined(cols, tickets)) == Joined(cols, Select(tickets, BothKnown()))
  {
    RouteMaskOfJoined(cols, tickets);
  }

  lemma {:induction false} RouteMaskOfJoined(cols: Columns, tickets: seq<Ticket>)
    requires cols.departure && cols.arrival
    ensures Select(Joined(cols, tickets), HasRoute()) == Joined(cols, Select(tickets, BothKnown()))
  {
    if tickets != [] {
      RouteMaskOfJoined(cols, tickets[1..]);
      var rows := Joined(cols, tickets);
      assert rows[1..] == Joined(cols, tickets[1..]);
      assert HasRoute()(rows[0]) == BothKnown()(tickets[0]);
      if BothKnown()(tickets[0]) {
        assert Select(tickets, BothKnown()) == [tickets[0]] + Select(tickets[1..], BothKnown());
      }
    }
  }
}
