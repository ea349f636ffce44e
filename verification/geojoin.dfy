/**
 * The coordinate merge: each half is a pandas left merge of the dataset
 * with the station table on the station name, followed by a rename of
 * Latitude/Longitude to the side's coordinate columns and a drop of the
 * table's Station column. A half is skipped when its key column is absent.
 */
module GeoJoin {
  import opened Records
  import opened Stations

  /**
   * The left merge of one row: one output row per table row the key
   * matches, or a single row with null coordinates when nothing matches.
   */
  function MergeRow(r: Record, side: Side, t: seq<StationCoordinate>): (out: seq<Record>)
    ensures |out| >= 1
  {
    var m := Matches(t, StationOf(r, side));
    if m == [] then [WithCoord(r, side, None)]
    else seq(|m|, j requires 0 <= j < |m| => WithCoord(r, side, Some(m[j].coord)))
  }

  /** `df.merge(coords_df, left_on=<station column>, right_on="Station", how="left")`. */
  function LeftMerge(rows: seq<Record>, side: Side, t: seq<StationCoordinate>): (out: seq<Record>)
    ensures |out| >= |rows|
  {
    if rows == [] then [] else MergeRow(rows[0], side, t) + LeftMerge(rows[1..], side, t)
  }

  /** Against a keyed table one row merges into exactly one row. */
  lemma KeyedMergeRow(r: Record, side: Side, t: seq<StationCoordinate>)
    requires UniqueStations(t)
    ensures MergeRow(r, side, t) == [WithCoord(r, side, KeyLookup(t, StationOf(r, side)))]
  {
    KeyedMatchIsLookup(t, StationOf(r, side));
  }

  /**
   * Merging with a keyed table yields exactly one row per input row, in
   * input order: the same row with that side's coordinates set to what
   * the lookup finds (null when the name is null or not in the table).
   */
  lemma {:induction false} KeyedLeftMergeIsLookup(rows: seq<Record>, side: Side, t: seq<StationCoordinate>)
    requires UniqueStations(t)
    ensures |LeftMerge(rows, side, t)| == |rows|
    ensures forall i :: 0 <= i < |rows| ==>
              LeftMerge(rows, side, t)[i] == WithCoord(rows[i], side, KeyLookup(t, StationOf(rows[i], side)))
  {
    if rows != [] {
      KeyedMergeRow(rows[0], side, t);
      KeyedLeftMergeIsLookup(rows[1..], side, t);
      var rest := LeftMerge(rows[1..], side, t);
      var out := [WithCoord(rows[0], side, KeyLookup(t, StationOf(rows[0], side)))] + rest;
      assert LeftMerge(rows, side, t) == out;
      assert |rest| == |rows| - 1;
      forall i | 1 <= i < |rows|
        ensures out[i] == WithCoord(rows[i], side, KeyLookup(t, StationOf(rows[i], side)))
      {
        var j := i - 1;
        assert out[i] == rest[j];
        assert rows[1..][j] == rows[i];
        assert rest[j] == WithCoord(rows[1..][j], side, KeyLookup(t, StationOf(rows[1..][j], side)));
      }
    }
  }

  /** One enriched row: the ticket and the coordinates of its two stations. */
  function JoinRow(cols: Columns, t: Ticket): (r: Record)
    ensures r.ticket == t
    ensures r.depCoord.Some? <==>
              cols.departure && t.departure.Some? && exists e :: e in STATION_TABLE && e.station == t.departure.value
    ensures r.arrCoord.Some? <==>
              cols.arrival && t.arrival.Some? && exists e :: e in STATION_TABLE && e.station == t.arrival.value
    ensures r.depCoord.Some? ==> StationCoordinate(t.departure.value, r.depCoord.value) in STATION_TABLE
    ensures r.arrCoord.Some? ==> StationCoordinate(t.arrival.value, r.arrCoord.value) in STATION_TABLE
  {
    Record(t,
      if cols.departure then StationLookup(t.departure) else None,
      if cols.arrival then StationLookup(t.arrival) else None)
  }

  /** The enriched dataset: every ticket kept, in order, with its coordinates. */
  function Joined(cols: Columns, tickets: seq<Ticket>): (rows: seq<Record>)
    ensures |rows| == |tickets|
    ensures forall i :: 0 <= i < |tickets| ==> rows[i] == JoinRow(cols, tickets[i])
  {
    if tickets == [] then [] else [JoinRow(cols, tickets[0])] + Joined(cols, tickets[1..])
  }

  /** The loaded rows before any merge: no coordinate columns yet. */
  function Unjoined(tickets: seq<Ticket>): (rows: seq<Record>)
    ensures |rows| == |tickets|
    ensures forall i :: 0 <= i < |tickets| ==> rows[i] == Record(tickets[i], None, None)
  {
    seq(|tickets|, i requires 0 <= i < |tickets| => Record(tickets[i], None, None))
  }

  /** The rows after the departure half of the merge stage. */
  function HalfJoined(cols: Columns, tickets: seq<Ticket>): (rows: seq<Record>)
    ensures |rows| == |tickets|
    ensures forall i :: 0 <= i < |tickets| ==>
              rows[i] == Record(tickets[i], if cols.departure then StationLookup(tickets[i].departure) else None, None)
  {
    seq(|tickets|, i requires 0 <= i < |tickets| =>
      Record(tickets[i], if cols.departure then StationLookup(tickets[i].departure) else None, None))
  }

  /** The departure merge, run only when the Departure Station column exists. */
  lemma DepartureHalf(cols: Columns, tickets: seq<Ticket>, after: seq<Record>)
    requires after == if cols.departure then LeftMerge(Unjoined(tickets), Departure, STATION_TABLE)
                      else Unjoined(tickets)
    ensures after == HalfJoined(cols, tickets)
  {
    StationTableIsKeyed();
    KeyedLeftMergeIsLookup(Unjoined(tickets), Departure, STATION_TABLE);
  }

  /** The arrival merge, run only when the Arrival Destination column exists. */
  lemma ArrivalHalf(cols: Columns, tickets: seq<Ticket>, after: seq<Record>)
    requires after == if cols.arrival then LeftMerge(HalfJoined(cols, tickets), Arrival, STATION_TABLE)
                      else HalfJoined(cols, tickets)
    ensures after == Joined(cols, tickets)
  {
    StationTableIsKeyed();
    KeyedLeftMergeIsLookup(HalfJoined(cols, tickets), Arrival, STATION_TABLE);
  }

  /**
   * A station column that pandas reads as a float column: at least one
   * row and no name in any of them. Merging such a key with the table's
   * string Station column raises ValueError; a header-only file keeps its
   * columns untyped (object) and merges without error.
   */
  predicate UntypedKey(tickets: seq<Ticket>, side: Side) {
    |tickets| > 0 && forall i :: 0 <= i < |tickets| ==> TicketStation(tickets[i], side).None?
  }

  /** Neither merge the script runs is refused. */
  predicate Mergeable(cols: Columns, tickets: seq<Ticket>) {
    !(cols.departure && UntypedKey(tickets, Departure)) && !(cols.arrival && UntypedKey(tickets, Arrival))
  }

  /**
   * The merge stage as the script runs it: rebinding df through the
   * departure merge, then the arrival merge, each only if its key column
   * is present. The result is the left join of every ticket, unless a
   * merge is refused: the departure one first.
   */
  method Enrich(cols: Columns, tickets: seq<Ticket>) returns (df: Outcome<seq<Record>>)
    ensures df.Ok? <==> Mergeable(cols, tickets)
    ensures cols.departure && UntypedKey(tickets, Departure) ==> df == ValueError("Departure Station")
    ensures !(cols.departure && UntypedKey(tickets, Departure)) && cols.arrival && UntypedKey(tickets, Arrival) ==>
              df == ValueError("Arrival Destination")
    ensures df.Ok? ==> |df.value| == |tickets| && df.value == Joined(cols, tickets)
  {
    var rows := Unjoined(tickets);
    if cols.departure {
      if UntypedKey(tickets, Departure) {
        return ValueError("Departure Station");
      }
      rows := LeftMerge(rows, Departure, STATION_TABLE);
    }
    DepartureHalf(cols, tickets, rows);
    if cols.arrival {
      if UntypedKey(tickets, Arrival) {
        return ValueError("Arrival Destination");
      }
      rows := LeftMerge(rows, Arrival, STATION_TABLE);
    }
    ArrivalHalf(cols, tickets, rows);
    df := Ok(rows);
  }
}
