/**
 * The constant station coordinate table and the two ways the dashboard
 * reads it: an exact-name lookup, and the list of table rows a merge key
 * matches (the right-hand side of a pandas left merge).
 */
module Stations {
  import opened Records

  /** One row of the coordinate table: Station, Latitude, Longitude. */
  datatype StationCoordinate = StationCoordinate(station: string, coord: Coord)

  /** The coordinate table, in declaration order. */
  const STATION_TABLE: seq<StationCoordinate> := [
    StationCoordinate("London Euston", Coord(51.5281, -0.1337)),
    StationCoordinate("London Kings Cross", Coord(51.5308, -0.1238)),
    StationCoordinate("London Paddington", Coord(51.5154, -0.1754)),
    StationCoordinate("London St Pancras", Coord(51.5315, -0.1263)),
    StationCoordinate("Manchester Piccadilly", Coord(53.4774, -2.2304)),
    StationCoordinate("Liverpool Lime Street", Coord(53.4070, -2.9779)),
    StationCoordinate("Birmingham New Street", Coord(52.4778, -1.8986)),
    StationCoordinate("York", Coord(53.9576, -1.0930)),
    StationCoordinate("Reading", Coord(51.4580, -0.9732)),
    StationCoordinate("Oxford", Coord(51.7548, -1.2683)),
    StationCoordinate("Edinburgh Waverley", Coord(55.9521, -3.1890)),
    StationCoordinate("Bristol Temple Meads", Coord(51.4490, -2.5810))
  ]

  /** Station names are keys: no name occurs twice. */
  predicate UniqueStations(t: seq<StationCoordinate>) {
    forall i, j :: 0 <= i < j < |t| ==> t[i].station != t[j].station
  }

  lemma StationTableIsKeyed()
    ensures UniqueStations(STATION_TABLE)
  {
    // Two names differ in length, in their first letter, or (the four
    // London termini) in their eighth letter.
    forall i, j | 0 <= i < j < |STATION_TABLE| ensures STATION_TABLE[i].station != STATION_TABLE[j].station {
      var a, b := STATION_TABLE[i].station, STATION_TABLE[j].station;
      assert |a| != |b| || a[0] != b[0] || a[7] != b[7];
    }
  }

  /** Exact, case-sensitive lookup of a station name (first entry wins). */
  function Lookup(t: seq<StationCoordinate>, name: string): (r: Option<Coord>)
    ensures r.Some? <==> exists e :: e in t && e.station == name
    ensures r.Some? ==> StationCoordinate(name, r.value) in t
  {
    if t == [] then None
    else if t[0].station == name then Some(t[0].coord)
    else Lookup(t[1..], name)
  }

  /** In a keyed table, looking up a row's name finds that row's coordinates. */
  lemma {:induction false} LookupFindsEntry(t: seq<StationCoordinate>, i: nat)
    requires UniqueStations(t) && i < |t|
    ensures Lookup(t, t[i].station) == Some(t[i].coord)
  {
    if i > 0 {
      assert UniqueStations(t[1..]) by {
        forall a, b | 0 <= a < b < |t[1..]| ensures t[1..][a].station != t[1..][b].station {
          assert t[1..][a] == t[a + 1] && t[1..][b] == t[b + 1];
        }
      }
      LookupFindsEntry(t[1..], i - 1);
      assert t[1..][i - 1] == t[i];
    }
  }

  /** Lookup of a cell that may be null: a null name has no coordinates. */
  function KeyLookup(t: seq<StationCoordinate>, key: Option<string>): Option<Coord> {
    match key
    case None => None
    case Some(name) => Lookup(t, name)
  }

  /** The coordinates of a station cell in the dashboard's own table. */
  function StationLookup(key: Option<string>): Option<Coord> {
    KeyLookup(STATION_TABLE, key)
  }

  /** The table rows whose Station equals the merge key, in table order. */
  function Matches(t: seq<StationCoordinate>, key: Option<string>): (m: seq<StationCoordinate>)
    ensures forall e :: e in m <==> e in t && key == Some(e.station)
  {
    if t == [] then []
    else (if key == Some(t[0].station) then [t[0]] else []) + Matches(t[1..], key)
  }

  /**
   * In a keyed table a merge key matches at most one row, and that row is
   * exactly what the lookup finds.
   */
  lemma {:induction false} KeyedMatchIsLookup(t: seq<StationCoordinate>, key: Option<string>)
    requires UniqueStations(t)
    ensures Matches(t, key) == match KeyLookup(t, key)
                               case None => []
                               case Some(c) => [StationCoordinate(key.value, c)]
  {
    if t != [] {
      assert UniqueStations(t[1..]) by {
        forall i, j | 0 <= i < j < |t[1..]| ensures t[1..][i].station != t[1..][j].station {
          assert t[1..][i] == t[i + 1] && t[1..][j] == t[j + 1];
        }
      }
      KeyedMatchIsLookup(t[1..], key);
    }
  }
}
