/**
 * Rows of the UK railway ticket dataset, before and after the coordinate
 * merge, together with the row-selection primitive (a boolean mask) that
 * every later stage of the dashboard pipeline is built from.
 */
module Records {

  datatype Option<+T> = None | Some(value: T)

  /**
   * A step of the script that either produces a value or raises: pandas'
   * KeyError for a missing column, a TypeError from plotting a series with
   * no numeric data, or a ValueError; each names the column involved.
   */
  datatype Outcome<T> = Ok(value: T) | KeyError(column: string) | TypeError(column: string) | ValueError(column: string)

  /** A latitude/longitude pair in degrees. */
  datatype Coord = Coord(lat: real, lon: real)

  /**
   * One row of the ticket CSV. Any cell may be null (a missing value).
   * Price is held in pence.
   */
  datatype Ticket = Ticket(
    purchaseType: Option<string>,
    ticketClass: Option<string>,
    departure: Option<string>,
    arrival: Option<string>,
    price: Option<int>,
    status: Option<string>)

  /**
   * Which of the six known columns the loaded CSV has. The cells of an
   * absent column are never consulted by the pipeline.
   */
  datatype Columns = Columns(
    purchaseType: bool,
    ticketClass: bool,
    departure: bool,
    arrival: bool,
    price: bool,
    status: bool)

  /** A ticket row after the merge: Departure_Lat/Lon and Arrival_Lat/Lon. */
  datatype Record = Record(ticket: Ticket, depCoord: Option<Coord>, arrCoord: Option<Coord>)

  /** The two station columns of a row. */
  datatype Side = Departure | Arrival

  function TicketStation(t: Ticket, side: Side): Option<string> {
    match side
    case Departure => t.departure
    case Arrival => t.arrival
  }

  function StationOf(r: Record, side: Side): Option<string> {
    TicketStation(r.ticket, side)
  }

  /** The row with the coordinate columns of one side replaced. */
  function WithCoord(r: Record, side: Side, c: Option<Coord>): Record {
    match side
    case Departure => r.(depCoord := c)
    case Arrival => r.(arrCoord := c)
  }

  /**
   * Boolean-mask selection `rows[mask]`: the rows that satisfy p, in
   * their original order.
   */
  function Select<T(!new)>(rows: seq<T>, p: T -> bool): (r: seq<T>)
    ensures |r| <= |rows|
  {
    if rows == [] then [] else (if p(rows[0]) then [rows[0]] else []) + Select(rows[1..], p)
  }

  /** The selected rows are exactly the rows satisfying p. */
  lemma {:induction false} SelectMembers<T(!new)>(rows: seq<T>, p: T -> bool)
    ensures forall x :: x in Select(rows, p) <==> x in rows && p(x)
    decreases |rows|
  {
    if rows != [] {
      SelectMembers(rows[1..], p);
      assert rows == [rows[0]] + rows[1..];
    }
  }

  /** Each row satisfying p is kept as many times as it occurs; any other, never. */
  lemma {:induction false} SelectCounts<T(!new)>(rows: seq<T>, p: T -> bool)
    ensures forall x :: multiset(Select(rows, p))[x] == if p(x) then multiset(rows)[x] else 0
    decreases |rows|
  {
    if rows != [] {
      SelectCounts(rows[1..], p);
      var head := if p(rows[0]) then [rows[0]] else [];
      assert rows == [rows[0]] + rows[1..];
      assert Select(rows, p) == head + Select(rows[1..], p);
      assert multiset(rows) == multiset{rows[0]} + multiset(rows[1..]);
      assert multiset(Select(rows, p)) == multiset(head) + multiset(Select(rows[1..], p));
    }
  }

  /** a is obtained from b by deleting elements only: nothing is reordered or altered. */
  ghost predicate IsSubsequence<T>(a: seq<T>, b: seq<T>)
    decreases |b|
  {
    if b == [] then a == []
    else (a != [] && a[0] == b[0] && IsSubsequence(a[1..], b[1..])) || IsSubsequence(a, b[1..])
  }

  lemma {:induction false} SelectIsSubsequence<T(!new)>(rows: seq<T>, p: T -> bool)
    ensures IsSubsequence(Select(rows, p), rows)
    decreases |rows|
  {
    if rows != [] {
      SelectIsSubsequence(rows[1..], p);
      if p(rows[0]) {
        assert Select(rows, p) == [rows[0]] + Select(rows[1..], p);
        assert Select(rows, p)[1..] == Select(rows[1..], p);
      } else {
        assert Select(rows, p) == Select(rows[1..], p);
      }
    }
  }

  /** A mask that holds on every row selects the whole sequence. */
  lemma {:induction false} SelectAll<T(!new)>(rows: seq<T>, p: T -> bool)
    requires forall x :: x in rows ==> p(x)
    ensures Select(rows, p) == rows
    decreases |rows|
  {
    if rows != [] {
      SelectAll(rows[1..], p);
    }
  }

  /** Two masks that agree on the rows select the same rows. */
  lemma {:induction false} SelectEquiv<T(!new)>(rows: seq<T>, p: T -> bool, q: T -> bool)
    requires forall x :: x in rows ==> p(x) == q(x)
    ensures Select(rows, p) == Select(rows, q)
    decreases |rows|
  {
    if rows != [] {
      SelectEquiv(rows[1..], p, q);
    }
  }

  /** Masking twice is masking once with the conjunction of the masks. */
  lemma {:induction false} SelectSelect<T(!new)>(rows: seq<T>, p: T -> bool, q: T -> bool, pq: T -> bool)
    requires forall x :: pq(x) == (p(x) && q(x))
    ensures Select(Select(rows, p), q) == Select(rows, pq)
    decreases |rows|
  {
    if rows != [] {
      SelectSelect(rows[1..], p, q, pq);
      var s := Select(rows, p);
      if p(rows[0]) {
        assert s == [rows[0]] + Select(rows[1..], p);
        assert s[0] == rows[0] && s[1..] == Select(rows[1..], p);
        assert Select(s, q) == (if q(rows[0]) then [rows[0]] else []) + Select(s[1..], q);
      } else {
        assert s == Select(rows[1..], p);
      }
    }
  }

  /**
   * Sum of the Price column, skipping nulls (pandas `Series.sum`): a
   * column with no price in it sums to 0, not to a null.
   */
  function PriceSum(rows: seq<Record>): (s: int)
    ensures PriceCount(rows) == 0 ==> s == 0
  {
    if rows == [] then 0
    else (match rows[0].ticket.price case Some(p) => p case None => 0) + PriceSum(rows[1..])
  }

  /** Number of non-null prices (the divisor of pandas `Series.mean`). */
  function PriceCount(rows: seq<Record>): (n: nat)
    ensures n <= |rows|
  {
    if rows == [] then 0
    else (if rows[0].ticket.price.Some? then 1 else 0) + PriceCount(rows[1..])
  }

  /** The Journey Status column. */
  function StatusColumn(rows: seq<Record>): (c: seq<Option<string>>)
    ensures |c| == |rows|
    ensures forall i :: 0 <= i < |rows| ==> c[i] == rows[i].ticket.status
  {
    if rows == [] then [] else [rows[0].ticket.status] + StatusColumn(rows[1..])
  }

  /** A station column. */
  function StationColumn(rows: seq<Record>, side: Side): (c: seq<Option<string>>)
    ensures |c| == |rows|
    ensures forall i :: 0 <= i < |rows| ==> c[i] == StationOf(rows[i], side)
  {
    if rows == [] then [] else [StationOf(rows[0], side)] + StationColumn(rows[1..], side)
  }
}
