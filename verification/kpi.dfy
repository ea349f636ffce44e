/**
 * The key performance indicators shown on the three cards: total revenue,
 * average ticket price and the share of delayed journeys, computed over
 * the filtered rows. A KPI whose column is absent falls back to 0.
 */
module Kpi {
  import opened Records

  /** The status value counted as a delay (exact, case-sensitive). */
  const DELAYED: string := "Delayed"

  /**
   * avgPrice is None when pandas' mean is NaN: the Price column is present
   * but holds no non-null value (in particular, no rows at all).
   */
  datatype Kpis = Kpis(
    totalRevenue: int,
    avgPrice: Option<real>,
    delayedCount: nat,
    totalTrips: nat,
    delayedPct: real)

  /** Rows whose Journey Status is exactly "Delayed". */
  function DelayedCount(rows: seq<Record>): (n: nat)
    ensures n <= |rows|
  {
    if rows == [] then 0
    else (if rows[0].ticket.status == Some(DELAYED) then 1 else 0) + DelayedCount(rows[1..])
  }

  /** The delayed count is the number of "Delayed" cells in the status column. */
  lemma {:induction false} DelayedCountIsOccurrences(rows: seq<Record>)
    ensures DelayedCount(rows) == multiset(StatusColumn(rows))[Some(DELAYED)]
  {
    if rows != [] {
      DelayedCountIsOccurrences(rows[1..]);
      assert StatusColumn(rows) == [rows[0].ticket.status] + StatusColumn(rows[1..]);
    }
  }

  /** The mean of the non-null prices (None = NaN when there are none). */
  function Mean(rows: seq<Record>): (m: Option<real>)
    ensures m.Some? <==> PriceCount(rows) > 0
    ensures m.Some? ==> m.value * (PriceCount(rows) as real) == PriceSum(rows) as real
  {
    if PriceCount(rows) == 0 then None
    else Some((PriceSum(rows) as real) / (PriceCount(rows) as real))
  }

  /** `delayed_cnt / total_trips * 100`, or 0 when there are no trips. */
  function DelayedShare(delayed: nat, trips: nat): (pct: real)
    requires delayed <= trips
    ensures 0.0 <= pct <= 100.0
    ensures trips == 0 ==> pct == 0.0
    ensures trips > 0 ==> pct * (trips as real) == (delayed as real) * 100.0
  {
    if trips != 0 then
      var q := (delayed as real) / (trips as real);
      assert q * (trips as real) == delayed as real;
      assert q <= 1.0;
      assert 0.0 <= q;
      assert (q * 100.0) * (trips as real) == (q * (trips as real)) * 100.0;
      q * 100.0
    else 0.0
  }

  /**
   * The KPI block over the rows it is given. Revenue and mean skip null
   * prices; the delay share is guarded against an empty set and always
   * lies between 0 and 100.
   */
  function Compute(cols: Columns, rows: seq<Record>): (k: Kpis)
    ensures k.totalTrips == |rows|
    ensures k.totalRevenue == if cols.price then PriceSum(rows) else 0
    ensures k.avgPrice == if cols.price then Mean(rows) else Some(0.0)
    ensures k.delayedCount == if cols.status then multiset(StatusColumn(rows))[Some(DELAYED)] else 0
    ensures k.delayedCount <= k.totalTrips
    ensures k.delayedPct == DelayedShare(k.delayedCount, k.totalTrips)
    ensures 0.0 <= k.delayedPct <= 100.0
    ensures k.totalTrips == 0 ==> k.delayedPct == 0.0 && k.delayedCount == 0
  {
    DelayedCountIsOccurrences(rows);
    var totalRevenue := if cols.price then PriceSum(rows) else 0;
    var avgPrice := if cols.price then Mean(rows) else Some(0.0);
    var delayedCnt := if cols.status then DelayedCount(rows) else 0;
    var totalTrips := |rows|;
    var delayedPct := DelayedShare(delayedCnt, totalTrips);
    Kpis(totalRevenue, avgPrice, delayedCnt, totalTrips, delayedPct)
  }
}
