/**
 * The sidebar filter stage: four multiselect widgets (Purchase Type,
 * Ticket Class, Departure Station, Arrival Destination). An empty
 * selection imposes nothing; a non-empty one keeps the rows whose cell is
 * one of the selected values. The script narrows a copy of the dataset
 * one selection at a time.
 */
module Filters {
  import opened Records

  datatype Column = PurchaseType | TicketClass | DepartureStation | ArrivalDestination

  /** The four multiselect selections. */
  datatype Criteria = Criteria(
    purchaseType: set<string>,
    ticketClass: set<string>,
    departure: set<string>,
    arrival: set<string>)

  function Cell(r: Record, c: Column): Option<string> {
    match c
    case PurchaseType => r.ticket.purchaseType
    case TicketClass => r.ticket.ticketClass
    case DepartureStation => r.ticket.departure
    case ArrivalDestination => r.ticket.arrival
  }

  function Selection(crit: Criteria, c: Column): set<string> {
    match c
    case PurchaseType => crit.purchaseType
    case TicketClass => crit.ticketClass
    case DepartureStation => crit.departure
    case ArrivalDestination => crit.arrival
  }

  /**
   * What the widgets can produce: each widget offers the values of its
   * column, and no values at all when the column is absent.
   */
  predicate Offered(cols: Columns, crit: Criteria) {
    && (crit.purchaseType != {} ==> cols.purchaseType)
    && (crit.ticketClass != {} ==> cols.ticketClass)
    && (crit.departure != {} ==> cols.departure)
    && (crit.arrival != {} ==> cols.arrival)
  }

  /** pandas `isin`: the cell is one of the selected values (a null cell never is). */
  predicate IsIn(r: Record, c: Column, sel: set<string>) {
    Cell(r, c).Some? && Cell(r, c).value in sel
  }

  /** The mask of one narrowing step. */
  function InSelection(c: Column, sel: set<string>): Record -> bool {
    r => IsIn(r, c, sel)
  }

  /** One selection lets the row through: it is empty, or holds the row's cell. */
  predicate Admits(r: Record, crit: Criteria, c: Column) {
    Selection(crit, c) == {} || IsIn(r, c, Selection(crit, c))
  }

  /** The four selections, ANDed. */
  predicate Satisfies(r: Record, crit: Criteria) {
    && Admits(r, crit, PurchaseType)
    && Admits(r, crit, TicketClass)
    && Admits(r, crit, DepartureStation)
    && Admits(r, crit, ArrivalDestination)
  }

  function Matching(crit: Criteria): Record -> bool {
    r => Satisfies(r, crit)
  }

  /**
   * Reference definition of the filtered dataset: the rows that every
   * active selection admits. It drops rows only, never reorders or alters
   * one, and with no active selection it is the whole dataset.
   */
  function Filtered(rows: seq<Record>, crit: Criteria): (r: seq<Record>)
    ensures forall x :: x in r <==> x in rows && Satisfies(x, crit)
    ensures IsSubsequence(r, rows)
    ensures (forall c :: Selection(crit, c) == {}) ==> r == rows
  {
    SelectIsSubsequence(rows, Matching(crit));
    SelectMembers(rows, Matching(crit));
    assert (forall c :: Selection(crit, c) == {}) ==> Select(rows, Matching(crit)) == rows by {
      if forall c :: Selection(crit, c) == {} {
        SelectAll(rows, Matching(crit));
      }
    }
    Select(rows, Matching(crit))
  }

  /** A row that satisfies all four selections is kept as often as it occurs; any other, never. */
  lemma FilteredCounts(rows: seq<Record>, crit: Criteria)
    ensures forall x :: multiset(Filtered(rows, crit))[x] == if Satisfies(x, crit) then multiset(rows)[x] else 0
  {
    SelectCounts(rows, Matching(crit));
  }

  /** One conditional narrowing step `if sel: filtered = filtered[filtered[c].isin(sel)]`. */
  lemma NarrowStep(rows: seq<Record>, crit: Criteria, c: Column, p: Record -> bool, q: Record -> bool)
    requires forall x :: q(x) == (p(x) && Admits(x, crit, c))
    ensures (if Selection(crit, c) == {} then Select(rows, p)
             else Select(Select(rows, p), InSelection(c, Selection(crit, c)))) == Select(rows, q)
  {
    if Selection(crit, c) == {} {
      SelectEquiv(rows, p, q);
    } else {
      SelectSelect(rows, p, InSelection(c, Selection(crit, c)), q);
    }
  }

  /** The widget order in which the script applies the selections. */
  function ColumnAt(k: nat): Column
    requires k < 4
  {
    if k == 0 then PurchaseType
    else if k == 1 then TicketClass
    else if k == 2 then DepartureStation
    else ArrivalDestination
  }

  /** The row passes the first k selections in widget order. */
  predicate AdmittedUpTo(r: Record, crit: Criteria, k: nat) {
    && (k > 0 ==> Admits(r, crit, PurchaseType))
    && (k > 1 ==> Admits(r, crit, TicketClass))
    && (k > 2 ==> Admits(r, crit, DepartureStation))
    && (k > 3 ==> Admits(r, crit, ArrivalDestination))
  }

  function Stage(crit: Criteria, k: nat): Record -> bool {
    r => AdmittedUpTo(r, crit, k)
  }

  /** Narrowing step k takes the rows passing k selections to those passing k + 1. */
  lemma StageStep(rows: seq<Record>, crit: Criteria, k: nat)
    requires k < 4
    ensures (if Selection(crit, ColumnAt(k)) == {} then Select(rows, Stage(crit, k))
             else Select(Select(rows, Stage(crit, k)), InSelection(ColumnAt(k), Selection(crit, ColumnAt(k)))))
            == Select(rows, Stage(crit, k + 1))
  {
    assert forall x :: Stage(crit, k + 1)(x) == (Stage(crit, k)(x) && Admits(x, crit, ColumnAt(k)));
    NarrowStep(rows, crit, ColumnAt(k), Stage(crit, k), Stage(crit, k + 1));
  }

  /** No selection applied yet: every row is kept. */
  lemma StageNone(rows: seq<Record>, crit: Criteria)
    ensures Select(rows, Stage(crit, 0)) == rows
  {
    SelectAll(rows, Stage(crit, 0));
  }

  /** All four selections applied: the reference filter. */
  lemma StageAll(rows: seq<Record>, crit: Criteria)
    ensures Select(rows, Stage(crit, 4)) == Filtered(rows, crit)
  {
    SelectEquiv(rows, Stage(crit, 4), Matching(crit));
  }

  /**
   * One sidebar step `if sel: filtered = filtered[filtered[c].isin(sel)]`,
   * applied to the rows that passed the earlier steps.
   */
  method Narrow(rows: seq<Record>, crit: Criteria, k: nat, filtered: seq<Record>) returns (out: seq<Record>)
    requires k < 4
    requires filtered == Select(rows, Stage(crit, k))
    ensures out == Select(rows, Stage(crit, k + 1))
  {
    var c := ColumnAt(k);
    var sel := Selection(crit, c);
    out := filtered;
    if sel != {} {
      out := Select(filtered, InSelection(c, sel));
    }
    StageStep(rows, crit, k);
  }

  /**
   * The filter stage as the script runs it: a copy narrowed by each
   * non-empty selection in turn, in widget order. The result is the
   * reference filter.
   */
  method ApplyFilters(cols: Columns, rows: seq<Record>, crit: Criteria) returns (filtered: seq<Record>)
    requires Offered(cols, crit)
    ensures filtered == Filtered(rows, crit)
    ensures IsSubsequence(filtered, rows)
    ensures forall x :: x in filtered <==> x in rows && Satisfies(x, crit)
    ensures forall x :: multiset(filtered)[x] == if Satisfies(x, crit) then multiset(rows)[x] else 0
  {
    StageNone(rows, crit);
    filtered := Narrow(rows, crit, 0, rows);
    filtered := Narrow(rows, crit, 1, filtered);
    filtered := Narrow(rows, crit, 2, filtered);
    filtered := Narrow(rows, crit, 3, filtered);
    StageAll(rows, crit);
    FilteredCounts(rows, crit);
  }
}
