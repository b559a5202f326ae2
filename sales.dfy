/**
 The rows the dashboard reads from its data source and the two row filters it
 applies before aggregating: the `TYPE == 'Sale'` mask and the conjunctive
 year/month/day membership mask of the sidebar selection, together with the
 selection the sidebar starts from.
 */
module Sales {
  import opened Calendar

  /** The `TYPE` value of the rows that take part in the summary. */
  const SALE_TYPE := "Sale"

  /** One row of the data table: its `TYPE`, its `DATE` (already converted to a
      calendar day) and its `AMOUNT`, an exact integer such as cents. */
  datatype Record = Record(kind: string, date: Date, amount: int)

  /** The three sidebar multiselects: chosen years, months and days. */
  datatype Selection = Selection(years: set<int>, months: set<int>, days: set<int>)

  /** Keep the rows whose `TYPE` is exactly `'Sale'`, in their original order. */
  function SalesOnly(records: seq<Record>): (sales: seq<Record>)
    ensures |sales| <= |records|
    ensures forall r :: r in sales <==> r in records && r.kind == SALE_TYPE
  {
    if records == [] then []
    else if records[0].kind == SALE_TYPE then [records[0]] + SalesOnly(records[1..])
    else SalesOnly(records[1..])
  }

  /** The type filter keeps the sale rows of each part of a concatenation. */
  lemma {:induction false} SalesOnlyAppend(a: seq<Record>, b: seq<Record>)
    ensures SalesOnly(a + b) == SalesOnly(a) + SalesOnly(b)
  {
    if a == [] {
      assert a + b == b;
    } else {
      assert (a + b)[1..] == a[1..] + b;
      SalesOnlyAppend(a[1..], b);
    }
  }

  /** A date passes the sidebar filter when its year, its month and its day are
      each among the selected ones. */
  predicate Selected(sel: Selection, d: Date) {
    d.year in sel.years && d.month in sel.months && d.day in sel.days
  }

  /** Keep the rows whose date passes the selection, in their original order. */
  function FilterBySelection(sales: seq<Record>, sel: Selection): (kept: seq<Record>)
    ensures |kept| <= |sales|
    ensures forall r :: r in kept <==> r in sales && Selected(sel, r.date)
  {
    if sales == [] then []
    else if Selected(sel, sales[0].date) then [sales[0]] + FilterBySelection(sales[1..], sel)
    else FilterBySelection(sales[1..], sel)
  }

  /** Every distinct year among the sale rows: the options and the default of the
      year multiselect. */
  function YearOptions(sales: seq<Record>): (years: set<int>)
    ensures forall y :: y in years <==> exists r :: r in sales && r.date.year == y
  {
    set r | r in sales :: r.date.year
  }

  /** The integers `lo <= x < hi`, as Python's `range(lo, hi)` lists them. */
  function Range(lo: int, hi: int): (s: set<int>)
    ensures forall x :: x in s <==> lo <= x < hi
    decreases hi - lo
  {
    if lo >= hi then {} else {lo} + Range(lo + 1, hi)
  }

  /** The months 1..12 and the days 1..31: options and defaults of the other two
      multiselects. */
  function MonthOptions(): set<int> {
    Range(1, 13)
  }

  function DayOptions(): set<int> {
    Range(1, 32)
  }

  /** The selection the sidebar shows before the user changes anything. */
  function DefaultSelection(sales: seq<Record>): Selection {
    Selection(YearOptions(sales), MonthOptions(), DayOptions())
  }

  /** When every sale date is valid, the default selection returns the sale rows
      unchanged: each year is one of the year options and a valid date's month and
      day are within 1..12 and 1..31. */
  lemma {:induction false} DefaultSelectionKeepsAll(sales: seq<Record>)
    requires forall r :: r in sales ==> IsValid(r.date)
    ensures FilterBySelection(sales, DefaultSelection(sales)) == sales
  {
    var sel := DefaultSelection(sales);
    KeepsAllSelected(sales, sel);
  }

  /** The date filter leaves a sequence unchanged when every date in it passes. */
  lemma {:induction false} KeepsAllSelected(sales: seq<Record>, sel: Selection)
    requires forall r :: r in sales ==> IsValid(r.date) && r.date.year in sel.years
    requires MonthOptions() <= sel.months && DayOptions() <= sel.days
    ensures FilterBySelection(sales, sel) == sales
  {
    if sales != [] {
      var r := sales[0];
      assert r in sales;
      ValidComponents(r.date);
      assert Selected(sel, r.date) by {
        assert r.date.month in MonthOptions() && r.date.day in DayOptions();
      }
      KeepsAllSelected(sales[1..], sel);
      assert sales == [r] + sales[1..];
    }
  }
}
