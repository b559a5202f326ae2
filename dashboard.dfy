/**
 The dashboard's data pipeline from the fetched table to the summary that the
 chart draws: keep the `'Sale'` rows, convert their dates (failing on a date
 that cannot be converted), keep the rows whose year, month and day are all
 selected, and group what is left by date.
 */
module Dashboard {
  import opened Calendar
  import opened Sales
  import opened GroupBy

  /** The conversion error `pd.to_datetime` raises, naming the offending date. */
  datatype DataError = MalformedDate(date: Date)

  datatype Result<T> = Success(value: T) | Failure(error: DataError)

  /** Convert the `DATE` column of the sale rows: all rows convert, or the whole
      conversion fails on the first row whose date is not a valid timestamp. */
  function ToDatetime(sales: seq<Record>): (res: Result<seq<Record>>)
    ensures res.Success? <==> forall r :: r in sales ==> IsValid(r.date)
    ensures res.Success? ==> res.value == sales
    ensures res.Failure? ==> exists r :: r in sales && !IsValid(r.date) && res.error == MalformedDate(r.date)
  {
    if sales == [] then Success([])
    else if !IsValid(sales[0].date) then Failure(MalformedDate(sales[0].date))
    else
      match ToDatetime(sales[1..])
      case Success(rest) => Success([sales[0]] + rest)
      case Failure(e) => Failure(e)
  }

  /** The records that reach the group-by: sale rows whose date passes the selection. */
  function Eligible(records: seq<Record>, sel: Selection): seq<Record> {
    FilterBySelection(SalesOnly(records), sel)
  }

  /** The whole pipeline. It fails exactly when some sale row has a date that is
      not a valid timestamp; rows of other types are dropped before the dates are
      converted, so their dates never cause a failure. */
  function Summarize(records: seq<Record>, sel: Selection): (res: Result<seq<SummaryRow>>)
    ensures res.Failure? <==> exists r :: r in records && r.kind == SALE_TYPE && !IsValid(r.date)
    ensures res.Failure? ==>
              exists r :: r in records && r.kind == SALE_TYPE && !IsValid(r.date) && res.error == MalformedDate(r.date)
  {
    match ToDatetime(SalesOnly(records))
    case Failure(e) => Failure(e)
    case Success(sales) => Success(GroupByDate(FilterBySelection(sales, sel)))
  }

  // ---------------------------------------------------------------------
  // Reference: what a summary row must hold, read off the raw records

  /** A record takes part in the summary: it is a sale and its date is selected. */
  predicate Contributes(r: Record, sel: Selection) {
    r.kind == SALE_TYPE && Selected(sel, r.date)
  }

  /** Sum of the amounts of the contributing records dated `d`. */
  function SalesTotal(records: seq<Record>, sel: Selection, d: Date): int {
    if records == [] then 0
    else
      (if Contributes(records[0], sel) && records[0].date == d then records[0].amount else 0)
      + SalesTotal(records[1..], sel, d)
  }

  /** Number of contributing records dated `d`. */
  function SalesCount(records: seq<Record>, sel: Selection, d: Date): nat {
    if records == [] then 0
    else
      (if Contributes(records[0], sel) && records[0].date == d then 1 else 0)
      + SalesCount(records[1..], sel, d)
  }

  /** A sale record survives both filters exactly when its year, its month and its
      day are each selected; records of any other type never survive. */
  lemma EligibleMembership(records: seq<Record>, sel: Selection, r: Record)
    ensures r in Eligible(records, sel) <==>
              && r in records
              && r.kind == SALE_TYPE
              && r.date.year in sel.years && r.date.month in sel.months && r.date.day in sel.days
  {
  }

  /** Both filters together keep the first record exactly when it contributes. */
  lemma EligibleCons(records: seq<Record>, sel: Selection)
    requires records != []
    ensures Eligible(records, sel) ==
              (if Contributes(records[0], sel) then [records[0]] else []) + Eligible(records[1..], sel)
  {
    if records[0].kind == SALE_TYPE {
      var rest := SalesOnly(records[1..]);
      assert SalesOnly(records) == [records[0]] + rest;
      assert ([records[0]] + rest)[1..] == rest;
    }
  }

  /** Aggregating the filtered records per date gives the reference totals and counts. */
  lemma {:induction false} EligibleAggregates(records: seq<Record>, sel: Selection, d: Date)
    ensures SumFor(Eligible(records, sel), d) == SalesTotal(records, sel, d)
    ensures CountFor(Eligible(records, sel), d) == SalesCount(records, sel, d)
  {
    if records != [] {
      EligibleCons(records, sel);
      EligibleAggregates(records[1..], sel, d);
      var rest := Eligible(records[1..], sel);
      if Contributes(records[0], sel) {
        assert ([records[0]] + rest)[1..] == rest;
      } else {
        assert [] + rest == rest;
      }
    }
  }

  lemma SummarizeIsGroupedEligible(records: seq<Record>, sel: Selection, rows: seq<SummaryRow>)
    requires Summarize(records, sel) == Success(rows)
    ensures rows == GroupByDate(Eligible(records, sel))
    ensures forall r :: r in Eligible(records, sel) ==> IsValid(r.date)
  {
  }

  // ---------------------------------------------------------------------
  // Properties of the summary

  /** A successful summary has one row per distinct date among the contributing
      records and no row for any other date, and every row's date is a valid
      date whose year, month and day are selected. */
  lemma SummarizeDates(records: seq<Record>, sel: Selection, rows: seq<SummaryRow>)
    requires Summarize(records, sel) == Success(rows)
    ensures |rows| == |DatesIn(Eligible(records, sel))|
    ensures forall d :: d in DatesOf(rows) <==> exists r :: r in records && Contributes(r, sel) && r.date == d
    ensures forall i :: 0 <= i < |rows| ==> IsValid(rows[i].date) && Selected(sel, rows[i].date)
  {
    SummarizeIsGroupedEligible(records, sel, rows);
    var eligible := Eligible(records, sel);
    GroupByDateRows(eligible);
    forall i | 0 <= i < |rows| ensures IsValid(rows[i].date) && Selected(sel, rows[i].date) {
      assert rows[i] in rows;
      assert rows[i].date in DatesIn(eligible);
    }
  }

  /** The rows of a successful summary are in strictly increasing date order, which
      is strictly increasing chronological (day-ordinal) order. */
  lemma SummarizeOrder(records: seq<Record>, sel: Selection, rows: seq<SummaryRow>)
    requires Summarize(records, sel) == Success(rows)
    ensures forall i :: 0 <= i < |rows| ==> IsValid(rows[i].date)
    ensures forall i, j :: 0 <= i < j < |rows| ==> Before(rows[i].date, rows[j].date)
    ensures forall i, j :: 0 <= i < j < |rows| ==> Ordinal(rows[i].date) < Ordinal(rows[j].date)
  {
    SummarizeIsGroupedEligible(records, sel, rows);
    SummarizeDates(records, sel, rows);
    forall i, j | 0 <= i < j < |rows| ensures Ordinal(rows[i].date) < Ordinal(rows[j].date) {
      BeforeIsChronological(rows[i].date, rows[j].date);
    }
  }

  /** Each row's `total_sales` and `num_orders` are the sum and the number of the
      amounts of the contributing records on its date, so at least one order. */
  lemma SummarizeRowTotals(records: seq<Record>, sel: Selection, rows: seq<SummaryRow>)
    requires Summarize(records, sel) == Success(rows)
    ensures forall i :: 0 <= i < |rows| ==>
              && rows[i].totalSales == SalesTotal(records, sel, rows[i].date)
              && rows[i].numOrders == SalesCount(records, sel, rows[i].date)
              && rows[i].numOrders >= 1
  {
    SummarizeIsGroupedEligible(records, sel, rows);
    GroupByDateRows(Eligible(records, sel));
    forall i | 0 <= i < |rows|
      ensures rows[i].totalSales == SalesTotal(records, sel, rows[i].date)
      ensures rows[i].numOrders == SalesCount(records, sel, rows[i].date)
    {
      EligibleAggregates(records, sel, rows[i].date);
    }
  }

  /** Conservation: the `total_sales` column adds up to the amounts of all records
      that passed both filters, and the `num_orders` column to their number. */
  lemma SummarizeConservation(records: seq<Record>, sel: Selection, rows: seq<SummaryRow>)
    requires Summarize(records, sel) == Success(rows)
    ensures GrandTotal(rows) == SumAll(Eligible(records, sel))
    ensures TotalOrders(rows) == |Eligible(records, sel)|
  {
    SummarizeIsGroupedEligible(records, sel, rows);
    GroupByDateConservation(Eligible(records, sel));
  }

  /** Deselecting every year, every month or every day leaves nothing to summarize. */
  lemma EmptySelection(records: seq<Record>, sel: Selection)
    requires sel.years == {} || sel.months == {} || sel.days == {}
    ensures Summarize(records, sel).Failure? || Summarize(records, sel) == Success([])
  {
  }

  /** Without sale rows the summary is empty, whatever the selection. */
  lemma NoSales(records: seq<Record>, sel: Selection)
    requires forall r :: r in records ==> r.kind != SALE_TYPE
    ensures Summarize(records, sel) == Success([])
  {
  }

  /** A row of any other type, wherever it stands, changes nothing in the outcome. */
  lemma OnlySalesContribute(a: seq<Record>, r: Record, b: seq<Record>, sel: Selection)
    requires r.kind != SALE_TYPE
    ensures Summarize(a + [r] + b, sel) == Summarize(a + b, sel)
  {
    SalesOnlyAppend(a + [r], b);
    SalesOnlyAppend(a, [r]);
    SalesOnlyAppend(a, b);
    assert SalesOnly([r]) == [];
    assert SalesOnly(a) + [] == SalesOnly(a);
  }

  /** With the selection the sidebar starts from, every sale row passes the date
      filter, so the summary accounts for the amount of every sale. */
  lemma DefaultSelectionSummary(records: seq<Record>, rows: seq<SummaryRow>)
    requires Summarize(records, DefaultSelection(SalesOnly(records))) == Success(rows)
    ensures Eligible(records, DefaultSelection(SalesOnly(records))) == SalesOnly(records)
    ensures GrandTotal(rows) == SumAll(SalesOnly(records))
    ensures TotalOrders(rows) == |SalesOnly(records)|
  {
    var sel := DefaultSelection(SalesOnly(records));
    SummarizeIsGroupedEligible(records, sel, rows);
    DefaultSelectionKeepsAll(SalesOnly(records));
    SummarizeConservation(records, sel, rows);
  }

  // ---------------------------------------------------------------------
  // Worked examples

  /** The three example sales, two on the first day and one on the second. */
  function ExampleSales(): seq<Record> {
    [ Record("Sale", Date(2024, 1, 1), 10),
      Record("Sale", Date(2024, 1, 1), 5),
      Record("Sale", Date(2024, 1, 2), 7) ]
  }

  /** The example table: the sales followed by a refund on the second day. */
  function ExampleRecords(): seq<Record> {
    ExampleSales() + [Record("Refund", Date(2024, 1, 2), 3)]
  }

  lemma ExampleTypeFilter()
    ensures SalesOnly(ExampleRecords()) == ExampleSales()
  {
    var sales := ExampleSales();
    SalesOnlyAppend(sales, [Record("Refund", Date(2024, 1, 2), 3)]);
    assert sales[1..][1..][1..] == [];
    assert SalesOnly(sales) == sales;
  }

  lemma ExampleGrouping()
    ensures GroupByDate(ExampleSales()) ==
              [SummaryRow(Date(2024, 1, 1), 15, 2), SummaryRow(Date(2024, 1, 2), 7, 1)]
  {
    var sales := ExampleSales();
    assert sales[2..] == [sales[2]];
  }

  /** Everything selected: one row per day, the refund left out. */
  lemma ExampleDefaultSelection()
    ensures Summarize(ExampleRecords(), DefaultSelection(SalesOnly(ExampleRecords()))) ==
              Success([SummaryRow(Date(2024, 1, 1), 15, 2), SummaryRow(Date(2024, 1, 2), 7, 1)])
  {
    var sales := ExampleSales();
    ExampleTypeFilter();
    assert forall r :: r in sales ==> IsValid(r.date);
    DefaultSelectionKeepsAll(sales);
    ExampleGrouping();
  }

  /** Only February selected: every sale is in January, so nothing is left. */
  lemma ExampleFebruaryOnly()
    ensures Summarize(ExampleRecords(), Selection({2024}, {2}, DayOptions())) == Success([])
  {
    var sales := ExampleSales();
    ExampleTypeFilter();
    assert forall r :: r in sales ==> IsValid(r.date);
    assert FilterBySelection(sales, Selection({2024}, {2}, DayOptions())) == [];
  }

  /** A sale dated on a day that does not exist (2023 is not a leap year) makes the
      whole summary fail, whatever the selection ... */
  lemma ExampleMalformedSale(sel: Selection)
    ensures Summarize([Record("Sale", Date(2023, 2, 29), 10), Record("Sale", Date(2024, 1, 1), 5)], sel) ==
              Failure(MalformedDate(Date(2023, 2, 29)))
  {
    var records := [Record("Sale", Date(2023, 2, 29), 10), Record("Sale", Date(2024, 1, 1), 5)];
    assert records[1..][1..] == [];
    assert SalesOnly(records) == records;
  }

  /** ... while the same date on a refund is never converted, so it does no harm. */
  lemma ExampleMalformedRefund(sel: Selection)
    ensures Summarize([Record("Refund", Date(2023, 2, 29), 10), Record("Sale", Date(2024, 1, 1), 5)], sel).Success?
  {
    var records := [Record("Refund", Date(2023, 2, 29), 10), Record("Sale", Date(2024, 1, 1), 5)];
    assert records[1..][1..] == [];
    assert SalesOnly(records) == records[1..];
  }
}
