/**
 `groupby('DATE').agg(total_sales=('AMOUNT', 'sum'), num_orders=('AMOUNT', 'count'))`
 followed by `reset_index()`: one summary row per distinct date, with the sum
 and the count of the amounts on that date, rows sorted by date (pandas sorts
 group keys by default).

 `GroupByDate` builds the rows by inserting the records one at a time into a
 date-sorted list of rows. `SumFor` and `CountFor` are the reference: the sum
 and count of the amounts of the records on one date, computed straight from
 the records. The lemmas connect the two.
 */
module GroupBy {
  import opened Calendar
  import opened Sales

  /** One row of the summary table after `reset_index()`. */
  datatype SummaryRow = SummaryRow(date: Date, totalSales: int, numOrders: nat)

  // ---------------------------------------------------------------------
  // Reference aggregates over the records

  /** Sum of the amounts of the records dated `d`. */
  function SumFor(rs: seq<Record>, d: Date): int {
    if rs == [] then 0
    else (if rs[0].date == d then rs[0].amount else 0) + SumFor(rs[1..], d)
  }

  /** Number of records dated `d`. */
  function CountFor(rs: seq<Record>, d: Date): nat {
    if rs == [] then 0
    else (if rs[0].date == d then 1 else 0) + CountFor(rs[1..], d)
  }

  /** Sum of all amounts. */
  function SumAll(rs: seq<Record>): int {
    if rs == [] then 0 else rs[0].amount + SumAll(rs[1..])
  }

  /** The distinct dates of the records. */
  function DatesIn(rs: seq<Record>): set<Date> {
    set r | r in rs :: r.date
  }

  /** A date has at least one record exactly when it is one of the records' dates. */
  lemma {:induction false} CountPositive(rs: seq<Record>, d: Date)
    ensures CountFor(rs, d) >= 1 <==> d in DatesIn(rs)
  {
    if rs != [] {
      CountPositive(rs[1..], d);
      assert forall r :: r in rs <==> r == rs[0] || r in rs[1..];
    }
  }

  // ---------------------------------------------------------------------
  // Summary rows

  predicate StrictlyAscending(rows: seq<SummaryRow>) {
    forall i, j :: 0 <= i < j < |rows| ==> Before(rows[i].date, rows[j].date)
  }

  function DatesOf(rows: seq<SummaryRow>): set<Date> {
    set row | row in rows :: row.date
  }

  /** The summed `total_sales` of the rows dated `d` (in a strictly ascending
      table there is at most one). */
  function TotalFor(rows: seq<SummaryRow>, d: Date): int {
    if rows == [] then 0
    else (if rows[0].date == d then rows[0].totalSales else 0) + TotalFor(rows[1..], d)
  }

  function OrdersFor(rows: seq<SummaryRow>, d: Date): nat {
    if rows == [] then 0
    else (if rows[0].date == d then rows[0].numOrders else 0) + OrdersFor(rows[1..], d)
  }

  /** Sum of the `total_sales` column. */
  function GrandTotal(rows: seq<SummaryRow>): int {
    if rows == [] then 0 else rows[0].totalSales + GrandTotal(rows[1..])
  }

  /** Sum of the `num_orders` column. */
  function TotalOrders(rows: seq<SummaryRow>): nat {
    if rows == [] then 0 else rows[0].numOrders + TotalOrders(rows[1..])
  }

  lemma DatesOfCons(row: SummaryRow, rows: seq<SummaryRow>)
    ensures DatesOf([row] + rows) == {row.date} + DatesOf(rows)
  {
    assert forall x :: x in [row] + rows <==> x == row || x in rows;
  }

  /** A row placed in front of a strictly ascending table whose dates all come
      after it keeps the table strictly ascending. */
  lemma PrependAscending(row: SummaryRow, rows: seq<SummaryRow>)
    requires StrictlyAscending(rows)
    requires forall d :: d in DatesOf(rows) ==> Before(row.date, d)
    ensures StrictlyAscending([row] + rows)
  {
    var out := [row] + rows;
    forall i, j | 0 <= i < j < |out| ensures Before(out[i].date, out[j].date) {
      assert out[j] == rows[j - 1];
      assert rows[j - 1] in rows;
      if i > 0 {
        assert out[i] == rows[i - 1];
      }
    }
  }

  /** Fold one record into a date-sorted table: add to the row of its date, or
      insert a new row with a count of one where its date belongs. */
  function AddRecord(rows: seq<SummaryRow>, r: Record): (out: seq<SummaryRow>)
    requires StrictlyAscending(rows)
    ensures StrictlyAscending(out)
    ensures DatesOf(out) == DatesOf(rows) + {r.date}
  {
    if rows == [] then
      [SummaryRow(r.date, r.amount, 1)]
    else if rows[0].date == r.date then
      var row := SummaryRow(r.date, rows[0].totalSales + r.amount, rows[0].numOrders + 1);
      assert DatesOf([row] + rows[1..]) == DatesOf(rows) by {
        assert rows == [rows[0]] + rows[1..];
      }
      PrependAscending(row, rows[1..]);
      [row] + rows[1..]
    else if Before(r.date, rows[0].date) then
      var row := SummaryRow(r.date, r.amount, 1);
      assert DatesOf([row] + rows) == DatesOf(rows) + {r.date};
      PrependAscending(row, rows);
      [row] + rows
    else
      var rest := AddRecord(rows[1..], r);
      DatesOfCons(rows[0], rest);
      DatesOfCons(rows[0], rows[1..]);
      assert rows == [rows[0]] + rows[1..];
      PrependAscending(rows[0], rest);
      [rows[0]] + rest
  }

  /** The summary table of `rs`: one row per distinct date, in ascending date order. */
  function GroupByDate(rs: seq<Record>): (rows: seq<SummaryRow>)
    ensures StrictlyAscending(rows)
    ensures DatesOf(rows) == DatesIn(rs)
  {
    if rs == [] then []
    else
      var rows := AddRecord(GroupByDate(rs[1..]), rs[0]);
      assert DatesIn(rs) == DatesIn(rs[1..]) + {rs[0].date} by {
        assert forall r :: r in rs <==> r == rs[0] || r in rs[1..];
      }
      rows
  }

  /** Adding a record adds its amount and one order to its own date only. */
  lemma {:induction false} AddRecordAggregates(rows: seq<SummaryRow>, r: Record, d: Date)
    requires StrictlyAscending(rows)
    ensures TotalFor(AddRecord(rows, r), d) == TotalFor(rows, d) + (if r.date == d then r.amount else 0)
    ensures OrdersFor(AddRecord(rows, r), d) == OrdersFor(rows, d) + (if r.date == d then 1 else 0)
    ensures GrandTotal(AddRecord(rows, r)) == GrandTotal(rows) + r.amount
    ensures TotalOrders(AddRecord(rows, r)) == TotalOrders(rows) + 1
  {
    if rows != [] && rows[0].date != r.date && !Before(r.date, rows[0].date) {
      AddRecordAggregates(rows[1..], r, d);
    }
  }

  /** Each date's `total_sales` and `num_orders` in the grouped table are the sum and
      the count of the amounts of the records on that date. */
  lemma {:induction false} GroupByDateAggregates(rs: seq<Record>, d: Date)
    ensures TotalFor(GroupByDate(rs), d) == SumFor(rs, d)
    ensures OrdersFor(GroupByDate(rs), d) == CountFor(rs, d)
  {
    if rs != [] {
      GroupByDateAggregates(rs[1..], d);
      AddRecordAggregates(GroupByDate(rs[1..]), rs[0], d);
    }
  }

  /** Conservation: the `total_sales` column sums to the sum of all amounts and the
      `num_orders` column to the number of records. */
  lemma {:induction false} GroupByDateConservation(rs: seq<Record>)
    ensures GrandTotal(GroupByDate(rs)) == SumAll(rs)
    ensures TotalOrders(GroupByDate(rs)) == |rs|
  {
    if rs != [] {
      GroupByDateConservation(rs[1..]);
      AddRecordAggregates(GroupByDate(rs[1..]), rs[0], rs[0].date);
    }
  }

  /** A date absent from a table contributes nothing to its aggregates. */
  lemma {:induction false} AbsentDate(rows: seq<SummaryRow>, d: Date)
    requires d !in DatesOf(rows)
    ensures TotalFor(rows, d) == 0 && OrdersFor(rows, d) == 0
  {
    if rows != [] {
      assert rows[0] in rows;
      assert DatesOf(rows[1..]) <= DatesOf(rows) by {
        forall row | row in rows[1..] ensures row in rows { }
      }
      AbsentDate(rows[1..], d);
    }
  }

  /** In a strictly ascending table the first row's date does not recur later. */
  lemma HeadDateNotInTail(rows: seq<SummaryRow>)
    requires StrictlyAscending(rows) && rows != []
    ensures rows[0].date !in DatesOf(rows[1..])
  {
    forall row | row in rows[1..] ensures row.date != rows[0].date {
      var j :| 0 <= j < |rows[1..]| && rows[1..][j] == row;
      assert Before(rows[0].date, rows[j + 1].date);
    }
  }

  /** In a strictly ascending table a row's own values are the aggregates of its date. */
  lemma {:induction false} AscendingRowLookup(rows: seq<SummaryRow>, i: nat)
    requires StrictlyAscending(rows) && i < |rows|
    ensures TotalFor(rows, rows[i].date) == rows[i].totalSales
    ensures OrdersFor(rows, rows[i].date) == rows[i].numOrders
  {
    var d := rows[i].date;
    if i == 0 {
      HeadDateNotInTail(rows);
      AbsentDate(rows[1..], d);
    } else {
      assert Before(rows[0].date, d);
      assert rows[1..][i - 1] == rows[i];
      AscendingRowLookup(rows[1..], i - 1);
    }
  }

  /** A strictly ascending table has as many rows as distinct dates. */
  lemma {:induction false} AscendingRowCount(rows: seq<SummaryRow>)
    requires StrictlyAscending(rows)
    ensures |DatesOf(rows)| == |rows|
  {
    if rows != [] {
      AscendingRowCount(rows[1..]);
      HeadDateNotInTail(rows);
      assert DatesOf(rows) == {rows[0].date} + DatesOf(rows[1..]) by {
        assert forall row :: row in rows <==> row == rows[0] || row in rows[1..];
      }
    }
  }

  /** The grouped table holds exactly one row per distinct date of the records, no
      row for any other date, and every row carries the sum and the count of the
      amounts on its date; every row counts at least one order. */
  lemma GroupByDateRows(rs: seq<Record>)
    ensures |GroupByDate(rs)| == |DatesIn(rs)|
    ensures forall i :: 0 <= i < |GroupByDate(rs)| ==>
              && GroupByDate(rs)[i].totalSales == SumFor(rs, GroupByDate(rs)[i].date)
              && GroupByDate(rs)[i].numOrders == CountFor(rs, GroupByDate(rs)[i].date)
              && GroupByDate(rs)[i].numOrders >= 1
  {
    var rows := GroupByDate(rs);
    AscendingRowCount(rows);
    forall i | 0 <= i < |rows|
      ensures rows[i].totalSales == SumFor(rs, rows[i].date)
      ensures rows[i].numOrders == CountFor(rs, rows[i].date)
      ensures rows[i].numOrders >= 1
    {
      AscendingRowLookup(rows, i);
      GroupByDateAggregates(rs, rows[i].date);
      assert rows[i] in rows;
      CountPositive(rs, rows[i].date);
    }
  }
}
