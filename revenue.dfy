/**
 * The aggregation stage of the daily sales revenue pipeline
 * (`process_daily_revenue`): per-row revenue, the group-by-date sum and the
 * point lookup for the fixed target date.  Money is kept exact, as an
 * integer number of cents.
 */
module Revenue {
  import opened DateOrder

  datatype Option<T> = None | Some(value: T)

  /** The one date the pipeline answers a question about. */
  const TargetDate: Date := "1996-08-08"

  /** One order line as extracted from the database (a row of the raw sales file). */
  datatype LineItem = LineItem(saleDate: Date, productId: int, price: int, quantity: int, orderId: int)

  /** One row of the daily series. */
  datatype DailyRevenue = DailyRevenue(saleDate: Date, totalRevenue: int)

  /**
   * The persisted point answer: the target day's total, or the literal
   * text `0` written when the series has no row for the target date.
   */
  datatype Answer = Total(amount: int) | NoSales

  /** The `total_revenue` column: quantity times unit price. */
  function Revenue(item: LineItem): int
  {
    item.quantity * item.price
  }

  // ---------------------------------------------------------------------
  // Reference definitions, stated directly over the input rows
  // ---------------------------------------------------------------------

  /** Sum of quantity * price over the rows sold on `d`. */
  function DateRevenue(rows: seq<LineItem>, d: Date): int
  {
    if |rows| == 0 then 0
    else (if rows[0].saleDate == d then rows[0].quantity * rows[0].price else 0) + DateRevenue(rows[1..], d)
  }

  /** Sum of quantity * price over all rows. */
  function GrandTotal(rows: seq<LineItem>): int
  {
    if |rows| == 0 then 0 else rows[0].quantity * rows[0].price + GrandTotal(rows[1..])
  }

  /** The dates on which at least one row was sold. */
  function SaleDates(rows: seq<LineItem>): set<Date>
  {
    set i | 0 <= i < |rows| :: rows[i].saleDate
  }

  // ---------------------------------------------------------------------
  // The daily series
  // ---------------------------------------------------------------------

  function SeriesDates(s: seq<DailyRevenue>): set<Date>
  {
    set i | 0 <= i < |s| :: s[i].saleDate
  }

  /** Dates strictly ascending: sorted and without repeats. */
  predicate StrictlySorted(s: seq<DailyRevenue>)
  {
    forall i, j :: 0 <= i < j < |s| ==> Less(s[i].saleDate, s[j].saleDate)
  }

  /** Sum of the totals the series holds for `d` (over every row keyed `d`). */
  function TotalOn(s: seq<DailyRevenue>, d: Date): int
  {
    if |s| == 0 then 0
    else (if s[0].saleDate == d then s[0].totalRevenue else 0) + TotalOn(s[1..], d)
  }

  /** Sum of every total in the series. */
  function SeriesTotal(s: seq<DailyRevenue>): int
  {
    if |s| == 0 then 0 else s[0].totalRevenue + SeriesTotal(s[1..])
  }

  /** The dates of a series with one more row in front. */
  lemma SeriesDatesCons(x: DailyRevenue, s: seq<DailyRevenue>)
    ensures SeriesDates([x] + s) == {x.saleDate} + SeriesDates(s)
  {
    var r := [x] + s;
    forall e | e in SeriesDates(r) ensures e in {x.saleDate} + SeriesDates(s) {
      var i :| 0 <= i < |r| && r[i].saleDate == e;
      if i > 0 { assert r[i] == s[i - 1]; }
    }
    forall e | e in SeriesDates(s) ensures e in SeriesDates(r) {
      var i :| 0 <= i < |s| && s[i].saleDate == e;
      assert r[i + 1] == s[i];
    }
    assert r[0].saleDate == x.saleDate;
  }

  /**
   * Adds `amount` to the group keyed `d`, opening a new group at its sorted
   * position when `d` is not yet a key.
   */
  function AddToGroup(s: seq<DailyRevenue>, d: Date, amount: int): seq<DailyRevenue>
  {
    if |s| == 0 then [DailyRevenue(d, amount)]
    else if s[0].saleDate == d then [DailyRevenue(d, s[0].totalRevenue + amount)] + s[1..]
    else if Less(d, s[0].saleDate) then [DailyRevenue(d, amount)] + s
    else [s[0]] + AddToGroup(s[1..], d, amount)
  }

  /** Adding to a group makes `d` a key and keeps every other key. */
  lemma {:induction false} AddToGroupDates(s: seq<DailyRevenue>, d: Date, amount: int)
    ensures SeriesDates(AddToGroup(s, d, amount)) == SeriesDates(s) + {d}
  {
    var r := AddToGroup(s, d, amount);
    if |s| == 0 {
      SeriesDatesCons(DailyRevenue(d, amount), []);
      assert r == [DailyRevenue(d, amount)] + [];
    } else {
      SeriesDatesCons(s[0], s[1..]);
      assert s == [s[0]] + s[1..];
      if s[0].saleDate == d {
        SeriesDatesCons(DailyRevenue(d, s[0].totalRevenue + amount), s[1..]);
      } else if Less(d, s[0].saleDate) {
        SeriesDatesCons(DailyRevenue(d, amount), s);
      } else {
        AddToGroupDates(s[1..], d, amount);
        SeriesDatesCons(s[0], AddToGroup(s[1..], d, amount));
      }
    }
  }

  /** Adding to a group raises `d`'s total by `amount`, leaves every other
      date's total alone, and so raises the grand total by `amount`. */
  lemma {:induction false} AddToGroupTotals(s: seq<DailyRevenue>, d: Date, amount: int)
    ensures forall e :: TotalOn(AddToGroup(s, d, amount), e) == TotalOn(s, e) + (if e == d then amount else 0)
    ensures SeriesTotal(AddToGroup(s, d, amount)) == SeriesTotal(s) + amount
  {
    var r := AddToGroup(s, d, amount);
    if |s| > 0 {
      if s[0].saleDate == d {
        assert r[1..] == s[1..];
      } else if Less(d, s[0].saleDate) {
        assert r[1..] == s;
      } else {
        AddToGroupTotals(s[1..], d, amount);
        assert r[1..] == AddToGroup(s[1..], d, amount);
      }
    }
  }

  /** Adding to a group keeps the series strictly ascending, and it grows by
      one row exactly when `d` was not a key yet. */
  lemma {:induction false} AddToGroupSorted(s: seq<DailyRevenue>, d: Date, amount: int)
    requires StrictlySorted(s)
    ensures StrictlySorted(AddToGroup(s, d, amount))
    ensures |AddToGroup(s, d, amount)| == if d in SeriesDates(s) then |s| else |s| + 1
  {
    var r := AddToGroup(s, d, amount);
    if |s| == 0 {
    } else if s[0].saleDate == d {
      assert forall i :: 0 < i < |r| ==> r[i] == s[i];
    } else if Less(d, s[0].saleDate) {
      forall i, j | 0 <= i < j < |r| ensures Less(r[i].saleDate, r[j].saleDate) {
        if i == 0 && j > 1 {
          LessTransitive(d, s[0].saleDate, s[j - 1].saleDate);
        }
      }
      forall i | 0 <= i < |s| ensures s[i].saleDate != d {
        if i > 0 {
          LessTransitive(d, s[0].saleDate, s[i].saleDate);
        }
        LessIrreflexive(d);
      }
    } else {
      var tail := AddToGroup(s[1..], d, amount);
      AddToGroupSorted(s[1..], d, amount);
      AddToGroupDates(s[1..], d, amount);
      LessTotal(d, s[0].saleDate);
      forall j | 0 < j < |r| ensures Less(s[0].saleDate, r[j].saleDate) {
        assert r[j] == tail[j - 1];
        assert r[j].saleDate in SeriesDates(s[1..]) + {d};
        if r[j].saleDate != d {
          var k :| 0 <= k < |s[1..]| && s[1..][k].saleDate == r[j].saleDate;
          assert s[k + 1] == s[1..][k];
        }
      }
      SeriesDatesCons(s[0], s[1..]);
      assert s == [s[0]] + s[1..];
    }
  }

  /**
   * `df.groupby('sale_date')['total_revenue'].sum().reset_index()`: one row
   * per distinct sale date, in ascending key order, holding that date's
   * summed revenue.
   */
  function DailySeries(rows: seq<LineItem>): (r: seq<DailyRevenue>)
    ensures StrictlySorted(r)
    ensures SeriesDates(r) == SaleDates(rows)
    ensures forall d :: TotalOn(r, d) == DateRevenue(rows, d)
    ensures SeriesTotal(r) == GrandTotal(rows)
    ensures |r| <= |rows|
    ensures |r| == 0 <==> |rows| == 0
  {
    if |rows| == 0 then []
    else
      var rest := DailySeries(rows[1..]);
      var r := AddToGroup(rest, rows[0].saleDate, Revenue(rows[0]));
      AddToGroupDates(rest, rows[0].saleDate, Revenue(rows[0]));
      AddToGroupTotals(rest, rows[0].saleDate, Revenue(rows[0]));
      AddToGroupSorted(rest, rows[0].saleDate, Revenue(rows[0]));
      assert SaleDates(rows) == {rows[0].saleDate} + SaleDates(rows[1..]) by {
        assert forall i :: 0 < i < |rows| ==> rows[i] == rows[1..][i - 1];
      }
      assert rows[0].saleDate in SeriesDates(r);
      r
  }

  /** The first row of the series keyed `d`, as `values[0]` of a filtered frame. */
  function FindDate(s: seq<DailyRevenue>, d: Date): Option<int>
  {
    if |s| == 0 then None
    else if s[0].saleDate == d then Some(s[0].totalRevenue)
    else FindDate(s[1..], d)
  }

  /**
   * The point answer persisted for the target date: the day's total when the
   * series has that date, otherwise the sentinel `0`.
   */
  function TargetAnswer(s: seq<DailyRevenue>): Answer
  {
    match FindDate(s, TargetDate)
    case Some(v) => Total(v)
    case None => NoSales
  }

  // ---------------------------------------------------------------------
  // Properties
  // ---------------------------------------------------------------------

  /** In a strictly sorted series no date occurs twice. */
  lemma SortedDatesAreUnique(s: seq<DailyRevenue>, i: int, j: int)
    requires StrictlySorted(s)
    requires 0 <= i < |s| && 0 <= j < |s| && i != j
    ensures s[i].saleDate != s[j].saleDate
  {
    if i < j {
      if s[i].saleDate == s[j].saleDate { LessIrreflexive(s[i].saleDate); }
    } else {
      if s[i].saleDate == s[j].saleDate { LessIrreflexive(s[j].saleDate); }
    }
  }

  /** The lookup finds a row exactly when the date is a key of the series. */
  lemma {:induction false} FindDatePresence(s: seq<DailyRevenue>, d: Date)
    ensures FindDate(s, d).Some? <==> d in SeriesDates(s)
  {
    if |s| > 0 {
      FindDatePresence(s[1..], d);
      SeriesDatesCons(s[0], s[1..]);
      assert s == [s[0]] + s[1..];
    }
  }

  /** In a strictly sorted series what the lookup finds is the key's whole total. */
  lemma {:induction false} FindDateSpec(s: seq<DailyRevenue>, d: Date)
    requires StrictlySorted(s)
    ensures FindDate(s, d).Some? <==> d in SeriesDates(s)
    ensures FindDate(s, d).Some? ==> FindDate(s, d).value == TotalOn(s, d)
    ensures FindDate(s, d).None? ==> TotalOn(s, d) == 0
  {
    FindDatePresence(s, d);
    if |s| > 0 {
      assert StrictlySorted(s[1..]);
      FindDateSpec(s[1..], d);
      if s[0].saleDate == d {
        assert d !in SeriesDates(s[1..]) by {
          forall k | 0 <= k < |s[1..]| ensures s[1..][k].saleDate != d {
            SortedDatesAreUnique(s, 0, k + 1);
          }
        }
      }
    }
  }

  /** Every row of the daily series holds the sum of quantity * price over all
      input rows with its date. */
  lemma DailyTotalIsDateRevenue(rows: seq<LineItem>, i: int)
    requires 0 <= i < |DailySeries(rows)|
    ensures DailySeries(rows)[i].totalRevenue == DateRevenue(rows, DailySeries(rows)[i].saleDate)
  {
    var s := DailySeries(rows);
    var d := s[i].saleDate;
    assert d in SeriesDates(s);
    FindDateSpec(s, d);
    FindDateFirst(s, i);
  }

  /** In a strictly sorted series the lookup of row i's date yields row i. */
  lemma {:induction false} FindDateFirst(s: seq<DailyRevenue>, i: int)
    requires StrictlySorted(s)
    requires 0 <= i < |s|
    ensures FindDate(s, s[i].saleDate) == Some(s[i].totalRevenue)
  {
    if i > 0 {
      SortedDatesAreUnique(s, 0, i);
      assert StrictlySorted(s[1..]);
      FindDateFirst(s[1..], i - 1);
    }
  }

  /** Point lookup: the persisted answer is the target day's revenue summed
      over its rows when some row was sold on the target date, else `0`. */
  lemma TargetAnswerSpec(rows: seq<LineItem>)
    ensures TargetAnswer(DailySeries(rows)) ==
      if TargetDate in SaleDates(rows) then Total(DateRevenue(rows, TargetDate)) else NoSales
  {
    FindDateSpec(DailySeries(rows), TargetDate);
  }

  /** With non-negative prices and quantities every daily total is non-negative. */
  lemma {:induction false} DateRevenueNonNegative(rows: seq<LineItem>, d: Date)
    requires forall i :: 0 <= i < |rows| ==> rows[i].price >= 0 && rows[i].quantity >= 0
    ensures DateRevenue(rows, d) >= 0
  {
    if |rows| > 0 {
      DateRevenueNonNegative(rows[1..], d);
      assert rows[0].quantity * rows[0].price >= 0;
    }
  }

  lemma DailyTotalsNonNegative(rows: seq<LineItem>, i: int)
    requires forall k :: 0 <= k < |rows| ==> rows[k].price >= 0 && rows[k].quantity >= 0
    requires 0 <= i < |DailySeries(rows)|
    ensures DailySeries(rows)[i].totalRevenue >= 0
  {
    DailyTotalIsDateRevenue(rows, i);
    DateRevenueNonNegative(rows, DailySeries(rows)[i].saleDate);
  }

  /** The worked example: two lines on the target date and one on the next day
      (prices in cents). */
  lemma TwoDayExample()
    ensures var rows := [
        LineItem("1996-08-08", 1, 1000, 3, 10248),
        LineItem("1996-08-08", 2, 500, 2, 10248),
        LineItem("1996-08-09", 1, 1000, 1, 10249)];
      DailySeries(rows) == [DailyRevenue("1996-08-08", 4000), DailyRevenue("1996-08-09", 1000)]
      && TargetAnswer(DailySeries(rows)) == Total(4000)
  {
    var a := LineItem("1996-08-08", 1, 1000, 3, 10248);
    var b := LineItem("1996-08-08", 2, 500, 2, 10248);
    var c := LineItem("1996-08-09", 1, 1000, 1, 10249);
    var rows := [a, b, c];
    var s1 := [DailyRevenue("1996-08-09", 1000)];
    var s2 := [DailyRevenue("1996-08-08", 1000), DailyRevenue("1996-08-09", 1000)];
    var s3 := [DailyRevenue("1996-08-08", 4000), DailyRevenue("1996-08-09", 1000)];
    assert rows[1..][1..] == [c] && [c][1..] == [];
    assert DailySeries([c]) == AddToGroup([], c.saleDate, 1000) == s1;
    assert Less("1996-08-08", "1996-08-09") by {
      var x: Date := "1996-08-0";
      assert "1996-08-08" == x + "8" && "1996-08-09" == x + "9";
      LessCommonPrefix(x, "8", "9");
    }
    assert AddToGroup(s1, b.saleDate, 1000) == s2;
    assert DailySeries(rows[1..]) == s2;
    assert AddToGroup(s2, a.saleDate, 3000) == s3;
    assert DailySeries(rows) == s3;
  }

  /** An empty extraction gives an empty series and the sentinel answer. */
  lemma EmptyExample()
    ensures DailySeries([]) == [] && TargetAnswer(DailySeries([])) == NoSales
  {
  }
}
