/**
 * The four stages of the DAG and the files through which they hand data on.
 * Each file at its fixed path is a field of `Workspace`: `None` while the
 * file does not exist, `Some(content)` once a stage has written it.  Every
 * write replaces the whole file.
 */
module Pipeline {
  import opened DateOrder
  import opened Revenue

  datatype StageError =
    | SourceUnavailable  // the database connection or query failed
    | DataNotFound       // an input file of the stage does not exist

  datatype Outcome = Pass | Fail(error: StageError)

  /** A saved line chart: the plotted series and, on the annotated variant,
      the revenue called out at the target date. */
  datatype Chart = Chart(points: seq<DailyRevenue>, callout: Option<int>)

  class Workspace {
    var salesData: Option<seq<LineItem>>         // daily_sales_data.csv
    var dailyRevenue: Option<seq<DailyRevenue>>  // daily_revenue.csv
    var targetRevenue: Option<Answer>           // revenue_1996_08_08.txt
    var chart: Option<Chart>                     // daily_revenue_plot.png
    var annotatedChart: Option<Chart>            // daily_revenue_plot_annotated.png

    /** An empty output directory. */
    constructor ()
      ensures salesData == None && dailyRevenue == None && targetRevenue == None
      ensures chart == None && annotatedChart == None
    {
      salesData, dailyRevenue, targetRevenue := None, None, None;
      chart, annotatedChart := None, None;
    }

    /**
     * Task 1.  `extracted` is the result of the three-way join run by the
     * database, `None` when the connection or the query fails; on success
     * the rows are saved as the raw sales file.
     */
    method FetchOrderData(extracted: Option<seq<LineItem>>) returns (outcome: Outcome)
      modifies this`salesData
      ensures extracted.Some? ==> outcome == Pass && salesData == extracted
      ensures extracted.None? ==> outcome == Fail(SourceUnavailable) && salesData == old(salesData)
    {
      match extracted {
        case None =>
          outcome := Fail(SourceUnavailable);
        case Some(rows) =>
          salesData := Some(rows);
          outcome := Pass;
      }
    }

    /**
     * Task 2.  Fails when the raw sales file is missing; otherwise saves the
     * daily series and then the point answer for the target date.
     */
    method ProcessDailyRevenue() returns (outcome: Outcome)
      modifies this`dailyRevenue, this`targetRevenue
      ensures salesData.None? ==>
                outcome == Fail(DataNotFound)
                && dailyRevenue == old(dailyRevenue) && targetRevenue == old(targetRevenue)
      ensures salesData.Some? ==>
                outcome == Pass
                && dailyRevenue == Some(DailySeries(salesData.value))
                && targetRevenue == Some(
                     if TargetDate in SaleDates(salesData.value)
                     then Total(DateRevenue(salesData.value, TargetDate))
                     else NoSales)
    {
      match salesData {
        case None =>
          outcome := Fail(DataNotFound);
        case Some(rows) =>
          var series := DailySeries(rows);
          dailyRevenue := Some(series);
          TargetAnswerSpec(rows);
          targetRevenue := Some(TargetAnswer(series));
          outcome := Pass;
      }
    }

    /**
     * Task 3.  Fails when the daily series file is missing; otherwise always
     * saves the base chart, and saves the annotated chart only when the
     * series has a row for the target date.  When it has none, an annotated
     * chart left by an earlier run stays where it is.
     */
    method PlotDailyRevenue() returns (outcome: Outcome)
      modifies this`chart, this`annotatedChart
      ensures dailyRevenue.None? ==>
                outcome == Fail(DataNotFound)
                && chart == old(chart) && annotatedChart == old(annotatedChart)
      ensures dailyRevenue.Some? ==> outcome == Pass && chart == Some(Chart(dailyRevenue.value, None))
      ensures dailyRevenue.Some? && TargetDate in SeriesDates(dailyRevenue.value) ==>
        annotatedChart.Some? && annotatedChart.value.points == dailyRevenue.value
        && annotatedChart.value.callout == FindDate(dailyRevenue.value, TargetDate)
        && annotatedChart.value.callout.Some?
      ensures dailyRevenue.Some? && TargetDate !in SeriesDates(dailyRevenue.value) ==>
        annotatedChart == old(annotatedChart)
    {
      match dailyRevenue {
        case None =>
          outcome := Fail(DataNotFound);
        case Some(series) =>
          chart := Some(Chart(series, None));
          FindDatePresence(series, TargetDate);
          var found := FindDate(series, TargetDate);
          if found.Some? {
            annotatedChart := Some(Chart(series, found));
          }
          outcome := Pass;
      }
    }

    /**
     * Task 4.  Echoes the saved point answer (the sentinel reads back as 0);
     * a missing answer file is not an error but yields 0.
     */
    method DisplayFinalAnswer() returns (revenue: int)
      ensures targetRevenue.None? ==> revenue == 0
      ensures targetRevenue == Some(NoSales) ==> revenue == 0
      ensures targetRevenue.Some? && targetRevenue.value.Total? ==> revenue == targetRevenue.value.amount
    {
      match targetRevenue {
        case None =>
          revenue := 0;
        case Some(Total(amount)) =>
          revenue := amount;
        case Some(NoSales) =>
          revenue := 0;
      }
    }
  }

  // ---------------------------------------------------------------------
  // The task graph: fetch >> process >> [plot, display]
  // ---------------------------------------------------------------------

  datatype Task = Fetch | Process | Plot | Display

  /** The tasks each task directly depends on. */
  function Upstream(t: Task): set<Task>
  {
    match t
    case Fetch => {}
    case Process => {Fetch}
    case Plot => {Process}
    case Display => {Process}
  }

  /** An order in which the scheduler may run one DAG run: every task once,
      each after the tasks it depends on. */
  predicate IsSchedule(order: seq<Task>)
  {
    && |order| == 4
    && (forall t: Task :: t in order)
    && (forall i, u :: 0 <= i < |order| && u in Upstream(order[i]) ==> u in order[..i])
  }

  /** The dependency edges leave exactly two schedules: the two downstream
      tasks may run in either order after processing. */
  lemma Schedules(order: seq<Task>)
    ensures IsSchedule(order) <==>
      order == [Fetch, Process, Plot, Display] || order == [Fetch, Process, Display, Plot]
  {
    if IsSchedule(order) {
      assert order == [order[0], order[1], order[2], order[3]];
      assert order[..0] == [];
      assert forall u :: u in Upstream(order[0]) ==> u in order[..0];
      assert Upstream(order[0]) == {};
      assert order[0] == Fetch;
      assert Upstream(order[1]) <= {Fetch} by {
        assert order[..1] == [Fetch];
      }
      assert Process in order && Plot in order && Display in order;
      assert order[1] == Process;
    } else {
      var a, b := [Fetch, Process, Plot, Display], [Fetch, Process, Display, Plot];
      assert a[..1] == [Fetch] && a[..2] == [Fetch, Process] && a[..3] == [Fetch, Process, Plot];
      assert b[..1] == [Fetch] && b[..2] == [Fetch, Process] && b[..3] == [Fetch, Process, Display];
      forall t: Task ensures t in a && t in b {
        match t
        case Fetch => assert a[0] == t && b[0] == t;
        case Process => assert a[1] == t && b[1] == t;
        case Plot => assert a[2] == t && b[3] == t;
        case Display => assert a[3] == t && b[2] == t;
      }
    }
  }

  /**
   * One DAG run over the workspace in a schedule the task graph allows.  A
   * downstream task runs only after its upstream tasks succeeded, so a failed
   * extraction stops the run with every file but the raw one as it was.
   * Returns what the final task displays, `None` when it did not run.
   */
  method RunDag(w: Workspace, extracted: Option<seq<LineItem>>, order: seq<Task>) returns (displayed: Option<int>)
    requires IsSchedule(order)
    modifies w
    ensures extracted.None? ==>
              displayed == None
              && w.salesData == old(w.salesData) && w.dailyRevenue == old(w.dailyRevenue)
              && w.targetRevenue == old(w.targetRevenue)
              && w.chart == old(w.chart) && w.annotatedChart == old(w.annotatedChart)
    ensures extracted.Some? ==>
      var rows := extracted.value;
      var hit := TargetDate in SaleDates(rows);
      && w.salesData == Some(rows)
      && w.dailyRevenue == Some(DailySeries(rows))
      && w.targetRevenue == Some(if hit then Total(DateRevenue(rows, TargetDate)) else NoSales)
      && w.chart == Some(Chart(DailySeries(rows), None))
      && w.annotatedChart ==
           (if hit then Some(Chart(DailySeries(rows), Some(DateRevenue(rows, TargetDate))))
            else old(w.annotatedChart))
      && displayed == Some(if hit then DateRevenue(rows, TargetDate) else 0)
  {
    Schedules(order);
    var fetched := w.FetchOrderData(extracted);
    if fetched.Fail? {
      return None;
    }
    var rows := extracted.value;
    var processed := w.ProcessDailyRevenue();
    FindDateSpec(DailySeries(rows), TargetDate);
    var answer;
    if order[2] == Plot {
      var plotted := w.PlotDailyRevenue();
      answer := w.DisplayFinalAnswer();
    } else {
      answer := w.DisplayFinalAnswer();
      var plotted := w.PlotDailyRevenue();
    }
    displayed := Some(answer);
  }
}
