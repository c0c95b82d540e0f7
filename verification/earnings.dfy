/**
 * The earnings screen: the daily, weekly and monthly fixture tables, the
 * view selector that picks one of them with its chart axis, and the
 * totals shown in the summary cards.
 */
module Earnings {

  /**
   * One bar of the chart. `name` is the value under the axis key (`day`,
   * `week` or `month`); all amounts are whole dollars.
   */
  datatype Row = Row(name: string, trips: int, netFares: int, tips: int, other: int, total: int)

  /** The stacked bars show net fares, tips and other on top of each other, adding up to the total. */
  predicate Balanced(row: Row)
  {
    row.total == row.netFares + row.tips + row.other
  }

  predicate NonNegative(row: Row)
  {
    row.trips >= 0 && row.netFares >= 0 && row.tips >= 0 && row.other >= 0 && row.total >= 0
  }

  const DailyRows: seq<Row> := [
    Row("Mon", 8, 180, 25, 10, 215),
    Row("Tue", 12, 240, 35, 15, 290),
    Row("Wed", 6, 120, 18, 8, 146),
    Row("Thu", 10, 200, 30, 12, 242),
    Row("Fri", 15, 320, 45, 20, 385),
    Row("Sat", 18, 380, 55, 25, 460),
    Row("Sun", 14, 280, 40, 18, 338)
  ]

  const WeeklyRows: seq<Row> := [
    Row("Week 1", 65, 1300, 195, 85, 1580),
    Row("Week 2", 72, 1440, 216, 95, 1751),
    Row("Week 3", 68, 1360, 204, 88, 1652),
    Row("Week 4", 75, 1500, 225, 100, 1825)
  ]

  const MonthlyRows: seq<Row> := [
    Row("Jan", 280, 5600, 840, 350, 6790),
    Row("Feb", 260, 5200, 780, 320, 6300),
    Row("Mar", 310, 6200, 930, 380, 7510)
  ]

  /** `getCurrentData`: weekly and monthly by name, daily for any other view. */
  function CurrentData(view: string): (rows: seq<Row>)
    ensures rows == DailyRows || rows == WeeklyRows || rows == MonthlyRows
  {
    if view == "weekly" then WeeklyRows
    else if view == "monthly" then MonthlyRows
    else DailyRows
  }

  /** `getXAxisKey`: the row field the chart's x axis reads. */
  function XAxisKey(view: string): (key: string)
    ensures key == "day" || key == "week" || key == "month"
  {
    if view == "weekly" then "week"
    else if view == "monthly" then "month"
    else "day"
  }

  /** The table and the axis key always come from the same view. */
  lemma DataAndAxisAgree(view: string)
    ensures view == "weekly" ==> CurrentData(view) == WeeklyRows && XAxisKey(view) == "week"
    ensures view == "monthly" ==> CurrentData(view) == MonthlyRows && XAxisKey(view) == "month"
    ensures view != "weekly" && view != "monthly" ==>
      CurrentData(view) == DailyRows && XAxisKey(view) == "day"
  {
  }

  /** `reduce((sum, item) => sum + item.total, 0)`. */
  function SumTotal(rows: seq<Row>): (sum: int)
  {
    if rows == [] then 0 else SumTotal(rows[..|rows| - 1]) + rows[|rows| - 1].total
  }

  /** `reduce((sum, item) => sum + item.trips, 0)`. */
  function SumTrips(rows: seq<Row>): (sum: int)
  {
    if rows == [] then 0 else SumTrips(rows[..|rows| - 1]) + rows[|rows| - 1].trips
  }

  function SumNetFares(rows: seq<Row>): (sum: int)
  {
    if rows == [] then 0 else SumNetFares(rows[..|rows| - 1]) + rows[|rows| - 1].netFares
  }

  function SumTips(rows: seq<Row>): (sum: int)
  {
    if rows == [] then 0 else SumTips(rows[..|rows| - 1]) + rows[|rows| - 1].tips
  }

  function SumOther(rows: seq<Row>): (sum: int)
  {
    if rows == [] then 0 else SumOther(rows[..|rows| - 1]) + rows[|rows| - 1].other
  }

  /** `getTotalEarnings` for the selected view. */
  function TotalEarnings(view: string): (total: int)
  {
    SumTotal(CurrentData(view))
  }

  /** `getTotalTrips` for the selected view. */
  function TotalTrips(view: string): (total: int)
  {
    SumTrips(CurrentData(view))
  }

  /** Both sums split over a concatenation of tables. */
  lemma {:induction false} SumsAdditive(a: seq<Row>, b: seq<Row>)
    ensures SumTotal(a + b) == SumTotal(a) + SumTotal(b)
    ensures SumTrips(a + b) == SumTrips(a) + SumTrips(b)
    decreases |b|
  {
    if b == [] {
      assert a + b == a;
    } else {
      var front := b[..|b| - 1];
      SumsAdditive(a, front);
      assert (a + b)[..|a + b| - 1] == a + front;
    }
  }

  /** Over rows with no negative amount, both sums are non-negative. */
  lemma {:induction false} SumsNonNegative(rows: seq<Row>)
    requires forall i :: 0 <= i < |rows| ==> NonNegative(rows[i])
    ensures SumTotal(rows) >= 0 && SumTrips(rows) >= 0
  {
    if rows != [] {
      SumsNonNegative(rows[..|rows| - 1]);
    }
  }

  /** When every bar adds up, the total earnings are the sum of the three stacked parts. */
  lemma {:induction false} TotalIsSumOfParts(rows: seq<Row>)
    requires forall i :: 0 <= i < |rows| ==> Balanced(rows[i])
    ensures SumTotal(rows) == SumNetFares(rows) + SumTips(rows) + SumOther(rows)
  {
    if rows != [] {
      TotalIsSumOfParts(rows[..|rows| - 1]);
    }
  }

  /** Every fixture row adds up and has no negative amount. */
  lemma FixturesWellFormed()
    ensures forall i :: 0 <= i < |DailyRows| ==> Balanced(DailyRows[i]) && NonNegative(DailyRows[i])
    ensures forall i :: 0 <= i < |WeeklyRows| ==> Balanced(WeeklyRows[i]) && NonNegative(WeeklyRows[i])
    ensures forall i :: 0 <= i < |MonthlyRows| ==> Balanced(MonthlyRows[i]) && NonNegative(MonthlyRows[i])
  {
  }

  /** A prefix's sums grow by the next row's amounts. */
  lemma SumsOfLongerPrefix(rows: seq<Row>, k: nat)
    requires 0 < k <= |rows|
    ensures SumTotal(rows[..k]) == SumTotal(rows[..k - 1]) + rows[k - 1].total
    ensures SumTrips(rows[..k]) == SumTrips(rows[..k - 1]) + rows[k - 1].trips
  {
    assert rows[..k][..k - 1] == rows[..k - 1];
  }

  /** The summary cards' figures for each view. */
  lemma FixtureTotals()
    ensures TotalEarnings("daily") == 2076 && TotalTrips("daily") == 83
    ensures TotalEarnings("weekly") == 6808 && TotalTrips("weekly") == 280
    ensures TotalEarnings("monthly") == 20600 && TotalTrips("monthly") == 850
  {
    var d := DailyRows;
    assert d[..0] == [];
    SumsOfLongerPrefix(d, 1);
    SumsOfLongerPrefix(d, 2);
    SumsOfLongerPrefix(d, 3);
    SumsOfLongerPrefix(d, 4);
    SumsOfLongerPrefix(d, 5);
    SumsOfLongerPrefix(d, 6);
    SumsOfLongerPrefix(d, 7);
    assert d[..7] == d;
    var w := WeeklyRows;
    assert w[..0] == [];
    SumsOfLongerPrefix(w, 1);
    SumsOfLongerPrefix(w, 2);
    SumsOfLongerPrefix(w, 3);
    SumsOfLongerPrefix(w, 4);
    assert w[..4] == w;
    var m := MonthlyRows;
    assert m[..0] == [];
    SumsOfLongerPrefix(m, 1);
    SumsOfLongerPrefix(m, 2);
    SumsOfLongerPrefix(m, 3);
    assert m[..3] == m;
  }

  /** Any view's total earnings are the sum of its net fares, tips and other, and nothing is negative. */
  lemma ViewTotalsConsistent(view: string)
    ensures TotalEarnings(view) == SumNetFares(CurrentData(view)) + SumTips(CurrentData(view)) + SumOther(CurrentData(view))
    ensures TotalEarnings(view) >= 0 && TotalTrips(view) >= 0
  {
    FixturesWellFormed();
    TotalIsSumOfParts(CurrentData(view));
    SumsNonNegative(CurrentData(view));
  }

  /** The earnings screen: only the selected view is state. */
  class EarningsScreen {
    var activeView: string

    constructor ()
      ensures activeView == "daily"
    {
      activeView := "daily";
    }

    /** A view toggle was clicked. */
    method SetView(view: string)
      modifies this
      ensures activeView == view
    {
      activeView := view;
    }

    /** The two summary figures for the current view. */
    method Totals() returns (earnings: int, trips: int)
      ensures earnings == SumTotal(CurrentData(activeView))
      ensures trips == SumTrips(CurrentData(activeView))
      ensures earnings >= 0 && trips >= 0
    {
      ViewTotalsConsistent(activeView);
      earnings := TotalEarnings(activeView);
      trips := TotalTrips(activeView);
    }
  }
}
