/**
 * The report summary (`GET /api/reports/summary`) over the orders the store
 * returned: totals, the average margin, and the per-day series sorted by date.
 *
 * Each order's day is its date key (the `YYYY-MM-DD` part of its creation
 * time), taken here as an opaque string ordered character by character.
 */
module Reports {
  import Calculations

  datatype ReportOrder = ReportOrder(
    date: string,
    grossTotal: real,
    platformFeeValue: real,
    totalCost: real,
    netProfit: real)

  datatype Summary = Summary(
    ordersCount: nat,
    grossRevenue: real,
    feesTotal: real,
    costsTotal: real,
    netProfit: real,
    avgMargin: real)

  datatype Day = Day(date: string, gross: real, net: real, count: nat)

  datatype Report = Report(summary: Summary, dailySeries: seq<Day>)

  // ---------------------------------------------------------------------
  // Totals
  // ---------------------------------------------------------------------

  function SumGross(os: seq<ReportOrder>): real
  {
    if os == [] then 0.0 else SumGross(os[..|os| - 1]) + os[|os| - 1].grossTotal
  }

  function SumFees(os: seq<ReportOrder>): real
  {
    if os == [] then 0.0 else SumFees(os[..|os| - 1]) + os[|os| - 1].platformFeeValue
  }

  function SumCosts(os: seq<ReportOrder>): real
  {
    if os == [] then 0.0 else SumCosts(os[..|os| - 1]) + os[|os| - 1].totalCost
  }

  function SumNet(os: seq<ReportOrder>): real
  {
    if os == [] then 0.0 else SumNet(os[..|os| - 1]) + os[|os| - 1].netProfit
  }

  /** An order whose stored profit is its gross minus its cost and fee, as order creation stores it. */
  predicate Consistent(o: ReportOrder)
  {
    o.netProfit == Calculations.NetProfit(o.grossTotal, o.totalCost, o.platformFeeValue)
  }

  /** When every order is consistent, so are the totals of the summary. */
  lemma {:induction false} TotalsConsistent(os: seq<ReportOrder>)
    requires forall k :: 0 <= k < |os| ==> Consistent(os[k])
    ensures SumNet(os) == SumGross(os) - SumCosts(os) - SumFees(os)
    decreases |os|
  {
    if os != [] {
      TotalsConsistent(os[..|os| - 1]);
    }
  }

  /** When every order paid the same fee rate, the fee total is that rate of the revenue. */
  lemma {:induction false} FeesAtOneRate(os: seq<ReportOrder>, feePercent: real)
    requires forall k :: 0 <= k < |os| ==>
               os[k].platformFeeValue == Calculations.PlatformFee(os[k].grossTotal, feePercent)
    ensures SumFees(os) == Calculations.PlatformFee(SumGross(os), feePercent)
    decreases |os|
  {
    if os != [] {
      FeesAtOneRate(os[..|os| - 1], feePercent);
    }
  }

  /**
   * The summary: the order count and the four sums, with the average margin
   * set only when the revenue is positive.
   */
  method Summarize(orders: seq<ReportOrder>) returns (summary: Summary)
    ensures summary.ordersCount == |orders|
    ensures summary.grossRevenue == SumGross(orders)
    ensures summary.feesTotal == SumFees(orders)
    ensures summary.costsTotal == SumCosts(orders)
    ensures summary.netProfit == SumNet(orders)
    ensures summary.grossRevenue > 0.0 ==>
              summary.avgMargin * summary.grossRevenue == summary.netProfit * 100.0
    ensures summary.grossRevenue <= 0.0 ==> summary.avgMargin == 0.0
  {
    summary := Summary(|orders|, SumGross(orders), SumFees(orders), SumCosts(orders), SumNet(orders), 0.0);
    if summary.grossRevenue > 0.0 {
      summary := summary.(avgMargin := summary.netProfit / summary.grossRevenue * 100.0);
    }
  }

  /** For positive revenue the average margin is the engine's margin of the totals. */
  lemma AvgMarginIsMargin(s: Summary)
    requires s.grossRevenue > 0.0
    requires s.avgMargin * s.grossRevenue == s.netProfit * 100.0
    ensures s.avgMargin == Calculations.Margin(s.netProfit, s.grossRevenue)
  {
  }

  /**
   * The engine's margin of a negative revenue is not 0, while `Summarize`
   * reports 0 for every revenue that is not positive.
   */
  lemma AvgMarginNegativeRevenue()
    ensures Calculations.Margin(10.0, -20.0) == -50.0
  {
  }

  // ---------------------------------------------------------------------
  // Date keys
  // ---------------------------------------------------------------------

  /** Character-by-character order on date keys. */
  predicate DateLess(a: string, b: string)
  {
    if a == [] then b != []
    else if b == [] then false
    else if a[0] != b[0] then a[0] < b[0]
    else DateLess(a[1..], b[1..])
  }

  lemma {:induction false} DateLessIrreflexive(a: string)
    ensures !DateLess(a, a)
    decreases |a|
  {
    if a != [] {
      DateLessIrreflexive(a[1..]);
    }
  }

  lemma {:induction false} DateLessTotal(a: string, b: string)
    requires a != b
    ensures DateLess(a, b) || DateLess(b, a)
    decreases |a|
  {
    if a != [] && b != [] && a[0] == b[0] {
      assert a == [a[0]] + a[1..] && b == [b[0]] + b[1..];
      DateLessTotal(a[1..], b[1..]);
    }
  }

  lemma {:induction false} DateLessTransitive(a: string, b: string, c: string)
    requires DateLess(a, b) && DateLess(b, c)
    ensures DateLess(a, c)
    decreases |a|
  {
    if a != [] && b != [] && c != [] && a[0] == b[0] && b[0] == c[0] {
      DateLessTransitive(a[1..], b[1..], c[1..]);
    }
  }

  // ---------------------------------------------------------------------
  // Per-day series
  // ---------------------------------------------------------------------

  /** The number of orders on `date`. */
  function CountOn(os: seq<ReportOrder>, date: string): nat
  {
    if os == [] then 0
    else CountOn(os[..|os| - 1], date) + (if os[|os| - 1].date == date then 1 else 0)
  }

  /** The gross revenue of the orders on `date`. */
  function GrossOn(os: seq<ReportOrder>, date: string): real
  {
    if os == [] then 0.0
    else GrossOn(os[..|os| - 1], date) + (if os[|os| - 1].date == date then os[|os| - 1].grossTotal else 0.0)
  }

  /** The net profit of the orders on `date`. */
  function NetOn(os: seq<ReportOrder>, date: string): real
  {
    if os == [] then 0.0
    else NetOn(os[..|os| - 1], date) + (if os[|os| - 1].date == date then os[|os| - 1].netProfit else 0.0)
  }

  function OrderDates(os: seq<ReportOrder>): set<string>
  {
    set k | 0 <= k < |os| :: os[k].date
  }

  function DayDates(days: seq<Day>): set<string>
  {
    set k | 0 <= k < |days| :: days[k].date
  }

  predicate DistinctDates(days: seq<Day>)
  {
    forall j, k :: 0 <= j < k < |days| ==> days[j].date != days[k].date
  }

  /** Each day's date comes strictly before the next day's. */
  predicate DatesAscending(days: seq<Day>)
  {
    forall k :: 0 < k < |days| ==> DateLess(days[k - 1].date, days[k].date)
  }

  function SumDayCount(days: seq<Day>): nat
  {
    if days == [] then 0 else days[0].count + SumDayCount(days[1..])
  }

  function SumDayGross(days: seq<Day>): real
  {
    if days == [] then 0.0 else days[0].gross + SumDayGross(days[1..])
  }

  function SumDayNet(days: seq<Day>): real
  {
    if days == [] then 0.0 else days[0].net + SumDayNet(days[1..])
  }

  /** A date with no orders has no count, gross or net. */
  lemma {:induction false} NothingOnAbsentDate(os: seq<ReportOrder>, date: string)
    requires date !in OrderDates(os)
    ensures CountOn(os, date) == 0 && GrossOn(os, date) == 0.0 && NetOn(os, date) == 0.0
    decreases |os|
  {
    if os != [] {
      var init := os[..|os| - 1];
      assert OrderDates(init) <= OrderDates(os) by {
        forall d | d in OrderDates(init) ensures d in OrderDates(os) {
          var k :| 0 <= k < |init| && init[k].date == d;
          assert os[k] == init[k];
        }
      }
      assert os[|os| - 1].date in OrderDates(os);
      NothingOnAbsentDate(init, date);
    }
  }

  lemma OrderDatesSnoc(os: seq<ReportOrder>, o: ReportOrder)
    ensures OrderDates(os + [o]) == OrderDates(os) + {o.date}
  {
    var s := os + [o];
    forall d | d in OrderDates(s) ensures d in OrderDates(os) + {o.date} {
      var k :| 0 <= k < |s| && s[k].date == d;
      if k < |os| { assert s[k] == os[k]; }
    }
    forall d | d in OrderDates(os) + {o.date} ensures d in OrderDates(s) {
      if d == o.date {
        assert s[|os|].date == d;
      } else {
        var k :| 0 <= k < |os| && os[k].date == d;
        assert s[k] == os[k];
      }
    }
  }

  lemma {:induction false} SumDaySnoc(days: seq<Day>, d: Day)
    ensures SumDayCount(days + [d]) == SumDayCount(days) + d.count
    ensures SumDayGross(days + [d]) == SumDayGross(days) + d.gross
    ensures SumDayNet(days + [d]) == SumDayNet(days) + d.net
    decreases |days|
  {
    if days == [] {
      assert days + [d] == [d];
      assert [d][1..] == [];
    } else {
      assert (days + [d])[1..] == days[1..] + [d];
      SumDaySnoc(days[1..], d);
    }
  }

  lemma {:induction false} SumDayUpdate(days: seq<Day>, k: nat, d: Day)
    requires k < |days|
    ensures SumDayCount(days[k := d]) == SumDayCount(days) - days[k].count + d.count
    ensures SumDayGross(days[k := d]) == SumDayGross(days) - days[k].gross + d.gross
    ensures SumDayNet(days[k := d]) == SumDayNet(days) - days[k].net + d.net
    decreases |days|
  {
    if k > 0 {
      assert days[k := d][1..] == days[1..][k - 1 := d];
      SumDayUpdate(days[1..], k - 1, d);
    } else {
      assert days[k := d][1..] == days[1..];
    }
  }

  /** Appending a day adds its date; replacing a day by one of the same date keeps the dates. */
  lemma DayDatesChanges(days: seq<Day>, d: Day, k: nat)
    ensures DayDates(days + [d]) == DayDates(days) + {d.date}
    ensures k < |days| && days[k].date == d.date ==> DayDates(days[k := d]) == DayDates(days)
  {
    var s := days + [d];
    forall x | x in DayDates(s) ensures x in DayDates(days) + {d.date} {
      var j :| 0 <= j < |s| && s[j].date == x;
      if j < |days| { assert s[j] == days[j]; }
    }
    forall x | x in DayDates(days) + {d.date} ensures x in DayDates(s) {
      if x == d.date {
        assert s[|days|].date == x;
      } else {
        var j :| 0 <= j < |days| && days[j].date == x;
        assert s[j] == days[j];
      }
    }
    if k < |days| && days[k].date == d.date {
      var u := days[k := d];
      forall x | x in DayDates(u) ensures x in DayDates(days) {
        var j :| 0 <= j < |u| && u[j].date == x;
        assert days[j].date == x;
      }
      forall x | x in DayDates(days) ensures x in DayDates(u) {
        var j :| 0 <= j < |days| && days[j].date == x;
        assert u[j].date == x;
      }
    }
  }

  /** The position of the day with `date`, or -1: `Map.has` and `Map.get`. */
  function IndexOfDate(days: seq<Day>, date: string): (k: int)
    ensures -1 <= k < |days|
    ensures k >= 0 ==> days[k].date == date
    ensures k < 0 ==> forall j :: 0 <= j < |days| ==> days[j].date != date
    decreases |days|
  {
    if days == [] then -1
    else if days[|days| - 1].date == date then |days| - 1
    else IndexOfDate(days[..|days| - 1], date)
  }

  /** Inserts a day before the first day with a later date. */
  function InsertByDate(d: Day, days: seq<Day>): (r: seq<Day>)
    ensures multiset(r) == multiset(days) + multiset{d}
    ensures r[0] == d || (days != [] && r[0] == days[0])
  {
    if days == [] then [d]
    else
      assert days == [days[0]] + days[1..];
      if DateLess(days[0].date, d.date) then [days[0]] + InsertByDate(d, days[1..])
      else [d] + days
  }

  /** Insertion sort by date: the order `Array.prototype.sort` produces with a date comparator. */
  function SortByDate(days: seq<Day>): (r: seq<Day>)
    ensures multiset(r) == multiset(days)
  {
    if days == [] then []
    else
      assert days == [days[0]] + days[1..];
      InsertByDate(days[0], SortByDate(days[1..]))
  }

  lemma {:induction false} InsertKeepsAscending(d: Day, days: seq<Day>)
    requires DatesAscending(days)
    requires forall k :: 0 <= k < |days| ==> days[k].date != d.date
    ensures DatesAscending(InsertByDate(d, days))
    decreases |days|
  {
    if days != [] {
      if DateLess(days[0].date, d.date) {
        InsertKeepsAscending(d, days[1..]);
        var r := InsertByDate(d, days);
        var tail := InsertByDate(d, days[1..]);
        assert r == [days[0]] + tail;
        if |days| > 1 {
          assert DateLess(days[0].date, days[1].date);
        }
        assert DateLess(r[0].date, tail[0].date);
      } else {
        DateLessTotal(days[0].date, d.date);
      }
    }
  }

  lemma {:induction false} SortIsAscending(days: seq<Day>)
    requires DistinctDates(days)
    ensures DatesAscending(SortByDate(days))
    decreases |days|
  {
    if days != [] {
      var rest := days[1..];
      assert DistinctDates(rest) by {
        forall j, k | 0 <= j < k < |rest| ensures rest[j].date != rest[k].date {
          assert rest[j] == days[j + 1] && rest[k] == days[k + 1];
        }
      }
      SortIsAscending(rest);
      var sorted := SortByDate(rest);
      forall k | 0 <= k < |sorted| ensures sorted[k].date != days[0].date {
        assert sorted[k] in multiset(rest);
        var j :| 0 <= j < |rest| && rest[j] == sorted[k];
        assert rest[j] == days[j + 1];
      }
      InsertKeepsAscending(days[0], sorted);
    }
  }

  lemma {:induction false} AscendingIsDistinct(days: seq<Day>)
    requires DatesAscending(days)
    ensures DistinctDates(days)
    ensures forall j, k :: 0 <= j < k < |days| ==> DateLess(days[j].date, days[k].date)
    decreases |days|
  {
    if |days| > 1 {
      var rest := days[1..];
      AscendingIsDistinct(rest);
      forall k | 1 <= k < |days| ensures DateLess(days[0].date, days[k].date) {
        if k > 1 {
          assert DateLess(rest[0].date, rest[k - 1].date);
          DateLessTransitive(days[0].date, days[1].date, days[k].date);
        }
      }
      forall j, k | 0 <= j < k < |days| ensures days[j].date != days[k].date {
        if j > 0 {
          assert rest[j - 1] == days[j] && rest[k - 1] == days[k];
        } else {
          DateLessIrreflexive(days[0].date);
        }
      }
    }
  }

  lemma {:induction false} InsertSums(d: Day, days: seq<Day>)
    ensures SumDayCount(InsertByDate(d, days)) == d.count + SumDayCount(days)
    ensures SumDayGross(InsertByDate(d, days)) == d.gross + SumDayGross(days)
    ensures SumDayNet(InsertByDate(d, days)) == d.net + SumDayNet(days)
    decreases |days|
  {
    if days == [] {
      assert [d][1..] == [];
    } else if DateLess(days[0].date, d.date) {
      InsertSums(d, days[1..]);
      assert ([days[0]] + InsertByDate(d, days[1..]))[1..] == InsertByDate(d, days[1..]);
    } else {
      assert ([d] + days)[1..] == days;
    }
  }

  lemma {:induction false} SortSums(days: seq<Day>)
    ensures SumDayCount(SortByDate(days)) == SumDayCount(days)
    ensures SumDayGross(SortByDate(days)) == SumDayGross(days)
    ensures SumDayNet(SortByDate(days)) == SumDayNet(days)
    decreases |days|
  {
    if days != [] {
      SortSums(days[1..]);
      InsertSums(days[0], SortByDate(days[1..]));
    }
  }

  /** Every date of a permutation of `days` is a date of `days`. */
  lemma PermutationDates(days: seq<Day>, other: seq<Day>)
    requires multiset(other) == multiset(days)
    ensures DayDates(other) <= DayDates(days)
  {
    forall d | d in DayDates(other) ensures d in DayDates(days) {
      var k :| 0 <= k < |other| && other[k].date == d;
      assert other[k] in multiset(days);
      var j :| 0 <= j < |days| && days[j] == other[k];
    }
  }

  /** Sorting keeps the same set of dates. */
  lemma SortDates(days: seq<Day>)
    ensures DayDates(SortByDate(days)) == DayDates(days)
  {
    var sorted := SortByDate(days);
    PermutationDates(days, sorted);
    PermutationDates(sorted, days);
  }

  /** What every day of the series says about the orders of its date. */
  predicate DescribesOrders(days: seq<Day>, os: seq<ReportOrder>)
  {
    forall k :: 0 <= k < |days| ==>
      && days[k].count == CountOn(os, days[k].date)
      && days[k].gross == GrossOn(os, days[k].date)
      && days[k].net == NetOn(os, days[k].date)
  }

  /** What the day list built so far says about the orders seen so far. */
  predicate SeriesInvariant(days: seq<Day>, os: seq<ReportOrder>)
  {
    && DistinctDates(days)
    && DayDates(days) == OrderDates(os)
    && DescribesOrders(days, os)
    && SumDayCount(days) == |os|
    && SumDayGross(days) == SumGross(os)
    && SumDayNet(days) == SumNet(os)
  }

  /** One order counted into its day: creates the day with zeros when it is new, then adds. */
  function AddToDay(days: seq<Day>, o: ReportOrder): seq<Day>
  {
    var found := IndexOfDate(days, o.date);
    var withDay := if found < 0 then days + [Day(o.date, 0.0, 0.0, 0)] else days;
    var k := if found < 0 then |days| else found;
    var day := withDay[k];
    withDay[k := Day(day.date, day.gross + o.grossTotal, day.net + o.netProfit, day.count + 1)]
  }

  /** The first order of a new date opens a day of its own at the end. */
  lemma AppendNewDay(days: seq<Day>, os: seq<ReportOrder>, o: ReportOrder)
    requires SeriesInvariant(days, os)
    requires o.date !in DayDates(days)
    ensures SeriesInvariant(days + [Day(o.date, o.grossTotal, o.netProfit, 1)], os + [o])
  {
    var s := os + [o];
    var d := Day(o.date, o.grossTotal, o.netProfit, 1);
    var r := days + [d];
    assert s[..|s| - 1] == os;
    OrderDatesSnoc(os, o);
    SumDaySnoc(days, d);
    DayDatesChanges(days, d, 0);
    NewDayDistinct(days, d);
    NewDayDescribes(days, os, o);
  }

  /** A day of a date not yet listed keeps the dates distinct. */
  lemma NewDayDistinct(days: seq<Day>, d: Day)
    requires DistinctDates(days) && d.date !in DayDates(days)
    ensures DistinctDates(days + [d])
  {
    var r := days + [d];
    forall j, k | 0 <= j < k < |r| ensures r[j].date != r[k].date {
      if k == |days| {
        assert r[j] == days[j];
        assert days[j].date in DayDates(days);
      } else {
        assert r[j] == days[j] && r[k] == days[k];
      }
    }
  }

  /** The days already listed keep describing their dates; the new day describes the new one. */
  lemma NewDayDescribes(days: seq<Day>, os: seq<ReportOrder>, o: ReportOrder)
    requires DescribesOrders(days, os) && DayDates(days) == OrderDates(os)
    requires o.date !in DayDates(days)
    ensures DescribesOrders(days + [Day(o.date, o.grossTotal, o.netProfit, 1)], os + [o])
  {
    var s := os + [o];
    var r := days + [Day(o.date, o.grossTotal, o.netProfit, 1)];
    assert s[..|s| - 1] == os;
    NothingOnAbsentDate(os, o.date);
    forall j | 0 <= j < |r|
      ensures r[j].count == CountOn(s, r[j].date)
      ensures r[j].gross == GrossOn(s, r[j].date)
      ensures r[j].net == NetOn(s, r[j].date)
    {
      if j < |days| {
        assert r[j] == days[j];
        assert days[j].date in DayDates(days);
      }
    }
  }

  /** A further order of a known date is added into that date's day. */
  lemma AddIntoDay(days: seq<Day>, os: seq<ReportOrder>, o: ReportOrder, k: nat)
    requires SeriesInvariant(days, os)
    requires k < |days| && days[k].date == o.date
    ensures SeriesInvariant(days[k := Day(o.date, days[k].gross + o.grossTotal,
                                          days[k].net + o.netProfit, days[k].count + 1)], os + [o])
  {
    var s := os + [o];
    var d := Day(o.date, days[k].gross + o.grossTotal, days[k].net + o.netProfit, days[k].count + 1);
    var r := days[k := d];
    assert s[..|s| - 1] == os;
    OrderDatesSnoc(os, o);
    SumDayUpdate(days, k, d);
    DayDatesChanges(days, d, k);
    assert o.date in DayDates(days);
    forall j | 0 <= j < |r|
      ensures r[j].count == CountOn(s, r[j].date)
      ensures r[j].gross == GrossOn(s, r[j].date)
      ensures r[j].net == NetOn(s, r[j].date)
    {
      if j != k { assert r[j] == days[j] && days[j].date != o.date; }
    }
  }

  lemma AddToDayKeepsInvariant(days: seq<Day>, os: seq<ReportOrder>, o: ReportOrder)
    requires SeriesInvariant(days, os)
    ensures SeriesInvariant(AddToDay(days, o), os + [o])
  {
    var found := IndexOfDate(days, o.date);
    if found < 0 {
      assert o.date !in DayDates(days);
      var r := days + [Day(o.date, 0.0, 0.0, 0)];
      assert AddToDay(days, o) == r[|days| := Day(o.date, 0.0 + o.grossTotal, 0.0 + o.netProfit, 0 + 1)];
      assert AddToDay(days, o) == days + [Day(o.date, o.grossTotal, o.netProfit, 1)];
      AppendNewDay(days, os, o);
    } else {
      AddIntoDay(days, os, o, found);
    }
  }

  /** Sorting a finished day list gives an ascending series that still describes the orders. */
  lemma SortedSeries(days: seq<Day>, os: seq<ReportOrder>)
    requires SeriesInvariant(days, os)
    ensures DatesAscending(SortByDate(days))
    ensures SeriesInvariant(SortByDate(days), os)
  {
    var series := SortByDate(days);
    SortIsAscending(days);
    AscendingIsDistinct(series);
    SortDates(days);
    SortSums(days);
    forall k | 0 <= k < |series|
      ensures series[k].count == CountOn(os, series[k].date)
      ensures series[k].gross == GrossOn(os, series[k].date)
      ensures series[k].net == NetOn(os, series[k].date)
    {
      assert series[k] in multiset(days);
      var j :| 0 <= j < |days| && days[j] == series[k];
    }
  }

  /**
   * The per-day series: one day per distinct order date, holding the count,
   * gross and net of that date's orders, sorted by ascending date. The counts
   * add up to the number of orders and the grosses and nets to the totals.
   */
  method DailySeries(orders: seq<ReportOrder>) returns (series: seq<Day>)
    ensures DatesAscending(series)
    ensures DistinctDates(series)
    ensures DayDates(series) == OrderDates(orders)
    ensures DescribesOrders(series, orders)
    ensures SumDayCount(series) == |orders|
    ensures SumDayGross(series) == SumGross(orders)
    ensures SumDayNet(series) == SumNet(orders)
  {
    var days: seq<Day> := [];
    var i := 0;
    while i < |orders|
      invariant 0 <= i <= |orders|
      invariant SeriesInvariant(days, orders[..i])
    {
      var o := orders[i];
      ghost var before := days;
      var k := IndexOfDate(days, o.date);
      if k < 0 {
        days := days + [Day(o.date, 0.0, 0.0, 0)];
        k := |days| - 1;
      }
      var day := days[k];
      days := days[k := Day(day.date, day.gross + o.grossTotal, day.net + o.netProfit, day.count + 1)];
      assert days == AddToDay(before, o);
      AddToDayKeepsInvariant(before, orders[..i], o);
      assert orders[..i + 1] == orders[..i] + [o];
      i := i + 1;
    }
    assert orders[..|orders|] == orders;
    SortedSeries(days, orders);
    series := SortByDate(days);
  }

  /** The whole report over the fetched orders. */
  method SummaryReport(orders: seq<ReportOrder>) returns (report: Report)
    ensures report.summary.ordersCount == |orders|
    ensures report.summary.grossRevenue == SumGross(orders)
    ensures report.summary.feesTotal == SumFees(orders)
    ensures report.summary.costsTotal == SumCosts(orders)
    ensures report.summary.netProfit == SumNet(orders)
    ensures report.summary.grossRevenue <= 0.0 ==> report.summary.avgMargin == 0.0
    ensures report.summary.grossRevenue > 0.0 ==>
              report.summary.avgMargin == Calculations.Margin(report.summary.netProfit, report.summary.grossRevenue)
    ensures DatesAscending(report.dailySeries) && DistinctDates(report.dailySeries)
    ensures DayDates(report.dailySeries) == OrderDates(orders)
    ensures SumDayCount(report.dailySeries) == report.summary.ordersCount
    ensures SumDayGross(report.dailySeries) == report.summary.grossRevenue
    ensures SumDayNet(report.dailySeries) == report.summary.netProfit
    ensures DescribesOrders(report.dailySeries, orders)
  {
    var summary := Summarize(orders);
    if summary.grossRevenue > 0.0 {
      AvgMarginIsMargin(summary);
    }
    var dailySeries := DailySeries(orders);
    report := Report(summary, dailySeries);
  }
}
