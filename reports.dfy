/** The reports screen: the period switch, the sales query window, and the five
    pure transformations of the fetched rows into the charts, rankings and totals
    it shows. Money is in integer cents; instants are milliseconds. */
module Reports {
  import opened Optional
  import opened Seqs
  import opened Calendar

  // ---------------------------------------------------------------- period

  /** The period switch: start and end both begin as now; '7d', '30d' and '90d' move
      the start back with `setDate`, '1y' with `setFullYear`, and there is no default
      branch, so any other selector leaves start at end. */
  method ResolvePeriod(dateRange: string, now: DateTime) returns (start: DateTime, end: DateTime)
    requires Valid(now) && now.year >= 1
    ensures end == now
    ensures Valid(start) && start.msOfDay == now.msOfDay
    ensures dateRange == "7d" ==> DayNumber(end) - DayNumber(start) == 7
    ensures dateRange == "30d" ==> DayNumber(end) - DayNumber(start) == 30
    ensures dateRange == "90d" ==> DayNumber(end) - DayNumber(start) == 90
    ensures dateRange == "1y" ==>
      && start == SetFullYear(end, end.year - 1)
      && (DayNumber(end) - DayNumber(start) == 365 || DayNumber(end) - DayNumber(start) == 366)
    ensures dateRange !in {"7d", "30d", "90d", "1y"} ==> start == end
    ensures Instant(start) <= Instant(end)
  {
    end := now;
    start := now;
    match dateRange {
      case "7d" => start := SetDate(start, end.day - 7);
      case "30d" => start := SetDate(start, end.day - 30);
      case "90d" => start := SetDate(start, end.day - 90);
      case "1y" =>
        start := SetFullYear(start, end.year - 1);
        YearBackSpan(now);
      case _ =>
    }
  }

  // ---------------------------------------------------------------- sales rows

  /** A `sales` row as the report reads it. */
  datatype SaleRow = SaleRow(saleDate: int, totalAmount: Option<int>)

  /** `sale.total_amount || 0`. */
  function Amount(s: SaleRow): int {
    s.totalAmount.GetOr(0)
  }

  function NegatedDate(s: SaleRow): int {
    -s.saleDate
  }

  function InWindow(from: int, to: int): SaleRow -> bool {
    (s: SaleRow) => from <= s.saleDate <= to
  }

  /** The sales query: every sale dated in [from, to], whatever its status, in
      ascending `sale_date` order (ties in table order). */
  function SalesInWindow(table: seq<SaleRow>, from: int, to: int): (r: seq<SaleRow>)
    ensures forall s :: s in r <==> s in table && from <= s.saleDate <= to
    ensures multiset(r) == multiset(Filter(table, InWindow(from, to)))
    ensures forall i, j :: 0 <= i < j < |r| ==> r[i].saleDate <= r[j].saleDate
  {
    var kept := Filter(table, InWindow(from, to));
    var r := SortDesc(kept, NegatedDate);
    SameMembers(r, kept);
    r
  }

  // ---------------------------------------------------------------- daily series

  /** The two quantities summed per day. */
  datatype Measure = Revenue | Orders

  /** What one sale adds to a day: its amount, or one order. */
  function Weight(m: Measure): SaleRow -> int {
    (s: SaleRow) => if m == Revenue then Amount(s) else 1
  }

  /** A point of the sales chart. */
  datatype SalesPoint = SalesPoint(date: string, totalSales: int, totalOrders: int)

  function PointMeasure(m: Measure): SalesPoint -> int {
    (p: SalesPoint) => if m == Revenue then p.totalSales else p.totalOrders
  }

  /** The sale falls on the day labelled d; `dayOf` stands for `toLocaleDateString`. */
  function OnDay(dayOf: int -> string, d: string): SaleRow -> bool {
    (s: SaleRow) => dayOf(s.saleDate) == d
  }

  function DayLabels(sales: seq<SaleRow>, dayOf: int -> string): seq<string> {
    seq(|sales|, i requires 0 <= i < |sales| => dayOf(sales[i].saleDate))
  }

  /** The measure summed over the sales of day d. */
  function DayMeasure(sales: seq<SaleRow>, dayOf: int -> string, d: string, m: Measure): int {
    SumBy(Filter(sales, OnDay(dayOf, d)), Weight(m))
  }

  function Point(sales: seq<SaleRow>, dayOf: int -> string, d: string): SalesPoint {
    SalesPoint(d, DayMeasure(sales, dayOf, d, Revenue), DayMeasure(sales, dayOf, d, Orders))
  }

  function SeriesFor(days: seq<string>, sales: seq<SaleRow>, dayOf: int -> string): (r: seq<SalesPoint>)
    ensures |r| == |days|
    ensures forall i :: 0 <= i < |days| ==> r[i] == Point(sales, dayOf, days[i])
  {
    if days == [] then [] else [Point(sales, dayOf, days[0])] + SeriesFor(days[1..], sales, dayOf)
  }

  /** One point per distinct day, in the order each day is first met, as
      `Object.entries` lists string keys in insertion order. Keys that read as array
      indices ("12") would be listed first, in ascending order; day labels carry
      separators, so that order is not modelled. */
  function DailySeries(sales: seq<SaleRow>, dayOf: int -> string): (r: seq<SalesPoint>)
    ensures forall i :: 0 <= i < |r| ==> r[i].date in DayLabels(sales, dayOf)
    ensures forall k :: 0 <= k < |sales| ==> exists i :: 0 <= i < |r| && r[i].date == dayOf(sales[k].saleDate)
    ensures forall i, j :: 0 <= i < j < |r| ==> r[i].date != r[j].date
  {
    var days := Distinct(DayLabels(sales, dayOf));
    var r := SeriesFor(days, sales, dayOf);
    forall k | 0 <= k < |sales|
      ensures exists i :: 0 <= i < |r| && r[i].date == dayOf(sales[k].saleDate)
    {
      assert DayLabels(sales, dayOf)[k] in days;
    }
    r
  }

  /** A day's bucket while the rows are being counted. */
  datatype Bucket = Bucket(sales: int, orders: int)

  /** The dictionary holds, for each day met so far, its revenue and orders over
      the rows counted so far; `dates` lists its keys in insertion order. */
  ghost predicate Counted(daily: map<string, Bucket>, dates: seq<string>, counted: seq<SaleRow>, dayOf: int -> string) {
    && dates == Distinct(DayLabels(counted, dayOf))
    && (forall d :: d in daily <==> d in dates)
    && (forall d :: d in daily ==>
          daily[d] == Bucket(DayMeasure(counted, dayOf, d, Revenue), DayMeasure(counted, dayOf, d, Orders)))
  }

  /** `processSalesData`: one pass over the rows filling a dictionary keyed by the
      day label, then one pass over its entries. */
  method ProcessSalesData(sales: seq<SaleRow>, dayOf: int -> string) returns (r: seq<SalesPoint>)
    ensures r == DailySeries(sales, dayOf)
  {
    var daily: map<string, Bucket> := map[];
    var dates: seq<string> := [];
    var i := 0;
    ghost var counted: seq<SaleRow> := [];
    while i < |sales|
      invariant 0 <= i <= |sales|
      invariant counted == sales[..i]
      invariant Counted(daily, dates, counted, dayOf)
    {
      var sale := sales[i];
      ghost var before, datesBefore := daily, dates;
      daily, dates := AddSale(daily, dates, sale, dayOf);
      CountedStep(before, datesBefore, counted, sale, dayOf, daily, dates);
      PrefixGrows(sales, i);
      counted := counted + [sale];
      i := i + 1;
    }
    PrefixWhole(sales);
    r := ListEntries(daily, dates);
    EntriesAreSeries(daily, dates, counted, dayOf, r);
  }

  /** The loop body of `processSalesData`: open the day's bucket on its first sale, then add the
      sale's amount and one order to it. */
  method AddSale(daily: map<string, Bucket>, dates: seq<string>, sale: SaleRow, dayOf: int -> string)
    returns (daily': map<string, Bucket>, dates': seq<string>)
    ensures var date := dayOf(sale.saleDate);
      var b := if date in daily then daily[date] else Bucket(0, 0);
      && daily' == daily[date := Bucket(b.sales + Amount(sale), b.orders + 1)]
      && dates' == if date in daily then dates else dates + [date]
  {
    var date := dayOf(sale.saleDate);
    daily', dates' := daily, dates;
    if date !in daily' {
      daily' := daily'[date := Bucket(0, 0)];
      dates' := dates' + [date];
    }
    daily' := daily'[date := Bucket(daily'[date].sales + Amount(sale), daily'[date].orders + 1)];
  }

  /** `Object.entries(daily).map(...)`: one point per key, in the keys' insertion order
      (day labels are never array-index strings). */
  method ListEntries(daily: map<string, Bucket>, dates: seq<string>) returns (r: seq<SalesPoint>)
    requires forall d :: d in dates ==> d in daily
    ensures |r| == |dates|
    ensures forall k :: 0 <= k < |dates| ==> r[k] == SalesPoint(dates[k], daily[dates[k]].sales, daily[dates[k]].orders)
  {
    r := [];
    var j := 0;
    while j < |dates|
      invariant 0 <= j <= |dates|
      invariant |r| == j
      invariant forall k :: 0 <= k < j ==> r[k] == SalesPoint(dates[k], daily[dates[k]].sales, daily[dates[k]].orders)
    {
      var bucket := daily[dates[j]];
      r := r + [SalesPoint(dates[j], bucket.sales, bucket.orders)];
      j := j + 1;
    }
  }

  /** Listing the entries of a dictionary in step with all the rows gives the daily series. */
  lemma EntriesAreSeries(daily: map<string, Bucket>, dates: seq<string>, sales: seq<SaleRow>, dayOf: int -> string, r: seq<SalesPoint>)
    requires Counted(daily, dates, sales, dayOf)
    requires |r| == |dates|
    requires forall k :: 0 <= k < |dates| ==> r[k] == SalesPoint(dates[k], daily[dates[k]].sales, daily[dates[k]].orders)
    ensures r == DailySeries(sales, dayOf)
  {
    var series := DailySeries(sales, dayOf);
    assert |series| == |dates|;
    forall k | 0 <= k < |dates| ensures r[k] == series[k] {
      assert dates[k] in daily;
    }
  }

  /** Counting one more sale keeps the dictionary in step with the rows counted. */
  lemma CountedStep(daily: map<string, Bucket>, dates: seq<string>, counted: seq<SaleRow>, sale: SaleRow,
                    dayOf: int -> string, daily': map<string, Bucket>, dates': seq<string>)
    requires Counted(daily, dates, counted, dayOf)
    requires var date := dayOf(sale.saleDate);
      var b := if date in daily then daily[date] else Bucket(0, 0);
      && daily' == daily[date := Bucket(b.sales + Amount(sale), b.orders + 1)]
      && dates' == if date in daily then dates else dates + [date]
    ensures Counted(daily', dates', counted + [sale], dayOf)
  {
    var date := dayOf(sale.saleDate);
    assert date in daily <==> date in dates;
    DatesStep(dates, counted, sale, dayOf);
    assert forall d :: d in daily <==> d in DayLabels(counted, dayOf);
    BucketsStep(daily, counted, sale, dayOf, daily');
    assert forall d :: d in daily' <==> d in dates';
  }

  /** Every bucket after one more sale holds the measures over the rows counted so far. */
  lemma BucketsStep(daily: map<string, Bucket>, counted: seq<SaleRow>, sale: SaleRow, dayOf: int -> string,
                    daily': map<string, Bucket>)
    requires forall d :: d in daily ==>
      daily[d] == Bucket(DayMeasure(counted, dayOf, d, Revenue), DayMeasure(counted, dayOf, d, Orders))
    requires forall d :: d in daily <==> d in DayLabels(counted, dayOf)
    requires var date := dayOf(sale.saleDate);
      var b := if date in daily then daily[date] else Bucket(0, 0);
      daily' == daily[date := Bucket(b.sales + Amount(sale), b.orders + 1)]
    ensures forall d :: d in daily' ==>
      daily'[d] == Bucket(DayMeasure(counted + [sale], dayOf, d, Revenue), DayMeasure(counted + [sale], dayOf, d, Orders))
  {
    forall d | d in daily'
      ensures daily'[d] == Bucket(DayMeasure(counted + [sale], dayOf, d, Revenue), DayMeasure(counted + [sale], dayOf, d, Orders))
    {
      if d in daily {
        BucketAfter(daily[d], counted, sale, dayOf, d);
      } else {
        DayMeasureAbsent(counted, dayOf, d, Revenue);
        DayMeasureAbsent(counted, dayOf, d, Orders);
        BucketAfter(Bucket(0, 0), counted, sale, dayOf, d);
      }
    }
  }

  /** A day's bucket after one more sale: grown by the sale on its own day, unchanged on others. */
  lemma BucketAfter(b: Bucket, counted: seq<SaleRow>, sale: SaleRow, dayOf: int -> string, d: string)
    requires b == Bucket(DayMeasure(counted, dayOf, d, Revenue), DayMeasure(counted, dayOf, d, Orders))
    ensures var b' := if dayOf(sale.saleDate) == d then Bucket(b.sales + Amount(sale), b.orders + 1) else b;
      b' == Bucket(DayMeasure(counted + [sale], dayOf, d, Revenue), DayMeasure(counted + [sale], dayOf, d, Orders))
  {
    DayMeasureStep(counted, sale, dayOf, d, Revenue);
    DayMeasureStep(counted, sale, dayOf, d, Orders);
  }

  /** The distinct days grow by the new sale's day when it is new. */
  lemma DatesStep(dates: seq<string>, counted: seq<SaleRow>, sale: SaleRow, dayOf: int -> string)
    requires dates == Distinct(DayLabels(counted, dayOf))
    ensures var date := dayOf(sale.saleDate);
      Distinct(DayLabels(counted + [sale], dayOf)) == if date in dates then dates else dates + [date]
  {
    var next := counted + [sale];
    assert DayLabels(next, dayOf)[..|next| - 1] == DayLabels(counted, dayOf);
  }

  /** Adding one sale changes only the measures of its own day. */
  lemma DayMeasureStep(sales: seq<SaleRow>, x: SaleRow, dayOf: int -> string, d: string, m: Measure)
    ensures DayMeasure(sales + [x], dayOf, d, m) ==
      DayMeasure(sales, dayOf, d, m) + (if dayOf(x.saleDate) == d then Weight(m)(x) else 0)
  {
    var p := OnDay(dayOf, d);
    FilterAppend(sales, [x], p);
    SumByAppend(Filter(sales, p), Filter([x], p), Weight(m));
  }

  /** A day no sale falls on measures zero. */
  lemma {:induction false} DayMeasureAbsent(sales: seq<SaleRow>, dayOf: int -> string, d: string, m: Measure)
    requires d !in DayLabels(sales, dayOf)
    ensures DayMeasure(sales, dayOf, d, m) == 0
  {
    if sales != [] {
      assert DayLabels(sales, dayOf)[0] == dayOf(sales[0].saleDate);
      assert DayLabels(sales[1..], dayOf) == DayLabels(sales, dayOf)[1..];
      DayMeasureAbsent(sales[1..], dayOf, d, m);
    }
  }

  /** Counting one per sale counts the sales. */
  lemma {:induction false} OrdersCountSales(sales: seq<SaleRow>)
    ensures SumBy(sales, Weight(Orders)) == |sales|
  {
    if sales != [] {
      OrdersCountSales(sales[1..]);
    }
  }

  /** Each point counts the sales of its day and sums their amounts, a missing amount
      adding nothing. */
  lemma DailySeriesEntries(sales: seq<SaleRow>, dayOf: int -> string, i: nat)
    requires i < |DailySeries(sales, dayOf)|
    ensures var p := DailySeries(sales, dayOf)[i];
      var onDay := Filter(sales, OnDay(dayOf, p.date));
      p.totalOrders == |onDay| && p.totalSales == SumBy(onDay, Amount)
  {
    var p := DailySeries(sales, dayOf)[i];
    var onDay := Filter(sales, OnDay(dayOf, p.date));
    OrdersCountSales(onDay);
    SumByCongruent(onDay, Weight(Revenue), Amount);
  }

  /** The points' dates are the distinct day labels, in order. */
  lemma SeriesDates(sales: seq<SaleRow>, dayOf: int -> string)
    ensures var r, days := DailySeries(sales, dayOf), Distinct(DayLabels(sales, dayOf));
      |r| == |days| && forall x :: 0 <= x < |r| ==> r[x].date == days[x]
  {
  }

  /** Days come in the order they are first met: once the rows up to k have met the
      day of a point, they have met the day of every earlier point too. */
  lemma DailySeriesFirstSeen(sales: seq<SaleRow>, dayOf: int -> string, k: nat, i: nat, j: nat)
    requires k <= |sales| && i < j < |DailySeries(sales, dayOf)|
    ensures DailySeries(sales, dayOf)[j].date in DayLabels(sales[..k], dayOf) ==>
      DailySeries(sales, dayOf)[i].date in DayLabels(sales[..k], dayOf)
  {
    var labels := DayLabels(sales, dayOf);
    SeriesDates(sales, dayOf);
    DayLabelsPrefix(sales, dayOf, k);
    if Distinct(labels)[j] in labels[..k] {
      DistinctFirstSeen(labels, k, i, j);
    }
  }

  lemma DayLabelsPrefix(sales: seq<SaleRow>, dayOf: int -> string, k: nat)
    requires k <= |sales|
    ensures DayLabels(sales[..k], dayOf) == DayLabels(sales, dayOf)[..k]
  {
  }

  /** Every day of the chart has at least one order. */
  lemma DailyOrdersPositive(sales: seq<SaleRow>, dayOf: int -> string, i: nat)
    requires i < |DailySeries(sales, dayOf)|
    ensures DailySeries(sales, dayOf)[i].totalOrders >= 1
  {
    var d := DailySeries(sales, dayOf)[i].date;
    var k :| 0 <= k < |sales| && DayLabels(sales, dayOf)[k] == d;
    var f := Filter(sales, OnDay(dayOf, d));
    assert sales[k] in f;
    OrdersCountSales(f);
  }

  /** The measure summed over a list of days. */
  function SumOverDays(days: seq<string>, sales: seq<SaleRow>, dayOf: int -> string, m: Measure): int {
    if days == [] then 0 else DayMeasure(sales, dayOf, days[0], m) + SumOverDays(days[1..], sales, dayOf, m)
  }

  lemma {:induction false} SeriesSum(days: seq<string>, sales: seq<SaleRow>, dayOf: int -> string, m: Measure)
    ensures SumBy(SeriesFor(days, sales, dayOf), PointMeasure(m)) == SumOverDays(days, sales, dayOf, m)
  {
    if days != [] {
      SeriesSum(days[1..], sales, dayOf, m);
      assert SeriesFor(days, sales, dayOf)[1..] == SeriesFor(days[1..], sales, dayOf);
    }
  }

  lemma {:induction false} SumOverNoSales(days: seq<string>, dayOf: int -> string, m: Measure)
    ensures SumOverDays(days, [], dayOf, m) == 0
  {
    if days != [] {
      SumOverNoSales(days[1..], dayOf, m);
    }
  }

  lemma {:induction false} SumOverDaysStep(days: seq<string>, sales: seq<SaleRow>, x: SaleRow, dayOf: int -> string, m: Measure)
    requires NoDuplicates(days)
    ensures SumOverDays(days, sales + [x], dayOf, m) ==
      SumOverDays(days, sales, dayOf, m) + (if dayOf(x.saleDate) in days then Weight(m)(x) else 0)
  {
    if days != [] {
      DayMeasureStep(sales, x, dayOf, days[0], m);
      SumOverDaysStep(days[1..], sales, x, dayOf, m);
      if dayOf(x.saleDate) == days[0] {
        assert dayOf(x.saleDate) !in days[1..] by {
          forall j | 0 <= j < |days[1..]| ensures days[1..][j] != days[0] {
            assert days[j + 1] != days[0];
          }
        }
      }
    }
  }

  lemma {:induction false} SumOverCoveringDays(days: seq<string>, sales: seq<SaleRow>, dayOf: int -> string, m: Measure)
    requires NoDuplicates(days)
    requires forall k :: 0 <= k < |sales| ==> dayOf(sales[k].saleDate) in days
    ensures SumOverDays(days, sales, dayOf, m) == SumBy(sales, Weight(m))
  {
    if sales == [] {
      SumOverNoSales(days, dayOf, m);
    } else {
      var init, last := sales[..|sales| - 1], sales[|sales| - 1];
      assert sales == init + [last];
      SumOverCoveringDays(days, init, dayOf, m);
      SumOverDaysStep(days, init, last, dayOf, m);
      SumByAppend(init, [last], Weight(m));
    }
  }

  /** Nothing is lost or counted twice: the chart's totals are the totals of the rows. */
  lemma SeriesConservation(sales: seq<SaleRow>, dayOf: int -> string, m: Measure)
    ensures SumBy(DailySeries(sales, dayOf), PointMeasure(m)) == SumBy(sales, Weight(m))
  {
    var days := Distinct(DayLabels(sales, dayOf));
    SeriesSum(days, sales, dayOf, m);
    forall k | 0 <= k < |sales| ensures dayOf(sales[k].saleDate) in days {
      assert DayLabels(sales, dayOf)[k] == dayOf(sales[k].saleDate);
    }
    SumOverCoveringDays(days, sales, dayOf, m);
  }

  // ---------------------------------------------------------------- summary

  /** Revenue of the first (up to) seven and the last (up to) seven chart points,
      as `slice(0, 7)` and `slice(-7)` take them. */
  function FirstWeek(series: seq<SalesPoint>): int {
    SumBy(series[..if |series| < 7 then |series| else 7], PointMeasure(Revenue))
  }

  function LastWeek(series: seq<SalesPoint>): int {
    SumBy(series[if |series| < 7 then 0 else |series| - 7..], PointMeasure(Revenue))
  }

  /** The percentage change from the first week to the last, or 0 without first-week revenue. */
  function Growth(series: seq<SalesPoint>): (g: real)
    ensures FirstWeek(series) <= 0 ==> g == 0.0
    ensures g > 0.0 <==> FirstWeek(series) > 0 && LastWeek(series) > FirstWeek(series)
    ensures g < 0.0 <==> FirstWeek(series) > 0 && LastWeek(series) < FirstWeek(series)
    ensures FirstWeek(series) > 0 ==> g * FirstWeek(series) as real == (LastWeek(series) - FirstWeek(series)) as real * 100.0
  {
    var first, last := FirstWeek(series), LastWeek(series);
    if first > 0 then ((last - first) as real / first as real) * 100.0 else 0.0
  }

  /** With seven points or fewer both weeks are the whole chart, so there is no growth. */
  lemma ShortSeriesHasNoGrowth(series: seq<SalesPoint>)
    requires |series| <= 7
    ensures Growth(series) == 0.0
  {
    assert series[..|series|] == series[0..];
  }

  datatype Summary = Summary(totalSales: int, totalOrders: int, totalCustomers: int,
                             totalProducts: int, salesGrowth: real, orderGrowth: real)

  /** `calculateSummaryStats`. The customer and product counts are the lengths of the
      rankings held in component state when it runs, that is, those of the previous
      load, so they are parameters here. */
  function CalculateSummaryStats(sales: seq<SaleRow>, processed: seq<SalesPoint>,
                                 shownCustomers: nat, shownProducts: nat): (r: Summary)
    ensures r.totalSales == SumBy(sales, Amount)
    ensures r.totalOrders == |sales|
    ensures r.totalCustomers == shownCustomers && r.totalProducts == shownProducts
    ensures r.salesGrowth == Growth(processed)
    ensures processed == [] ==> r.salesGrowth == 0.0
    ensures r.orderGrowth == 0.0
  {
    OrdersCountSales(sales);
    SumByCongruent(sales, Weight(Revenue), Amount);
    Summary(SumBy(sales, Weight(Revenue)), SumBy(sales, Weight(Orders)), shownCustomers, shownProducts,
            Growth(processed), 0.0)
  }

  /** The summary's totals are the sums of the chart it is given. */
  lemma SummaryMatchesChart(sales: seq<SaleRow>, dayOf: int -> string, c: nat, p: nat)
    ensures var series := DailySeries(sales, dayOf);
      var s := CalculateSummaryStats(sales, series, c, p);
      s.totalSales == SumBy(series, PointMeasure(Revenue)) && s.totalOrders == SumBy(series, PointMeasure(Orders))
  {
    SeriesConservation(sales, dayOf, Revenue);
    SeriesConservation(sales, dayOf, Orders);
  }

  // ---------------------------------------------------------------- products

  datatype SaleItemRow = SaleItemRow(quantity: Option<int>, salePrice: Option<int>)
  datatype ProductRow = ProductRow(name: string, currentStock: Option<int>, saleItems: Option<seq<SaleItemRow>>)
  datatype ProductPerformance = ProductPerformance(productName: string, totalSold: int, revenue: int, stockLevel: int)

  function ItemQuantity(it: SaleItemRow): int {
    it.quantity.GetOr(0)
  }

  function ItemRevenue(it: SaleItemRow): int {
    it.quantity.GetOr(0) * it.salePrice.GetOr(0)
  }

  /** One product's line: units and revenue over its sale items, 0 without items. */
  function Performance(p: ProductRow): (r: ProductPerformance)
    ensures r.productName == p.name
    ensures p.saleItems.None? || p.saleItems == Some([]) ==> r.totalSold == 0 && r.revenue == 0
    ensures p.saleItems.Some? ==> r.totalSold == SumBy(p.saleItems.value, ItemQuantity) && r.revenue == SumBy(p.saleItems.value, ItemRevenue)
    ensures r.stockLevel == p.currentStock.GetOr(0)
    ensures p.currentStock.None? ==> r.stockLevel == 0
    ensures (forall it | p.saleItems.Some? && it in p.saleItems.value :: it.quantity.GetOr(0) >= 0) ==> r.totalSold >= 0
  {
    match p.saleItems
    case None => ProductPerformance(p.name, 0, 0, p.currentStock.GetOr(0))
    case Some(items) =>
      SumByNonNegative(items, ItemQuantity);
      ProductPerformance(p.name, SumBy(items, ItemQuantity), SumBy(items, ItemRevenue), p.currentStock.GetOr(0))
  }

  lemma {:induction false} SumByNonNegative<T(!new)>(s: seq<T>, f: T -> int)
    ensures (forall x | x in s :: f(x) >= 0) ==> SumBy(s, f) >= 0
  {
    if s != [] {
      SumByNonNegative(s[1..], f);
    }
  }

  function RevenueOf(p: ProductPerformance): int {
    p.revenue
  }

  function Performances(products: seq<ProductRow>): seq<ProductPerformance> {
    seq(|products|, i requires 0 <= i < |products| => Performance(products[i]))
  }

  /** `processProductData`: the ten best products by revenue, best first. */
  function ProcessProductData(products: seq<ProductRow>): (r: seq<ProductPerformance>)
    ensures |r| == if |products| < 10 then |products| else 10
    ensures forall i, j :: 0 <= i < j < |r| ==> r[i].revenue >= r[j].revenue
    ensures multiset(r) <= multiset(Performances(products))
    ensures forall z, i :: 0 <= i < |r| && multiset(r)[z] < multiset(Performances(products))[z] ==> z.revenue <= r[i].revenue
    ensures forall p, i :: p in products && Performance(p) !in r && 0 <= i < |r| ==> Performance(p).revenue <= r[i].revenue
    ensures forall v :: Tied(r, RevenueOf, v) <= Tied(Performances(products), RevenueOf, v)
  {
    ProductRanking(products);
    Top(Performances(products), RevenueOf, 10)
  }

  /** The top-ten facts of `processProductData`, in revenue terms. */
  lemma ProductRanking(products: seq<ProductRow>)
    ensures var all, r := Performances(products), Top(Performances(products), RevenueOf, 10);
      && (forall i, j :: 0 <= i < j < |r| ==> r[i].revenue >= r[j].revenue)
      && (forall z, i :: 0 <= i < |r| && multiset(r)[z] < multiset(all)[z] ==> z.revenue <= r[i].revenue)
      && (forall p, i :: p in products && Performance(p) !in r && 0 <= i < |r| ==> Performance(p).revenue <= r[i].revenue)
  {
    var all := Performances(products);
    var r := Top(all, RevenueOf, 10);
    RevenueRanked(all, r);
    ProductsLeftOut(products, all, r);
    RevenueSorted(r);
  }

  lemma RevenueRanked(all: seq<ProductPerformance>, r: seq<ProductPerformance>)
    requires forall i, z :: 0 <= i < |r| && multiset(r)[z] < multiset(all)[z] ==> RevenueOf(z) <= RevenueOf(r[i])
    ensures forall z, i :: 0 <= i < |r| && multiset(r)[z] < multiset(all)[z] ==> z.revenue <= r[i].revenue
  {
    forall z, i | 0 <= i < |r| && multiset(r)[z] < multiset(all)[z] ensures z.revenue <= r[i].revenue {
      assert RevenueOf(z) <= RevenueOf(r[i]);
    }
  }

  lemma RevenueSorted(r: seq<ProductPerformance>)
    requires NonIncreasing(r, RevenueOf)
    ensures forall i, j :: 0 <= i < j < |r| ==> r[i].revenue >= r[j].revenue
  {
    forall i, j | 0 <= i < j < |r| ensures r[i].revenue >= r[j].revenue {
      assert RevenueOf(r[i]) >= RevenueOf(r[j]);
    }
  }

  lemma ProductsLeftOut(products: seq<ProductRow>, all: seq<ProductPerformance>, r: seq<ProductPerformance>)
    requires all == Performances(products)
    requires forall i, z :: 0 <= i < |r| && multiset(r)[z] < multiset(all)[z] ==> RevenueOf(z) <= RevenueOf(r[i])
    ensures forall p, i :: p in products && Performance(p) !in r && 0 <= i < |r| ==> Performance(p).revenue <= r[i].revenue
  {
    AbsentIsFewer(r, all, RevenueOf);
    forall p, i | p in products && Performance(p) !in r && 0 <= i < |r|
      ensures Performance(p).revenue <= r[i].revenue
    {
      var k :| 0 <= k < |products| && products[k] == p;
      assert all[k] == Performance(p);
      assert RevenueOf(Performance(p)) <= RevenueOf(r[i]);
    }
  }

  // ---------------------------------------------------------------- customers

  datatype CustomerSaleRow = CustomerSaleRow(totalAmount: Option<int>, saleDate: int)
  datatype CustomerRow = CustomerRow(fullName: string, sales: Option<seq<CustomerSaleRow>>)

  /** The last purchase: an instant, or `'Nunca'`. */
  datatype LastPurchase = Never | On(instant: int)

  datatype CustomerStats = CustomerStats(customerName: string, totalPurchases: int, totalSpent: int, lastPurchase: LastPurchase)

  /** `Math.max` over the sale dates. */
  function LatestSale(sales: seq<CustomerSaleRow>): (t: int)
    requires |sales| > 0
    ensures exists k :: 0 <= k < |sales| && sales[k].saleDate == t
    ensures forall k :: 0 <= k < |sales| ==> sales[k].saleDate <= t
  {
    if |sales| == 1 then sales[0].saleDate
    else
      var rest := LatestSale(sales[1..]);
      if sales[0].saleDate >= rest then sales[0].saleDate else rest
  }

  function SpentOn(s: CustomerSaleRow): int {
    s.totalAmount.GetOr(0)
  }

  /** One customer's line: number of sales, money spent, and the latest sale date. */
  function CustomerLine(c: CustomerRow): (r: CustomerStats)
    ensures r.customerName == c.fullName
    ensures c.sales.None? ==> r.totalPurchases == 0 && r.totalSpent == 0
    ensures c.sales.Some? ==> r.totalPurchases == |c.sales.value|
    ensures r.lastPurchase.Never? <==> c.sales.None? || c.sales.value == []
    ensures c.sales.Some? ==> r.totalSpent == SumBy(c.sales.value, SpentOn)
    ensures r.lastPurchase.On? ==> c.sales.Some? && r.lastPurchase.instant == LatestSale(c.sales.value)
    ensures r.lastPurchase.On? ==> forall s | s in c.sales.value :: s.saleDate <= r.lastPurchase.instant
  {
    match c.sales
    case None => CustomerStats(c.fullName, 0, 0, Never)
    case Some(sales) =>
      CustomerStats(c.fullName, |sales|, SumBy(sales, SpentOn), if |sales| > 0 then On(LatestSale(sales)) else Never)
  }

  function TotalSpent(s: CustomerStats): int {
    s.totalSpent
  }

  function CustomerLines(customers: seq<CustomerRow>): seq<CustomerStats> {
    seq(|customers|, i requires 0 <= i < |customers| => CustomerLine(customers[i]))
  }

  /** `processCustomerData`: the ten customers who spent most, best first. */
  function ProcessCustomerData(customers: seq<CustomerRow>): (r: seq<CustomerStats>)
    ensures |r| == if |customers| < 10 then |customers| else 10
    ensures forall i, j :: 0 <= i < j < |r| ==> r[i].totalSpent >= r[j].totalSpent
    ensures multiset(r) <= multiset(CustomerLines(customers))
    ensures forall z, i :: 0 <= i < |r| && multiset(r)[z] < multiset(CustomerLines(customers))[z] ==> z.totalSpent <= r[i].totalSpent
    ensures forall c, i :: c in customers && CustomerLine(c) !in r && 0 <= i < |r| ==> CustomerLine(c).totalSpent <= r[i].totalSpent
    ensures forall v :: Tied(r, TotalSpent, v) <= Tied(CustomerLines(customers), TotalSpent, v)
  {
    CustomerRanking(customers);
    Top(CustomerLines(customers), TotalSpent, 10)
  }

  /** The top-ten facts of `processCustomerData`, in money-spent terms. */
  lemma CustomerRanking(customers: seq<CustomerRow>)
    ensures var all, r := CustomerLines(customers), Top(CustomerLines(customers), TotalSpent, 10);
      && (forall i, j :: 0 <= i < j < |r| ==> r[i].totalSpent >= r[j].totalSpent)
      && (forall z, i :: 0 <= i < |r| && multiset(r)[z] < multiset(all)[z] ==> z.totalSpent <= r[i].totalSpent)
      && (forall c, i :: c in customers && CustomerLine(c) !in r && 0 <= i < |r| ==> CustomerLine(c).totalSpent <= r[i].totalSpent)
  {
    var all := CustomerLines(customers);
    var r := Top(all, TotalSpent, 10);
    SpendingRanked(all, r);
    CustomersLeftOut(customers, all, r);
    SpendingSorted(r);
  }

  lemma SpendingRanked(all: seq<CustomerStats>, r: seq<CustomerStats>)
    requires forall i, z :: 0 <= i < |r| && multiset(r)[z] < multiset(all)[z] ==> TotalSpent(z) <= TotalSpent(r[i])
    ensures forall z, i :: 0 <= i < |r| && multiset(r)[z] < multiset(all)[z] ==> z.totalSpent <= r[i].totalSpent
  {
    forall z, i | 0 <= i < |r| && multiset(r)[z] < multiset(all)[z] ensures z.totalSpent <= r[i].totalSpent {
      assert TotalSpent(z) <= TotalSpent(r[i]);
    }
  }

  lemma SpendingSorted(r: seq<CustomerStats>)
    requires NonIncreasing(r, TotalSpent)
    ensures forall i, j :: 0 <= i < j < |r| ==> r[i].totalSpent >= r[j].totalSpent
  {
    forall i, j | 0 <= i < j < |r| ensures r[i].totalSpent >= r[j].totalSpent {
      assert TotalSpent(r[i]) >= TotalSpent(r[j]);
    }
  }

  lemma CustomersLeftOut(customers: seq<CustomerRow>, all: seq<CustomerStats>, r: seq<CustomerStats>)
    requires all == CustomerLines(customers)
    requires forall i, z :: 0 <= i < |r| && multiset(r)[z] < multiset(all)[z] ==> TotalSpent(z) <= TotalSpent(r[i])
    ensures forall c, i :: c in customers && CustomerLine(c) !in r && 0 <= i < |r| ==> CustomerLine(c).totalSpent <= r[i].totalSpent
  {
    AbsentIsFewer(r, all, TotalSpent);
    forall c, i | c in customers && CustomerLine(c) !in r && 0 <= i < |r|
      ensures CustomerLine(c).totalSpent <= r[i].totalSpent
    {
      var k :| 0 <= k < |customers| && customers[k] == c;
      assert all[k] == CustomerLine(c);
      assert TotalSpent(CustomerLine(c)) <= TotalSpent(r[i]);
    }
  }

  // ---------------------------------------------------------------- stock alerts

  datatype StockRow = StockRow(name: string, currentStock: Option<int>, minStock: Option<int>, expiryDate: Option<int>)
  datatype StockAlert = StockAlert(productName: string, currentStock: int, minStock: int, daysUntilExpiry: Option<int>)

  /** One product's alert line; days to expiry rounded up, absent without an expiry date. */
  function ToAlert(p: StockRow, now: int): (a: StockAlert)
    ensures a.productName == p.name && a.currentStock == p.currentStock.GetOr(0) && a.minStock == p.minStock.GetOr(0)
    ensures a.daysUntilExpiry.None? <==> p.expiryDate.None?
    ensures p.expiryDate.Some? ==> var d := a.daysUntilExpiry.value;
      (d - 1) * MsPerDay < p.expiryDate.value - now <= d * MsPerDay
  {
    StockAlert(p.name, p.currentStock.GetOr(0), p.minStock.GetOr(0),
               match p.expiryDate case None => None case Some(e) => Some(CeilDays(e - now)))
  }

  /** The alert filter. The explicit null test matters: a missing expiry never raises an
      alert on its own, and an expiry within 30 days (or already past) raises one whatever
      the stock. */
  function NeedsAlert(a: StockAlert): (alert: bool)
    ensures a.daysUntilExpiry.None? ==> (alert <==> a.currentStock <= a.minStock)
    ensures a.daysUntilExpiry.Some? && a.daysUntilExpiry.value <= 30 ==> alert
    ensures a.currentStock > a.minStock ==> (alert <==> a.daysUntilExpiry.Some? && a.daysUntilExpiry.value <= 30)
  {
    a.currentStock <= a.minStock || (a.daysUntilExpiry.Some? && a.daysUntilExpiry.value <= 30)
  }

  function Alerts(products: seq<StockRow>, now: int): seq<StockAlert> {
    seq(|products|, i requires 0 <= i < |products| => ToAlert(products[i], now))
  }

  /** `processStockAlerts`: the products at or under their minimum stock or expiring within 30 days. */
  function ProcessStockAlerts(products: seq<StockRow>, now: int): (r: seq<StockAlert>)
    ensures |r| <= |products|
    ensures forall a :: a in r <==> a in Alerts(products, now) && NeedsAlert(a)
  {
    Filter(Alerts(products, now), NeedsAlert)
  }

  /** A product is listed exactly when its stock is at or under its minimum (a missing
      value counting as 0) or it expires no more than 30 days after now, already
      expired products included. */
  lemma StockAlertCriterion(p: StockRow, now: int)
    ensures NeedsAlert(ToAlert(p, now)) <==>
      p.currentStock.GetOr(0) <= p.minStock.GetOr(0) || (p.expiryDate.Some? && p.expiryDate.value - now <= 30 * MsPerDay)
  {
    if p.expiryDate.Some? {
      CeilDaysAtMost(p.expiryDate.value - now, 30);
    }
  }

  lemma StockAlertsKeepOrder(products: seq<StockRow>, now: int)
    ensures IsSubsequence(ProcessStockAlerts(products, now), Alerts(products, now))
  {
    FilterIsSubsequence(Alerts(products, now), NeedsAlert);
  }
}
