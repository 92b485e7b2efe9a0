/** The admin analytics page: the orders of the chosen number of days, their
    revenue and average, the reducers by delivery method, status and payment
    method, the revenue per day of the last seven days with orders, and the
    ten best-selling products. */
module Analytics {
  import opened Wrappers
  import opened Seqs
  import opened GraphQLTypes
  import opened OrderStats

  const MS_PER_DAY: int := 86400000
  const TOP_PRODUCTS: nat := 10
  const DAYS_SHOWN: nat := 7
  const DEFAULT_DATE_RANGE: int := 7
  const LOAD_ERROR: string := "Error cargando los datos de analytics"

  function Min(a: nat, b: nat): nat {
    if a <= b then a else b
  }

  // ---------------------------------------------------------------------
  // The date range

  /** The moment `days` days before `now` (both in milliseconds). */
  function Cutoff(now: int, days: int): int {
    now - days * MS_PER_DAY
  }

  function CreatedSince(cutoff: int): LegacyOrder -> bool {
    (o: LegacyOrder) => o.created_at >= cutoff
  }

  /** The orders created at or after the cutoff, each as often as it was
      loaded, in their loaded order. */
  function Recent(all: seq<LegacyOrder>, now: int, days: int): (r: seq<LegacyOrder>)
    ensures forall i :: 0 <= i < |r| ==> r[i].created_at >= now - days * MS_PER_DAY
    ensures forall o :: multiset(r)[o] == if o.created_at >= now - days * MS_PER_DAY then multiset(all)[o] else 0
  {
    Filter(all, CreatedSince(Cutoff(now, days)))
  }

  /** A longer date range keeps every order a shorter one keeps. */
  lemma LongerRangeKeepsMore(all: seq<LegacyOrder>, now: int, shorter: int, longer: int)
    requires shorter <= longer
    ensures multiset(Recent(all, now, shorter)) <= multiset(Recent(all, now, longer))
    ensures |Recent(all, now, shorter)| <= |Recent(all, now, longer)|
  {
    var a, b := Recent(all, now, shorter), Recent(all, now, longer);
    assert forall o :: multiset(a)[o] <= multiset(b)[o] by {
      forall o ensures multiset(a)[o] <= multiset(b)[o] {
        assert now - longer * MS_PER_DAY <= now - shorter * MS_PER_DAY;
      }
    }
    assert |multiset(a)| <= |multiset(b)| by {
      MultisetSubsetSize(multiset(a), multiset(b));
    }
  }

  lemma MultisetSubsetSize<T>(a: multiset<T>, b: multiset<T>)
    requires a <= b
    ensures |a| <= |b|
  {
    assert b == a + (b - a);
  }

  // ---------------------------------------------------------------------
  // Top products

  /** Every order's product lines, order after order. */
  function Lines(orders: seq<LegacyOrder>): seq<LegacyOrderLine>
  {
    if orders == [] then [] else Lines(orders[..|orders| - 1]) + orders[|orders| - 1].products
  }

  function LineName(l: LegacyOrderLine): string {
    l.name
  }

  function LineQuantity(l: LegacyOrderLine): int {
    l.cantidad
  }

  /** One row of the best-selling table. */
  datatype ProductStat = ProductStat(name: string, quantity: int, revenue: int)

  /** The comparator `b.quantity - a.quantity`: larger quantities first. */
  function SoldAtLeast(a: ProductStat, b: ProductStat): bool {
    a.quantity >= b.quantity
  }

  function StatName(s: ProductStat): string {
    s.name
  }

  /** The product names sold, once each, in order of first sale. */
  function ProductNames(orders: seq<LegacyOrder>): seq<string> {
    Distinct(Map(Lines(orders), LineName))
  }

  /** Units of the product `name` sold over all the orders. */
  function QuantitySold(orders: seq<LegacyOrder>, name: string): int {
    SumFor(Lines(orders), LineName, LineQuantity, name)
  }

  /** Revenue (`precio * cantidad` per line) of the product `name` over all the orders. */
  function ProductRevenue(orders: seq<LegacyOrder>, name: string): int {
    SumFor(Lines(orders), LineName, LegacyLineAmount, name)
  }

  /** `top` is the best-selling table of `orders`: at most ten rows, one per
      product name at most, with the units and revenue of that name, in
      non-increasing units, and no product left out sold more than a row
      that is shown. */
  ghost predicate IsTopProducts(top: seq<ProductStat>, orders: seq<LegacyOrder>) {
    && |top| == Min(TOP_PRODUCTS, |ProductNames(orders)|)
    && SortedBy(top, SoldAtLeast)
    && (forall i :: 0 <= i < |top| ==>
          && top[i].name in ProductNames(orders)
          && top[i].quantity == QuantitySold(orders, top[i].name)
          && top[i].revenue == ProductRevenue(orders, top[i].name))
    && (forall i, j :: 0 <= i < j < |top| ==> top[i].name != top[j].name)
    && (forall n :: n in ProductNames(orders) && (forall i :: 0 <= i < |top| ==> top[i].name != n) ==>
          forall i :: 0 <= i < |top| ==> top[i].quantity >= QuantitySold(orders, n))
  }

  lemma SoldAtLeastIsTotal()
    ensures TotalPreorder(SoldAtLeast)
  {
  }

  /** The table rows in key order, one per key, read off the accumulated object. */
  function ProductRows(names: seq<string>, sums: map<string, Totals>): (r: seq<ProductStat>)
    requires forall i :: 0 <= i < |names| ==> names[i] in sums
    ensures |r| == |names|
    ensures forall i :: 0 <= i < |names| ==> r[i] == ProductStat(names[i], sums[names[i]].first, sums[names[i]].second)
  {
    seq(|names|, i requires 0 <= i < |names| => ProductStat(names[i], sums[names[i]].first, sums[names[i]].second))
  }

  /** `sums` is the accumulated object of the product lines: one entry per
      product name, holding its units and its revenue. */
  ghost predicate ProductTotals(orders: seq<LegacyOrder>, names: seq<string>, sums: map<string, Totals>) {
    && names == Distinct(Map(Lines(orders), LineName))
    && (forall i :: 0 <= i < |names| ==> names[i] in sums)
    && (forall k :: k in sums <==> k in names)
    && (forall k :: k in sums ==> sums[k] == Totals(SumFor(Lines(orders), LineName, LineQuantity, k), SumFor(Lines(orders), LineName, LegacyLineAmount, k)))
  }

  /** Every row of the sorted table, and so of its first rows, carries a
      sold name with its totals, and no name twice. */
  lemma ProductRowsHoldTotals(orders: seq<LegacyOrder>, names: seq<string>, sums: map<string, Totals>, sorted: seq<ProductStat>, top: seq<ProductStat>)
    requires ProductTotals(orders, names, sums)
    requires multiset(sorted) == multiset(ProductRows(names, sums))
    requires |top| <= |sorted| && top == sorted[..|top|]
    ensures forall i :: 0 <= i < |top| ==>
              && top[i].name in ProductNames(orders)
              && top[i].quantity == QuantitySold(orders, top[i].name)
              && top[i].revenue == ProductRevenue(orders, top[i].name)
    ensures forall i, j :: 0 <= i < j < |top| ==> top[i].name != top[j].name
  {
    var rows := ProductRows(names, sums);
    forall i | 0 <= i < |top|
      ensures top[i].name in names
      ensures top[i].quantity == QuantitySold(orders, top[i].name)
      ensures top[i].revenue == ProductRevenue(orders, top[i].name)
    {
      assert top[i] in multiset(rows);
      var p :| 0 <= p < |rows| && rows[p] == top[i];
    }
    DistinctSpec(Map(Lines(orders), LineName));
    PermutationKeepsDistinctKeys(rows, sorted, StatName);
  }

  /** A product left out of the first rows of the sorted table sold no more
      than any row shown. */
  lemma ShownProductsSoldMost(orders: seq<LegacyOrder>, names: seq<string>, sums: map<string, Totals>, sorted: seq<ProductStat>, top: seq<ProductStat>)
    requires ProductTotals(orders, names, sums)
    requires multiset(sorted) == multiset(ProductRows(names, sums))
    requires SortedBy(sorted, SoldAtLeast) && |top| <= |sorted| && top == sorted[..|top|]
    ensures forall n :: n in ProductNames(orders) && (forall i :: 0 <= i < |top| ==> top[i].name != n) ==>
              forall i :: 0 <= i < |top| ==> top[i].quantity >= QuantitySold(orders, n)
  {
    var rows := ProductRows(names, sums);
    forall n | n in names && (forall i :: 0 <= i < |top| ==> top[i].name != n)
      ensures forall i :: 0 <= i < |top| ==> top[i].quantity >= QuantitySold(orders, n)
    {
      var p :| 0 <= p < |names| && names[p] == n;
      var row := rows[p];
      assert row.quantity == QuantitySold(orders, n);
      assert row in multiset(sorted);
      assert row !in top;
      SortedPrefixBeats(sorted, SoldAtLeast, |top|, row);
    }
  }

  /** The first ten rows of the table sorted by units are the best-selling table. */
  lemma FirstRowsAreTopProducts(orders: seq<LegacyOrder>, names: seq<string>, sums: map<string, Totals>, sorted: seq<ProductStat>)
    requires ProductTotals(orders, names, sums)
    requires multiset(sorted) == multiset(ProductRows(names, sums))
    requires SortedBy(sorted, SoldAtLeast)
    ensures IsTopProducts(sorted[..Min(TOP_PRODUCTS, |sorted|)], orders)
  {
    var top := sorted[..Min(TOP_PRODUCTS, |sorted|)];
    assert |sorted| == |names| by {
      assert |multiset(sorted)| == |multiset(ProductRows(names, sums))|;
    }
    ProductRowsHoldTotals(orders, names, sums, sorted, top);
    ShownProductsSoldMost(orders, names, sums, sorted, top);
  }

  /** `calculateTopProducts`: units and revenue per product name, sorted by
      units (largest first, ties in order of first sale), the first ten. */
  method TopProducts(orders: seq<LegacyOrder>) returns (top: seq<ProductStat>)
    ensures IsTopProducts(top, orders)
  {
    var names, sums := TallyPair(Lines(orders), LineName, LineQuantity, LegacyLineAmount);
    var rows := ProductRows(names, sums);
    SoldAtLeastIsTotal();
    var sorted := SortBy(rows, SoldAtLeast);
    FirstRowsAreTopProducts(orders, names, sums, sorted);
    top := sorted[..Min(TOP_PRODUCTS, |sorted|)];
  }

  // ---------------------------------------------------------------------
  // Revenue per day

  /** The UTC calendar day of an order, as a day number (`toISOString().split('T')[0]`). */
  function DayOf(o: LegacyOrder): int {
    o.created_at / MS_PER_DAY
  }

  /** One row of the daily-revenue chart. */
  datatype DayStat = DayStat(date: int, revenue: int, orders: int)

  /** The comparator `new Date(a.date) - new Date(b.date)`: earlier days first. */
  function NotLater(a: DayStat, b: DayStat): bool {
    a.date <= b.date
  }

  function StatDate(s: DayStat): int {
    s.date
  }

  /** The days with orders, once each, in order of first order. */
  function OrderDays(orders: seq<LegacyOrder>): seq<int> {
    Distinct(Map(orders, DayOf))
  }

  /** `days` is the daily-revenue chart of `orders`: the seven latest days
      with orders (all of them when fewer), in strictly increasing order,
      each with its revenue and its number of orders. */
  ghost predicate IsDailyRevenue(days: seq<DayStat>, orders: seq<LegacyOrder>) {
    && |days| == Min(DAYS_SHOWN, |OrderDays(orders)|)
    && (forall i, j :: 0 <= i < j < |days| ==> days[i].date < days[j].date)
    && (forall i :: 0 <= i < |days| ==>
          && days[i].date in OrderDays(orders)
          && days[i].revenue == SumFor(orders, DayOf, OrderTotal, days[i].date)
          && days[i].orders == multiset(Map(orders, DayOf))[days[i].date])
    && (forall d :: d in OrderDays(orders) && (forall i :: 0 <= i < |days| ==> days[i].date != d) ==>
          forall i :: 0 <= i < |days| ==> d < days[i].date)
  }

  lemma NotLaterIsTotal()
    ensures TotalPreorder(NotLater)
  {
  }

  function DayRows(dates: seq<int>, sums: map<int, Totals>): (r: seq<DayStat>)
    requires forall i :: 0 <= i < |dates| ==> dates[i] in sums
    ensures |r| == |dates|
    ensures forall i :: 0 <= i < |dates| ==> r[i] == DayStat(dates[i], sums[dates[i]].first, sums[dates[i]].second)
  {
    seq(|dates|, i requires 0 <= i < |dates| => DayStat(dates[i], sums[dates[i]].first, sums[dates[i]].second))
  }

  /** `sums` is the accumulated object of the orders by day: one entry per
      day with orders, holding its revenue and its number of orders. */
  ghost predicate DayTotals(orders: seq<LegacyOrder>, dates: seq<int>, sums: map<int, Totals>) {
    && dates == OrderDays(orders)
    && (forall i :: 0 <= i < |dates| ==> dates[i] in sums)
    && (forall k :: k in sums <==> k in dates)
    && (forall k :: k in sums ==> sums[k] == Totals(SumFor(orders, DayOf, OrderTotal, k), SumFor(orders, DayOf, One, k)))
  }

  /** Every row of the sorted chart, and so of its last rows, carries a day
      with orders and that day's totals. */
  lemma DayRowsHoldTotals(orders: seq<LegacyOrder>, dates: seq<int>, sums: map<int, Totals>, sorted: seq<DayStat>, days: seq<DayStat>)
    requires DayTotals(orders, dates, sums)
    requires multiset(sorted) == multiset(DayRows(dates, sums))
    requires SortedBy(sorted, NotLater)
    requires |days| <= |sorted| && days == sorted[|sorted| - |days|..]
    ensures forall i :: 0 <= i < |days| ==>
              && days[i].date in OrderDays(orders)
              && days[i].revenue == SumFor(orders, DayOf, OrderTotal, days[i].date)
              && days[i].orders == multiset(Map(orders, DayOf))[days[i].date]
  {
    var rows := DayRows(dates, sums);
    forall i | 0 <= i < |days|
      ensures days[i].date in dates
      ensures days[i].revenue == SumFor(orders, DayOf, OrderTotal, days[i].date)
      ensures days[i].orders == multiset(Map(orders, DayOf))[days[i].date]
    {
      assert days[i] in multiset(rows);
      var p :| 0 <= p < |rows| && rows[p] == days[i];
      SumForCounts(orders, DayOf, One, days[i].date);
    }
  }

  /** The days of the sorted chart, and so of its last rows, strictly increase. */
  lemma ShownDaysIncrease(orders: seq<LegacyOrder>, dates: seq<int>, sums: map<int, Totals>, sorted: seq<DayStat>, days: seq<DayStat>)
    requires DayTotals(orders, dates, sums)
    requires multiset(sorted) == multiset(DayRows(dates, sums))
    requires SortedBy(sorted, NotLater)
    requires |days| <= |sorted| && days == sorted[|sorted| - |days|..]
    ensures forall i, j :: 0 <= i < j < |days| ==> days[i].date < days[j].date
  {
    DistinctSpec(Map(orders, DayOf));
    PermutationKeepsDistinctKeys(DayRows(dates, sums), sorted, StatDate);
    var start := |sorted| - |days|;
    forall i, j | 0 <= i < j < |days| ensures days[i].date < days[j].date {
      assert NotLater(sorted[start + i], sorted[start + j]);
    }
  }

  /** A day with orders left out of the last rows of the sorted chart is
      earlier than every day shown. */
  lemma ShownDaysAreLatest(orders: seq<LegacyOrder>, dates: seq<int>, sums: map<int, Totals>, sorted: seq<DayStat>, days: seq<DayStat>)
    requires DayTotals(orders, dates, sums)
    requires multiset(sorted) == multiset(DayRows(dates, sums))
    requires SortedBy(sorted, NotLater)
    requires |days| <= |sorted| && days == sorted[|sorted| - |days|..]
    ensures forall d :: d in OrderDays(orders) && (forall i :: 0 <= i < |days| ==> days[i].date != d) ==>
              forall i :: 0 <= i < |days| ==> d < days[i].date
  {
    var rows := DayRows(dates, sums);
    forall d | d in dates && (forall i :: 0 <= i < |days| ==> days[i].date != d)
      ensures forall i :: 0 <= i < |days| ==> d < days[i].date
    {
      var p :| 0 <= p < |dates| && dates[p] == d;
      var row := rows[p];
      assert row in multiset(sorted);
      assert row !in days;
      SortedSuffixTrails(sorted, NotLater, |days|, row);
      forall i | 0 <= i < |days| ensures d < days[i].date {
        assert NotLater(row, sorted[|sorted| - |days| + i]);
      }
    }
  }

  /** The last seven rows of the chart sorted by day are the daily-revenue chart. */
  lemma LastRowsAreDailyRevenue(orders: seq<LegacyOrder>, dates: seq<int>, sums: map<int, Totals>, sorted: seq<DayStat>)
    requires DayTotals(orders, dates, sums)
    requires multiset(sorted) == multiset(DayRows(dates, sums))
    requires SortedBy(sorted, NotLater)
    ensures IsDailyRevenue(sorted[|sorted| - Min(DAYS_SHOWN, |sorted|)..], orders)
  {
    var days := sorted[|sorted| - Min(DAYS_SHOWN, |sorted|)..];
    assert |sorted| == |dates| by {
      assert |multiset(sorted)| == |multiset(DayRows(dates, sums))|;
    }
    DayRowsHoldTotals(orders, dates, sums, sorted, days);
    ShownDaysIncrease(orders, dates, sums, sorted, days);
    ShownDaysAreLatest(orders, dates, sums, sorted, days);
  }

  /** `calculateDailyRevenue`: revenue and number of orders per day, sorted
      by day, the last seven. */
  method DailyRevenue(orders: seq<LegacyOrder>) returns (days: seq<DayStat>)
    ensures IsDailyRevenue(days, orders)
  {
    var dates, sums := TallyPair(orders, DayOf, OrderTotal, One);
    var rows := DayRows(dates, sums);
    NotLaterIsTotal();
    var sorted := SortBy(rows, NotLater);
    LastRowsAreDailyRevenue(orders, dates, sums, sorted);
    days := sorted[|sorted| - Min(DAYS_SHOWN, |sorted|)..];
  }

  // ---------------------------------------------------------------------
  // The analytics object

  datatype AnalyticsData = AnalyticsData(
    total_orders: nat,
    total_revenue: int,
    avg_order_value: real,
    orders_by_type: TypeCounts,
    orders_by_status: Histogram,
    orders_by_payment: Histogram,
    daily_revenue: seq<DayStat>,
    top_products: seq<ProductStat>)

  /** `a` holds the figures of `orders`. */
  ghost predicate Describes(a: AnalyticsData, orders: seq<LegacyOrder>) {
    && a.total_orders == |orders|
    && a.total_revenue == Revenue(orders)
    && a.avg_order_value == Average(Revenue(orders), |orders|)
    && a.orders_by_type == TypeCounts(|Filter(orders, IsMethod("mesa"))|, |Filter(orders, IsMethod("domicilio"))|, |Filter(orders, IsMethod("recoger"))|)
    && IsCountOf(a.orders_by_status, orders, StatusKey)
    && IsCountOf(a.orders_by_payment, orders, PaymentKey)
    && IsDailyRevenue(a.daily_revenue, orders)
    && IsTopProducts(a.top_products, orders)
  }

  /** `calculateAnalytics`. */
  method CalculateAnalytics(orders: seq<LegacyOrder>) returns (a: AnalyticsData)
    ensures Describes(a, orders)
  {
    var byType := CountBy(orders, DeliveryKey);
    var byStatus := CountBy(orders, StatusKey);
    var byPayment := CountBy(orders, PaymentKey);
    CountOrZeroIsFilterLength(byType, orders, DeliveryKey, "mesa", IsMethod("mesa"));
    CountOrZeroIsFilterLength(byType, orders, DeliveryKey, "domicilio", IsMethod("domicilio"));
    CountOrZeroIsFilterLength(byType, orders, DeliveryKey, "recoger", IsMethod("recoger"));
    var daily := DailyRevenue(orders);
    var top := TopProducts(orders);
    var revenue := Revenue(orders);
    a := AnalyticsData(|orders|, revenue, Average(revenue, |orders|), TypeCountsOf(byType.counts),
                       byStatus, byPayment, daily, top);
  }

  /** The status and payment breakdowns each account for every order once,
      and the three delivery-method cards for at most all of them. */
  lemma FiguresAgree(a: AnalyticsData, orders: seq<LegacyOrder>)
    requires Describes(a, orders)
    ensures SumCounts(a.orders_by_status.keys, a.orders_by_status.counts) == a.total_orders
    ensures SumCounts(a.orders_by_payment.keys, a.orders_by_payment.counts) == a.total_orders
    ensures a.orders_by_type.mesa + a.orders_by_type.domicilio + a.orders_by_type.recoger <= a.total_orders
  {
    CountsAddUp(a.orders_by_status, orders, StatusKey);
    CountsAddUp(a.orders_by_payment, orders, PaymentKey);
    KnownMethodsBound(orders);
  }

  // ---------------------------------------------------------------------
  // The page

  class AnalyticsPage {
    var analytics: Option<AnalyticsData>
    var loading: bool
    var error: string
    var restaurantId: string
    /** The selected range in days (`parseInt(dateRange)`). */
    var dateRange: int

    constructor()
      ensures analytics == None && loading && error == ""
      ensures restaurantId == DEFAULT_RESTAURANT_ID && dateRange == DEFAULT_DATE_RANGE
    {
      analytics := None;
      loading := true;
      error := "";
      restaurantId := DEFAULT_RESTAURANT_ID;
      dateRange := DEFAULT_DATE_RANGE;
    }

    method SetDateRange(days: int)
      modifies this
      ensures dateRange == days
      ensures analytics == old(analytics) && loading == old(loading) && error == old(error)
      ensures restaurantId == old(restaurantId)
    {
      dateRange := days;
    }

    /** `loadAnalytics`. `adminRestaurant` is the stored admin user's
        `restaurant_id` (`None` when no admin user is stored), `now` the
        clock and `answer` the orders returned (`None` when the request
        fails). The request goes out with the restaurant id the callback
        was built with; the stored one only takes effect on the next load. */
    method LoadAnalytics(adminRestaurant: Option<string>, now: int, answer: Option<seq<LegacyOrder>>)
      returns (requested: string)
      modifies this`analytics, this`loading, this`error, this`restaurantId
      ensures requested == old(restaurantId)
      ensures restaurantId == (match adminRestaurant
                                case None => old(restaurantId)
                                case Some(id) => if id == "" then DEFAULT_RESTAURANT_ID else id)
      ensures !loading
      ensures answer.Some? ==> error == "" && analytics.Some? && Describes(analytics.value, Recent(answer.value, now, old(dateRange)))
      ensures answer.None? ==> error == LOAD_ERROR && analytics == old(analytics)
    {
      requested := restaurantId;
      if answer.Some? {
        var a := CalculateAnalytics(Recent(answer.value, now, dateRange));
        analytics := Some(a);
        error := "";
      } else {
        error := LOAD_ERROR;
      }
      if adminRestaurant.Some? {
        restaurantId := if adminRestaurant.value == "" then DEFAULT_RESTAURANT_ID else adminRestaurant.value;
      }
      loading := false;
    }
  }
}
