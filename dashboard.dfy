/** The admin dashboard: the restaurant's orders split by delivery method,
    and the figures computed from them (revenue, average, counts by method
    and by status). */
module Dashboard {
  import opened Wrappers
  import opened Seqs
  import opened Text
  import opened GraphQLTypes
  import opened OrderNotifications
  import opened OrderStats

  const LOAD_ERROR_PREFIX: string := "Error cargando datos del dashboard: "
  const INVALID_RESPONSE: string := "Respuesta inválida de API - no hay array de órdenes"
  const PERIOD_DAYS: nat := 7

  /** The stored restaurant id, `'choripam'` when missing or empty, without
      its `rest_` prefix (`replace` removes the first occurrence, which for a
      string starting with the prefix is the prefix itself). */
  function StoredRestaurantId(stored: string): (r: string)
    ensures stored == "" ==> r == DEFAULT_RESTAURANT_ID
    ensures stored != "" && StartsWith(stored, REST_PREFIX) ==> stored == REST_PREFIX + r
    ensures stored != "" && !StartsWith(stored, REST_PREFIX) ==> r == stored
  {
    assert DEFAULT_RESTAURANT_ID[0] != REST_PREFIX[0];
    CleanRestaurantId(if stored == "" then DEFAULT_RESTAURANT_ID else stored)
  }

  /** The three lists of the dashboard. */
  datatype OrdersByType = OrdersByType(mesa: seq<LegacyOrder>, domicilio: seq<LegacyOrder>, recoger: seq<LegacyOrder>)

  /** The orders split by delivery method, each list in the original order. */
  function Partition(orders: seq<LegacyOrder>): (r: OrdersByType)
    ensures forall i :: 0 <= i < |r.mesa| ==> r.mesa[i].delivery_method == "mesa"
    ensures forall i :: 0 <= i < |r.domicilio| ==> r.domicilio[i].delivery_method == "domicilio"
    ensures forall i :: 0 <= i < |r.recoger| ==> r.recoger[i].delivery_method == "recoger"
    ensures IsSubsequence(r.mesa, orders) && IsSubsequence(r.domicilio, orders) && IsSubsequence(r.recoger, orders)
    ensures forall x :: multiset(r.mesa)[x] == if x.delivery_method == "mesa" then multiset(orders)[x] else 0
    ensures forall x :: multiset(r.domicilio)[x] == if x.delivery_method == "domicilio" then multiset(orders)[x] else 0
    ensures forall x :: multiset(r.recoger)[x] == if x.delivery_method == "recoger" then multiset(orders)[x] else 0
  {
    OrdersByType(Filter(orders, IsMethod("mesa")), Filter(orders, IsMethod("domicilio")), Filter(orders, IsMethod("recoger")))
  }

  /** `totalActiveOrders`. */
  function TotalActiveOrders(byType: OrdersByType): nat {
    |byType.mesa| + |byType.domicilio| + |byType.recoger|
  }

  /** The lists never hold more orders than were loaded, and hold them all
      exactly when every order has one of the three methods. */
  lemma TotalActiveBound(orders: seq<LegacyOrder>)
    ensures TotalActiveOrders(Partition(orders)) <= |orders|
    ensures TotalActiveOrders(Partition(orders)) == |orders| <==> forall i :: 0 <= i < |orders| ==> KnownMethod(orders[i])
  {
    KnownMethodsBound(orders);
  }

  /** The dashboard's figures. */
  datatype DashboardAnalytics = DashboardAnalytics(
    total_orders: nat, total_revenue: int, avg_order_value: real,
    orders_by_type: TypeCounts, orders_by_status: Histogram, period_days: nat)

  /** `a` holds the figures of `orders`. */
  ghost predicate Describes(a: DashboardAnalytics, orders: seq<LegacyOrder>) {
    && a.total_orders == |orders|
    && a.total_revenue == Revenue(orders)
    && a.avg_order_value == Average(Revenue(orders), |orders|)
    && a.orders_by_type == TypeCounts(|Filter(orders, IsMethod("mesa"))|, |Filter(orders, IsMethod("domicilio"))|, |Filter(orders, IsMethod("recoger"))|)
    && IsCountOf(a.orders_by_status, orders, StatusKey)
    && a.period_days == PERIOD_DAYS
  }

  /** The figures computed in `loadDashboardData`. The counts by method agree
      with the lengths of the three lists. */
  method ComputeAnalytics(orders: seq<LegacyOrder>) returns (a: DashboardAnalytics)
    ensures Describes(a, orders)
  {
    var totalRevenue := Revenue(orders);
    var avg := Average(totalRevenue, |orders|);
    var byType := CountBy(orders, DeliveryKey);
    var byStatus := CountBy(orders, StatusKey);
    CountOrZeroIsFilterLength(byType, orders, DeliveryKey, "mesa", IsMethod("mesa"));
    CountOrZeroIsFilterLength(byType, orders, DeliveryKey, "domicilio", IsMethod("domicilio"));
    CountOrZeroIsFilterLength(byType, orders, DeliveryKey, "recoger", IsMethod("recoger"));
    a := DashboardAnalytics(|orders|, totalRevenue, avg, TypeCountsOf(byType.counts), byStatus, PERIOD_DAYS);
  }

  /** The method cards add up to the orders listed, and the status counts to
      all the orders. */
  lemma DescribedTotals(a: DashboardAnalytics, orders: seq<LegacyOrder>)
    requires Describes(a, orders)
    ensures a.orders_by_type.mesa + a.orders_by_type.domicilio + a.orders_by_type.recoger == TotalActiveOrders(Partition(orders))
    ensures forall i :: 0 <= i < |a.orders_by_status.keys| ==> a.orders_by_status.keys[i] in a.orders_by_status.counts
    ensures SumCounts(a.orders_by_status.keys, a.orders_by_status.counts) == a.total_orders
  {
    CountsAddUp(a.orders_by_status, orders, StatusKey);
  }

  class DashboardPage {
    var ordersByType: OrdersByType
    var analytics: Option<DashboardAnalytics>
    var loading: bool
    var error: string
    var restaurantId: string

    /** The page opens loading, with empty lists, no figures, for `choripam`. */
    constructor()
      ensures ordersByType == OrdersByType([], [], []) && analytics.None?
      ensures loading && error == "" && restaurantId == DEFAULT_RESTAURANT_ID
    {
      ordersByType := OrdersByType([], [], []);
      analytics := None;
      loading := true;
      error := "";
      restaurantId := DEFAULT_RESTAURANT_ID;
    }

    /** `loadDashboardData`. `stored` is the restaurant id kept by the admin
        login (`None` without a login record, `""` when the record has none);
        `requested` is the restaurant whose orders are asked for; `answer` is
        what the request came to: `Err` with the message of the error thrown,
        `Ok(None)` for an answer without an orders array. */
    method LoadDashboardData(stored: Option<string>, answer: Result<Option<seq<LegacyOrder>>, string>)
      returns (requested: string)
      modifies this
      ensures requested == if stored.Some? then StoredRestaurantId(stored.value) else old(restaurantId)
      ensures restaurantId == requested
      ensures answer.Ok? && answer.value.Some? ==>
                && ordersByType == Partition(answer.value.value)
                && analytics.Some? && Describes(analytics.value, answer.value.value)
                && error == ""
      ensures answer.Ok? && answer.value.None? ==>
                ordersByType == old(ordersByType) && analytics == old(analytics)
                && error == LOAD_ERROR_PREFIX + INVALID_RESPONSE
      ensures answer.Err? ==>
                ordersByType == old(ordersByType) && analytics == old(analytics)
                && error == LOAD_ERROR_PREFIX + answer.error
      ensures !loading
    {
      loading := true;
      error := "";
      requested := restaurantId;
      if stored.Some? {
        requested := StoredRestaurantId(stored.value);
        restaurantId := requested;
      }
      match answer {
        case Err(message) =>
          error := LOAD_ERROR_PREFIX + message;
        case Ok(None) =>
          error := LOAD_ERROR_PREFIX + INVALID_RESPONSE;
        case Ok(Some(all)) =>
          var a := ComputeAnalytics(all);
          ordersByType := Partition(all);
          analytics := Some(a);
      }
      loading := false;
    }
  }
}
