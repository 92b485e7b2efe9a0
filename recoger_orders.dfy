/** The admin page of the pickup ("recoger") orders: it loads the
    restaurant's pickup orders and shows them through a status filter, a
    search box and a sort order, with buttons that move an order along the
    status flow. */
module RecogerOrders {
  import opened Wrappers
  import opened Seqs
  import opened Text
  import opened GraphQLTypes
  import opened OrderLists

  const LOAD_ERROR: string := "Error cargando las órdenes para recoger"

  /** The orders kept from an answer. */
  predicate IsChoripamPickup(o: LegacyOrder) {
    o.restaurant_id == DEFAULT_RESTAURANT_ID && o.delivery_method == "recoger"
  }

  /** The two filter fields; empty means "no filter". */
  datatype RecogerFilters = RecogerFilters(status: string, search: string)

  const NO_FILTERS: RecogerFilters := RecogerFilters("", "")

  predicate Passes(o: LegacyOrder, f: RecogerFilters) {
    StatusMatches(o, f.status) && SearchMatches(o, f.search)
  }

  function PassesFn(f: RecogerFilters): LegacyOrder -> bool {
    (o: LegacyOrder) => Passes(o, f)
  }

  /** The list shown: every order that passes both filters, as often as it
      is loaded, sorted by the chosen order. */
  function View(orders: seq<LegacyOrder>, f: RecogerFilters, sortBy: string): (r: seq<LegacyOrder>)
    ensures forall o :: multiset(r)[o] == if Passes(o, f) then multiset(orders)[o] else 0
    ensures SortedBy(r, TimeAmountOrder(sortBy))
  {
    TimeAmountOrderTotal(sortBy);
    SortBy(Filter(orders, PassesFn(f)), TimeAmountOrder(sortBy))
  }

  /** The two filters applied one after the other, each only when set,
      select the orders that pass both. */
  lemma FilterSteps(orders: seq<LegacyOrder>, f: RecogerFilters)
    ensures var s1 := if f.status != "" then Filter(orders, HasStatus(f.status)) else orders;
            var s2 := if f.search != "" then Filter(s1, SearchHitFn(f.search)) else s1;
            s2 == Filter(orders, PassesFn(f))
  {
    StatusStep(orders, f.status);
    FilterIfSet(orders, StatusFn(f.status), SearchHitFn(f.search), PassesFn(f), f.search != "");
  }

  /** With only a status chosen, the list shows as many orders as that
      status's counter says. */
  lemma ViewMatchesCounter(orders: seq<LegacyOrder>, status: string, sortBy: string)
    requires status != ""
    ensures |View(orders, RecogerFilters(status, ""), sortBy)| == StatusCount(orders, status)
  {
    var f := RecogerFilters(status, "");
    var r := View(orders, f, sortBy);
    assert multiset(r) == multiset(Filter(orders, PassesFn(f)));
    FilterCountsStatus(orders, status);
    FilterSame(orders, PassesFn(f), HasStatus(status));
    assert |r| == |multiset(r)|;
  }

  /** The status buttons of an order card. */
  function RecogerActions(status: string): seq<string> {
    if status == "pending" then ["confirmed", "cancelled"]
    else if status == "confirmed" then ["preparing", "cancelled"]
    else if status == "preparing" then ["ready", "cancelled"]
    else if status == "ready" then ["delivered"]
    else []
  }

  /** The buttons offer exactly the moves of the status flow. */
  lemma RecogerActionsFollowFlow(status: string)
    ensures RecogerActions(status) == NextStatusOptions(status)
  {
  }

  /** The filtering half of `applyFilters`: each filter that is set narrows
      the list in turn. */
  method SelectOrders(orders: seq<LegacyOrder>, f: RecogerFilters) returns (filtered: seq<LegacyOrder>)
    ensures filtered == Filter(orders, PassesFn(f))
  {
    filtered := orders;
    if f.status != "" {
      filtered := Filter(filtered, HasStatus(f.status));
    }
    if f.search != "" {
      filtered := Filter(filtered, SearchHitFn(f.search));
    }
    FilterSteps(orders, f);
  }

  class RecogerOrdersPage {
    var orders: seq<LegacyOrder>
    var filteredOrders: seq<LegacyOrder>
    var loading: bool
    var error: string
    var filters: RecogerFilters
    var sortBy: string

    /** The page opens loading, with no order, no filter and "newest" first. */
    constructor()
      ensures orders == [] && filteredOrders == [] && loading && error == ""
      ensures filters == NO_FILTERS && sortBy == "newest"
    {
      orders := [];
      filteredOrders := [];
      loading := true;
      error := "";
      filters := NO_FILTERS;
      sortBy := "newest";
    }

    /** `loadOrders`, given the orders array of the answer; `None` is a
        failed request or an answer without one. */
    method LoadOrders(answer: Option<seq<LegacyOrder>>)
      modifies this
      ensures answer.Some? ==> orders == Filter(answer.value, IsChoripamPickup) && error == ""
      ensures answer.None? ==> orders == old(orders) && error == LOAD_ERROR
      ensures !loading
      ensures filteredOrders == old(filteredOrders) && filters == old(filters) && sortBy == old(sortBy)
    {
      loading := true;
      error := "";
      if answer.Some? {
        orders := Filter(answer.value, IsChoripamPickup);
      } else {
        error := LOAD_ERROR;
      }
      loading := false;
    }

    /** `applyFilters`: the status filter, then the search, then the sort. */
    method ApplyFilters()
      modifies this
      ensures filteredOrders == View(orders, filters, sortBy)
      ensures orders == old(orders) && filters == old(filters) && sortBy == old(sortBy)
      ensures error == old(error) && loading == old(loading)
    {
      var filtered := SelectOrders(orders, filters);
      TimeAmountOrderTotal(sortBy);
      filteredOrders := SortBy(filtered, TimeAmountOrder(sortBy));
    }

    /** `handleFilterChange`: sets one filter field; other keys select no
        filter and change nothing shown. */
    method HandleFilterChange(key: string, value: string)
      modifies this
      ensures filters == if key == "status" then old(filters).(status := value)
                         else if key == "search" then old(filters).(search := value)
                         else old(filters)
      ensures orders == old(orders) && sortBy == old(sortBy) && filteredOrders == old(filteredOrders)
      ensures loading == old(loading) && error == old(error)
    {
      if key == "status" {
        filters := filters.(status := value);
      } else if key == "search" {
        filters := filters.(search := value);
      }
    }

    method SetSortBy(value: string)
      modifies this
      ensures sortBy == value
      ensures orders == old(orders) && filters == old(filters) && filteredOrders == old(filteredOrders)
      ensures loading == old(loading) && error == old(error)
    {
      sortBy := value;
    }

    /** `clearFilters`: no filter, newest first. */
    method ClearFilters()
      modifies this
      ensures filters == NO_FILTERS && sortBy == "newest"
      ensures orders == old(orders) && filteredOrders == old(filteredOrders)
      ensures loading == old(loading) && error == old(error)
    {
      filters := NO_FILTERS;
      sortBy := "newest";
    }

    /** `updateOrderStatus`: the local list changes only when the backend
        accepted the update. */
    method UpdateOrderStatus(orderId: string, newStatus: string, accepted: bool)
      modifies this
      ensures orders == if accepted then SetStatus(old(orders), orderId, newStatus) else old(orders)
      ensures filters == old(filters) && sortBy == old(sortBy) && filteredOrders == old(filteredOrders)
      ensures loading == old(loading) && error == old(error)
    {
      if accepted {
        orders := SetStatus(orders, orderId, newStatus);
      }
    }
  }
}
