/** The admin page of the home-delivery ("domicilio") orders: it loads the
    orders, keeps the delivery ones, and shows them through three filters
    (status, address, search) and a sort order, with buttons that move an
    order along the status flow. */
module DomicilioOrders {
  import opened Wrappers
  import opened Seqs
  import opened Text
  import opened GraphQLTypes
  import opened OrderLists

  const LOAD_ERROR: string := "Error cargando las órdenes de domicilio"

  predicate IsDomicilio(o: LegacyOrder) {
    o.delivery_method == "domicilio"
  }

  /** The three filter fields; empty means "no filter". */
  datatype DomicilioFilters = DomicilioFilters(status: string, address: string, search: string)

  const NO_FILTERS: DomicilioFilters := DomicilioFilters("", "", "")

  /** The address filter: the order has a non-empty address containing the
      text typed, ignoring case. */
  predicate AddressMatches(o: LegacyOrder, q: string) {
    q == "" || AddressHit(o, q)
  }

  predicate AddressHit(o: LegacyOrder, q: string) {
    o.direccion.Some? && o.direccion.value != "" && Contains(LowerAscii(o.direccion.value), LowerAscii(q))
  }

  /** An order is shown when it passes all three filters. */
  predicate Passes(o: LegacyOrder, f: DomicilioFilters) {
    StatusMatches(o, f.status) && AddressMatches(o, f.address) && SearchMatches(o, f.search)
  }

  function PassesFn(f: DomicilioFilters): LegacyOrder -> bool {
    (o: LegacyOrder) => Passes(o, f)
  }

  /** The list shown: every order that passes the filters, as often as it is
      loaded, sorted by the chosen order (this page has no "mesa" order). */
  function View(orders: seq<LegacyOrder>, f: DomicilioFilters, sortBy: string): (r: seq<LegacyOrder>)
    ensures forall o :: multiset(r)[o] == if Passes(o, f) then multiset(orders)[o] else 0
    ensures SortedBy(r, TimeAmountOrder(sortBy))
  {
    TimeAmountOrderTotal(sortBy);
    SortBy(Filter(orders, PassesFn(f)), TimeAmountOrder(sortBy))
  }

  function AddressHitFn(q: string): LegacyOrder -> bool {
    (o: LegacyOrder) => AddressHit(o, q)
  }

  function StatusAddressFn(f: DomicilioFilters): LegacyOrder -> bool {
    (o: LegacyOrder) => StatusMatches(o, f.status) && AddressMatches(o, f.address)
  }

  /** The filters applied one after the other, each only when set, select
      the orders that pass all three. */
  lemma FilterSteps(orders: seq<LegacyOrder>, f: DomicilioFilters)
    ensures var s1 := if f.status != "" then Filter(orders, HasStatus(f.status)) else orders;
            var s2 := if f.address != "" then Filter(s1, AddressHitFn(f.address)) else s1;
            var s3 := if f.search != "" then Filter(s2, SearchHitFn(f.search)) else s2;
            s3 == Filter(orders, PassesFn(f))
  {
    StatusStep(orders, f.status);
    FilterIfSet(orders, StatusFn(f.status), AddressHitFn(f.address), StatusAddressFn(f), f.address != "");
    FilterIfSet(orders, StatusAddressFn(f), SearchHitFn(f.search), PassesFn(f), f.search != "");
  }

  /** An order without an address is hidden as soon as an address is typed. */
  lemma NoAddressHidden(orders: seq<LegacyOrder>, f: DomicilioFilters, o: LegacyOrder)
    requires f.address != "" && (o.direccion.None? || o.direccion == Some(""))
    ensures o !in View(orders, f, "newest")
  {
    var r := View(orders, f, "newest");
    assert multiset(r)[o] == 0;
  }

  /** The status buttons of an order card: once an order is being prepared
      it can no longer be cancelled from this page. */
  function DomicilioActions(status: string): seq<string> {
    if status == "pending" then ["confirmed", "cancelled"]
    else if status == "confirmed" then ["preparing", "cancelled"]
    else if status == "preparing" then ["ready"]
    else if status == "ready" then ["delivered"]
    else []
  }

  /** The buttons are the status flow, except that an order being prepared
      offers no cancellation. */
  lemma DomicilioActionsFollowFlow(status: string)
    ensures DomicilioActions(status) == if status == "preparing" then ["ready"] else NextStatusOptions(status)
    ensures "cancelled" in DomicilioActions(status) <==> status == "pending" || status == "confirmed"
    ensures forall t :: t in DomicilioActions(status) ==> t in NextStatusOptions(status)
  {
  }

  /** The filtering half of `applyFilters`: each filter that is set narrows
      the list in turn. */
  method SelectOrders(orders: seq<LegacyOrder>, f: DomicilioFilters) returns (filtered: seq<LegacyOrder>)
    ensures filtered == Filter(orders, PassesFn(f))
  {
    filtered := orders;
    if f.status != "" {
      filtered := Filter(filtered, HasStatus(f.status));
    }
    if f.address != "" {
      filtered := Filter(filtered, AddressHitFn(f.address));
    }
    if f.search != "" {
      filtered := Filter(filtered, SearchHitFn(f.search));
    }
    FilterSteps(orders, f);
  }

  class DomicilioOrdersPage {
    var orders: seq<LegacyOrder>
    var filteredOrders: seq<LegacyOrder>
    var loading: bool
    var error: string
    var filters: DomicilioFilters
    var sortBy: string

    /** The page opens loading, with no order, no filter and "newest" first. */
    constructor()
      ensures orders == [] && filteredOrders == [] && loading && error == ""
      ensures filters == NO_FILTERS && sortBy == "newest"
    {
      orders := [];
      filteredOrders := [];
      loading := true;
      error := "";
      filters := NO_FILTERS;
      sortBy := "newest";
    }

    /** `loadOrders`, given the orders array of the answer; `None` is a
        failed request or an answer without one. Orders of every restaurant
        in the answer are kept; only the delivery method is checked. */
    method LoadOrders(answer: Option<seq<LegacyOrder>>)
      modifies this
      ensures answer.Some? ==> orders == Filter(answer.value, IsDomicilio) && error == ""
      ensures answer.None? ==> orders == old(orders) && error == LOAD_ERROR
      ensures !loading
      ensures filteredOrders == old(filteredOrders) && filters == old(filters) && sortBy == old(sortBy)
    {
      loading := true;
      error := "";
      if answer.Some? {
        orders := Filter(answer.value, IsDomicilio);
      } else {
        error := LOAD_ERROR;
      }
      loading := false;
    }

    /** `applyFilters`: each filter that is set narrows the list in turn,
        then the list is sorted. */
    method ApplyFilters()
      modifies this
      ensures filteredOrders == View(orders, filters, sortBy)
      ensures orders == old(orders) && filters == old(filters) && sortBy == old(sortBy)
      ensures error == old(error) && loading == old(loading)
    {
      var filtered := SelectOrders(orders, filters);
      TimeAmountOrderTotal(sortBy);
      filteredOrders := SortBy(filtered, TimeAmountOrder(sortBy));
    }

    /** `handleFilterChange`: sets one filter field; other keys select no
        filter and change nothing shown. */
    method HandleFilterChange(key: string, value: string)
      modifies this
      ensures filters == if key == "status" then old(filters).(status := value)
                         else if key == "address" then old(filters).(address := value)
                         else if key == "search" then old(filters).(search := value)
                         else old(filters)
      ensures orders == old(orders) && sortBy == old(sortBy) && filteredOrders == old(filteredOrders)
      ensures loading == old(loading) && error == old(error)
    {
      if key == "status" {
        filters := filters.(status := value);
      } else if key == "address" {
        filters := filters.(address := value);
      } else if key == "search" {
        filters := filters.(search := value);
      }
    }

    method SetSortBy(value: string)
      modifies this
      ensures sortBy == value
      ensures orders == old(orders) && filters == old(filters) && filteredOrders == old(filteredOrders)
      ensures loading == old(loading) && error == old(error)
    {
      sortBy := value;
    }

    /** `clearFilters`: no filter, newest first. */
    method ClearFilters()
      modifies this
      ensures filters == NO_FILTERS && sortBy == "newest"
      ensures orders == old(orders) && filteredOrders == old(filteredOrders)
      ensures loading == old(loading) && error == old(error)
    {
      filters := NO_FILTERS;
      sortBy := "newest";
    }

    /** `updateOrderStatus`: the local list changes only when the backend
        accepted the update. */
    method UpdateOrderStatus(orderId: string, newStatus: string, accepted: bool)
      modifies this
      ensures orders == if accepted then SetStatus(old(orders), orderId, newStatus) else old(orders)
      ensures filters == old(filters) && sortBy == old(sortBy) && filteredOrders == old(filteredOrders)
      ensures loading == old(loading) && error == old(error)
    {
      if accepted {
        orders := SetStatus(orders, orderId, newStatus);
      }
    }
  }
}
