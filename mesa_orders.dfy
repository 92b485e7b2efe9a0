/** The admin page of the table ("mesa") orders: it loads the restaurant's
    orders, keeps the table orders, and shows them through three filters
    (status, table, search) and a sort order, with buttons that move an order
    along the status flow. */
module MesaOrders {
  import opened Wrappers
  import opened Seqs
  import opened Text
  import opened GraphQLTypes
  import opened OrderLists

  const LOAD_ERROR_PREFIX: string := "Error cargando las órdenes: "
  const INVALID_RESPONSE: string := "Respuesta inválida de API - no hay array de órdenes"

  predicate IsChoripam(o: LegacyOrder) {
    o.restaurant_id == DEFAULT_RESTAURANT_ID
  }

  predicate IsMesa(o: LegacyOrder) {
    o.delivery_method == "mesa"
  }

  /** The orders kept from an answer: the restaurant's table orders, in the
      answer's order. */
  function LoadedOrders(answer: seq<LegacyOrder>): (r: seq<LegacyOrder>)
    ensures r == Filter(answer, (o: LegacyOrder) => IsChoripam(o) && IsMesa(o))
  {
    FilterCompose(answer, IsChoripam, IsMesa, (o: LegacyOrder) => IsChoripam(o) && IsMesa(o));
    Filter(Filter(answer, IsChoripam), IsMesa)
  }

  /** The three filter fields; empty means "no filter". */
  datatype MesaFilters = MesaFilters(status: string, mesa: string, search: string)

  const NO_FILTERS: MesaFilters := MesaFilters("", "", "")

  /** The table filter: the order has a non-empty table whose name contains
      the text typed, ignoring case. */
  predicate MesaMatches(o: LegacyOrder, q: string) {
    q == "" || MesaHit(o, q)
  }

  predicate MesaHit(o: LegacyOrder, q: string) {
    o.mesa.Some? && o.mesa.value != "" && Contains(LowerAscii(o.mesa.value), LowerAscii(q))
  }

  /** An order is shown when it passes all three filters. */
  predicate Passes(o: LegacyOrder, f: MesaFilters) {
    StatusMatches(o, f.status) && MesaMatches(o, f.mesa) && SearchMatches(o, f.search)
  }

  function PassesFn(f: MesaFilters): LegacyOrder -> bool {
    (o: LegacyOrder) => Passes(o, f)
  }

  /** The sort orders of the page: the shared ones, and "mesa", which orders
      by table name (a missing table counts as the empty name). */
  function SortOrder(sortBy: string): (LegacyOrder, LegacyOrder) -> bool {
    if sortBy == "mesa" then (a: LegacyOrder, b: LegacyOrder) => StringLeq(a.mesa.GetOr(""), b.mesa.GetOr(""))
    else TimeAmountOrder(sortBy)
  }

  lemma SortOrderTotal(sortBy: string)
    ensures TotalPreorder(SortOrder(sortBy))
  {
    if sortBy == "mesa" {
      StringLeqTotalPreorder();
    } else {
      TimeAmountOrderTotal(sortBy);
    }
  }

  /** The list shown: every order that passes the filters, as often as it is
      loaded, sorted by the chosen order. */
  function View(orders: seq<LegacyOrder>, f: MesaFilters, sortBy: string): (r: seq<LegacyOrder>)
    ensures forall o :: multiset(r)[o] == if Passes(o, f) then multiset(orders)[o] else 0
    ensures SortedBy(r, SortOrder(sortBy))
  {
    SortOrderTotal(sortBy);
    SortBy(Filter(orders, PassesFn(f)), SortOrder(sortBy))
  }

  function MesaHitFn(q: string): LegacyOrder -> bool {
    (o: LegacyOrder) => MesaHit(o, q)
  }

  function StatusMesaFn(f: MesaFilters): LegacyOrder -> bool {
    (o: LegacyOrder) => StatusMatches(o, f.status) && MesaMatches(o, f.mesa)
  }

  /** The filters applied one after the other, each only when set, select
      the orders that pass all three. */
  lemma FilterSteps(orders: seq<LegacyOrder>, f: MesaFilters)
    ensures var s1 := if f.status != "" then Filter(orders, HasStatus(f.status)) else orders;
            var s2 := if f.mesa != "" then Filter(s1, MesaHitFn(f.mesa)) else s1;
            var s3 := if f.search != "" then Filter(s2, SearchHitFn(f.search)) else s2;
            s3 == Filter(orders, PassesFn(f))
  {
    StatusStep(orders, f.status);
    FilterIfSet(orders, StatusFn(f.status), MesaHitFn(f.mesa), StatusMesaFn(f), f.mesa != "");
    FilterIfSet(orders, StatusMesaFn(f), SearchHitFn(f.search), PassesFn(f), f.search != "");
  }

  /** With no filter every loaded order is shown. */
  lemma ViewWithoutFilters(orders: seq<LegacyOrder>, sortBy: string)
    ensures multiset(View(orders, NO_FILTERS, sortBy)) == multiset(orders)
  {
    var r := View(orders, NO_FILTERS, sortBy);
    assert forall o :: multiset(r)[o] == multiset(orders)[o];
  }

  /** Sorting by "mesa" lists the table names in code-unit order, orders
      without a table first. */
  lemma ViewByMesa(orders: seq<LegacyOrder>, f: MesaFilters, i: int, j: int)
    requires 0 <= i < j < |View(orders, f, "mesa")|
    ensures var r := View(orders, f, "mesa");
            StringLeq(r[i].mesa.GetOr(""), r[j].mesa.GetOr(""))
  {
  }

  /** The table names offered in the table filter: every non-empty table of
      the loaded orders, once each, sorted. */
  function UniqueMesas(orders: seq<LegacyOrder>): (r: seq<string>)
    ensures forall i, j :: 0 <= i < j < |r| ==> r[i] != r[j]
    ensures SortedBy(r, StringLeq)
  {
    StringLeqTotalPreorder();
    var d := Distinct(TableNames(orders));
    DistinctSpec(TableNames(orders));
    var r := SortBy(d, StringLeq);
    PermutationKeepsDistinct(d, r);
    r
  }

  /** `orders.map(o => o.mesa).filter(Boolean)`. */
  function TableNames(orders: seq<LegacyOrder>): seq<string> {
    Filter(Map(orders, TableOf), IsTableName)
  }

  /** `o.mesa`, or the empty string when the order has no table. */
  function TableOf(o: LegacyOrder): string {
    o.mesa.GetOr("")
  }

  /** `Boolean(m)` on a string: it is non-empty. */
  predicate IsTableName(m: string) {
    m != ""
  }

  /** A non-empty name is among the orders' tables exactly when some order is at that table. */
  lemma TableOfNamed(orders: seq<LegacyOrder>, m: string)
    requires m != ""
    ensures m in Map(orders, TableOf) <==> exists i :: 0 <= i < |orders| && orders[i].mesa == Some(m)
  {
    var names := Map(orders, TableOf);
    if exists i :: 0 <= i < |orders| && orders[i].mesa == Some(m) {
      var i :| 0 <= i < |orders| && orders[i].mesa == Some(m);
      assert names[i] == m;
    }
    if m in names {
      var i :| 0 <= i < |names| && names[i] == m;
      assert TableOf(orders[i]) == m;
    }
  }

  /** A name is offered exactly when some loaded order is at that table. */
  lemma UniqueMesasSpec(orders: seq<LegacyOrder>, m: string)
    ensures m in UniqueMesas(orders) <==> m != "" && exists i :: 0 <= i < |orders| && orders[i].mesa == Some(m)
  {
    StringLeqTotalPreorder();
    var names := Map(orders, TableOf);
    var d := Distinct(TableNames(orders));
    DistinctSpec(TableNames(orders));
    var u := UniqueMesas(orders);
    assert u == SortBy(d, StringLeq);
    assert multiset(u) == multiset(d);
    assert m in u <==> m in multiset(d);
    assert m in d <==> m in TableNames(orders);
    assert multiset(TableNames(orders))[m] == if m != "" then multiset(names)[m] else 0;
    assert m in TableNames(orders) <==> m != "" && m in names;
    if m != "" {
      TableOfNamed(orders, m);
    }
  }

  /** The status buttons of an order card. */
  function MesaActions(status: string): seq<string> {
    if status == "pending" then ["confirmed", "cancelled"]
    else if status == "confirmed" then ["preparing", "cancelled"]
    else if status == "preparing" then ["ready", "cancelled"]
    else if status == "ready" then ["delivered"]
    else []
  }

  /** The buttons offer exactly the moves of the status flow. */
  lemma MesaActionsFollowFlow(status: string)
    ensures MesaActions(status) == NextStatusOptions(status)
  {
  }

  /** The filtering half of `applyFilters`: each filter that is set narrows
      the list in turn. */
  method SelectOrders(orders: seq<LegacyOrder>, f: MesaFilters) returns (filtered: seq<LegacyOrder>)
    ensures filtered == Filter(orders, PassesFn(f))
  {
    filtered := orders;
    if f.status != "" {
      filtered := Filter(filtered, HasStatus(f.status));
    }
    if f.mesa != "" {
      filtered := Filter(filtered, MesaHitFn(f.mesa));
    }
    if f.search != "" {
      filtered := Filter(filtered, SearchHitFn(f.search));
    }
    FilterSteps(orders, f);
  }

  class MesaOrdersPage {
    var orders: seq<LegacyOrder>
    var filteredOrders: seq<LegacyOrder>
    var loading: bool
    var error: string
    var filters: MesaFilters
    var sortBy: string

    /** The page opens loading, with no order, no filter and "newest" first. */
    constructor()
      ensures orders == [] && filteredOrders == [] && loading && error == ""
      ensures filters == NO_FILTERS && sortBy == "newest"
    {
      orders := [];
      filteredOrders := [];
      loading := true;
      error := "";
      filters := NO_FILTERS;
      sortBy := "newest";
    }

    /** `loadOrders`, given what the request came to: `Err` carries the
        message of the error thrown, `Ok(None)` an answer without an orders
        array. A failure keeps the orders already loaded. */
    method LoadOrders(answer: Result<Option<seq<LegacyOrder>>, string>)
      modifies this
      ensures answer.Ok? && answer.value.Some? ==>
                orders == LoadedOrders(answer.value.value) && error == ""
      ensures answer.Ok? && answer.value.None? ==>
                orders == old(orders) && error == LOAD_ERROR_PREFIX + INVALID_RESPONSE
      ensures answer.Err? ==> orders == old(orders) && error == LOAD_ERROR_PREFIX + answer.error
      ensures !loading
      ensures filteredOrders == old(filteredOrders) && filters == old(filters) && sortBy == old(sortBy)
    {
      loading := true;
      error := "";
      match answer {
        case Err(message) =>
          error := LOAD_ERROR_PREFIX + message;
        case Ok(None) =>
          error := LOAD_ERROR_PREFIX + INVALID_RESPONSE;
        case Ok(Some(all)) =>
          var choripam := Filter(all, IsChoripam);
          orders := Filter(choripam, IsMesa);
      }
      loading := false;
    }

    /** `applyFilters`: each filter that is set narrows the list in turn,
        then the list is sorted. */
    method ApplyFilters()
      modifies this
      ensures filteredOrders == View(orders, filters, sortBy)
      ensures orders == old(orders) && filters == old(filters) && sortBy == old(sortBy)
      ensures error == old(error) && loading == old(loading)
    {
      var filtered := SelectOrders(orders, filters);
      SortOrderTotal(sortBy);
      filteredOrders := SortBy(filtered, SortOrder(sortBy));
    }

    /** `handleFilterChange`: sets one filter field; other keys select no
        filter and change nothing shown. */
    method HandleFilterChange(key: string, value: string)
      modifies this
      ensures filters == if key == "status" then old(filters).(status := value)
                         else if key == "mesa" then old(filters).(mesa := value)
                         else if key == "search" then old(filters).(search := value)
                         else old(filters)
      ensures orders == old(orders) && sortBy == old(sortBy) && filteredOrders == old(filteredOrders)
      ensures loading == old(loading) && error == old(error)
    {
      if key == "status" {
        filters := filters.(status := value);
      } else if key == "mesa" {
        filters := filters.(mesa := value);
      } else if key == "search" {
        filters := filters.(search := value);
      }
    }

    method SetSortBy(value: string)
      modifies this
      ensures sortBy == value
      ensures orders == old(orders) && filters == old(filters) && filteredOrders == old(filteredOrders)
      ensures loading == old(loading) && error == old(error)
    {
      sortBy := value;
    }

    /** `clearFilters`: no filter, newest first. */
    method ClearFilters()
      modifies this
      ensures filters == NO_FILTERS && sortBy == "newest"
      ensures orders == old(orders) && filteredOrders == old(filteredOrders)
      ensures loading == old(loading) && error == old(error)
    {
      filters := NO_FILTERS;
      sortBy := "newest";
    }

    /** `updateOrderStatus`: the local list changes only when the backend
        accepted the update. */
    method UpdateOrderStatus(orderId: string, newStatus: string, accepted: bool)
      modifies this
      ensures orders == if accepted then SetStatus(old(orders), orderId, newStatus) else old(orders)
      ensures filters == old(filters) && sortBy == old(sortBy) && filteredOrders == old(filteredOrders)
      ensures loading == old(loading) && error == old(error)
    {
      if accepted {
        orders := SetStatus(orders, orderId, newStatus);
      }
    }
  }
}
