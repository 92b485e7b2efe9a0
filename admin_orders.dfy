/** The all-orders admin page: the restaurant's orders, optionally narrowed
    by the backend to one status, with status buttons on every card. */
module AdminOrders {
  import opened Wrappers
  import opened Seqs
  import opened GraphQLTypes
  import opened OrderLists

  const LOAD_ERROR: string := "Error cargando las órdenes"

  predicate IsChoripam(o: LegacyOrder) {
    o.restaurant_id == DEFAULT_RESTAURANT_ID
  }

  /** `statusFilter || undefined`: the status sent with the request, none
      when every status is wanted. */
  function StatusQuery(statusFilter: string): (q: Option<string>)
    ensures q.None? <==> statusFilter == ""
    ensures q.Some? ==> q.value == statusFilter
  {
    if statusFilter == "" then None else Some(statusFilter)
  }

  class AdminOrdersPage {
    var orders: seq<LegacyOrder>
    var loading: bool
    var error: string
    var statusFilter: string
    var updating: Option<string>

    /** The page opens loading, with no order and every status. */
    constructor()
      ensures orders == [] && loading && error == "" && statusFilter == "" && updating.None?
    {
      orders := [];
      loading := true;
      error := "";
      statusFilter := "";
      updating := None;
    }

    /** Choosing a status in the selector (the page then reloads). */
    method SetStatusFilter(status: string)
      modifies this
      ensures statusFilter == status && orders == old(orders) && error == old(error)
      ensures loading == old(loading) && updating == old(updating)
    {
      statusFilter := status;
    }

    /** `loadOrders`: `query` is the status asked of the backend; `answer`
        the orders array it sent back, `None` when the request failed or the
        answer had none. Only this restaurant's orders are kept. */
    method LoadOrders(answer: Option<seq<LegacyOrder>>) returns (query: Option<string>)
      modifies this
      ensures query == StatusQuery(statusFilter)
      ensures answer.Some? ==> orders == Filter(answer.value, IsChoripam) && error == ""
      ensures answer.None? ==> orders == old(orders) && error == LOAD_ERROR
      ensures !loading && statusFilter == old(statusFilter) && updating == old(updating)
    {
      loading := true;
      error := "";
      query := StatusQuery(statusFilter);
      if answer.Some? {
        orders := Filter(answer.value, IsChoripam);
      } else {
        error := LOAD_ERROR;
      }
      loading := false;
    }

    /** `updateOrderStatus`: the local list changes only when the backend
        accepted the update; the card is no longer marked as updating
        afterwards either way. */
    method UpdateOrderStatus(orderId: string, newStatus: string, accepted: bool)
      modifies this
      ensures orders == if accepted then SetStatus(old(orders), orderId, newStatus) else old(orders)
      ensures updating.None?
      ensures statusFilter == old(statusFilter) && error == old(error) && loading == old(loading)
    {
      updating := Some(orderId);
      if accepted {
        orders := SetStatus(orders, orderId, newStatus);
      }
      updating := None;
    }
  }

  /** Moving an order along the flow from a card: the moved order leaves its
      status's counter and joins the new one, the other counters stay. */
  lemma UpdateMovesOneOrder(orders: seq<LegacyOrder>, k: int, t: string)
    requires 0 <= k < |orders|
    requires forall j :: 0 <= j < |orders| && j != k ==> orders[j].order_id != orders[k].order_id
    requires t in NextStatusOptions(orders[k].status)
    ensures var after := SetStatus(orders, orders[k].order_id, t);
            && StatusCount(after, orders[k].status) == StatusCount(orders, orders[k].status) - 1
            && StatusCount(after, t) == StatusCount(orders, t) + 1
  {
    var s := orders[k].status;
    NextStatusOptionsNoCycle(s, t);
    SetStatusMovesCount(orders, orders[k].order_id, t, k, s);
    SetStatusMovesCount(orders, orders[k].order_id, t, k, t);
  }
}
