/** What the admin order pages share: the status flow, the labels, the local
    status update, the search box, the time and amount orderings, the status
    counters and the "time elapsed" text. */
module OrderLists {
  import opened Wrappers
  import opened Seqs
  import opened Text
  import opened GraphQLTypes

  // ---------------------------------------------------------------------
  // The status flow.

  /** The place of a status on the way from "pending" to "delivered". */
  function Rank(status: string): Option<nat> {
    match status
    case "pending" => Some(0)
    case "confirmed" => Some(1)
    case "preparing" => Some(2)
    case "ready" => Some(3)
    case "delivered" => Some(4)
    case _ => None
  }

  /** `nextStatusOptions`: the statuses an order may be moved to. */
  function NextStatusOptions(status: string): seq<string> {
    match status
    case "pending" => ["confirmed", "cancelled"]
    case "confirmed" => ["preparing", "cancelled"]
    case "preparing" => ["ready", "cancelled"]
    case "ready" => ["delivered"]
    case _ => []
  }

  /** Every move other than a cancellation goes exactly one step forward;
      cancelling is offered only before the order is ready; delivered,
      cancelled and unknown statuses offer nothing. */
  lemma NextStatusOptionsFlow(status: string)
    ensures forall t :: t in NextStatusOptions(status) && t != "cancelled" ==>
              Rank(status).Some? && Rank(t) == Some(Rank(status).value + 1)
    ensures "cancelled" in NextStatusOptions(status) <==> status in {"pending", "confirmed", "preparing"}
    ensures NextStatusOptions(status) == [] <==> Rank(status).None? || status == "delivered"
  {
  }

  /** No status leads back to itself or to an earlier one. */
  lemma NextStatusOptionsNoCycle(status: string, t: string)
    requires t in NextStatusOptions(status)
    ensures t != status
    ensures Rank(t).Some? ==> Rank(status).Some? && Rank(status).value < Rank(t).value
  {
    NextStatusOptionsFlow(status);
  }

  // ---------------------------------------------------------------------
  // Labels.

  /** `getStatusLabel` of the all-orders page: unknown statuses show as they are. */
  function StatusLabel(status: string): (r: string)
    ensures Rank(status).None? && status != "cancelled" ==> r == status
    ensures Rank(status).Some? || status == "cancelled" ==> r != status
  {
    match status
    case "pending" => "Pendiente"
    case "confirmed" => "Confirmado"
    case "preparing" => "Preparando"
    case "ready" => "Listo"
    case "delivered" => "Entregado"
    case "cancelled" => "Cancelado"
    case _ => status
  }

  /** `getDeliveryLabel`: unknown methods show as they are. */
  function DeliveryLabel(deliveryMethod: string): (r: string)
    ensures deliveryMethod !in {"mesa", "domicilio", "recoger"} ==> r == deliveryMethod
    ensures deliveryMethod in {"mesa", "domicilio", "recoger"} ==> r != deliveryMethod
  {
    match deliveryMethod
    case "mesa" => "Mesa"
    case "domicilio" => "Domicilio"
    case "recoger" => "Para Recoger"
    case _ => deliveryMethod
  }

  /** The six known statuses have six different labels. */
  lemma StatusLabelsDistinct(a: string, b: string)
    requires a in {"pending", "confirmed", "preparing", "ready", "delivered", "cancelled"}
    requires b in {"pending", "confirmed", "preparing", "ready", "delivered", "cancelled"}
    requires StatusLabel(a) == StatusLabel(b)
    ensures a == b
  {
  }

  // ---------------------------------------------------------------------
  // The local status update.

  /** The orders after the status of `orderId` was changed to `newStatus`. */
  function SetStatus(orders: seq<LegacyOrder>, orderId: string, newStatus: string): (r: seq<LegacyOrder>)
    ensures |r| == |orders|
    ensures forall i :: 0 <= i < |orders| ==>
              r[i] == if orders[i].order_id == orderId then orders[i].(status := newStatus) else orders[i]
  {
    if orders == [] then []
    else
      var last := orders[|orders| - 1];
      SetStatus(orders[..|orders| - 1], orderId, newStatus)
        + [if last.order_id == orderId then last.(status := newStatus) else last]
  }

  /** `getStatusCount`: the number of orders with a status. */
  function StatusCount(orders: seq<LegacyOrder>, status: string): (n: nat)
    ensures n <= |orders|
  {
    if orders == [] then 0
    else StatusCount(orders[..|orders| - 1], status) + (if orders[|orders| - 1].status == status then 1 else 0)
  }

  /** Updating an id that no order has changes nothing. */
  lemma SetStatusAbsent(orders: seq<LegacyOrder>, orderId: string, newStatus: string)
    requires forall i :: 0 <= i < |orders| ==> orders[i].order_id != orderId
    ensures SetStatus(orders, orderId, newStatus) == orders
  {
  }

  /** Moving the one order with an id from status `s` to `t` moves one unit
      of every status counter from `s` to `t`. */
  lemma {:induction false} SetStatusMovesCount(orders: seq<LegacyOrder>, orderId: string, newStatus: string, k: int, status: string)
    requires 0 <= k < |orders| && orders[k].order_id == orderId
    requires forall j :: 0 <= j < |orders| && j != k ==> orders[j].order_id != orderId
    ensures StatusCount(SetStatus(orders, orderId, newStatus), status)
         == StatusCount(orders, status) - (if orders[k].status == status then 1 else 0)
                                        + (if newStatus == status then 1 else 0)
  {
    var n := |orders|;
    var init := orders[..n - 1];
    var r := SetStatus(orders, orderId, newStatus);
    assert r[..n - 1] == SetStatus(init, orderId, newStatus);
    if k == n - 1 {
      SetStatusAbsent(init, orderId, newStatus);
    } else {
      SetStatusMovesCount(init, orderId, newStatus, k, status);
    }
  }

  /** `getStatusCount` is the length of the orders filtered by that status. */
  lemma {:induction false} FilterCountsStatus(orders: seq<LegacyOrder>, status: string)
    ensures |Filter(orders, HasStatus(status))| == StatusCount(orders, status)
  {
    if orders != [] {
      var n := |orders|;
      var init, last := orders[..n - 1], orders[n - 1];
      FilterCountsStatus(init, status);
      assert orders == init + [last];
      FilterAppend(init, [last], HasStatus(status));
      assert |Filter([last], HasStatus(status))| == if last.status == status then 1 else 0 by {
        assert [last][1..] == [];
      }
    }
  }

  // ---------------------------------------------------------------------
  // Filters and orderings.

  /** The status filter: empty means every status. */
  predicate StatusMatches(o: LegacyOrder, status: string) {
    status == "" || o.status == status
  }

  /** The search box: the customer's name and the order id ignoring case,
      the phone as typed. */
  predicate SearchMatches(o: LegacyOrder, q: string) {
    q == "" || SearchHit(o, q)
  }

  /** The text typed occurs in the name or the order id (ignoring case) or in the phone. */
  predicate SearchHit(o: LegacyOrder, q: string) {
    || Contains(LowerAscii(o.customer_name), LowerAscii(q))
    || Contains(o.customer_phone, q)
    || Contains(LowerAscii(o.order_id), LowerAscii(q))
  }

  function HasStatus(status: string): LegacyOrder -> bool {
    (o: LegacyOrder) => o.status == status
  }

  function StatusFn(status: string): LegacyOrder -> bool {
    (o: LegacyOrder) => StatusMatches(o, status)
  }

  function SearchHitFn(q: string): LegacyOrder -> bool {
    (o: LegacyOrder) => SearchHit(o, q)
  }

  /** The first step of every page's `applyFilters`: filtering by the status
      only when one is chosen is filtering by the status filter. */
  lemma StatusStep(orders: seq<LegacyOrder>, status: string)
    ensures (if status != "" then Filter(orders, HasStatus(status)) else orders) == Filter(orders, StatusFn(status))
  {
    if status != "" {
      FilterSame(orders, HasStatus(status), StatusFn(status));
    } else {
      FilterKeepsAll(orders, StatusFn(status));
    }
  }

  /** Searching for part of an order id finds that order, whatever the case typed. */
  lemma SearchFindsOrderId(o: LegacyOrder, q: string)
    requires Contains(LowerAscii(o.order_id), LowerAscii(q))
    ensures SearchMatches(o, q) && SearchMatches(o, UpperAscii(q))
  {
    LowerUpperAscii(q);
  }

  /** The sort orders offered by every channel page; anything but "oldest",
      "amount_high" and "amount_low" is "newest". */
  function TimeAmountOrder(sortBy: string): (LegacyOrder, LegacyOrder) -> bool {
    if sortBy == "oldest" then (a: LegacyOrder, b: LegacyOrder) => a.created_at <= b.created_at
    else if sortBy == "amount_high" then (a: LegacyOrder, b: LegacyOrder) => a.total >= b.total
    else if sortBy == "amount_low" then (a: LegacyOrder, b: LegacyOrder) => a.total <= b.total
    else (a: LegacyOrder, b: LegacyOrder) => a.created_at >= b.created_at
  }

  lemma TimeAmountOrderTotal(sortBy: string)
    ensures TotalPreorder(TimeAmountOrder(sortBy))
  {
  }

  /** "amount_high" lists totals from the largest down, "amount_low" from the
      smallest up, "newest" the latest first and "oldest" the earliest first. */
  lemma TimeAmountOrderMeaning(s: seq<LegacyOrder>, sortBy: string, i: int, j: int)
    requires SortedBy(s, TimeAmountOrder(sortBy)) && 0 <= i < j < |s|
    ensures sortBy == "amount_high" ==> s[i].total >= s[j].total
    ensures sortBy == "amount_low" ==> s[i].total <= s[j].total
    ensures sortBy == "oldest" ==> s[i].created_at <= s[j].created_at
    ensures sortBy !in {"oldest", "amount_high", "amount_low"} ==> s[i].created_at >= s[j].created_at
  {
  }

  // ---------------------------------------------------------------------
  // Time elapsed.

  const MS_PER_MINUTE: int := 60000

  /** `formatTimeElapsed`, given the milliseconds since the order was made:
      whole minutes (rounded down) under an hour, else hours and minutes. */
  function FormatTimeElapsed(diffMs: int): (r: string)
    ensures diffMs < 60 * MS_PER_MINUTE ==> r == IntToDecimal(diffMs / MS_PER_MINUTE) + " min"
    ensures diffMs >= 60 * MS_PER_MINUTE ==>
              exists h: nat, m: nat :: ElapsedParts(diffMs, h, m) && r == NatToDecimal(h) + "h " + NatToDecimal(m) + "m"
  {
    var mins := diffMs / MS_PER_MINUTE;
    if mins < 60 then IntToDecimal(mins) + " min"
    else
      assert ElapsedParts(diffMs, mins / 60, mins % 60);
      NatToDecimal(mins / 60) + "h " + NatToDecimal(mins % 60) + "m"
  }

  /** `h` hours and `m` minutes make up the whole minutes of `diffMs`, with
      at least one hour and `m` below 60. */
  predicate ElapsedParts(diffMs: int, h: nat, m: nat) {
    h >= 1 && m < 60 && h * 60 + m == diffMs / MS_PER_MINUTE
  }

  /** The hours and minutes shown are the only ones that fit. */
  lemma ElapsedPartsUnique(diffMs: int, h: nat, m: nat, h': nat, m': nat)
    requires ElapsedParts(diffMs, h, m) && ElapsedParts(diffMs, h', m')
    ensures h == h' && m == m'
  {
  }

  /** 59 seconds show as "0 min", two hours and five minutes as "2h 5m", and
      an order stamped a minute in the future as "-1 min". */
  lemma FormatTimeElapsedExamples()
    ensures FormatTimeElapsed(59000) == "0 min"
    ensures FormatTimeElapsed(125 * MS_PER_MINUTE) == "2h 5m"
    ensures FormatTimeElapsed(-MS_PER_MINUTE) == "-1 min"
  {
    assert 59000 / MS_PER_MINUTE == 0;
    assert NatToDecimal(0) == "0";
    assert (125 * MS_PER_MINUTE) / MS_PER_MINUTE == 125;
    assert 125 / 60 == 2 && 125 % 60 == 5;
    assert NatToDecimal(2) == "2";
    assert NatToDecimal(5) == "5";
    assert -MS_PER_MINUTE / MS_PER_MINUTE == -1;
    assert NatToDecimal(1) == "1";
    assert IntToDecimal(-1) == "-" + NatToDecimal(1);
  }
}
