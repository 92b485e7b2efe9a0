/** The checkout page: the customer's details, payment and delivery choice,
    the coupon, and `handleOrder`, which saves the order (the "pedido") and
    then asks the backend to send the customer a WhatsApp message. */
module Checkout {
  import opened Wrappers
  import opened Seqs
  import opened Text
  import opened CartContext
  import opened Pricing

  /** One line of the order sent to the backend. */
  datatype PedidoLine = PedidoLine(id: int, name: string, quantity: int, price: int)

  /** The order body posted to the backend. */
  datatype Pedido = Pedido(
    nombre: string, telefono: string, correo: string,
    direccion: string, mesa: string,
    productos: seq<PedidoLine>, total: int,
    metodo_pago: string, modalidad_entrega: string)

  /** What a `fetch` call came to: a response with its `ok` flag, or a throw. */
  datatype FetchOutcome = Responded(ok: bool) | Threw

  const SAVE_ERROR: string := "No se pudo guardar el pedido. Intenta de nuevo."

  function ToPedidoLine(item: CartItem): PedidoLine {
    PedidoLine(item.product.id, item.product.name, item.quantity, item.product.price)
  }

  function PedidoLineAmount(l: PedidoLine): int {
    l.price * l.quantity
  }

  /** The order body built from the form and the cart. */
  function BuildPedido(
    name: string, phone: string, email: string, address: string, mesa: string,
    payment: string, delivery: string, lines: seq<CartItem>, discount: int): (p: Pedido)
    ensures p.direccion == (if delivery == "domicilio" then address else "")
    ensures p.mesa == (if delivery == "mesa" then mesa else "")
    ensures |p.productos| == |lines|
    ensures forall i :: 0 <= i < |lines| ==>
              p.productos[i] == PedidoLine(lines[i].product.id, lines[i].product.name, lines[i].quantity, lines[i].product.price)
    ensures p.total + discount == Subtotal(lines)
    ensures p.nombre == name && p.telefono == phone && p.correo == email
    ensures p.metodo_pago == payment && p.modalidad_entrega == delivery
  {
    Pedido(name, phone, email,
           if delivery == "domicilio" then address else "",
           if delivery == "mesa" then mesa else "",
           Map(lines, ToPedidoLine), Total(lines, discount), payment, delivery)
  }

  /** The lines of an order add up to its total plus the discount: the backend
      can recompute the subtotal from the lines it receives. */
  lemma {:induction false} PedidoLinesSum(lines: seq<CartItem>, discount: int)
    ensures SumOf(Map(lines, ToPedidoLine), PedidoLineAmount) == Subtotal(lines)
  {
    if lines != [] {
      var init := lines[..|lines| - 1];
      PedidoLinesSum(init, discount);
      assert Map(lines, ToPedidoLine)[..|lines| - 1] == Map(init, ToPedidoLine);
    }
  }

  /** The WhatsApp address of the customer: the phone's digits after `+57`. */
  function WhatsAppRecipient(phone: string): (to: string)
    ensures StartsWith(to, "whatsapp:+57")
    ensures AllDigits(to[12..]) && |to| <= 12 + |phone|
  {
    "whatsapp:+57" + DigitsOnly(phone)
  }

  /** Separators typed in the phone (spaces, dashes, parentheses) do not
      change the address the message goes to. */
  lemma WhatsAppRecipientIgnoresSeparator(a: string, c: char, b: string)
    requires !IsDigit(c)
    ensures WhatsAppRecipient(a + [c] + b) == WhatsAppRecipient(a + b)
  {
    DigitsOnlyNonDigit(c);
    DigitsOnlyAppend(a, [c]);
    DigitsOnlyAppend(a + [c], b);
    DigitsOnlyAppend(a, b);
    assert DigitsOnly(a) + [] == DigitsOnly(a);
  }

  /** A phone typed with its country code gets the code twice: "+57" followed
      by any phone is sent to "whatsapp:+5757" and the phone's digits. */
  lemma WhatsAppRecipientRepeatsCountryCode(rest: string)
    ensures WhatsAppRecipient("+57" + rest) == "whatsapp:+5757" + DigitsOnly(rest)
  {
    var d := DigitsOnly(rest);
    calc {
      WhatsAppRecipient("+57" + rest);
      "whatsapp:+57" + DigitsOnly("+57" + rest);
      { PlusCountryCodeDigits(rest); }
      "whatsapp:+57" + ("57" + d);
      ("whatsapp:+57" + "57") + d;
      { assert "whatsapp:+57" + "57" == "whatsapp:+5757"; }
      "whatsapp:+5757" + d;
    }
  }

  lemma PlusCountryCodeDigits(rest: string)
    ensures DigitsOnly("+57" + rest) == "57" + DigitsOnly(rest)
  {
    DigitsOnlyNonDigit('+');
    DigitsOnlyKeepsDigits("57");
    DigitsOnlyAppend("+", "57");
    DigitsOnlyAppend("+57", rest);
    assert "+57" == "+" + "57";
  }

  /** The submit button: disabled on an empty cart or with the privacy terms unticked. */
  predicate SubmitDisabled(lines: seq<CartItem>, terms: bool) {
    |lines| == 0 || !terms
  }

  class CheckoutForm {
    var payment: string
    var delivery: string
    var name: string
    var email: string
    var phone: string
    var address: string
    var terms: bool
    var coupon: string
    var discount: int
    var couponApplied: bool
    var orderSent: bool
    var loading: bool
    var error: string
    var mesa: string

    /** Cash on delivery, to the table, everything else empty. */
    constructor()
      ensures payment == "efectivo" && delivery == "mesa"
      ensures name == "" && email == "" && phone == "" && address == "" && mesa == "" && coupon == ""
      ensures !terms && discount == 0 && !couponApplied && !orderSent && !loading && error == ""
    {
      payment := "efectivo";
      delivery := "mesa";
      name := "";
      email := "";
      phone := "";
      address := "";
      terms := false;
      coupon := "";
      discount := 0;
      couponApplied := false;
      orderSent := false;
      loading := false;
      error := "";
      mesa := "";
    }

    /** The order the form would send for `lines` now. */
    function CurrentPedido(lines: seq<CartItem>): (p: Pedido)
      reads this
      ensures p.total == Total(lines, discount)
    {
      BuildPedido(name, phone, email, address, mesa, payment, delivery, lines, discount)
    }

    /** "Aplicar": the coupon rule shared with the cart panel. */
    method HandleApplyCoupon(cart: Cart)
      modifies this
      ensures CouponState(discount, couponApplied)
           == ApplyCoupon(CouponState(old(discount), old(couponApplied)), coupon, Subtotal(cart.lines))
      ensures coupon == old(coupon) && payment == old(payment) && delivery == old(delivery)
      ensures orderSent == old(orderSent) && error == old(error) && loading == old(loading)
      ensures name == old(name) && email == old(email) && phone == old(phone)
      ensures address == old(address) && terms == old(terms) && mesa == old(mesa)
    {
      var s := ApplyCoupon(CouponState(discount, couponApplied), coupon, Subtotal(cart.lines));
      discount := s.discount;
      couponApplied := s.couponApplied;
    }

    /** `handleOrder`, given what the two requests come to. The order is
        posted; only when the save answers `ok` is the WhatsApp request made.
        The order counts as sent, and the cart is cleared, when the save
        answers `ok` and the WhatsApp request does not throw (its own answer
        is not looked at); otherwise the page shows the save error, even when
        the order was saved and only the message failed. */
    method HandleOrder(cart: Cart, save: FetchOutcome, notify: FetchOutcome)
      returns (pedido: Pedido, whatsappTo: Option<string>)
      requires cart.Valid()
      modifies this`loading, this`error, this`orderSent, cart
      ensures pedido == old(CurrentPedido(cart.lines))
      ensures whatsappTo == if save == Responded(true) then Some(WhatsAppRecipient(phone)) else None
      ensures save == Responded(true) && !notify.Threw? ==>
                orderSent && error == "" && cart.lines == []
      ensures !(save == Responded(true) && !notify.Threw?) ==>
                orderSent == old(orderSent) && error == SAVE_ERROR && cart.lines == old(cart.lines)
      ensures !loading && cart.Valid()
    {
      loading := true;
      error := "";
      pedido := BuildPedido(name, phone, email, address, mesa, payment, delivery, cart.lines, discount);
      whatsappTo := None;
      if save != Responded(true) {
        error := SAVE_ERROR;
      } else {
        whatsappTo := Some(WhatsAppRecipient(phone));
        if notify.Threw? {
          error := SAVE_ERROR;
        } else {
          orderSent := true;
          cart.ClearCart();
        }
      }
      loading := false;
    }
  }

  /** Two Choripapas at 16000 for table 5, paid in cash: the order sent
      carries one line of two units, a total of 32000 and "mesa" delivery. */
  lemma ChoripapaForTableFive()
    ensures var lines := [CartItem(CartProduct(1, "Choripapa", 16000, "", Wrappers.None), 2)];
            var p := BuildPedido("Ana", "3001234567", "", "Calle 1", "5", "efectivo", "mesa", lines, 0);
            && p.total == 32000 && p.mesa == "5" && p.direccion == ""
            && p.modalidad_entrega == "mesa" && p.productos == [PedidoLine(1, "Choripapa", 2, 16000)]
  {
    var lines := [CartItem(CartProduct(1, "Choripapa", 16000, "", Wrappers.None), 2)];
    SumOfSingle(lines[0], LineAmount);
    assert lines == [lines[0]];
  }
}
