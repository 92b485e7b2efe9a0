/** The slide-in cart panel: the cart's lines with a remove button each, a
    coupon field, the subtotal, discount and total, and the "Ir a pagar" and
    "Vaciar carrito" buttons. The discount is fixed when the coupon is applied
    and is not recomputed when the cart changes afterwards. */
module CartPanel {
  import opened CartContext
  import opened Pricing
  import opened Text

  /** "Ir a pagar" and "Vaciar carrito" are disabled on an empty cart. */
  predicate CheckoutDisabled(lines: seq<CartItem>) {
    |lines| == 0
  }

  class CartPanelView {
    var coupon: string
    var discount: int
    var couponApplied: bool

    /** The panel opens with no code typed and no discount. */
    constructor()
      ensures coupon == "" && discount == 0 && !couponApplied
    {
      coupon := "";
      discount := 0;
      couponApplied := false;
    }

    /** Typing in the coupon field; the field is disabled once a coupon is applied. */
    method TypeCoupon(text: string)
      modifies this
      ensures coupon == (if old(couponApplied) then old(coupon) else text)
      ensures discount == old(discount) && couponApplied == old(couponApplied)
    {
      if !couponApplied {
        coupon := text;
      }
    }

    /** "Aplicar": the shared coupon rule on the current cart's subtotal. */
    method HandleApplyCoupon(cart: Cart)
      modifies this
      ensures CouponState(discount, couponApplied)
           == ApplyCoupon(CouponState(old(discount), old(couponApplied)), coupon, Subtotal(cart.lines))
      ensures coupon == old(coupon)
    {
      var s := ApplyCoupon(CouponState(discount, couponApplied), coupon, Subtotal(cart.lines));
      discount := s.discount;
      couponApplied := s.couponApplied;
    }

    /** "Vaciar carrito": empties the cart unless it is already empty. */
    method PressClear(cart: Cart)
      modifies cart
      ensures cart.lines == [] && cart.Valid()
    {
      if !CheckoutDisabled(cart.lines) {
        cart.ClearCart();
      }
    }
  }

  /** The discount outlives the cart it was computed from: applying the coupon
      to a cart worth `s` and then emptying the cart leaves a total of minus
      the discount, which is negative from a subtotal of 5 up. */
  lemma StaleDiscountAfterClear(s: int)
    requires s >= 5
    ensures Total([], ApplyCoupon(CouponState(0, false), COUPON_CODE, s).discount) == -CouponDiscount(s)
    ensures Total([], ApplyCoupon(CouponState(0, false), COUPON_CODE, s).discount) < 0
  {
    assert UpperAscii(COUPON_CODE) == COUPON_CODE;
    assert Subtotal([]) == 0;
  }
}
