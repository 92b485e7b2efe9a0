/** The money rules the cart panel and the checkout page share: the subtotal of
    the cart, the one-time `PRIMERA10` coupon worth 10% of the subtotal, and the
    total after the discount. Amounts are whole pesos. */
module Pricing {
  import opened Seqs
  import opened Text
  import opened CartContext

  function LineAmount(item: CartItem): int {
    item.product.price * item.quantity
  }

  /** `cart.reduce((sum, item) => sum + item.price * item.quantity, 0)`. */
  function Subtotal(lines: seq<CartItem>): int {
    SumOf(lines, LineAmount)
  }

  const COUPON_CODE: string := "PRIMERA10"

  /** The code typed matches the coupon once upper-cased. */
  predicate CouponMatches(code: string) {
    UpperAscii(code) == COUPON_CODE
  }

  /** `Math.round(subtotal * 0.1)`: a tenth of the subtotal, halves rounded up. */
  function CouponDiscount(subtotal: int): (d: int)
    ensures 10 * d - 5 <= subtotal < 10 * d + 5
  {
    (subtotal + 5) / 10
  }

  /** The coupon state of a page. */
  datatype CouponState = CouponState(discount: int, couponApplied: bool)

  /** `handleApplyCoupon`: a matching code sets the discount from the current
      subtotal and marks the coupon used, unless it already is. */
  function ApplyCoupon(s: CouponState, code: string, subtotal: int): (r: CouponState)
    ensures CouponMatches(code) && !s.couponApplied ==> r == CouponState(CouponDiscount(subtotal), true)
    ensures !CouponMatches(code) || s.couponApplied ==> r == s
  {
    if CouponMatches(code) && !s.couponApplied then CouponState(CouponDiscount(subtotal), true) else s
  }

  /** Once used, the coupon changes nothing, whatever the code and subtotal. */
  lemma CouponAtMostOnce(s: CouponState, code: string, subtotal: int, code': string, subtotal': int)
    ensures ApplyCoupon(ApplyCoupon(s, code, subtotal), code', subtotal').discount
         == (if !s.couponApplied && CouponMatches(code) then CouponDiscount(subtotal)
             else ApplyCoupon(s, code', subtotal').discount)
    ensures ApplyCoupon(s, code, subtotal).couponApplied ==>
              ApplyCoupon(ApplyCoupon(s, code, subtotal), code', subtotal') == ApplyCoupon(s, code, subtotal)
  {
  }

  /** The code is matched without regard to the case of its letters. */
  lemma CouponCaseInsensitive()
    ensures CouponMatches("primera10") && CouponMatches("Primera10") && CouponMatches("PRIMERA10")
    ensures !CouponMatches("PRIMERA1") && !CouponMatches("PRIMERA10 ")
  {
    assert UpperAscii("primera10") == "PRIMERA10";
    assert UpperAscii("Primera10") == "PRIMERA10";
    assert UpperAscii("PRIMERA10") == "PRIMERA10";
    assert |UpperAscii("PRIMERA1")| == 8;
    assert |UpperAscii("PRIMERA10 ")| == 10;
  }

  /** The total shown and sent: the subtotal less the discount. */
  function Total(lines: seq<CartItem>, discount: int): (t: int)
    ensures t + discount == Subtotal(lines)
  {
    Subtotal(lines) - discount
  }

  /** With the coupon applied to the current cart and non-negative prices and
      quantities, the total is about 90% of the subtotal and never negative. */
  lemma CouponTotal(lines: seq<CartItem>)
    requires forall i :: 0 <= i < |lines| ==> lines[i].product.price >= 0 && lines[i].quantity >= 0
    ensures 0 <= Total(lines, CouponDiscount(Subtotal(lines)))
    ensures 9 * Subtotal(lines) - 5 <= 10 * Total(lines, CouponDiscount(Subtotal(lines))) < 9 * Subtotal(lines) + 5
  {
    forall i | 0 <= i < |lines| ensures LineAmount(lines[i]) >= 0 {
      assert lines[i].product.price * lines[i].quantity >= 0;
    }
    SumOfNonNegative(lines, LineAmount);
  }

  /** Adding a product raises the subtotal by one unit's price: the price of
      the line already in the cart when the id is there (its fields are kept),
      else the new product's price. */
  lemma {:induction false} SubtotalAfterAdd(lines: seq<CartItem>, p: CartProduct)
    requires ValidLines(lines)
    ensures Subtotal(Added(lines, p))
         == Subtotal(lines) + (if InCart(lines, p.id) then PriceInCart(lines, p.id) else p.price)
  {
    if InCart(lines, p.id) {
      BumpSubtotal(lines, p.id);
    } else {
      SumOfAppend(lines, [CartItem(p, 1)], LineAmount);
      assert SumOf([CartItem(p, 1)], LineAmount) == p.price by {
        assert [CartItem(p, 1)][..0] == [];
      }
    }
  }

  /** The unit price on the cart line with `id` (0 when there is none). */
  function PriceInCart(lines: seq<CartItem>, id: int): int {
    if lines == [] then 0
    else if HasId(lines[|lines| - 1], id) then lines[|lines| - 1].product.price
    else PriceInCart(lines[..|lines| - 1], id)
  }

  /** One more unit on a line adds one unit price to its amount. */
  lemma BumpLineAmount(item: CartItem, id: int)
    ensures LineAmount(Bump(id)(item)) == LineAmount(item) + (if HasId(item, id) then item.product.price else 0)
  {
    if HasId(item, id) {
      calc {
        LineAmount(Bump(id)(item));
        item.product.price * (item.quantity + 1);
        item.product.price * item.quantity + item.product.price;
      }
    }
  }

  /** Bumping every line on `id` adds the unit price of the line with that
      id, when there is one, to the subtotal. */
  lemma {:induction false} BumpSubtotal(lines: seq<CartItem>, id: int)
    requires forall i, j :: 0 <= i < j < |lines| ==> lines[i].product.id != lines[j].product.id
    ensures Subtotal(Map(lines, Bump(id))) == Subtotal(lines) + (if InCart(lines, id) then PriceInCart(lines, id) else 0)
  {
    if lines != [] {
      var n := |lines|;
      var init, last := lines[..n - 1], lines[n - 1];
      BumpSubtotal(init, id);
      var bumped := Map(lines, Bump(id));
      assert bumped[..n - 1] == Map(init, Bump(id));
      assert bumped[n - 1] == Bump(id)(last);
      assert Subtotal(bumped) == Subtotal(Map(init, Bump(id))) + LineAmount(Bump(id)(last));
      assert Subtotal(lines) == Subtotal(init) + LineAmount(last);
      BumpLineAmount(last, id);
      InCartSnoc(lines, id);
      if HasId(last, id) {
        assert InCart(lines, id) by { assert HasId(lines[n - 1], id); }
        assert PriceInCart(lines, id) == last.product.price;
      } else {
        assert PriceInCart(lines, id) == PriceInCart(init, id);
      }
    }
  }

  /** With one line per id, the last line holds `id` only when no earlier
      line does, and otherwise the earlier lines decide whether `id` is there. */
  lemma InCartSnoc(lines: seq<CartItem>, id: int)
    requires lines != []
    requires forall i, j :: 0 <= i < j < |lines| ==> lines[i].product.id != lines[j].product.id
    ensures HasId(lines[|lines| - 1], id) ==> !InCart(lines[..|lines| - 1], id)
    ensures !HasId(lines[|lines| - 1], id) ==> (InCart(lines, id) <==> InCart(lines[..|lines| - 1], id))
  {
    var n := |lines|;
    var init := lines[..n - 1];
    if InCart(init, id) {
      var k :| 0 <= k < |init| && HasId(init[k], id);
      assert lines[k] == init[k];
    }
    if InCart(lines, id) && !HasId(lines[n - 1], id) {
      var k :| 0 <= k < n && HasId(lines[k], id);
      assert init[k] == lines[k];
    }
  }

  /** Removing an id lowers the subtotal by exactly the amount of the lines
      with that id. */
  lemma SubtotalAfterRemove(lines: seq<CartItem>, id: int)
    ensures Subtotal(Removed(lines, id)) == Subtotal(lines) - SumOf(Filter(lines, item => HasId(item, id)), LineAmount)
  {
    FilterSplitsSum(lines, item => HasId(item, id), item => !HasId(item, id), LineAmount);
  }
}
