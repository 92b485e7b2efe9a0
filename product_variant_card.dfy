/** The card of a product sold in variants (sizes): a row of variant buttons,
    the selected variant's price and an add button. The cart line of a variant
    gets its own numeric id, made by writing the selected index after the
    product id. */
module ProductVariantCard {
  import opened Wrappers
  import opened Text
  import opened CartContext

  /** A size and its price; `caption` is the source's `label`, a keyword here. */
  datatype Variant = Variant(caption: string, price: int)

  /** A missing `variants` array is the empty one here. */
  datatype VariantProduct = VariantProduct(
    id: int, name: string, description: string, imageUrl: Option<string>, variants: seq<Variant>)

  /** `Array.isArray(product.variants) && product.variants.length > 0`. */
  predicate HasVariants(p: VariantProduct) {
    |p.variants| > 0
  }

  /** The digits of `${id}${selected}` read back as a number always parse. */
  lemma VariantCartIdParses(id: int, selected: nat)
    ensures ParseSigned(IntToDecimal(id) + NatToDecimal(selected)).Some?
  {
    if id < 0 {
      ParseNegThenDigits(-id, NatToDecimal(selected));
    } else {
      ParsePosThenDigits(id, NatToDecimal(selected));
    }
  }

  /** `Number(`${product.id}${selected}`)`. */
  function VariantCartId(id: int, selected: nat): (r: int)
    ensures ParseSigned(IntToDecimal(id) + NatToDecimal(selected)) == Some(r)
  {
    VariantCartIdParses(id, selected);
    ParseSigned(IntToDecimal(id) + NatToDecimal(selected)).value
  }

  /** For a single-digit index the cart id is the product id with the index
      appended as its last decimal digit. */
  lemma VariantCartIdDigit(id: int, selected: nat)
    requires selected <= 9
    ensures VariantCartId(id, selected) == if id >= 0 then id * 10 + selected else id * 10 - selected
  {
    var c := DigitChar(selected);
    assert NatToDecimal(selected) == [c];
    assert DigitValue(c) == selected;
    if id < 0 {
      ParseNegThenDigits(-id, [c]);
      ParseNatThenDigit(-id, c);
    } else {
      ParsePosThenDigits(id, [c]);
      ParseNatThenDigit(id, c);
    }
  }

  /** With fewer than eleven variants no two (product, index) pairs share a cart id. */
  lemma VariantCartIdInjective(id1: int, s1: nat, id2: int, s2: nat)
    requires s1 <= 9 && s2 <= 9
    requires VariantCartId(id1, s1) == VariantCartId(id2, s2)
    ensures id1 == id2 && s1 == s2
  {
    VariantCartIdDigit(id1, s1);
    VariantCartIdDigit(id2, s2);
  }

  /** From the eleventh variant on, cart ids collide: product 1's variant 12
      and product 11's variant 2 are both line 112. */
  lemma VariantCartIdCollides()
    ensures VariantCartId(1, 12) == VariantCartId(11, 2) == 112
  {
    var a := IntToDecimal(1) + NatToDecimal(12);
    var b := IntToDecimal(11) + NatToDecimal(2);
    assert NatToDecimal(1) == "1";
    assert NatToDecimal(2) == "2";
    assert NatToDecimal(12) == NatToDecimal(1) + ['2'];
    assert NatToDecimal(11) == NatToDecimal(1) + ['1'];
    assert a == b == "112";
    DecimalRoundTrip(112);
    assert NatToDecimal(112) == "112" by {
      assert NatToDecimal(112) == NatToDecimal(11) + ['2'];
    }
  }

  /** What `handleAdd` puts in the cart: `None` when there is no selected
      variant (the card then has no add action). */
  function CartProductFor(p: VariantProduct, selected: nat): (r: Option<CartProduct>)
    ensures r.None? <==> selected >= |p.variants|
    ensures r.Some? ==>
              && r.value.id == VariantCartId(p.id, selected)
              && r.value.name == p.name + " " + p.variants[selected].caption
              && r.value.price == p.variants[selected].price
              && r.value.description == p.description && r.value.imageUrl == p.imageUrl
  {
    if selected < |p.variants| then
      var v := p.variants[selected];
      Some(CartProduct(VariantCartId(p.id, selected), p.name + " " + v.caption, v.price, p.description, p.imageUrl))
    else None
  }

  /** A product without variants can never add anything. */
  lemma NoVariantsNoAdd(p: VariantProduct, selected: nat)
    requires !HasVariants(p)
    ensures CartProductFor(p, selected).None?
  {
  }

  class VariantCard {
    const product: VariantProduct
    var selected: nat

    ghost predicate Valid()
      reads this
    {
      HasVariants(product) ==> selected < |product.variants|
    }

    /** The first variant starts selected. */
    constructor(product: VariantProduct)
      ensures this.product == product && selected == 0 && Valid()
    {
      this.product := product;
      selected := 0;
    }

    /** Clicking variant button `i`. */
    method Select(i: nat)
      requires i < |product.variants|
      modifies this
      ensures selected == i && Valid()
    {
      selected := i;
    }

    /** `handleAdd`: one unit of the selected variant goes into the cart. */
    method HandleAdd(cart: Cart)
      requires cart.Valid() && Valid()
      modifies cart
      ensures cart.Valid()
      ensures HasVariants(product) ==> CartProductFor(product, selected).Some?
      ensures CartProductFor(product, selected).None? ==> cart.lines == old(cart.lines)
      ensures CartProductFor(product, selected).Some? ==>
                cart.lines == Added(old(cart.lines), CartProductFor(product, selected).value)
    {
      var item := CartProductFor(product, selected);
      if item.None? {
        return;
      }
      cart.AddToCart(item.value);
    }
  }
}
