/** The product grid of the storefront: each card shows how many units of the
    product the cart holds and has "-", "+" and "Agregar al carrito" buttons. */
module ProductList {
  import opened Wrappers
  import opened Seqs
  import opened CartContext

  /** `getQuantity(id)`: the quantity on the cart line with `id`, 0 when there is none. */
  function GetQuantity(lines: seq<CartItem>, id: int): (q: int)
    ensures !InCart(lines, id) ==> q == 0
    ensures InCart(lines, id) ==> exists i :: 0 <= i < |lines| && HasId(lines[i], id) && q == lines[i].quantity
  {
    match Find(lines, item => HasId(item, id))
    case Some(item) => item.quantity
    case None => 0
  }

  /** In a valid cart the quantity shown is the one on the (only) line with the id. */
  lemma GetQuantityOfLine(lines: seq<CartItem>, k: int)
    requires ValidLines(lines) && 0 <= k < |lines|
    ensures GetQuantity(lines, lines[k].product.id) == lines[k].quantity
  {
    var id := lines[k].product.id;
    assert InCart(lines, id) by { assert HasId(lines[k], id); }
    var i :| 0 <= i < |lines| && HasId(lines[i], id) && GetQuantity(lines, id) == lines[i].quantity;
    assert !(i < k) && !(k < i);
  }

  /** "-" is disabled when the card shows 0. */
  predicate MinusDisabled(lines: seq<CartItem>, id: int) {
    GetQuantity(lines, id) == 0
  }

  /** In a valid cart "-" is disabled exactly when the product is not in the cart. */
  lemma MinusDisabledIffAbsent(lines: seq<CartItem>, id: int)
    requires ValidLines(lines)
    ensures MinusDisabled(lines, id) <==> !InCart(lines, id)
  {
    if InCart(lines, id) {
      var k :| 0 <= k < |lines| && HasId(lines[k], id);
      GetQuantityOfLine(lines, k);
    }
  }

  /** "+" and "Agregar al carrito" both add one unit: the count shown grows by one. */
  lemma PlusAddsOne(lines: seq<CartItem>, p: CartProduct)
    requires ValidLines(lines)
    ensures GetQuantity(Added(lines, p), p.id) == GetQuantity(lines, p.id) + 1
  {
    AddedValid(lines, p);
    if InCart(lines, p.id) {
      var k :| 0 <= k < |lines| && HasId(lines[k], p.id);
      AddedExisting(lines, p, k);
      GetQuantityOfLine(lines, k);
      GetQuantityOfLine(Added(lines, p), k);
    } else {
      GetQuantityOfLine(Added(lines, p), |lines|);
    }
  }

  /** "-" removes the whole line: the count shown drops to 0, not by one. */
  lemma MinusClears(lines: seq<CartItem>, id: int)
    ensures GetQuantity(Removed(lines, id), id) == 0
  {
    var r := Removed(lines, id);
    assert forall i :: 0 <= i < |r| ==> !HasId(r[i], id);
  }

  /** The "-" button of a card: removes the product's line unless disabled. */
  method PressMinus(cart: Cart, product: CartProduct)
    requires cart.Valid()
    modifies cart
    ensures cart.Valid()
    ensures MinusDisabled(old(cart.lines), product.id) ==> cart.lines == old(cart.lines)
    ensures !MinusDisabled(old(cart.lines), product.id) ==> cart.lines == Removed(old(cart.lines), product.id)
  {
    if !MinusDisabled(cart.lines, product.id) {
      cart.RemoveFromCart(product.id);
    }
  }

  /** The "+" button and the "Agregar al carrito" button of a card. */
  method PressPlus(cart: Cart, product: CartProduct)
    requires cart.Valid()
    modifies cart
    ensures cart.Valid()
    ensures cart.lines == Added(old(cart.lines), product)
    ensures GetQuantity(cart.lines, product.id) == GetQuantity(old(cart.lines), product.id) + 1
  {
    PlusAddsOne(cart.lines, product);
    cart.AddToCart(product);
  }
}
