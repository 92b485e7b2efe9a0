/** The shopping cart shared by the storefront pages: a list of lines, one per
    product id, each with a quantity. `addToCart` merges by id, `removeFromCart`
    drops every line with an id, `clearCart` empties the list. */
module CartContext {
  import opened Wrappers
  import opened Seqs

  /** What the pages put in the cart: the product fields a line carries. */
  datatype CartProduct = CartProduct(id: int, name: string, price: int, description: string, imageUrl: Option<string>)

  /** A cart line: the product's fields spread into it, plus the quantity. */
  datatype CartItem = CartItem(product: CartProduct, quantity: int)

  predicate HasId(item: CartItem, id: int) {
    item.product.id == id
  }

  predicate InCart(lines: seq<CartItem>, id: int) {
    exists i :: 0 <= i < |lines| && HasId(lines[i], id)
  }

  /** The cart's invariant: one line per id, every quantity at least 1. */
  ghost predicate ValidLines(lines: seq<CartItem>) {
    && (forall i, j :: 0 <= i < j < |lines| ==> lines[i].product.id != lines[j].product.id)
    && (forall i :: 0 <= i < |lines| ==> lines[i].quantity >= 1)
  }

  function Bump(id: int): CartItem -> CartItem {
    item => if HasId(item, id) then item.(quantity := item.quantity + 1) else item
  }

  /** The cart after `addToCart(p)`: a line with `p`'s id gets one more unit and
      keeps its own product fields; otherwise a line of one `p` is appended. */
  function Added(lines: seq<CartItem>, p: CartProduct): seq<CartItem> {
    if InCart(lines, p.id) then Map(lines, Bump(p.id)) else lines + [CartItem(p, 1)]
  }

  /** The cart after `removeFromCart(id)`. */
  function Removed(lines: seq<CartItem>, id: int): seq<CartItem> {
    Filter(lines, item => !HasId(item, id))
  }

  class Cart {
    var lines: seq<CartItem>

    ghost predicate Valid()
      reads this
    {
      ValidLines(lines)
    }

    /** The cart starts empty. */
    constructor()
      ensures lines == [] && Valid()
    {
      lines := [];
    }

    method AddToCart(p: CartProduct)
      requires Valid()
      modifies this
      ensures lines == Added(old(lines), p)
      ensures Valid()
    {
      var found := Find(lines, item => HasId(item, p.id));
      if found.Some? {
        lines := Map(lines, Bump(p.id));
      } else {
        lines := lines + [CartItem(p, 1)];
      }
      AddedValid(old(lines), p);
    }

    method RemoveFromCart(id: int)
      requires Valid()
      modifies this
      ensures lines == Removed(old(lines), id)
      ensures Valid()
    {
      lines := Filter(lines, item => !HasId(item, id));
      RemovedValid(old(lines), id);
    }

    method ClearCart()
      modifies this
      ensures lines == [] && Valid()
    {
      lines := [];
    }
  }

  /** Adding an id already in the cart increments that line's quantity by one
      and changes nothing else. */
  lemma AddedExisting(lines: seq<CartItem>, p: CartProduct, k: int)
    requires ValidLines(lines)
    requires 0 <= k < |lines| && lines[k].product.id == p.id
    ensures |Added(lines, p)| == |lines|
    ensures Added(lines, p)[k] == CartItem(lines[k].product, lines[k].quantity + 1)
    ensures forall j :: 0 <= j < |lines| && j != k ==> Added(lines, p)[j] == lines[j]
  {
  }

  /** Adding a new id appends one unit of the product at the end. */
  lemma AddedNew(lines: seq<CartItem>, p: CartProduct)
    requires forall i :: 0 <= i < |lines| ==> lines[i].product.id != p.id
    ensures Added(lines, p) == lines + [CartItem(p, 1)]
  {
  }

  lemma AddedValid(lines: seq<CartItem>, p: CartProduct)
    requires ValidLines(lines)
    ensures ValidLines(Added(lines, p))
  {
    if !InCart(lines, p.id) {
      var r := lines + [CartItem(p, 1)];
      forall i, j | 0 <= i < j < |r| ensures r[i].product.id != r[j].product.id {
        if j == |lines| {
          assert !HasId(lines[i], p.id);
        }
      }
    }
  }

  /** Removing an id leaves no line with it and keeps every other line, in order. */
  lemma RemovedSpec(lines: seq<CartItem>, id: int)
    ensures forall i :: 0 <= i < |Removed(lines, id)| ==> Removed(lines, id)[i].product.id != id
    ensures forall item: CartItem :: item.product.id != id ==> multiset(Removed(lines, id))[item] == multiset(lines)[item]
    ensures IsSubsequence(Removed(lines, id), lines)
  {
  }

  lemma RemovedValid(lines: seq<CartItem>, id: int)
    requires ValidLines(lines)
    ensures ValidLines(Removed(lines, id))
  {
    var r := Removed(lines, id);
    forall i | 0 <= i < |r| ensures r[i].quantity >= 1 {
      assert r[i] in multiset(r);
      assert r[i] in multiset(lines);
    }
    SubsequenceKeepsDistinctIds(r, lines);
  }

  /** A subsequence of a list of distinct ids has distinct ids. */
  lemma {:induction false} SubsequenceKeepsDistinctIds(a: seq<CartItem>, s: seq<CartItem>)
    requires IsSubsequence(a, s)
    requires forall i, j :: 0 <= i < j < |s| ==> s[i].product.id != s[j].product.id
    ensures forall i, j :: 0 <= i < j < |a| ==> a[i].product.id != a[j].product.id
    ensures forall i :: 0 <= i < |a| ==> exists j :: 0 <= j < |s| && a[i] == s[j]
  {
    if a != [] {
      if a[0] == s[0] {
        SubsequenceKeepsDistinctIds(a[1..], s[1..]);
        forall j | 1 <= j < |a| ensures a[0].product.id != a[j].product.id {
          var m :| 0 <= m < |s[1..]| && a[1..][j - 1] == s[1..][m];
          assert a[j] == s[m + 1];
        }
        forall i | 0 <= i < |a| ensures exists j :: 0 <= j < |s| && a[i] == s[j] {
          if i > 0 {
            var m :| 0 <= m < |s[1..]| && a[1..][i - 1] == s[1..][m];
            assert a[i] == s[m + 1];
          } else {
            assert a[0] == s[0];
          }
        }
      } else {
        SubsequenceKeepsDistinctIds(a, s[1..]);
        forall i | 0 <= i < |a| ensures exists j :: 0 <= j < |s| && a[i] == s[j] {
          var m :| 0 <= m < |s[1..]| && a[i] == s[1..][m];
          assert a[i] == s[m + 1];
        }
      }
    }
  }

  /** Removing an id that is not in the cart changes nothing. */
  lemma RemovedAbsent(lines: seq<CartItem>, id: int)
    requires !InCart(lines, id)
    ensures Removed(lines, id) == lines
  {
    FilterKeepsAll(lines, item => !HasId(item, id));
  }

  /** Adding a new product and then removing its id restores the cart. */
  lemma AddThenRemoveNew(lines: seq<CartItem>, p: CartProduct)
    requires !InCart(lines, p.id)
    ensures Removed(Added(lines, p), p.id) == lines
  {
    var keep := (item: CartItem) => !HasId(item, p.id);
    FilterAppend(lines, [CartItem(p, 1)], keep);
    RemovedAbsent(lines, p.id);
    assert Filter([CartItem(p, 1)], keep) == [];
    assert lines + [] == lines;
  }
}
