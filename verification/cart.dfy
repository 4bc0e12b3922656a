/** The client-side shopping cart of src/App.jsx: an ordered sequence of lines,
    merged by product id, held in React state. */
module Cart {
  import opened Seqs

  /** A catalogue product as the cart sees it; `price` is in centavos. */
  datatype Product = Product(id: string, name: string, price: int)

  /** One cart line. `price` is in centavos. A `qty` of 0 stands for a quantity that is
      missing on the wire (both are falsy for `qty || 1`); a `productId` of "" stands for
      a missing product id. */
  datatype CartItem = CartItem(id: string, productId: string, name: string, price: int, qty: int)

  /** Sum of `f` over the lines (the order of addition is immaterial on integers). */
  function SumBy(cart: seq<CartItem>, f: CartItem -> int): int
    decreases |cart|
  {
    if |cart| == 0 then 0 else f(cart[0]) + SumBy(cart[1..], f)
  }

  function ItemQty(item: CartItem): int {
    item.qty
  }

  function ItemDisplayTotal(item: CartItem): int {
    item.price * item.qty
  }

  /** `cartCount`: the badge number, the sum of the quantities. */
  function CartCount(cart: seq<CartItem>): int {
    SumBy(cart, ItemQty)
  }

  /** `cartSubTotal`: the subtotal the cart drawer shows, price times the stored qty. */
  function DisplaySubtotal(cart: seq<CartItem>): int {
    SumBy(cart, ItemDisplayTotal)
  }

  predicate HasId(cart: seq<CartItem>, id: string) {
    exists i :: 0 <= i < |cart| && cart[i].id == id
  }

  /** Number of lines carrying `id`. */
  function CountWithId(cart: seq<CartItem>, id: string): nat
    decreases |cart|
  {
    if |cart| == 0 then 0
    else (if cart[0].id == id then 1 else 0) + CountWithId(cart[1..], id)
  }

  /** Sum of the quantities of the lines carrying `id`. */
  function QtyWithId(cart: seq<CartItem>, id: string): int
    decreases |cart|
  {
    if |cart| == 0 then 0
    else (if cart[0].id == id then cart[0].qty else 0) + QtyWithId(cart[1..], id)
  }

  /** No two lines share an id. */
  predicate UniqueIds(cart: seq<CartItem>) {
    forall i, j :: 0 <= i < j < |cart| ==> cart[i].id != cart[j].id
  }

  /** Every stored quantity is at least one. */
  predicate PositiveQtys(cart: seq<CartItem>) {
    forall i :: 0 <= i < |cart| ==> cart[i].qty >= 1
  }

  /** The shape every cart the UI builds keeps. */
  predicate WellFormed(cart: seq<CartItem>) {
    UniqueIds(cart) && PositiveQtys(cart)
  }

  /** The line `addToCart` appends for a product not yet in the cart. */
  function NewLine(p: Product, qty: int): CartItem {
    CartItem(p.id, p.id, p.name, p.price, qty)
  }

  /** The `prev.map(...)` branch of `addToCart`: lines with `id` get `qty` more. */
  function IncrementQty(cart: seq<CartItem>, id: string, qty: int): (r: seq<CartItem>)
    ensures |r| == |cart|
    ensures forall i :: 0 <= i < |cart| ==> r[i].id == cart[i].id
    ensures forall i :: 0 <= i < |cart| && cart[i].id == id ==> r[i] == cart[i].(qty := cart[i].qty + qty)
    ensures forall i :: 0 <= i < |cart| && cart[i].id != id ==> r[i] == cart[i]
    decreases |cart|
  {
    if |cart| == 0 then []
    else
      var head := if cart[0].id == id then cart[0].(qty := cart[0].qty + qty) else cart[0];
      [head] + IncrementQty(cart[1..], id, qty)
  }

  /** `addToCart(product, qty)`: merge into the line with the product's id, or append. */
  function AddToCart(cart: seq<CartItem>, p: Product, qty: int): (r: seq<CartItem>)
    ensures HasId(r, p.id)
    ensures HasId(cart, p.id) ==> |r| == |cart|
    ensures HasId(cart, p.id) ==>
      forall i :: 0 <= i < |cart| ==>
        r[i] == if cart[i].id == p.id then cart[i].(qty := cart[i].qty + qty) else cart[i]
    ensures !HasId(cart, p.id) ==> |r| == |cart| + 1 && r[..|cart|] == cart
    ensures !HasId(cart, p.id) ==> r[|cart|] == CartItem(p.id, p.id, p.name, p.price, qty)
  {
    if HasId(cart, p.id) then IncrementQty(cart, p.id, qty)
    else
      var r := cart + [NewLine(p, qty)];
      assert r[|cart|].id == p.id;
      r
  }

  /** `removeFromCart(itemId)`: `prev.filter(item => item.id !== itemId)`. */
  function RemoveFromCart(cart: seq<CartItem>, id: string): (r: seq<CartItem>)
    ensures forall i :: 0 <= i < |r| ==> r[i].id != id
    ensures IsSubsequence(r, cart)
    ensures |r| == |cart| - CountWithId(cart, id)
    ensures CartCount(r) == CartCount(cart) - QtyWithId(cart, id)
    decreases |cart|
  {
    if |cart| == 0 then []
    else
      var rest := RemoveFromCart(cart[1..], id);
      if cart[0].id == id then
        assert |rest| == 0 || rest[0] != cart[0];
        rest
      else
        var r := [cart[0]] + rest;
        assert r[1..] == rest;
        r
  }

  /** The `prev.map(...)` of `updateQty`: lines with `id` get quantity `qty`. */
  function SetQty(cart: seq<CartItem>, id: string, qty: int): (r: seq<CartItem>)
    ensures |r| == |cart|
    ensures forall i :: 0 <= i < |cart| ==> r[i].id == cart[i].id
    ensures forall i :: 0 <= i < |cart| && cart[i].id == id ==> r[i] == cart[i].(qty := qty)
    ensures forall i :: 0 <= i < |cart| && cart[i].id != id ==> r[i] == cart[i]
    decreases |cart|
  {
    if |cart| == 0 then []
    else
      var head := if cart[0].id == id then cart[0].(qty := qty) else cart[0];
      [head] + SetQty(cart[1..], id, qty)
  }

  /** `updateQty(itemId, newQty)`: ignored below one, otherwise sets the quantity. */
  function UpdateQty(cart: seq<CartItem>, id: string, newQty: int): (r: seq<CartItem>)
    ensures newQty < 1 ==> r == cart
    ensures newQty >= 1 ==>
      |r| == |cart| &&
      forall i :: 0 <= i < |cart| ==>
        r[i] == if cart[i].id == id then cart[i].(qty := newQty) else cart[i]
  {
    if newQty < 1 then cart else SetQty(cart, id, newQty)
  }

  /** The decrement button of the cart drawer: a line at quantity one is removed,
      any other line loses one unit. */
  function Decrement(cart: seq<CartItem>, item: CartItem): seq<CartItem> {
    if item.qty == 1 then RemoveFromCart(cart, item.id) else UpdateQty(cart, item.id, item.qty - 1)
  }

  // ---------------------------------------------------------------------------
  // Counts under the cart operations
  // ---------------------------------------------------------------------------

  /** Under unique ids, a line with `id` is the only one: exactly one line counts. */
  lemma {:induction false} UniqueCountOne(cart: seq<CartItem>, k: int)
    requires UniqueIds(cart) && 0 <= k < |cart|
    ensures CountWithId(cart, cart[k].id) == 1
    ensures QtyWithId(cart, cart[k].id) == cart[k].qty
    decreases |cart|
  {
    var id := cart[k].id;
    if k == 0 {
      NoneWithId(cart[1..], id);
    } else {
      assert cart[0].id != id;
      assert cart[1..][k - 1] == cart[k];
      UniqueCountOne(cart[1..], k - 1);
    }
  }

  /** No line carries `id` when the head of a unique cart carries it. */
  lemma {:induction false} NoneWithId(cart: seq<CartItem>, id: string)
    requires forall i :: 0 <= i < |cart| ==> cart[i].id != id
    ensures CountWithId(cart, id) == 0
    ensures QtyWithId(cart, id) == 0
    decreases |cart|
  {
    if |cart| > 0 {
      NoneWithId(cart[1..], id);
    }
  }

  /** Incrementing the lines with `id` raises the count by `qty` per such line. */
  lemma {:induction false} IncrementCount(cart: seq<CartItem>, id: string, qty: int)
    ensures CartCount(IncrementQty(cart, id, qty)) == CartCount(cart) + qty * CountWithId(cart, id)
    decreases |cart|
  {
    if |cart| > 0 {
      var r := IncrementQty(cart, id, qty);
      assert r[1..] == IncrementQty(cart[1..], id, qty);
      IncrementCount(cart[1..], id, qty);
    }
  }

  /** Setting the lines with `id` to `qty` replaces their quantities in the count. */
  lemma {:induction false} SetQtyCount(cart: seq<CartItem>, id: string, qty: int)
    ensures CartCount(SetQty(cart, id, qty)) == CartCount(cart) - QtyWithId(cart, id) + qty * CountWithId(cart, id)
    decreases |cart|
  {
    if |cart| > 0 {
      var r := SetQty(cart, id, qty);
      assert r[1..] == SetQty(cart[1..], id, qty);
      SetQtyCount(cart[1..], id, qty);
    }
  }

  /** Adding `qty` units of a product to a well-formed cart raises the badge count by `qty`. */
  lemma AddToCartCount(cart: seq<CartItem>, p: Product, qty: int)
    requires UniqueIds(cart)
    ensures CartCount(AddToCart(cart, p, qty)) == CartCount(cart) + qty
  {
    if HasId(cart, p.id) {
      var k :| 0 <= k < |cart| && cart[k].id == p.id;
      UniqueCountOne(cart, k);
      IncrementCount(cart, p.id, qty);
    } else {
      SumByAppend(cart, [NewLine(p, qty)], ItemQty);
    }
  }

  /** Removing a product from a well-formed cart lowers the count by that line's quantity. */
  lemma RemoveFromCartCount(cart: seq<CartItem>, k: int)
    requires UniqueIds(cart) && 0 <= k < |cart|
    ensures CartCount(RemoveFromCart(cart, cart[k].id)) == CartCount(cart) - cart[k].qty
    ensures |RemoveFromCart(cart, cart[k].id)| == |cart| - 1
  {
    UniqueCountOne(cart, k);
  }

  /** Setting a present line to `newQty >= 1` changes the count by the difference. */
  lemma UpdateQtyCount(cart: seq<CartItem>, k: int, newQty: int)
    requires UniqueIds(cart) && 0 <= k < |cart| && newQty >= 1
    ensures CartCount(UpdateQty(cart, cart[k].id, newQty)) == CartCount(cart) - cart[k].qty + newQty
  {
    UniqueCountOne(cart, k);
    SetQtyCount(cart, cart[k].id, newQty);
  }

  lemma {:induction false} SumByAppend(a: seq<CartItem>, b: seq<CartItem>, f: CartItem -> int)
    ensures SumBy(a + b, f) == SumBy(a, f) + SumBy(b, f)
    decreases |a|
  {
    if |a| == 0 {
      assert a + b == b;
    } else {
      assert (a + b)[1..] == a[1..] + b;
      SumByAppend(a[1..], b, f);
    }
  }

  // ---------------------------------------------------------------------------
  // The well-formedness every UI-built cart keeps
  // ---------------------------------------------------------------------------

  /** A filtered cart keeps only lines of the original. */
  lemma {:induction false} RemoveKeepsMembers(cart: seq<CartItem>, id: string)
    ensures forall x :: x in RemoveFromCart(cart, id) ==> x in cart
    decreases |cart|
  {
    if |cart| > 0 {
      RemoveKeepsMembers(cart[1..], id);
      forall x | x in RemoveFromCart(cart[1..], id) ensures x in cart {
        assert x in cart[1..];
      }
    }
  }

  /** Filtering a well-formed cart leaves it well-formed. */
  lemma {:induction false} RemovePreservesWellFormed(cart: seq<CartItem>, id: string)
    requires WellFormed(cart)
    ensures WellFormed(RemoveFromCart(cart, id))
    decreases |cart|
  {
    if |cart| > 0 {
      var tail := cart[1..];
      assert WellFormed(tail) by {
        forall i, j | 0 <= i < j < |tail| ensures tail[i].id != tail[j].id {
          assert tail[i] == cart[i + 1] && tail[j] == cart[j + 1];
        }
        forall i | 0 <= i < |tail| ensures tail[i].qty >= 1 {
          assert tail[i] == cart[i + 1];
        }
      }
      RemovePreservesWellFormed(tail, id);
      RemoveKeepsMembers(tail, id);
      var rest := RemoveFromCart(tail, id);
      if cart[0].id != id {
        var r := RemoveFromCart(cart, id);
        assert r == [cart[0]] + rest;
        forall j | 0 < j < |r| ensures r[0].id != r[j].id {
          assert r[j] == rest[j - 1];
          assert rest[j - 1] in tail;
          var m :| 0 <= m < |tail| && tail[m] == rest[j - 1];
          assert tail[m] == cart[m + 1];
        }
        forall i, j | 0 <= i < j < |r| ensures r[i].id != r[j].id {
          if i > 0 {
            assert r[i] == rest[i - 1] && r[j] == rest[j - 1];
          }
        }
        forall i | 0 <= i < |r| ensures r[i].qty >= 1 {
          if i > 0 {
            assert r[i] == rest[i - 1];
          }
        }
      }
    }
  }

  /** `addToCart` with a quantity of at least one keeps the cart well-formed. */
  lemma AddPreservesWellFormed(cart: seq<CartItem>, p: Product, qty: int)
    requires WellFormed(cart) && qty >= 1
    ensures WellFormed(AddToCart(cart, p, qty))
  {
    var r := AddToCart(cart, p, qty);
    if !HasId(cart, p.id) {
      forall i, j | 0 <= i < j < |r| ensures r[i].id != r[j].id {
        if j < |cart| {
          assert r[i] == cart[i] && r[j] == cart[j];
        } else {
          assert r[i] == cart[i];
        }
      }
      forall i | 0 <= i < |r| ensures r[i].qty >= 1 {
        if i < |cart| {
          assert r[i] == cart[i];
        }
      }
    }
  }

  /** `updateQty` keeps the cart well-formed: the guard rejects quantities below one. */
  lemma UpdatePreservesWellFormed(cart: seq<CartItem>, id: string, newQty: int)
    requires WellFormed(cart)
    ensures WellFormed(UpdateQty(cart, id, newQty))
  {
  }

  /** The drawer's minus button takes exactly one unit off the badge count and keeps the
      cart well-formed: the last unit removes the line. */
  lemma DecrementCount(cart: seq<CartItem>, k: int)
    requires WellFormed(cart) && 0 <= k < |cart|
    ensures CartCount(Decrement(cart, cart[k])) == CartCount(cart) - 1
    ensures WellFormed(Decrement(cart, cart[k]))
    ensures cart[k].qty == 1 <==> |Decrement(cart, cart[k])| == |cart| - 1
  {
    if cart[k].qty == 1 {
      RemoveFromCartCount(cart, k);
      RemovePreservesWellFormed(cart, cart[k].id);
    } else {
      UpdateQtyCount(cart, k, cart[k].qty - 1);
      UpdatePreservesWellFormed(cart, cart[k].id, cart[k].qty - 1);
    }
  }
}
