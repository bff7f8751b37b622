/**
 * The cart merger: cart lines keyed by product id. Adding accumulates quantity on
 * the existing line or appends a new one; setting a quantity replaces it, and a
 * quantity of zero or less removes every line for that id.
 */
module Cart {
  import opened Optional
  import opened Seqs
  import opened Entities

  /** Some line of the cart is for product `id`. */
  predicate HasLine(cart: seq<CartItem>, id: string) {
    exists i :: 0 <= i < |cart| && cart[i].product.id == id
  }

  /** At most one line per product id. */
  ghost predicate UniqueLines(cart: seq<CartItem>) {
    forall i, j :: 0 <= i < j < |cart| ==> cart[i].product.id != cart[j].product.id
  }

  /** Total quantity the cart holds for product `id`, summed over its lines. */
  function QuantityOf(cart: seq<CartItem>, id: string): int
    decreases |cart|
  {
    if cart == [] then 0
    else (if cart[0].product.id == id then cart[0].quantity else 0) + QuantityOf(cart[1..], id)
  }

  /** `cart.find(item => item.product.id === id)`: the first line for `id`, if any. */
  function FindLine(cart: seq<CartItem>, id: string): (r: Option<CartItem>)
    ensures r.Some? <==> HasLine(cart, id)
    ensures r.Some? ==> r.value.product.id == id && r.value in cart
    ensures r.Some? ==> r.value == cart[FirstLine(cart, id)]
    decreases |cart|
  {
    if cart == [] then None
    else if cart[0].product.id == id then Some(cart[0])
    else
      var r := FindLine(cart[1..], id);
      assert HasLine(cart[1..], id) ==> HasLine(cart, id) by {
        if HasLine(cart[1..], id) {
          var k :| 0 <= k < |cart[1..]| && cart[1..][k].product.id == id;
          assert cart[k + 1].product.id == id;
        }
      }
      assert HasLine(cart, id) ==> HasLine(cart[1..], id) by {
        if HasLine(cart, id) {
          var k :| 0 <= k < |cart| && cart[k].product.id == id;
          assert cart[1..][k - 1].product.id == id;
        }
      }
      r
  }

  /** The index of the first line for `id`. */
  function FirstLine(cart: seq<CartItem>, id: string): (k: nat)
    requires HasLine(cart, id)
    ensures k < |cart| && cart[k].product.id == id
    ensures forall j :: 0 <= j < k ==> cart[j].product.id != id
    decreases |cart|
  {
    if cart[0].product.id == id then 0
    else
      assert HasLine(cart[1..], id) by {
        var k :| 0 <= k < |cart| && cart[k].product.id == id;
        assert cart[1..][k - 1].product.id == id;
      }
      1 + FirstLine(cart[1..], id)
  }

  /** The line updater of `addToCart`: lines for `id` get `q` more. */
  function Bump(id: string, q: int): CartItem -> CartItem {
    (item: CartItem) => if item.product.id == id then item.(quantity := item.quantity + q) else item
  }

  /** The line updater of `updateCartItemQuantity`: lines for `id` get quantity `q`. */
  function SetQuantity(id: string, q: int): CartItem -> CartItem {
    (item: CartItem) => if item.product.id == id then item.(quantity := q) else item
  }

  /** Keeps the lines that are not for `id`. */
  function LineNotFor(id: string): CartItem -> bool {
    (item: CartItem) => item.product.id != id
  }

  /**
   * `addToCart(product, quantity)`: when a line for the product exists, every line for
   * its id gains `quantity` and keeps its stored product record; otherwise a new line
   * is appended at the end.
   */
  function AddToCart(cart: seq<CartItem>, product: Product, quantity: int): (r: seq<CartItem>)
    ensures HasLine(r, product.id)
    ensures HasLine(cart, product.id) ==> |r| == |cart|
    ensures HasLine(cart, product.id) ==>
      forall i :: 0 <= i < |cart| ==>
        r[i] == (if cart[i].product.id == product.id then cart[i].(quantity := cart[i].quantity + quantity) else cart[i])
    ensures !HasLine(cart, product.id) ==> r == cart + [CartItem(product, quantity)]
    ensures UniqueLines(cart) ==> UniqueLines(r)
  {
    if FindLine(cart, product.id).Some? then
      var r := Map(cart, Bump(product.id, quantity));
      assert HasLine(r, product.id) by {
        var k := FirstLine(cart, product.id);
        assert r[k].product.id == product.id;
      }
      r
    else
      var r := cart + [CartItem(product, quantity)];
      assert r[|cart|].product.id == product.id;
      r
  }

  /** `removeFromCart(id)`: drops every line for `id`, keeping the others in order. */
  function RemoveFromCart(cart: seq<CartItem>, id: string): (r: seq<CartItem>)
    ensures !HasLine(r, id)
    ensures Subseq(r, cart)
    ensures forall i :: 0 <= i < |cart| && cart[i].product.id != id ==> cart[i] in r
    ensures !HasLine(cart, id) ==> r == cart
    ensures UniqueLines(cart) ==> UniqueLines(r)
  {
    var r := Filter(cart, LineNotFor(id));
    FilterIsSubseq(cart, LineNotFor(id));
    assert !HasLine(cart, id) ==> r == cart by {
      if !HasLine(cart, id) {
        FilterKeepsAll(cart, LineNotFor(id));
      }
    }
    assert UniqueLines(cart) ==> UniqueLines(r) by {
      if UniqueLines(cart) {
        SubseqUnique(r, cart);
      }
    }
    r
  }

  /** Dropping lines keeps the lines unique. */
  lemma {:induction false} SubseqUnique(a: seq<CartItem>, b: seq<CartItem>)
    requires Subseq(a, b) && UniqueLines(b)
    ensures UniqueLines(a)
    decreases |b|
  {
    if a != [] {
      assert UniqueLines(b[1..]) by {
        forall i, j | 0 <= i < j < |b[1..]|
          ensures b[1..][i].product.id != b[1..][j].product.id
        {
          assert b[1..][i] == b[i + 1] && b[1..][j] == b[j + 1];
        }
      }
      if a[0] == b[0] && Subseq(a[1..], b[1..]) {
        SubseqUnique(a[1..], b[1..]);
        SubseqMembers(a[1..], b[1..]);
        forall i, j | 0 <= i < j < |a| ensures a[i].product.id != a[j].product.id {
          if i == 0 {
            assert a[j] == a[1..][j - 1];
            var k :| 0 <= k < |b[1..]| && b[1..][k] == a[j];
            assert b[k + 1] == a[j];
          } else {
            assert a[i] == a[1..][i - 1] && a[j] == a[1..][j - 1];
          }
        }
      } else {
        SubseqUnique(a, b[1..]);
      }
    }
  }

  /**
   * `updateCartItemQuantity(id, quantity)`: a quantity of zero or less removes the
   * product's lines; any other quantity replaces the quantity of the lines for `id`.
   */
  function UpdateCartItemQuantity(cart: seq<CartItem>, id: string, quantity: int): (r: seq<CartItem>)
    ensures quantity <= 0 ==> r == RemoveFromCart(cart, id)
    ensures quantity > 0 ==> |r| == |cart|
    ensures quantity > 0 ==>
      forall i :: 0 <= i < |cart| ==>
        r[i] == (if cart[i].product.id == id then cart[i].(quantity := quantity) else cart[i])
    ensures UniqueLines(cart) ==> UniqueLines(r)
  {
    if quantity <= 0 then RemoveFromCart(cart, id)
    else Map(cart, SetQuantity(id, quantity))
  }

  /** Appending a line adds its quantity to its id's total. */
  lemma {:induction false} QuantityOfAppend(cart: seq<CartItem>, item: CartItem, id: string)
    ensures QuantityOf(cart + [item], id) == QuantityOf(cart, id) + (if item.product.id == id then item.quantity else 0)
    decreases |cart|
  {
    if cart == [] {
      assert cart + [item] == [item];
    } else {
      assert (cart + [item])[1..] == cart[1..] + [item];
      QuantityOfAppend(cart[1..], item, id);
    }
  }

  /** A cart with no line for `id` holds none of it. */
  lemma {:induction false} QuantityOfAbsent(cart: seq<CartItem>, id: string)
    requires !HasLine(cart, id)
    ensures QuantityOf(cart, id) == 0
    decreases |cart|
  {
    if cart != [] {
      assert !HasLine(cart[1..], id) by {
        forall k | 0 <= k < |cart[1..]| ensures cart[1..][k].product.id != id {
          assert cart[1..][k] == cart[k + 1];
        }
      }
      QuantityOfAbsent(cart[1..], id);
    }
  }

  /** In a cart with unique lines, the total for `id` is the quantity of its one line. */
  lemma {:induction false} QuantityOfLine(cart: seq<CartItem>, k: nat)
    requires UniqueLines(cart) && k < |cart|
    ensures QuantityOf(cart, cart[k].product.id) == cart[k].quantity
    decreases |cart|
  {
    var id := cart[k].product.id;
    assert UniqueLines(cart[1..]) by {
      forall i, j | 0 <= i < j < |cart[1..]|
        ensures cart[1..][i].product.id != cart[1..][j].product.id
      {
        assert cart[1..][i] == cart[i + 1] && cart[1..][j] == cart[j + 1];
      }
    }
    if k == 0 {
      assert !HasLine(cart[1..], id) by {
        forall m | 0 <= m < |cart[1..]| ensures cart[1..][m].product.id != id {
          assert cart[1..][m] == cart[m + 1];
        }
      }
      QuantityOfAbsent(cart[1..], id);
    } else {
      assert cart[1..][k - 1] == cart[k];
      QuantityOfLine(cart[1..], k - 1);
    }
  }

  /**
   * With unique lines, `addToCart` raises the product's total quantity by exactly the
   * quantity added and leaves every other product's total alone.
   */
  lemma AddToCartAccumulates(cart: seq<CartItem>, product: Product, quantity: int, id: string)
    requires UniqueLines(cart)
    ensures QuantityOf(AddToCart(cart, product, quantity), id)
         == QuantityOf(cart, id) + (if id == product.id then quantity else 0)
  {
    var r := AddToCart(cart, product, quantity);
    if HasLine(cart, product.id) {
      var k := FirstLine(cart, product.id);
      QuantityOfMap(cart, product.id, quantity, id);
    } else {
      QuantityOfAppend(cart, CartItem(product, quantity), id);
    }
  }

  /** Bumping the lines of `pid` in a cart with unique lines moves only `pid`'s total. */
  lemma {:induction false} QuantityOfMap(cart: seq<CartItem>, pid: string, q: int, id: string)
    requires UniqueLines(cart) && HasLine(cart, pid)
    ensures QuantityOf(Map(cart, Bump(pid, q)), id) == QuantityOf(cart, id) + (if id == pid then q else 0)
    decreases |cart|
  {
    var m := Map(cart, Bump(pid, q));
    assert m[1..] == Map(cart[1..], Bump(pid, q));
    assert UniqueLines(cart[1..]) by {
      forall i, j | 0 <= i < j < |cart[1..]|
        ensures cart[1..][i].product.id != cart[1..][j].product.id
      {
        assert cart[1..][i] == cart[i + 1] && cart[1..][j] == cart[j + 1];
      }
    }
    if cart[0].product.id == pid {
      assert forall x :: x in cart[1..] ==> Bump(pid, q)(x) == x by {
        forall x | x in cart[1..] ensures Bump(pid, q)(x) == x {
          var j :| 0 <= j < |cart[1..]| && cart[1..][j] == x;
          assert cart[j + 1] == x;
        }
      }
      MapKeepsAll(cart[1..], Bump(pid, q));
    } else {
      assert HasLine(cart[1..], pid) by {
        var k :| 0 <= k < |cart| && cart[k].product.id == pid;
        assert cart[1..][k - 1].product.id == pid;
      }
      QuantityOfMap(cart[1..], pid, q, id);
    }
  }

  /** Adding a product twice to a cart without it gives one line with the summed quantity. */
  lemma AddTwiceMerges(cart: seq<CartItem>, product: Product, q1: int, q2: int)
    requires !HasLine(cart, product.id)
    ensures AddToCart(AddToCart(cart, product, q1), product, q2) == cart + [CartItem(product, q1 + q2)]
  {
    var c1 := AddToCart(cart, product, q1);
    var c2 := AddToCart(c1, product, q2);
    assert forall i :: 0 <= i < |cart| ==> cart[i].product.id != product.id;
    assert c2[|cart|] == CartItem(product, q1 + q2);
  }

  /** Removing twice is removing once. */
  lemma RemoveIdempotent(cart: seq<CartItem>, id: string)
    ensures RemoveFromCart(RemoveFromCart(cart, id), id) == RemoveFromCart(cart, id)
  {
    FilterIdempotent(cart, LineNotFor(id));
  }

  /** Setting the same quantity twice is setting it once, for every quantity. */
  lemma UpdateIdempotent(cart: seq<CartItem>, id: string, quantity: int)
    ensures UpdateCartItemQuantity(UpdateCartItemQuantity(cart, id, quantity), id, quantity)
         == UpdateCartItemQuantity(cart, id, quantity)
  {
    if quantity <= 0 {
      RemoveIdempotent(cart, id);
    }
  }

  /**
   * After `updateCartItemQuantity` on a cart with unique lines the product's total is
   * the requested quantity if the product was in the cart, and zero when the quantity
   * is not positive.
   */
  lemma UpdateSetsQuantity(cart: seq<CartItem>, id: string, quantity: int)
    requires UniqueLines(cart)
    ensures quantity <= 0 ==> !HasLine(UpdateCartItemQuantity(cart, id, quantity), id)
    ensures quantity <= 0 ==> QuantityOf(UpdateCartItemQuantity(cart, id, quantity), id) == 0
    ensures quantity > 0 && HasLine(cart, id) ==> QuantityOf(UpdateCartItemQuantity(cart, id, quantity), id) == quantity
    ensures quantity > 0 && !HasLine(cart, id) ==> UpdateCartItemQuantity(cart, id, quantity) == cart
  {
    var r := UpdateCartItemQuantity(cart, id, quantity);
    if quantity <= 0 {
      QuantityOfAbsent(r, id);
    } else if HasLine(cart, id) {
      var k := FirstLine(cart, id);
      assert r[k].product.id == id && r[k].quantity == quantity;
      QuantityOfLine(r, k);
    }
  }

  /** The cart walk-through: add 2, add 3, set 1, set 0. */
  lemma CartScenario(p: Product)
    ensures AddToCart([], p, 2) == [CartItem(p, 2)]
    ensures AddToCart([CartItem(p, 2)], p, 3) == [CartItem(p, 5)]
    ensures UpdateCartItemQuantity([CartItem(p, 5)], p.id, 1) == [CartItem(p, 1)]
    ensures UpdateCartItemQuantity([CartItem(p, 1)], p.id, 0) == []
  {
    assert HasLine([CartItem(p, 2)], p.id) by {
      assert [CartItem(p, 2)][0].product.id == p.id;
    }
    assert !HasLine(RemoveFromCart([CartItem(p, 1)], p.id), p.id);
  }
}
