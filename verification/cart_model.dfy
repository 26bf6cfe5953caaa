/**
 * The storefront's client-side shopping cart, as values.
 *
 * A cart is an ordered list of lines, each pairing a snapshot of a catalog
 * product with the quantity ordered. The functions here are the meaning of
 * the three cart handlers of the home page (add, remove, adjust); the class
 * in module HomePage runs them against its state, and the lemmas here state
 * what they promise: which lines change, the stock bounds, and that no two
 * lines come to share a product id.
 */
module CartModel {

  datatype Option<T> = None | Some(value: T)

  /** A catalog row as the page receives it. Prices are not used by the cart logic. */
  datatype Product = Product(
    id: int,
    name: string,
    description: string,
    price: real,
    imageUrl: string,
    availableCount: int)

  /** One line of the cart: the product snapshot taken when it was first added, and a quantity. */
  datatype Line = Line(product: Product, quantity: int)

  function Min(a: int, b: int): int { if a <= b then a else b }
  function Max(a: int, b: int): int { if a <= b then b else a }

  /** Some line of `cart` is for product `id`. */
  predicate HasId(cart: seq<Line>, id: int) {
    exists i :: 0 <= i < |cart| && cart[i].product.id == id
  }

  /** No two lines of `cart` are for the same product id. */
  predicate UniqueIds(cart: seq<Line>) {
    forall i, j :: 0 <= i < j < |cart| ==> cart[i].product.id != cart[j].product.id
  }

  /** Every line holds at least one unit and no more than its product's stock. */
  predicate WithinStock(cart: seq<Line>) {
    forall l :: l in cart ==> 1 <= l.quantity <= l.product.availableCount
  }

  /** `k` is the position of the first line for product `id`. */
  predicate IsFirstMatch(cart: seq<Line>, id: int, k: int) {
    && 0 <= k < |cart|
    && cart[k].product.id == id
    && forall j :: 0 <= j < k ==> cart[j].product.id != id
  }

  // ---------------------------------------------------------------------------
  // Finding the line of a product (the `find` call of the add handler)
  // ---------------------------------------------------------------------------

  /** The position of the first line for product `id`, if there is one. */
  function FirstIndex(cart: seq<Line>, id: int): (r: Option<nat>)
    ensures r.None? <==> !HasId(cart, id)
    ensures r.Some? ==> IsFirstMatch(cart, id, r.value)
  {
    if |cart| == 0 then None
    else if cart[0].product.id == id then Some(0)
    else match FirstIndex(cart[1..], id)
      case None => None
      case Some(k) => Some(k + 1)
  }

  /** The first position matching `id` is unique. */
  lemma FirstMatchUnique(cart: seq<Line>, id: int, k: int, m: int)
    requires IsFirstMatch(cart, id, k) && IsFirstMatch(cart, id, m)
    ensures k == m
  {
  }

  /** A left-to-right scan for the first line with product `id`, as `Array.prototype.find` does it. */
  method FindLine(cart: seq<Line>, id: int) returns (r: Option<nat>)
    ensures r == FirstIndex(cart, id)
  {
    var i := 0;
    while i < |cart|
      invariant 0 <= i <= |cart|
      invariant forall j :: 0 <= j < i ==> cart[j].product.id != id
    {
      if cart[i].product.id == id {
        r := Some(i);
        assert IsFirstMatch(cart, id, i);
        FirstMatchUnique(cart, id, i, FirstIndex(cart, id).value);
        return;
      }
      i := i + 1;
    }
    r := None;
  }

  // ---------------------------------------------------------------------------
  // Add (handleAddToCart)
  // ---------------------------------------------------------------------------

  /**
   * The line after one more unit was asked for, with `limit` the stock count
   * carried by the product passed to the handler. As written, the guard is
   * `quantity <= limit`, so a line already at `limit` still goes up by one.
   */
  function Bumped(line: Line, limit: int): Line {
    if line.quantity <= limit then line.(quantity := line.quantity + 1) else line
  }

  /** The cart after `handleAddToCart(p)`, as written. */
  function Added(cart: seq<Line>, p: Product): (r: seq<Line>)
    ensures !HasId(cart, p.id) ==> r == cart + [Line(p, 1)]
    ensures HasId(cart, p.id) ==> |r| == |cart|
  {
    match FirstIndex(cart, p.id)
    case None => cart + [Line(p, 1)]
    case Some(k) => cart[k := Bumped(cart[k], p.availableCount)]
  }

  /**
   * Adding a product that is already in the cart touches only its first
   * line: that line keeps its product snapshot and goes up by one exactly
   * when its quantity is at most the stock count of the product passed in.
   */
  lemma AddExistingTouchesFirstLineOnly(cart: seq<Line>, p: Product, k: int)
    requires IsFirstMatch(cart, p.id, k)
    ensures |Added(cart, p)| == |cart|
    ensures Added(cart, p)[k].product == cart[k].product
    ensures Added(cart, p)[k].quantity
         == if cart[k].quantity <= p.availableCount then cart[k].quantity + 1 else cart[k].quantity
    ensures forall j :: 0 <= j < |cart| && j != k ==> Added(cart, p)[j] == cart[j]
  {
    FirstMatchUnique(cart, p.id, k, FirstIndex(cart, p.id).value);
  }

  /**
   * From a line within the stock count of the product passed in, one add
   * leaves every line for that product at most one unit over that count.
   */
  lemma AddAtMostOneOverStock(cart: seq<Line>, p: Product)
    requires forall l :: l in cart && l.product.id == p.id ==> l.quantity <= p.availableCount
    ensures forall l :: l in Added(cart, p) && l.product.id == p.id ==>
      l.quantity <= Max(p.availableCount + 1, 1)
  {
    var r := Added(cart, p);
    match FirstIndex(cart, p.id)
    case None =>
    case Some(k) =>
      forall l | l in r && l.product.id == p.id
        ensures l.quantity <= Max(p.availableCount + 1, 1)
      {
        var i :| 0 <= i < |r| && r[i] == l;
        if i != k {
          assert r[i] == cart[i];
        }
      }
  }

  /** Adding keeps product ids unique. */
  lemma AddKeepsIdsUnique(cart: seq<Line>, p: Product)
    requires UniqueIds(cart)
    ensures UniqueIds(Added(cart, p))
  {
    var r := Added(cart, p);
    match FirstIndex(cart, p.id)
    case None =>
      forall i, j | 0 <= i < j < |r|
        ensures r[i].product.id != r[j].product.id
      {
        if j == |cart| {
          assert r[i] == cart[i];
        }
      }
    case Some(k) =>
      assert forall i :: 0 <= i < |r| ==> r[i].product.id == cart[i].product.id;
  }

  /** The cart after `k` consecutive adds of the same product. */
  function AddedTimes(cart: seq<Line>, p: Product, k: nat): seq<Line> {
    if k == 0 then cart else Added(AddedTimes(cart, p, k - 1), p)
  }

  /**
   * Repeated adds of a product that was not in the cart: the product gets
   * one line, appended at the end, whose quantity counts the adds up to one
   * past the stock count (and stays at 1 when the stock count is negative).
   * Earlier lines are untouched.
   */
  lemma {:induction false} RepeatedAddQuantity(cart: seq<Line>, p: Product, k: nat)
    requires !HasId(cart, p.id) && k >= 1
    ensures |AddedTimes(cart, p, k)| == |cart| + 1
    ensures AddedTimes(cart, p, k)[..|cart|] == cart
    ensures AddedTimes(cart, p, k)[|cart|] == Line(p, Min(k, Max(p.availableCount + 1, 1)))
  {
    if k > 1 {
      RepeatedAddQuantity(cart, p, k - 1);
      var prev := AddedTimes(cart, p, k - 1);
      assert IsFirstMatch(prev, p.id, |cart|) by {
        forall j | 0 <= j < |cart| ensures prev[j].product.id != p.id {
          assert prev[j] == prev[..|cart|][j];
        }
      }
      AddExistingTouchesFirstLineOnly(prev, p, |cart|);
      assert AddedTimes(cart, p, k)[..|cart|] == prev[..|cart|];
    }
  }

  /**
   * The add guard does not keep its promise: for any stock count n >= 1,
   * n + 1 adds of a product not yet in the cart leave a line of n + 1 units,
   * one more than the stock. The last add passes the guard with the line
   * already at n.
   */
  lemma AddOverflowsStock(cart: seq<Line>, p: Product)
    requires !HasId(cart, p.id) && p.availableCount >= 1
    ensures |AddedTimes(cart, p, p.availableCount + 1)| == |cart| + 1
    ensures AddedTimes(cart, p, p.availableCount + 1)[|cart|] == Line(p, p.availableCount + 1)
  {
    RepeatedAddQuantity(cart, p, p.availableCount + 1);
  }

  /** The add handler with the guard its comment describes: a line never goes past the stock count. */
  function AddedCapped(cart: seq<Line>, p: Product): (r: seq<Line>)
    ensures !HasId(cart, p.id) ==> r == cart + [Line(p, 1)]
    ensures HasId(cart, p.id) ==> |r| == |cart|
  {
    match FirstIndex(cart, p.id)
    case None => cart + [Line(p, 1)]
    case Some(k) =>
      if cart[k].quantity < p.availableCount then cart[k := cart[k].(quantity := cart[k].quantity + 1)]
      else cart
  }

  /**
   * With the corrected guard, adding a product that is in stock keeps every
   * line within its stock, provided the lines for that product carry at
   * least the stock count passed in.
   */
  lemma AddedCappedWithinStock(cart: seq<Line>, p: Product)
    requires WithinStock(cart) && p.availableCount >= 1
    requires forall l :: l in cart && l.product.id == p.id ==> p.availableCount <= l.product.availableCount
    ensures WithinStock(AddedCapped(cart, p))
  {
    var r := AddedCapped(cart, p);
    match FirstIndex(cart, p.id)
    case None =>
    case Some(k) =>
      forall l | l in r ensures 1 <= l.quantity <= l.product.availableCount {
        var i :| 0 <= i < |r| && r[i] == l;
        assert cart[i] in cart;
      }
  }

  // ---------------------------------------------------------------------------
  // Remove (handleRemoveFromCart)
  // ---------------------------------------------------------------------------

  /** The cart after `handleRemoveFromCart(id)`: every line for `id` filtered out. */
  function Removed(cart: seq<Line>, id: int): (r: seq<Line>)
    ensures !HasId(r, id)
    ensures forall l :: l in r <==> l in cart && l.product.id != id
    ensures |r| <= |cart|
  {
    if |cart| == 0 then []
    else if cart[0].product.id == id then Removed(cart[1..], id)
    else [cart[0]] + Removed(cart[1..], id)
  }

  /** Removing an id that is not in the cart leaves the cart as it was. */
  lemma {:induction false} RemoveAbsentIsIdentity(cart: seq<Line>, id: int)
    requires !HasId(cart, id)
    ensures Removed(cart, id) == cart
  {
    if |cart| > 0 {
      assert cart[0].product.id != id;
      assert !HasId(cart[1..], id) by {
        forall i | 0 <= i < |cart[1..]| ensures cart[1..][i].product.id != id {
          assert cart[1..][i] == cart[i + 1];
        }
      }
      RemoveAbsentIsIdentity(cart[1..], id);
      assert cart == [cart[0]] + cart[1..];
    }
  }

  /** Removing twice is removing once. */
  lemma RemoveIsIdempotent(cart: seq<Line>, id: int)
    ensures Removed(Removed(cart, id), id) == Removed(cart, id)
  {
    RemoveAbsentIsIdentity(Removed(cart, id), id);
  }

  /** Removal keeps the remaining lines in their order: it distributes over concatenation. */
  lemma {:induction false} RemoveDistributes(a: seq<Line>, b: seq<Line>, id: int)
    ensures Removed(a + b, id) == Removed(a, id) + Removed(b, id)
  {
    if |a| > 0 {
      assert (a + b)[0] == a[0];
      assert (a + b)[1..] == a[1..] + b;
      RemoveDistributes(a[1..], b, id);
      if a[0].product.id != id {
        calc {
          Removed(a + b, id);
          [a[0]] + Removed(a[1..] + b, id);
          [a[0]] + (Removed(a[1..], id) + Removed(b, id));
          ([a[0]] + Removed(a[1..], id)) + Removed(b, id);
        }
      }
    } else {
      assert a + b == b;
    }
  }

  /** Removal keeps product ids unique. */
  lemma {:induction false} RemoveKeepsIdsUnique(cart: seq<Line>, id: int)
    requires UniqueIds(cart)
    ensures UniqueIds(Removed(cart, id))
  {
    if |cart| > 0 {
      var tail := cart[1..];
      assert UniqueIds(tail) by {
        forall i, j | 0 <= i < j < |tail| ensures tail[i].product.id != tail[j].product.id {
          assert tail[i] == cart[i + 1] && tail[j] == cart[j + 1];
        }
      }
      RemoveKeepsIdsUnique(tail, id);
      if cart[0].product.id != id {
        var rest := Removed(tail, id);
        var r := [cart[0]] + rest;
        forall i, j | 0 <= i < j < |r| ensures r[i].product.id != r[j].product.id {
          if i == 0 {
            assert r[j] == rest[j - 1] && rest[j - 1] in tail;
            var m :| 0 <= m < |tail| && tail[m] == rest[j - 1];
            assert cart[m + 1] == tail[m];
          }
        }
      }
    }
  }

  /** Removal keeps every remaining line within its stock. */
  lemma RemoveKeepsWithinStock(cart: seq<Line>, id: int)
    requires WithinStock(cart)
    ensures WithinStock(Removed(cart, id))
  {
  }

  // ---------------------------------------------------------------------------
  // Adjust (handleAdjustQuantity)
  // ---------------------------------------------------------------------------

  /**
   * One line after `handleAdjustQuantity(id, delta)`: a line for `id` takes
   * the new quantity only when it stays between 1 and the line's own stock
   * count; any other delta is rejected, not clamped.
   */
  function AdjustedLine(line: Line, id: int, delta: int): Line {
    var q := line.quantity + delta;
    if line.product.id == id && 1 <= q <= line.product.availableCount then line.(quantity := q) else line
  }

  /** The cart after `handleAdjustQuantity(id, delta)`. */
  function Adjusted(cart: seq<Line>, id: int, delta: int): (r: seq<Line>)
    ensures |r| == |cart|
    ensures forall i :: 0 <= i < |r| ==> r[i].product == cart[i].product
    ensures forall i :: 0 <= i < |r| && cart[i].product.id != id ==> r[i] == cart[i]
  {
    seq(|cart|, i requires 0 <= i < |cart| => AdjustedLine(cart[i], id, delta))
  }

  /**
   * The new quantity of a line for `id` is its old quantity plus `delta`
   * when that sum lies in [1, stock], and the old quantity otherwise: an
   * out-of-range delta is rejected, not clamped.
   */
  lemma AdjustedQuantity(cart: seq<Line>, id: int, delta: int, i: int)
    requires 0 <= i < |cart| && cart[i].product.id == id
    ensures Adjusted(cart, id, delta)[i].quantity
         == if 1 <= cart[i].quantity + delta <= cart[i].product.availableCount
            then cart[i].quantity + delta
            else cart[i].quantity
  {
  }

  /** Adjusting by any delta keeps every line within its stock. */
  lemma AdjustKeepsWithinStock(cart: seq<Line>, id: int, delta: int)
    requires WithinStock(cart)
    ensures WithinStock(Adjusted(cart, id, delta))
  {
    var r := Adjusted(cart, id, delta);
    forall l | l in r ensures 1 <= l.quantity <= l.product.availableCount {
      var i :| 0 <= i < |r| && r[i] == l;
      assert cart[i] in cart;
    }
  }

  /** Adjusting keeps product ids unique. */
  lemma AdjustKeepsIdsUnique(cart: seq<Line>, id: int, delta: int)
    requires UniqueIds(cart)
    ensures UniqueIds(Adjusted(cart, id, delta))
  {
  }

  /** Adjusting an id that is not in the cart leaves the cart as it was. */
  lemma AdjustAbsentIsIdentity(cart: seq<Line>, id: int, delta: int)
    requires !HasId(cart, id)
    ensures Adjusted(cart, id, delta) == cart
  {
  }

  /**
   * An adjustment that was accepted on every line for `id` is undone by the
   * opposite adjustment, when the cart started within stock.
   */
  lemma AdjustUndone(cart: seq<Line>, id: int, delta: int)
    requires WithinStock(cart)
    requires forall i :: 0 <= i < |cart| && cart[i].product.id == id ==>
      1 <= cart[i].quantity + delta <= cart[i].product.availableCount
    ensures Adjusted(Adjusted(cart, id, delta), id, -delta) == cart
  {
    var r := Adjusted(Adjusted(cart, id, delta), id, -delta);
    forall i | 0 <= i < |cart| ensures r[i] == cart[i] {
      assert cart[i] in cart;
    }
  }
}
