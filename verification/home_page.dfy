/**
 * The cart state of the storefront's home page component.
 *
 * `cart` is the component's cart state and `stored` the value the page keeps
 * in the browser's local storage under the key "cart" (its JSON encoding is
 * abstracted: the lines themselves are stored). Each handler computes the
 * next cart from the current one, writes it to storage and makes it the new
 * state.
 */
module HomePage {
  import opened CartModel

  /** What the checkout handler does: stop on an empty cart, or post the cart's lines. */
  datatype CheckoutStep = EmptyCart | PostCheckout(products: seq<Line>)

  class Home {
    var cart: seq<Line>
    var stored: Option<seq<Line>>

    /**
     * Mounting the page: the cart starts empty and, when local storage holds
     * a saved cart, takes that cart (its decoding is abstracted).
     */
    constructor Mount(saved: Option<seq<Line>>)
      ensures stored == saved
      ensures cart == if saved.Some? then saved.value else []
    {
      stored := saved;
      match saved {
        case Some(lines) => cart := lines;
        case None => cart := [];
      }
    }

    /** handleAddToCart: bump the first line for the product, or append a line of one unit. */
    method AddToCart(product: Product)
      modifies this
      ensures cart == Added(old(cart), product)
      ensures stored == Some(cart)
      ensures |cart| == if HasId(old(cart), product.id) then |old(cart)| else |old(cart)| + 1
      ensures UniqueIds(old(cart)) ==> UniqueIds(cart)
    {
      var updated := cart;
      var found := FindLine(updated, product.id);
      match found {
        case Some(k) =>
          if updated[k].quantity <= product.availableCount {
            updated := updated[k := updated[k].(quantity := updated[k].quantity + 1)];
          }
        case None =>
          updated := updated + [Line(product, 1)];
      }
      if UniqueIds(cart) {
        AddKeepsIdsUnique(cart, product);
      }
      stored := Some(updated);
      cart := updated;
    }

    /** handleRemoveFromCart: drop every line for `productId`. */
    method RemoveFromCart(productId: int)
      modifies this
      ensures cart == Removed(old(cart), productId)
      ensures stored == Some(cart)
      ensures UniqueIds(old(cart)) ==> UniqueIds(cart)
      ensures WithinStock(old(cart)) ==> WithinStock(cart)
      ensures !HasId(old(cart), productId) ==> cart == old(cart)
    {
      var updated := Removed(cart, productId);
      if UniqueIds(cart) {
        RemoveKeepsIdsUnique(cart, productId);
      }
      if !HasId(cart, productId) {
        RemoveAbsentIsIdentity(cart, productId);
      }
      stored := Some(updated);
      cart := updated;
    }

    /**
     * handleAdjustQuantity: walk the lines and, on each line for `productId`,
     * apply `delta` only when the result stays in [1, the line's stock count].
     */
    method AdjustQuantity(productId: int, delta: int)
      modifies this
      ensures cart == Adjusted(old(cart), productId, delta)
      ensures stored == Some(cart)
      ensures UniqueIds(old(cart)) ==> UniqueIds(cart)
      ensures WithinStock(old(cart)) ==> WithinStock(cart)
    {
      var updated := cart;
      var i := 0;
      while i < |updated|
        invariant 0 <= i <= |updated| == |cart|
        invariant forall j :: 0 <= j < i ==> updated[j] == AdjustedLine(cart[j], productId, delta)
        invariant forall j :: i <= j < |updated| ==> updated[j] == cart[j]
      {
        var item := updated[i];
        if item.product.id == productId {
          var newQuantity := item.quantity + delta;
          if newQuantity >= 1 && newQuantity <= item.product.availableCount {
            updated := updated[i := item.(quantity := newQuantity)];
          }
        }
        i := i + 1;
      }
      if WithinStock(cart) {
        AdjustKeepsWithinStock(cart, productId, delta);
      }
      stored := Some(updated);
      cart := updated;
    }

    /** handleCheckout up to the request: an empty cart stops before anything is sent. */
    method Checkout() returns (step: CheckoutStep)
      ensures step == EmptyCart <==> |cart| == 0
      ensures step.PostCheckout? ==> step.products == cart
    {
      if |cart| == 0 {
        return EmptyCart;
      }
      step := PostCheckout(cart);
    }
  }
}
