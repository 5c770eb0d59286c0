/**
 * The cart page: the order summary arithmetic, the quantity and remove buttons on each
 * line, and checkout, which empties the cart.
 */
module CartPage {
  import opened CartContext
  import Customize

  const ShippingFee: int := 100

  /** Shipping is a flat 100 on any non-empty cart and nothing on an empty one. */
  function Shipping(items: seq<CartItem>): (s: int)
    ensures s == ShippingFee <==> |items| > 0
    ensures s == 0 <==> items == []
  {
    if |items| > 0 then ShippingFee else 0
  }

  /** `Math.round(subtotal * 0.18)`: 18 % tax rounded half up to a whole unit. */
  function Tax(subtotal: int): (t: int)
    ensures (t as real) - 0.5 <= (subtotal as real) * 0.18 < (t as real) + 0.5
  {
    var t := Customize.RoundDiv(subtotal * 18, 100);
    assert (subtotal as real) * 0.18 == ((subtotal * 18) as real) / 100.0;
    t
  }

  /** What the summary shows as the total: subtotal, shipping and tax. */
  function OrderTotal(items: seq<CartItem>): int {
    Total(items) + Shipping(items) + Tax(Total(items))
  }

  /** Tax on a non-negative subtotal is non-negative and never more than the subtotal. */
  lemma TaxBounds(subtotal: int)
    requires subtotal >= 0
    ensures 0 <= Tax(subtotal) <= subtotal
  {
  }

  /** With non-negative prices and positive quantities the total is at least the subtotal. */
  lemma OrderTotalCoversSubtotal(items: seq<CartItem>)
    requires AllPositive(items)
    requires forall j :: 0 <= j < |items| ==> items[j].price >= 0
    ensures OrderTotal(items) >= Total(items) >= 0
    ensures items != [] ==> OrderTotal(items) >= Total(items) + ShippingFee
  {
    TotalsNonNegative(items);
    TaxBounds(Total(items));
  }

  /** An empty cart owes nothing at all. */
  lemma EmptyOrderTotal()
    ensures OrderTotal([]) == 0
  {
  }

  /** "-" on a line at quantity 1 asks for quantity 0, which removes that line. */
  lemma DecrementAtOneRemoves(items: seq<CartItem>, line: CartItem)
    requires line.quantity == 1
    ensures Updated(items, line.id, line.quantity - 1) == Removed(items, line.id)
  {
  }

  /** "-" on a line above quantity 1 keeps every line and lowers the count by one. */
  lemma DecrementAboveOneLowersCount(items: seq<CartItem>, k: nat)
    requires k < |items| && items[k].quantity > 1
    requires forall j :: 0 <= j < |items| && j != k ==> items[j].id != items[k].id
    ensures |Updated(items, items[k].id, items[k].quantity - 1)| == |items|
    ensures ItemCount(Updated(items, items[k].id, items[k].quantity - 1)) == ItemCount(items) - 1
  {
    UpdatedItemCount(items, k, items[k].quantity - 1);
  }

  /** "+" raises the count by one. */
  lemma IncrementRaisesCount(items: seq<CartItem>, k: nat)
    requires k < |items| && items[k].quantity >= 0
    requires forall j :: 0 <= j < |items| && j != k ==> items[j].id != items[k].id
    ensures ItemCount(Updated(items, items[k].id, items[k].quantity + 1)) == ItemCount(items) + 1
  {
    UpdatedItemCount(items, k, items[k].quantity + 1);
  }

  class CheckoutPage {
    var orderPlaced: bool

    constructor ()
      ensures !orderPlaced
    {
      orderPlaced := false;
    }

    /** The "-" button: ask for one less of this line. */
    method Decrease(cart: Cart, line: CartItem)
      modifies cart
      ensures cart.items == Updated(old(cart.items), line.id, line.quantity - 1)
    {
      cart.UpdateQuantity(line.id, line.quantity - 1);
    }

    /** The "+" button: ask for one more of this line. */
    method Increase(cart: Cart, line: CartItem)
      modifies cart
      ensures cart.items == Updated(old(cart.items), line.id, line.quantity + 1)
    {
      cart.UpdateQuantity(line.id, line.quantity + 1);
    }

    /** The remove button: drop the line by its id. */
    method Remove(cart: Cart, line: CartItem)
      modifies cart
      ensures cart.items == Removed(old(cart.items), line.id)
    {
      cart.RemoveFromCart(line.id);
    }

    /** Placing the order (once the simulated delay is over) marks it placed and empties the cart. */
    method HandleCheckout(cart: Cart)
      modifies this, cart
      ensures orderPlaced && cart.items == []
      ensures cart.Valid()
    {
      orderPlaced := true;
      cart.ClearCart();
    }
  }
}
