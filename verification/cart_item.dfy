/**
 * One line of the cart page: a "-" and a "+" button guarded by 1 and by the line's stock,
 * and a delete button, all acting on the shared cart.
 */
module CartItem {
  import CartContext

  type Line = CartContext.Line

  /** `handleIncrement`: one more, only while below the stock. */
  function Increment(items: seq<Line>, item: Line): seq<Line> {
    if item.quantity < item.stock then CartContext.UpdateLine(items, item.id, item.quantity + 1) else items
  }

  /** `handleDecrement`: one fewer, only while above 1. */
  function Decrement(items: seq<Line>, item: Line): seq<Line> {
    if item.quantity > 1 then CartContext.UpdateLine(items, item.id, item.quantity - 1) else items
  }

  /** The "-" button is disabled exactly when `handleDecrement` would do nothing, and likewise "+". */
  predicate DecrementDisabled(item: Line) { item.quantity <= 1 }
  predicate IncrementDisabled(item: Line) { item.quantity >= item.stock }

  lemma DisabledMeansNoOp(items: seq<Line>, item: Line)
    ensures DecrementDisabled(item) ==> Decrement(items, item) == items
    ensures IncrementDisabled(item) ==> Increment(items, item) == items
  {
  }

  /** Every line's quantity lies between 1 and its stock. */
  predicate InRange(items: seq<Line>) {
    forall m :: 0 <= m < |items| ==> 1 <= items[m].quantity <= items[m].stock
  }

  /** The decrement never removes a line: it keeps the same ids in the same places. */
  lemma DecrementNeverRemoves(items: seq<Line>, item: Line)
    ensures |Decrement(items, item)| == |items|
    ensures forall m :: 0 <= m < |items| ==> Decrement(items, item)[m].id == items[m].id
  {
  }

  /**
   * Pressing either control on the line at position `k` changes only that line's quantity,
   * by exactly one when its guard allows it.
   */
  lemma {:induction false} ControlStep(items: seq<Line>, k: nat, up: bool)
    requires CartContext.UniqueIds(items) && k < |items| && InRange(items)
    ensures var r := if up then Increment(items, items[k]) else Decrement(items, items[k]);
      |r| == |items| && (forall m :: 0 <= m < |items| && m != k ==> r[m] == items[m])
      && r[k] == items[k].(quantity := r[k].quantity)
      && r[k].quantity == (if up && items[k].quantity < items[k].stock then items[k].quantity + 1
                           else if !up && items[k].quantity > 1 then items[k].quantity - 1
                           else items[k].quantity)
  {
    var q := items[k].quantity;
    assert 1 <= q;
    if up && q < items[k].stock {
      CartContext.UpdatePositive(items, q + 1, k);
    } else if !up && q > 1 {
      CartContext.UpdatePositive(items, q - 1, k);
    }
  }

  /** Through these two controls a cart whose quantities lie in [1, stock] keeps them there. */
  lemma ControlsStayInRange(items: seq<Line>, k: nat, up: bool)
    requires CartContext.UniqueIds(items) && k < |items| && InRange(items)
    ensures InRange(if up then Increment(items, items[k]) else Decrement(items, items[k]))
  {
    ControlStep(items, k, up);
  }

  method HandleIncrement(cart: CartContext.CartStore, item: Line)
    requires cart.Valid()
    modifies cart
    ensures cart.Valid()
    ensures cart.items == Increment(old(cart.items), item)
  {
    if item.quantity < item.stock {
      cart.UpdateQuantity(item.id, item.quantity + 1);
    }
  }

  method HandleDecrement(cart: CartContext.CartStore, item: Line)
    requires cart.Valid()
    modifies cart
    ensures cart.Valid()
    ensures cart.items == Decrement(old(cart.items), item)
  {
    if item.quantity > 1 {
      cart.UpdateQuantity(item.id, item.quantity - 1);
    }
  }

  /** The delete button: `removeFromCart(item.id)` and nothing else. */
  method HandleRemove(cart: CartContext.CartStore, item: Line)
    requires cart.Valid()
    modifies cart
    ensures cart.Valid()
    ensures cart.items == CartContext.RemoveLine(old(cart.items), item.id)
  {
    cart.RemoveFromCart(item.id);
  }
}
