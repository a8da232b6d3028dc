/**
 * `CartProvider` in `components/cart-context.tsx`: the cart state behind the
 * React context. Each handler replaces `items` with the corresponding
 * `CartLines` operation applied to the current items.
 */
module CartContext {
  import opened CartLines

  class CartProvider {
    var items: seq<CartItem>

    /** At most one line per `(id, size, color)`. */
    ghost predicate Valid()
      reads this
    {
      UniqueKeys(items)
    }

    /** `useState<CartItem[]>([])`: the cart starts empty. */
    constructor ()
      ensures items == [] && Valid()
    {
      items := [];
    }

    /** `addItem`. */
    method AddItem(newItem: CartItem)
      modifies this
      ensures items == CartLines.AddItem(old(items), newItem)
      ensures old(Valid()) ==> Valid()
    {
      if UniqueKeys(items) {
        OperationsKeepKeysUnique(items, newItem, newItem.id, newItem.size, newItem.color, newItem.quantity);
      }
      items := CartLines.AddItem(items, newItem);
    }

    /** `removeItem`. */
    method RemoveItem(id: string, size: string, color: string)
      modifies this
      ensures items == CartLines.RemoveItem(old(items), id, size, color)
      ensures old(Valid()) ==> Valid()
    {
      if UniqueKeys(items) {
        OperationsKeepKeysUnique(items, CartItem(id, "", 0.0, Wrappers.None, size, color, 0.0), id, size, color, 0.0);
      }
      items := CartLines.RemoveItem(items, id, size, color);
    }

    /** `updateQuantity`: a non-positive quantity delegates to `removeItem` and returns. */
    method UpdateQuantity(id: string, size: string, color: string, quantity: real)
      modifies this
      ensures items == CartLines.UpdateQuantity(old(items), id, size, color, quantity)
      ensures old(Valid()) ==> Valid()
    {
      if quantity <= 0.0 {
        RemoveItem(id, size, color);
        return;
      }
      if UniqueKeys(items) {
        OperationsKeepKeysUnique(items, CartItem(id, "", 0.0, Wrappers.None, size, color, 0.0), id, size, color, quantity);
      }
      items := SetQuantity(items, id, size, color, quantity);
    }

    /** `clearCart`. */
    method ClearCart()
      modifies this
      ensures items == [] && Valid()
    {
      items := [];
    }

    /** `getTotal`: the left-to-right `reduce` equals the plain sum of price times quantity. */
    function GetTotal(): (t: real)
      reads this
      ensures t == LineSum(items)
    {
      TotalFromIsLineSum(0.0, items);
      Total(items)
    }
  }
}
