/**
 * The cart store: the provider's `cartItems` state and the operations it
 * exposes. Each mutation replaces the line list with a transformation of the
 * previous one, as `setCartItems(prev => ...)` does.
 */
module CartContext {

  import opened Options
  import opened CartLines

  class CartStore {

    var cartItems: seq<CartItem>

    /** The store's invariant: no two lines share (product, size, colour). */
    ghost predicate Valid()
      reads this
    {
      KeysUnique(cartItems)
    }

    /** `useState<CartItem[]>([])`. */
    constructor ()
      ensures Valid() && cartItems == []
    {
      cartItems := [];
    }

    /**
     * `addToCart(item)`: merge into the line with the same key, or append.
     * Positive quantities stay positive when the added quantity is positive.
     */
    method AddToCart(item: CartItem)
      requires Valid()
      modifies this
      ensures Valid()
      ensures cartItems == AddLine(old(cartItems), item)
      ensures old(AllPositive(cartItems)) && item.quantity >= 1 ==> AllPositive(cartItems)
    {
      AddKeepsKeysUnique(cartItems, item);
      if AllPositive(cartItems) && item.quantity >= 1 {
        AddKeepsPositive(cartItems, item);
      }
      cartItems := AddLine(cartItems, item);
    }

    /** `removeFromCart(productId, size, color)`: drop the lines with exactly that key. */
    method RemoveFromCart(productId: string, size: Option<string>, color: Option<string>)
      requires Valid()
      modifies this
      ensures Valid()
      ensures cartItems == RemoveLines(old(cartItems), LineKey(productId, size, color))
      ensures old(AllPositive(cartItems)) ==> AllPositive(cartItems)
    {
      var key := LineKey(productId, size, color);
      RemoveKeepsKeysUnique(cartItems, key);
      if AllPositive(cartItems) {
        RemoveKeepsPositive(cartItems, key);
      }
      cartItems := RemoveLines(cartItems, key);
    }

    /**
     * `updateQuantity(productId, quantity, size, color)`: a quantity of zero
     * or less delegates to `removeFromCart`; otherwise the matching line's
     * quantity is replaced.
     */
    method UpdateQuantity(productId: string, quantity: int, size: Option<string>, color: Option<string>)
      requires Valid()
      modifies this
      ensures Valid()
      ensures cartItems == UpdateLines(old(cartItems), LineKey(productId, size, color), quantity)
      ensures old(AllPositive(cartItems)) ==> AllPositive(cartItems)
    {
      if quantity <= 0 {
        RemoveFromCart(productId, size, color);
        return;
      }
      var key := LineKey(productId, size, color);
      UpdateKeepsKeysUnique(cartItems, key, quantity);
      if AllPositive(cartItems) {
        UpdateKeepsPositive(cartItems, key, quantity);
      }
      cartItems := SetQuantity(cartItems, key, quantity);
    }

    /** `clearCart()`. */
    method ClearCart()
      modifies this
      ensures Valid()
      ensures cartItems == [] && TotalPrice(cartItems) == 0 && ItemCount(cartItems) == 0
    {
      cartItems := [];
    }

    /** `getTotalPrice()`: the left fold over the lines, one line at a time. */
    method GetTotalPrice() returns (total: int)
      ensures total == TotalPrice(cartItems)
    {
      total := 0;
      var i := 0;
      while i < |cartItems|
        invariant 0 <= i <= |cartItems|
        invariant total == TotalPrice(cartItems[..i])
      {
        assert cartItems[..i + 1][..i] == cartItems[..i];
        total := total + cartItems[i].price * cartItems[i].quantity;
        i := i + 1;
      }
      assert cartItems[..i] == cartItems;
    }

    /** `getItemCount()`: the sum of the quantities, not the number of lines. */
    method GetItemCount() returns (count: int)
      ensures count == ItemCount(cartItems)
    {
      count := 0;
      var i := 0;
      while i < |cartItems|
        invariant 0 <= i <= |cartItems|
        invariant count == ItemCount(cartItems[..i])
      {
        assert cartItems[..i + 1][..i] == cartItems[..i];
        count := count + cartItems[i].quantity;
        i := i + 1;
      }
      assert cartItems[..i] == cartItems;
    }
  }

}
