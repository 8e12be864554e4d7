/**
 * The cart panel: checkout, the per-line stepper and trash button, and the
 * displayed totals, all in terms of the cart store.
 */
module CartPanel {

  import opened Options
  import opened CartLines
  import opened CartContext

  /**
   * `handleCheckout`, with `generateWhatsAppCartCheckout` as a parameter:
   * an empty cart does nothing; otherwise the link is built from the current
   * lines, then the cart is emptied and the panel closed.
   */
  method HandleCheckout(cart: CartStore, checkoutLink: seq<CartItem> -> string)
    returns (link: Option<string>, closed: bool)
    requires cart.Valid()
    modifies cart
    ensures cart.Valid()
    ensures old(cart.cartItems) == [] ==> link == None && !closed && cart.cartItems == old(cart.cartItems)
    ensures old(cart.cartItems) != [] ==>
      link == Some(checkoutLink(old(cart.cartItems))) && closed && cart.cartItems == []
  {
    if |cart.cartItems| == 0 {
      return None, false;
    }
    var whatsappLink := checkoutLink(cart.cartItems);
    link := Some(whatsappLink);
    cart.ClearCart();
    closed := true;
  }

  /** The minus button of a line: `updateQuantity(q - 1)`. */
  method Decrement(cart: CartStore, line: CartItem)
    requires cart.Valid()
    modifies cart
    ensures cart.Valid()
    ensures cart.cartItems == UpdateLines(old(cart.cartItems), KeyOf(line), line.quantity - 1)
  {
    cart.UpdateQuantity(line.productId, line.quantity - 1, line.selectedSize, line.selectedColor);
  }

  /** The plus button of a line: `updateQuantity(q + 1)`. */
  method Increment(cart: CartStore, line: CartItem)
    requires cart.Valid()
    modifies cart
    ensures cart.Valid()
    ensures cart.cartItems == UpdateLines(old(cart.cartItems), KeyOf(line), line.quantity + 1)
  {
    cart.UpdateQuantity(line.productId, line.quantity + 1, line.selectedSize, line.selectedColor);
  }

  /** The trash button of a line. */
  method Remove(cart: CartStore, line: CartItem)
    requires cart.Valid()
    modifies cart
    ensures cart.Valid()
    ensures cart.cartItems == RemoveLines(old(cart.cartItems), KeyOf(line))
  {
    cart.RemoveFromCart(line.productId, line.selectedSize, line.selectedColor);
  }

  /** The minus button on a line at quantity one removes that line and only it. */
  lemma DecrementAtOneRemoves(s: seq<CartItem>, k: nat)
    requires KeysUnique(s) && k < |s| && s[k].quantity == 1
    ensures UpdateLines(s, KeyOf(s[k]), s[k].quantity - 1) == s[..k] + s[k + 1..]
  {
    RemoveUniqueLine(s, k);
  }

  /** Above one, the minus button lowers that line's quantity by one and changes nothing else. */
  lemma DecrementAboveOne(s: seq<CartItem>, k: nat)
    requires KeysUnique(s) && k < |s| && s[k].quantity > 1
    ensures UpdateLines(s, KeyOf(s[k]), s[k].quantity - 1) == s[k := s[k].(quantity := s[k].quantity - 1)]
  {
    UpdateReplacesQuantity(s, k, s[k].quantity - 1);
  }

  /** On a stored line, the plus button raises only that line's quantity, by one. */
  lemma {:induction false} IncrementOneLine(s: seq<CartItem>, k: nat)
    requires KeysUnique(s) && AllPositive(s) && k < |s|
    ensures UpdateLines(s, KeyOf(s[k]), s[k].quantity + 1) == s[k := s[k].(quantity := s[k].quantity + 1)]
    ensures ItemCount(UpdateLines(s, KeyOf(s[k]), s[k].quantity + 1)) == ItemCount(s) + 1
    ensures TotalPrice(UpdateLines(s, KeyOf(s[k]), s[k].quantity + 1)) == TotalPrice(s) + s[k].price
  {
    assert s[k] in s;
    UpdateReplacesQuantity(s, k, s[k].quantity + 1);
    MergedTotals(s, k, 1);
  }

  /** The "Subtotal" and "Total" rows show the same figure, the cart's total. */
  method Summary(cart: CartStore) returns (subtotal: int, total: int)
    ensures subtotal == total == TotalPrice(cart.cartItems)
  {
    var totalPrice := cart.GetTotalPrice();
    subtotal, total := totalPrice, totalPrice;
  }

  /** The figure on each line: price times quantity. */
  method LineFigure(line: CartItem) returns (figure: int)
    ensures figure == LineSubtotal(line)
    ensures TotalPrice([line]) == figure
  {
    figure := line.price * line.quantity;
    assert [line][..0] == [];
  }

}
