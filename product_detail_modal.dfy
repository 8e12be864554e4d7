/**
 * The product detail view: size and colour selection, the quantity stepper,
 * the image gallery, add-to-cart, buy-now and the wishlist toggle.
 */
module ProductDetailModal {

  import opened Options
  import opened Strings
  import opened JsMath
  import opened Catalog
  import opened Pricing
  import opened CyclicIndex
  import opened CartLines
  import opened CartContext
  import opened WhatsApp

  const FallbackImage: string :=
    "https://images.pexels.com/photos/3945683/pexels-photo-3945683.jpeg?w=800&h=800&fit=crop"

  /**
   * The gallery: the product's images when it has some, otherwise a single
   * picture, its own image or the fallback.
   */
  function Images(p: Product): (r: seq<string>)
    ensures |r| >= 1
    ensures p.images.Some? && |p.images.value| > 0 ==> r == p.images.value
    ensures !(p.images.Some? && |p.images.value| > 0) ==> |r| == 1
    ensures !(p.images.Some? && |p.images.value| > 0) && OptTruthy(p.imageUrl) ==> r == [p.imageUrl.value]
    ensures !(p.images.Some? && |p.images.value| > 0) && !OptTruthy(p.imageUrl) ==> r == [FallbackImage]
  {
    if p.images.Some? && |p.images.value| > 0 then p.images.value
    else [if OptTruthy(p.imageUrl) then p.imageUrl.value else FallbackImage]
  }

  /** The line `handleAddToCart` passes to `addToCart`. */
  function ModalLine(p: Product, quantity: int, size: string, color: string): (r: CartItem)
    ensures KeyOf(r) == LineKey(p.id, Some(size), Some(color))
    ensures r.quantity == quantity && r.productName == p.name
    ensures r.price == p.price || Some(r.price) == p.discountedPrice
    ensures r.imageUrl.Some? ==> r.imageUrl == p.imageUrl && r.imageUrl.value != ""
    ensures r.imageUrl.Some? <==> OptTruthy(p.imageUrl)
    ensures r.price == DisplayPrice(p)
  {
    CartItem(p.id, p.name, DisplayPrice(p), quantity, Some(size), Some(color),
             if OptTruthy(p.imageUrl) then p.imageUrl else None)
  }

  /** The wishlist operation a toggle issues. */
  datatype WishlistCall = AddToWishlist(productId: string) | RemoveFromWishlist(productId: string)

  /** `handleToggleWishlist`: remove when liked, add otherwise. */
  function ToggleWishlist(productId: string, isLiked: bool): (c: WishlistCall)
    ensures c.productId == productId
    ensures c.RemoveFromWishlist? <==> isLiked
  {
    if isLiked then RemoveFromWishlist(productId) else AddToWishlist(productId)
  }

  /** The wishlist calls read as insertion into and removal from a set of ids. */
  function ApplyToSet(ids: set<string>, c: WishlistCall): set<string>
  {
    match c
    case AddToWishlist(id) => ids + {id}
    case RemoveFromWishlist(id) => ids - {id}
  }

  /** Read that way, a toggle flips the product's membership and touches no other id. */
  lemma ToggleFlipsMembership(ids: set<string>, productId: string)
    ensures var after := ApplyToSet(ids, ToggleWishlist(productId, productId in ids));
      (productId in after <==> productId !in ids) && after - {productId} == ids - {productId}
  {
  }

  class ProductDetail {

    const product: Product
    const cart: CartStore
    var selectedSize: string
    var selectedColor: string
    var quantity: int
    var mainImageIndex: int

    ghost predicate Valid()
      reads this, cart
    {
      && cart.Valid() && quantity >= 1 && 0 <= mainImageIndex < |Images(product)|
      && (selectedSize == "" || selectedSize in product.sizes)
      && (selectedColor == "" || selectedColor in product.colors)
    }

    /** Nothing selected, quantity 1, first image. */
    constructor (product: Product, cart: CartStore)
      requires cart.Valid()
      ensures Valid() && this.product == product && this.cart == cart
      ensures selectedSize == "" && selectedColor == "" && quantity == 1 && mainImageIndex == 0
    {
      this.product := product;
      this.cart := cart;
      selectedSize := "";
      selectedColor := "";
      quantity := 1;
      mainImageIndex := 0;
    }

    /** A size button; one is rendered for each of the product's sizes. */
    method SelectSize(size: string)
      requires Valid() && size in product.sizes
      modifies this
      ensures Valid() && selectedSize == size
      ensures selectedColor == old(selectedColor) && quantity == old(quantity)
      ensures mainImageIndex == old(mainImageIndex)
    {
      selectedSize := size;
    }

    /** A colour button; one is rendered for each of the product's colours. */
    method SelectColor(color: string)
      requires Valid() && color in product.colors
      modifies this
      ensures Valid() && selectedColor == color
      ensures selectedSize == old(selectedSize) && quantity == old(quantity)
      ensures mainImageIndex == old(mainImageIndex)
    {
      selectedColor := color;
    }

    /** The minus button: `Math.max(1, quantity - 1)`. */
    method DecrementQuantity()
      requires Valid()
      modifies this
      ensures Valid() && quantity == MathMax(1, old(quantity) - 1)
      ensures old(quantity) == 1 ==> quantity == 1
      ensures old(quantity) > 1 ==> quantity == old(quantity) - 1
      ensures selectedSize == old(selectedSize) && selectedColor == old(selectedColor)
      ensures mainImageIndex == old(mainImageIndex)
    {
      quantity := MathMax(1, quantity - 1);
    }

    /** The plus button. */
    method IncrementQuantity()
      requires Valid()
      modifies this
      ensures Valid() && quantity == old(quantity) + 1
      ensures selectedSize == old(selectedSize) && selectedColor == old(selectedColor)
      ensures mainImageIndex == old(mainImageIndex)
    {
      quantity := quantity + 1;
    }

    /** The left arrow, rendered only for more than one image. */
    method PrevImage()
      requires Valid() && |Images(product)| > 1
      modifies this
      ensures Valid() && mainImageIndex == PrevIndex(old(mainImageIndex), |Images(product)|)
      ensures quantity == old(quantity)
      ensures selectedSize == old(selectedSize) && selectedColor == old(selectedColor)
    {
      mainImageIndex := PrevIndex(mainImageIndex, |Images(product)|);
    }

    /** The right arrow, rendered only for more than one image. */
    method NextImage()
      requires Valid() && |Images(product)| > 1
      modifies this
      ensures Valid() && mainImageIndex == NextIndex(old(mainImageIndex), |Images(product)|)
      ensures quantity == old(quantity)
      ensures selectedSize == old(selectedSize) && selectedColor == old(selectedColor)
    {
      mainImageIndex := NextIndex(mainImageIndex, |Images(product)|);
    }

    /** A thumbnail, one per image, rendered only for more than one image. */
    method SelectImage(index: int)
      requires Valid() && |Images(product)| > 1 && 0 <= index < |Images(product)|
      modifies this
      ensures Valid() && mainImageIndex == index && quantity == old(quantity)
      ensures selectedSize == old(selectedSize) && selectedColor == old(selectedColor)
    {
      mainImageIndex := index;
    }

    /**
     * `handleAddToCart`: without both a size and a colour nothing is added;
     * otherwise the cart receives the display price, the current quantity
     * and the selected size and colour.
     */
    method HandleAddToCart() returns (added: bool)
      requires Valid()
      modifies cart
      ensures Valid()
      ensures added <==> selectedSize != "" && selectedColor != ""
      ensures added ==> selectedSize in product.sizes && selectedColor in product.colors
      ensures !added ==> cart.cartItems == old(cart.cartItems)
      ensures added ==> (cart.cartItems ==
        AddLine(old(cart.cartItems), ModalLine(product, quantity, selectedSize, selectedColor)))
      ensures added && old(AllPositive(cart.cartItems)) ==> AllPositive(cart.cartItems)
    {
      if !Truthy(selectedSize) || !Truthy(selectedColor) {
        return false;
      }
      cart.AddToCart(ModalLine(product, quantity, selectedSize, selectedColor));
      added := true;
    }

    /** A click on "Add to Cart", which is disabled for an out-of-stock product. */
    method ClickAddToCart() returns (added: bool)
      requires Valid()
      modifies cart
      ensures Valid()
      ensures added <==> product.inStock && selectedSize != "" && selectedColor != ""
      ensures !added ==> cart.cartItems == old(cart.cartItems)
      ensures added ==> (cart.cartItems ==
        AddLine(old(cart.cartItems), ModalLine(product, quantity, selectedSize, selectedColor)))
    {
      added := false;
      if product.inStock {
        added := HandleAddToCart();
      }
    }

    /**
     * A click on "Buy on WhatsApp" (disabled when out of stock). Its two
     * branches build the same link: with nothing selected, the empty size
     * and colour add no clause, just as omitting them does.
     */
    method ClickBuyNow(number: string, encode: string -> string) returns (link: Option<string>)
      ensures product.inStock ==> (link ==
        Some(WaLink(number, encode(EnquiryMessage(product.name, Some(selectedSize), Some(selectedColor))))))
      ensures !product.inStock ==> link == None
    {
      if !product.inStock {
        return None;
      }
      var l: string;
      if Truthy(selectedSize) || Truthy(selectedColor) {
        l := GenerateWhatsAppLink(number, encode, product.name, Some(selectedSize), Some(selectedColor));
      } else {
        l := GenerateWhatsAppLink(number, encode, product.name, None, None);
      }
      link := Some(l);
    }

    /** `handleToggleWishlist`, given whether the wishlist holds the product. */
    method HandleToggleWishlist(isLiked: bool) returns (call: WishlistCall)
      ensures call == ToggleWishlist(product.id, isLiked)
      ensures call.RemoveFromWishlist? <==> isLiked
    {
      call := ToggleWishlist(product.id, isLiked);
    }
  }

}
