/**
 * The price a product is shown at and whether a struck-through original
 * price is shown beside it. Product cards and the detail view compute these
 * with the same two expressions.
 */
module Pricing {

  import opened Options
  import opened Catalog

  /** A nullable number that JavaScript treats as true: present and non-zero. */
  predicate NumTruthy(o: Option<int>)
  {
    o.Some? && o.value != 0
  }

  /** `discounted_price || price`. */
  function DisplayPrice(p: Product): (r: int)
    ensures NumTruthy(p.discountedPrice) ==> r == p.discountedPrice.value
    ensures !NumTruthy(p.discountedPrice) ==> r == p.price
  {
    match p.discountedPrice
    case Some(d) => if d != 0 then d else p.price
    case None => p.price
  }

  /** `original_price && original_price > displayPrice`. */
  predicate ShowDiscount(p: Product): (r: bool)
    ensures r <==> (p.originalPrice.Some? && p.originalPrice.value != 0 &&
                    p.originalPrice.value > (if NumTruthy(p.discountedPrice) then p.discountedPrice.value else p.price))
  {
    NumTruthy(p.originalPrice) && p.originalPrice.value > DisplayPrice(p)
  }

  /**
   * The badge appears only beside a real saving: the original price is set,
   * non-zero, and exceeds the price actually charged, which is one of the
   * product's two price fields.
   */
  lemma DiscountMeansSaving(p: Product)
    requires ShowDiscount(p)
    ensures p.originalPrice.Some? && p.originalPrice.value != 0
    ensures p.originalPrice.value - DisplayPrice(p) > 0
    ensures DisplayPrice(p) == p.price || Some(DisplayPrice(p)) == p.discountedPrice
  {
  }

  /**
   * A zero discounted price is ignored: the product is charged at its base
   * price, as if no discount were set.
   */
  lemma ZeroDiscountIgnored(p: Product)
    requires p.discountedPrice == Some(0)
    ensures DisplayPrice(p) == DisplayPrice(p.(discountedPrice := None))
    ensures ShowDiscount(p) <==> ShowDiscount(p.(discountedPrice := None))
  {
  }

}
