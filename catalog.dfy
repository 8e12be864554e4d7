/** The product record the catalog query returns. */
module Catalog {

  import opened Options

  datatype Category = Men | Women | Unisex

  /**
   * A product row. `images` is read by the detail view although the record
   * type does not declare it, so it is optional here.
   */
  datatype Product = Product(
    id: string,
    name: string,
    category: Category,
    subcategory: Option<string>,
    description: Option<string>,
    price: int,
    originalPrice: Option<int>,
    discountedPrice: Option<int>,
    colors: seq<string>,
    sizes: seq<string>,
    imageUrl: Option<string>,
    images: Option<seq<string>>,
    featured: bool,
    inStock: bool,
    sortOrder: int)

}
