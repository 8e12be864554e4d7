/** A product card: its price line and what a click on it does. */
module ProductCard {

  import opened Options
  import opened Catalog
  import opened WhatsApp

  /**
   * `handleCardClick`: an out-of-stock card does nothing; otherwise the link
   * names the product alone, with no size or colour clause.
   */
  method HandleCardClick(product: Product, number: string, encode: string -> string)
    returns (link: Option<string>)
    ensures !product.inStock ==> link == None
    ensures product.inStock ==> link == Some(WaLink(number, encode(Greeting + product.name + Closing)))
  {
    if !product.inStock {
      return None;
    }
    var whatsappLink := GenerateWhatsAppLink(number, encode, product.name, None, None);
    assert EnquiryMessage(product.name, None, None) == Greeting + product.name + Closing;
    link := Some(whatsappLink);
  }

}
