/**
 * The enquiry messages and `https://wa.me/` links. The business number (an
 * environment setting) and `encodeURIComponent` are parameters.
 */
module WhatsApp {

  import opened Options
  import opened Strings

  const LinkBase: string := "https://wa.me/"
  const Greeting: string := "Hi Eddjos Collections! I'm interested in the "
  const Closing: string := ". Please let me know the available sizes, colors, and pricing."
  const FloatingMessage: string := "Hi Eddjos Collections! I'd like " + "to browse your products and place an order."

  /** ` (size S)` when the size is present and non-empty, otherwise nothing. */
  function SizeClause(size: Option<string>): string
  {
    if OptTruthy(size) then " (size " + size.value + ")" else ""
  }

  /** ` in C` when the colour is present and non-empty, otherwise nothing. */
  function ColorClause(color: Option<string>): string
  {
    if OptTruthy(color) then " in " + color.value else ""
  }

  /** The message `generateWhatsAppLink` assembles. */
  function EnquiryMessage(productName: string, size: Option<string>, color: Option<string>): (r: string)
    ensures Greeting + productName <= r
    ensures |r| >= |Greeting| + |productName| + |Closing|
  {
    Greeting + productName + SizeClause(size) + ColorClause(color) + Closing
  }

  /** `https://wa.me/${number}?text=${encoded}`. */
  function WaLink(number: string, encoded: string): string
  {
    LinkBase + number + "?text=" + encoded
  }

  /**
   * `generateWhatsAppLink`: the message is built by successive appends and
   * then encoded into the link.
   */
  method GenerateWhatsAppLink(number: string, encode: string -> string,
                              productName: string, size: Option<string>, color: Option<string>)
    returns (link: string)
    ensures link == WaLink(number, encode(EnquiryMessage(productName, size, color)))
  {
    var message := Greeting + productName;
    if OptTruthy(size) {
      message := message + " (size " + size.value + ")";
    }
    assert message == Greeting + productName + SizeClause(size);
    if OptTruthy(color) {
      message := message + " in " + color.value;
    }
    assert message == Greeting + productName + SizeClause(size) + ColorClause(color);
    message := message + Closing;
    var encodedMessage := encode(message);
    link := LinkBase + number + "?text=" + encodedMessage;
  }

  /** `getWhatsAppFloatingLink`: the same link whatever the page shows. */
  function FloatingLink(number: string, encode: string -> string): (r: string)
    ensures LinkBase + number + "?text=" <= r
    ensures r[|LinkBase + number + "?text="|..] == encode(FloatingMessage)
  {
    WaLink(number, encode(FloatingMessage))
  }

  /**
   * The floating button's link and every enquiry link start alike, with the
   * base, the number and `?text=`; for an encoder that maps distinct
   * messages to distinct texts, the floating link is none of the enquiry
   * links, whose message names a product.
   */
  lemma FloatingLinkIsNoEnquiry(number: string, encode: string -> string,
                                productName: string, size: Option<string>, color: Option<string>)
    ensures var prefix := LinkBase + number + "?text=";
      prefix <= FloatingLink(number, encode)
      && prefix <= WaLink(number, encode(EnquiryMessage(productName, size, color)))
    ensures (forall a, b :: encode(a) == encode(b) ==> a == b) ==>
      FloatingLink(number, encode) != WaLink(number, encode(EnquiryMessage(productName, size, color)))
  {
    var prefix := LinkBase + number + "?text=";
    var m := EnquiryMessage(productName, size, color);
    var f := FloatingLink(number, encode);
    var e := WaLink(number, encode(m));
    assert e == prefix + encode(m);
    assert e[|prefix|..] == encode(m);
    FloatingMessageIsNoEnquiry(productName, size, color);
    if encode(FloatingMessage) == encode(m) {
      assert (forall a, b :: encode(a) == encode(b) ==> a == b) ==> FloatingMessage == m;
    } else {
      assert f[|prefix|..] != e[|prefix|..];
    }
  }

  /** The floating message asks to browse, so it is no product enquiry. */
  lemma FloatingMessageIsNoEnquiry(productName: string, size: Option<string>, color: Option<string>)
    ensures FloatingMessage != EnquiryMessage(productName, size, color)
  {
    var m := EnquiryMessage(productName, size, color);
    EnquiryMessageShape(productName, size, color);
    assert m[..|Greeting|] == Greeting by {
      assert m[..|Greeting|] == (Greeting + productName)[..|Greeting|];
    }
    NotAfterGreeting(m);
  }

  /** No message that opens with the enquiry greeting is the floating message. */
  lemma NotAfterGreeting(m: string)
    requires Greeting <= m
    ensures FloatingMessage != m
  {
    GreetingAt25();
    FloatingAt25();
    assert m[25] == 'm';
  }

  lemma GreetingAt25()
    ensures |Greeting| > 25 && Greeting[25] == 'm'
  {
  }

  lemma FloatingAt25()
    ensures |FloatingMessage| > 25 && FloatingMessage[25] == 'd'
  {
  }

  /**
   * The message opens with the greeting and the product name, closes with
   * the fixed request, and holds the size clause and then the colour clause
   * in between; a clause is absent exactly when its value is absent or empty.
   */
  lemma EnquiryMessageShape(productName: string, size: Option<string>, color: Option<string>)
    ensures var m := EnquiryMessage(productName, size, color);
      && Greeting + productName <= m
      && m[|m| - |Closing|..] == Closing
      && m[|Greeting + productName|..|m| - |Closing|] == SizeClause(size) + ColorClause(color)
      && (SizeClause(size) == "" <==> !OptTruthy(size))
      && (ColorClause(color) == "" <==> !OptTruthy(color))
  {
    var head := Greeting + productName;
    var middle := SizeClause(size) + ColorClause(color);
    assert EnquiryMessage(productName, size, color) == head + middle + Closing;
    ThreeParts(head, middle, Closing);
    if OptTruthy(size) {
      assert SizeClause(size)[0] == ' ';
    }
    if OptTruthy(color) {
      assert ColorClause(color)[0] == ' ';
    }
  }

  lemma ThreeParts(a: string, b: string, c: string)
    ensures var m := a + b + c;
      a <= m && m[|m| - |c|..] == c && m[|a|..|m| - |c|] == b
  {
  }

  /** An empty size or colour gives the same message as an absent one. */
  lemma EmptyMeansAbsent(productName: string, size: Option<string>, color: Option<string>)
    ensures EnquiryMessage(productName, Some(""), color) == EnquiryMessage(productName, None, color)
    ensures EnquiryMessage(productName, size, Some("")) == EnquiryMessage(productName, size, None)
  {
  }

  /** The message grows by exactly the clauses that are present. */
  lemma EnquiryMessageLength(productName: string, size: Option<string>, color: Option<string>)
    ensures |EnquiryMessage(productName, size, color)| ==
      |Greeting| + |productName| + |Closing|
      + (if OptTruthy(size) then |size.value| + 8 else 0)
      + (if OptTruthy(color) then |color.value| + 4 else 0)
  {
  }

}
