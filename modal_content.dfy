/** The Modal Builder of the cart reminder: from a snapshot of the mini-cart
    (the quantity badge text, the product thumbnails found on the page and the
    optional subtotal cell) it assembles the modal's content: the header markup,
    the thumbnails moved into the body, and the text block below them. */
module ModalContent {

  datatype Option<T> = None | Some(value: T)

  /** One `<img>` element of the mini-cart product list. Only its identity
      matters to the modal: which elements end up in the body, in which order.
      A query over the page yields each element once, so the list is distinct. */
  datatype ImageRef = ImageRef(element: nat)

  /** A child of the text block: a `<p>` with its inner text, or a `<br>`. */
  datatype TextNode = Paragraph(text: string) | LineBreak

  /** What the modal is built from: the markup string assigned to the header,
      the images appended to the body, and the children of the text block
      appended after them. */
  datatype Content = Content(header: string, images: seq<ImageRef>, text: seq<TextNode>)

  const HeaderPrefix := "You have "
  const HeaderSuffix := " items in your cart"
  const MoreText := "...and more in your cart"
  const SubtotalLabel := "Subtotal: "
  /** What a template literal prints for an absent subtotal cell. */
  const Undefined := "undefined"

  /** At most this many thumbnails are moved into the body. */
  const ShownImages := 2

  /** The header markup, with the badge's quantity text inserted verbatim
      between the fixed words. The browser parses this string as HTML, so
      what is displayed equals it only when the quantity holds no markup. */
  function HeaderText(quantity: string): (r: string)
    ensures |r| == |HeaderPrefix| + |quantity| + |HeaderSuffix|
    ensures r[..|HeaderPrefix|] == HeaderPrefix
    ensures r[|HeaderPrefix|..|HeaderPrefix| + |quantity|] == quantity
    ensures r[|HeaderPrefix| + |quantity|..] == HeaderSuffix
  {
    HeaderPrefix + quantity + HeaderSuffix
  }

  /** Reads the quantity back out of a header line; None for any string that
      is not a header. */
  function HeaderQuantity(header: string): (r: Option<string>)
    ensures r.Some? ==> HeaderText(r.value) == header
  {
    var p, s := |HeaderPrefix|, |HeaderSuffix|;
    if |header| >= p + s && header[..p] == HeaderPrefix && header[|header| - s..] == HeaderSuffix then
      var q := header[p..|header| - s];
      assert header == header[..p] + q + header[|header| - s..];
      Some(q)
    else
      None
  }

  /** The header markup carries exactly the quantity it was built from. */
  lemma HeaderRoundTrip(quantity: string)
    ensures HeaderQuantity(HeaderText(quantity)) == Some(quantity)
  {
  }

  /** The text the subtotal paragraph shows: the cell's text when the cell
      exists, "undefined" when it does not. */
  function SubtotalShownText(subtotal: Option<string>): (r: string)
    ensures subtotal.Some? ==> r == subtotal.value
    ensures subtotal.None? ==> r == "undefined"
  {
    match subtotal
    case Some(t) => t
    case None => Undefined
  }

  /** The subtotal paragraph. */
  function SubtotalLine(subtotal: Option<string>): (r: string)
    ensures |r| == |SubtotalLabel| + |SubtotalShownText(subtotal)|
    ensures |r| > 0 && r[0] == 'S'
    ensures r[..|SubtotalLabel|] == SubtotalLabel
    ensures r[|SubtotalLabel|..] == SubtotalShownText(subtotal)
  {
    SubtotalLabel + SubtotalShownText(subtotal)
  }

  /** Reads the displayed subtotal back out of a subtotal paragraph. */
  function SubtotalShown(line: string): (r: Option<string>)
    ensures r.Some? ==> SubtotalLine(Some(r.value)) == line
  {
    var p := |SubtotalLabel|;
    if |line| >= p && line[..p] == SubtotalLabel then
      assert line == line[..p] + line[p..];
      Some(line[p..])
    else
      None
  }

  /** A present subtotal is shown verbatim; an absent one reads "undefined". */
  lemma SubtotalRoundTrip(subtotal: Option<string>)
    ensures SubtotalShown(SubtotalLine(subtotal)) == Some(SubtotalShownText(subtotal))
    ensures subtotal.None? ==> SubtotalShown(SubtotalLine(subtotal)) == Some("undefined")
  {
  }

  /** Builds the modal's content once, at page load: thumbnails first (only
      when at least two products were found, and then exactly the first two),
      then the text block: the "more" paragraph when more than two products
      were found, a line break, and the subtotal paragraph. */
  method Assemble(quantity: string, productImages: seq<ImageRef>, subtotal: Option<string>)
    returns (c: Content)
    requires forall i, j :: 0 <= i < j < |productImages| ==> productImages[i] != productImages[j]
    ensures HeaderQuantity(c.header) == Some(quantity)
    ensures |c.images| == if |productImages| > 1 then ShownImages else 0
    ensures forall i :: 0 <= i < |c.images| ==> c.images[i] == productImages[i]
    ensures Paragraph(MoreText) in c.text <==> |productImages| > 2
    ensures |c.text| >= 2 && c.text[|c.text| - 2] == LineBreak
    ensures c.text[|c.text| - 1] == Paragraph(SubtotalLine(subtotal))
    ensures c.text[..|c.text| - 2] == if |productImages| > 2 then [Paragraph(MoreText)] else []
  {
    var productCount := |productImages|;
    var images: seq<ImageRef> := [];
    if productCount > 1 {
      for i := 0 to ShownImages
        invariant images == productImages[..i]
      {
        images := images + [productImages[i]];
      }
    }

    var text: seq<TextNode> := [];
    if productCount > 2 {
      text := text + [Paragraph(MoreText)];
    }
    text := text + [LineBreak];
    text := text + [Paragraph(SubtotalLine(subtotal))];

    HeaderRoundTrip(quantity);
    assert MoreText[0] != SubtotalLine(subtotal)[0];
    c := Content(HeaderText(quantity), images, text);
  }
}
