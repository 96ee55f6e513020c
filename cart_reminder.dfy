/** Page load: the script reads the mini-cart once, builds the hidden modal
    from it, and hands the product count to the visibility controller. */
module CartReminder {
  import opened ModalContent
  import opened Visibility

  /** Runs the script's top level. The controller's guard and the builder's
      agree: thumbnails are placed in the body exactly when the modal can ever
      be opened. */
  method Install(quantity: string, productImages: seq<ImageRef>, subtotal: Option<string>)
    returns (content: Content, controller: Controller)
    requires forall i, j :: 0 <= i < j < |productImages| ==> productImages[i] != productImages[j]
    ensures fresh(controller)
    ensures controller.productCount == |productImages|
    ensures controller.Current() == Initial
    ensures HeaderQuantity(content.header) == Some(quantity)
    ensures content.images == [] <==> controller.productCount <= 1
    ensures controller.productCount > 1 ==> content.images == productImages[..ShownImages]
    ensures Paragraph(MoreText) in content.text <==> controller.productCount > 2
    ensures |content.text| >= 2 && content.text[|content.text| - 1] == Paragraph(SubtotalLine(subtotal))
  {
    content := Assemble(quantity, productImages, subtotal);
    controller := new Controller(|productImages|);
  }

  /** Three products, badge "3", subtotal "$45.00": the body's thumbnails. */
  method ThreeProductImages()
  {
    var imgs := [ImageRef(0), ImageRef(1), ImageRef(2)];
    assert forall i :: 0 <= i < |imgs| ==> imgs[i].element == i;
    var content := Assemble("3", imgs, Some("$45.00"));
    assert |content.images| == 2 && content.images[0] == imgs[0] && content.images[1] == imgs[1];
    assert content.images == [ImageRef(0), ImageRef(1)];
  }

  /** The same cart: the header and the text block. */
  method ThreeProductText()
  {
    var imgs := [ImageRef(0), ImageRef(1), ImageRef(2)];
    assert forall i :: 0 <= i < |imgs| ==> imgs[i].element == i;
    var content := Assemble("3", imgs, Some("$45.00"));
    assert content.header == "You have 3 items in your cart" by {
      assert HeaderText("3") == content.header;
    }
    assert content.text[..|content.text| - 2] == [Paragraph("...and more in your cart")];
    assert content.text[|content.text| - 1] == Paragraph("Subtotal: $45.00");
  }

  /** With three products the modal opens near the bottom, stays closed while
      the shopper lingers there after closing it, and opens again only after
      leaving the bottom zone and coming back. */
  method ThreeProductScrolling()
  {
    var c := new Controller(3);
    c.OnScroll(95.0, 100.0);
    assert c.visible;
    c.ClickAway(false);
    assert c.visible;
    c.CloseModal();
    c.OnScroll(96.0, 100.0);
    assert !c.visible;
    c.OnScroll(50.0, 100.0);
    assert !c.scrolledDown && !c.visible;
    c.OnScroll(95.0, 100.0);
    assert c.visible;
    c.ClickAway(true);
    assert !c.visible && c.scrolledDown;
  }
}
