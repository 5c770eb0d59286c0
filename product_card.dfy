/** The product tile of the listings: its "Add" line and when it offers "Customize". */
module ProductCard {
  import opened Wrappers
  import Catalog
  import CartContext
  import ProductDetail
  import ProductFilter

  /** `showCustomizeButton` when the caller does not set it. */
  const DefaultShowCustomizeButton: bool := true

  /** The line the tile's "Add" button submits: one plain unit of the product. */
  function CardItem(product: Catalog.Product): (r: CartContext.CartItem)
    requires |product.images| > 0
    ensures r.productId == product.id && r.name == product.name && r.price == product.price
    ensures r.image == product.images[0] && r.quantity == 1
    ensures !r.isCustom && r.customOptions.None? && r.weight.None?
  {
    CartContext.CartItem(
      id := "",
      productId := product.id,
      name := product.name,
      price := product.price,
      quantity := 1,
      image := product.images[0],
      isCustom := false,
      customOptions := None,
      weight := None)
  }

  /**
   * The tile submits the same line the product page does at quantity 1, and at any
   * quantity the two lines share a merge identity, so they end up on one cart line.
   */
  lemma CardItemIsDetailItemOfOne(product: Catalog.Product, quantity: int)
    requires |product.images| > 0
    ensures CardItem(product) == ProductDetail.DetailItem(product, 1)
    ensures CartContext.SameLine(CardItem(product), ProductDetail.DetailItem(product, quantity))
    ensures CartContext.SameLine(ProductDetail.DetailItem(product, quantity), CardItem(product))
  {
  }

  /**
   * Whether the tile shows its "Customize" link. `showCustomizeButton` is the optional prop
   * (none when the caller omits it, which means the default).
   */
  predicate ShowsCustomizeLink(product: Catalog.Product, showCustomizeButton: Option<bool>) {
    product.isCustomizable && showCustomizeButton.GetOr(DefaultShowCustomizeButton)
  }

  /**
   * The listing renders one tile per listed product without the prop, so the link shows
   * exactly on the customisable products it lists.
   */
  lemma ListingLinksExactlyCustomizable(page: ProductFilter.ProductsPage)
    ensures forall j :: 0 <= j < |page.filteredProducts| ==>
              (ShowsCustomizeLink(page.filteredProducts[j], None) <==> page.filteredProducts[j].isCustomizable)
  {
  }

  /** The product page's related strip passes `false`, so none of its tiles shows the link. */
  lemma RelatedStripHasNoLinks(page: ProductDetail.ProductDetailPage)
    ensures forall j :: 0 <= j < |page.Related()| ==> !ShowsCustomizeLink(page.Related()[j], Some(false))
  {
  }

  /** An explicit `true` behaves as omitting the prop. */
  lemma ExplicitTrueIsDefault(product: Catalog.Product)
    ensures ShowsCustomizeLink(product, Some(true)) == ShowsCustomizeLink(product, None)
  {
  }
}
