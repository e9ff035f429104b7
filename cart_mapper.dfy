/** `mapProductToCartItem`: the cart line a product page adds. */
module CartMapper {
  import opened Wrappers
  import opened ProductTypes
  import opened CartStore

  /**
   * The line for `product` in `configuration`: the first gallery image (and
   * its alt text) when there is one, else the catalogue image; stock flags
   * copied from the details.
   */
  function MapProductToCartItem(product: ProductDetails, configuration: Option<Config>): (r: ItemInfo)
    ensures KeyFor(r.id, r.configuration) == KeyFor(product.product.id, configuration)
    ensures r.name == product.product.name && r.category == product.product.category
    ensures r.price == product.product.price && r.discount == product.discount
    ensures r.configuration == configuration
    ensures r.stockCount == Some(product.stockCount) && r.inStock == Some(product.inStock)
    ensures |product.images| > 0 ==> r.image == Some(product.images[0].url) && r.imageAlt == Some(product.images[0].alt)
    ensures |product.images| == 0 ==> r.image == Some(product.product.image) && r.imageAlt == Some(product.product.imageAlt)
  {
    ItemInfo(
      product.product.id,
      product.product.name,
      product.product.category,
      product.product.price,
      product.discount,
      Some(if |product.images| > 0 then product.images[0].url else product.product.image),
      Some(if |product.images| > 0 then product.images[0].alt else product.product.imageAlt),
      Some(product.inStock),
      Some(product.stockCount),
      configuration)
  }

  /**
   * Adding the same product twice gives one line exactly when the two
   * configurations are the same; otherwise two lines.
   */
  lemma MappedItemsMergeIffSameConfig(product: ProductDetails, a: Option<Config>, b: Option<Config>, qa: int, qb: int)
    ensures var cart := AddItemTo(AddItemTo([], MapProductToCartItem(product, a), qa), MapProductToCartItem(product, b), qb);
      (|cart| == 1 <==> IsSameConfig(a, b)) &&
      (IsSameConfig(a, b) ==> cart[0].quantity == SafeQty(qa) + SafeQty(qb)) &&
      (!IsSameConfig(a, b) ==> |cart| == 2)
  {
    var first := AddItemTo([], MapProductToCartItem(product, a), qa);
    assert first == [CartItem(MapProductToCartItem(product, a), SafeQty(qa))];
    if IsSameConfig(a, b) {
      assert Matches(first[0], product.product.id, b);
      assert HasLine(first, product.product.id, b);
    } else {
      assert !HasLine(first, product.product.id, b);
    }
  }
}
