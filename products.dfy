/** The product records the catalogue and the product pages pass around. */
module ProductTypes {
  import opened Wrappers

  /** `Product`: one catalogue entry. */
  datatype Product = Product(
    id: string,
    name: string,
    price: real,
    category: string,
    rating: real,
    isNew: bool,
    image: string,
    imageAlt: string)

  /** `ProductImage`. */
  datatype ProductImage = ProductImage(url: string, alt: string)

  /**
   * `ProductDetails`: a product (with its rating replaced by the generated
   * summary) and the fields of the detail page; `specifications` is the
   * `Record<string, string>` as a map.
   */
  datatype ProductDetails = ProductDetails(
    product: Product,
    sku: string,
    description: string,
    discount: Option<real>,
    reviewCount: int,
    inStock: bool,
    stockCount: nat,
    images: seq<ProductImage>,
    colors: Option<seq<string>>,
    sizes: Option<seq<string>>,
    features: seq<string>,
    specifications: map<string, string>)

  /** `ProductFilters`: the dashboard's search text, category and price bounds. */
  datatype ProductFilters = ProductFilters(search: string, category: string, minPrice: Option<real>, maxPrice: Option<real>)
}
