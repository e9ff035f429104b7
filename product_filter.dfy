/**
 * `filterProducts` (also the body of the dashboard's `useFilteredProducts`):
 * keep the products whose lower-cased name contains the lower-cased search,
 * in the chosen category ("all" for any) and inside the optional price
 * bounds, in their original order.
 */
module ProductFilter {
  import opened Wrappers
  import opened Seqs
  import opened Text
  import opened ProductTypes

  predicate MatchesFilters(p: Product, f: ProductFilters) {
    Contains(Lower(p.name), Lower(f.search)) &&
    (f.category == "all" || p.category == f.category) &&
    (f.minPrice.None? || p.price >= f.minPrice.value) &&
    (f.maxPrice.None? || p.price <= f.maxPrice.value)
  }

  function FilterProducts(products: seq<Product>, f: ProductFilters): seq<Product> {
    Filter((p: Product) => MatchesFilters(p, f), products)
  }

  /** The result is exactly the matching products, in their original order. */
  lemma FilterProductsSpec(products: seq<Product>, f: ProductFilters)
    ensures forall p :: p in FilterProducts(products, f) <==> p in products && MatchesFilters(p, f)
    ensures IsSubsequence(FilterProducts(products, f), products)
    ensures FilterProducts(FilterProducts(products, f), f) == FilterProducts(products, f)
  {
    FilterIsSubsequence((p: Product) => MatchesFilters(p, f), products);
    FilterIdempotent((p: Product) => MatchesFilters(p, f), products);
  }

  /** The dashboard's initial filters keep every product. */
  lemma DefaultFiltersKeepAll(products: seq<Product>)
    ensures FilterProducts(products, ProductFilters("", "all", None, None)) == products
  {
    var f := ProductFilters("", "all", None, None);
    forall i | 0 <= i < |products| ensures MatchesFilters(products[i], f) {
      ContainsEmpty(Lower(products[i].name));
    }
    FilterKeepsAll((p: Product) => MatchesFilters(p, f), products);
  }

  /** An empty price range keeps nothing. */
  lemma EmptyPriceRangeKeepsNothing(products: seq<Product>, f: ProductFilters)
    requires f.minPrice.Some? && f.maxPrice.Some? && f.minPrice.value > f.maxPrice.value
    ensures FilterProducts(products, f) == []
  {
    FilterKeepsNone((p: Product) => MatchesFilters(p, f), products);
  }
}

/**
 * The products page's `useFilteredProducts`: like `filterProducts`, but an
 * empty search or category is ignored, and it adds a multi-category list
 * (empty for any) and an optional minimum rating.
 */
module PageFilter {
  import opened Wrappers
  import opened Seqs
  import opened Text
  import opened ProductTypes
  import ProductFilter

  /** `ProductsPageFilters`. */
  datatype PageFilters = PageFilters(
    search: string,
    category: string,
    minPrice: Option<real>,
    maxPrice: Option<real>,
    categories: seq<string>,
    minRating: Option<real>)

  /** `p` meets an optional minimum rating. */
  predicate RatingAtLeast(p: Product, minRating: Option<real>) {
    minRating.None? || p.rating >= minRating.value
  }

  predicate PageMatches(p: Product, f: PageFilters) {
    (f.search == "" || Contains(Lower(p.name), Lower(f.search))) &&
    (f.category == "" || f.category == "all" || p.category == f.category) &&
    (|f.categories| == 0 || p.category in f.categories) &&
    (f.minPrice.None? || p.price >= f.minPrice.value) &&
    (f.maxPrice.None? || p.price <= f.maxPrice.value) &&
    RatingAtLeast(p, f.minRating)
  }

  function PageFilteredProducts(products: seq<Product>, f: PageFilters): seq<Product> {
    Filter((p: Product) => PageMatches(p, f), products)
  }

  function Domain(f: PageFilters): ProductFilters {
    ProductFilters(f.search, f.category, f.minPrice, f.maxPrice)
  }

  /**
   * With no category list, no rating bound and a category set, the page
   * filter is the domain filter; with an empty category it keeps what the
   * domain filter would drop.
   */
  lemma PageFilterExtendsDomainFilter(products: seq<Product>, f: PageFilters)
    requires |f.categories| == 0 && f.minRating.None? && f.category != ""
    ensures PageFilteredProducts(products, f) == ProductFilter.FilterProducts(products, Domain(f))
  {
    forall i | 0 <= i < |products|
      ensures PageMatches(products[i], f) == ProductFilter.MatchesFilters(products[i], Domain(f))
    {
      ContainsEmpty(Lower(products[i].name));
      assert f.search == "" ==> Lower(f.search) == "";
    }
    FilterAgree((p: Product) => PageMatches(p, f), (p: Product) => ProductFilter.MatchesFilters(p, Domain(f)), products);
  }

  lemma EmptyCategoryDiffers()
    ensures var p := Product("product-1", "Desk", 20.0, "Office", 4.0, false, "", "");
      var f := PageFilters("", "", None, None, [], None);
      PageFilteredProducts([p], f) == [p] && ProductFilter.FilterProducts([p], Domain(f)) == []
  {
    var p := Product("product-1", "Desk", 20.0, "Office", 4.0, false, "", "");
    var f := PageFilters("", "", None, None, [], None);
    assert !ProductFilter.MatchesFilters(p, Domain(f));
  }

  /** Adding a rating bound filters the result of the page filter without it. */
  lemma RatingBoundRefines(products: seq<Product>, f: PageFilters)
    ensures PageFilteredProducts(products, f) ==
      Filter((p: Product) => RatingAtLeast(p, f.minRating), PageFilteredProducts(products, f.(minRating := None)))
  {
    var g := f.(minRating := None);
    var loose := (p: Product) => PageMatches(p, g);
    var bound := (p: Product) => RatingAtLeast(p, f.minRating);
    var both := (p: Product) => PageMatches(p, f);
    assert PageFilteredProducts(products, g) == Filter(loose, products);
    assert PageFilteredProducts(products, f) == Filter(both, products);
    forall x ensures both(x) == (loose(x) && bound(x)) {
    }
    FilterFilter(loose, bound, both, products);
  }

  const DefaultFilters: PageFilters := PageFilters("", "all", None, None, [], None)

  /** The default page filters keep every product. */
  lemma DefaultPageFiltersKeepAll(products: seq<Product>)
    ensures PageFilteredProducts(products, DefaultFilters) == products
  {
    FilterKeepsAll((p: Product) => PageMatches(p, DefaultFilters), products);
  }
}
