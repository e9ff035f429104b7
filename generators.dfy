/**
 * `generateProducts`: `count` mock products. The `Math.sin` draw for a seed
 * is the parameter `draw`; `PRODUCT_NAMES` and `PRODUCT_CATEGORIES` are the
 * parameters `names` and `categories`.
 */
module ProductGenerator {
  import opened Text
  import opened Numbers
  import opened SeededRandom
  import opened ProductTypes

  /** The product at position `index`. */
  function MakeProduct(index: nat, names: seq<string>, categories: seq<string>, draw: int -> Fraction): (p: Product)
    requires |names| > 0 && |categories| > 0
    ensures 10.0 <= p.price <= 510.0 && 3.0 <= p.rating <= 5.0
    ensures p.isNew <==> index % 50 == 0
    ensures p.category == categories[index % |categories|] && StartsWith(p.name, names[index % |names|])
  {
    RoundToWithin(draw(index) * 500.0 + 10.0, 100, 10, 510);
    RoundToWithin(draw(index + 50) * 2.0 + 3.0, 10, 3, 5);
    assert (names[index % |names|] + " - Model " + NatToString(index + 1))[..|names[index % |names|]|] == names[index % |names|];
    var category := categories[index % |categories|];
    var name := names[index % |names|];
    Product(
      "product-" + NatToString(index + 1),
      name + " - Model " + NatToString(index + 1),
      RoundTo(draw(index) * 500.0 + 10.0, 100),
      category,
      RoundTo(draw(index + 50) * 2.0 + 3.0, 10),
      index % 50 == 0,
      "https://picsum.photos/seed/" + NatToString(index) + "/400/600",
      name + " in " + category + " category")
  }

  function GenerateProducts(count: nat, names: seq<string>, categories: seq<string>, draw: int -> Fraction): (r: seq<Product>)
    requires |names| > 0 && |categories| > 0
    ensures |r| == count
    ensures forall i :: 0 <= i < count ==> r[i] == MakeProduct(i, names, categories, draw)
  {
    seq(count, i requires 0 <= i < count => MakeProduct(i, names, categories, draw))
  }

  /** Generated ids are pairwise distinct. */
  lemma GeneratedIdsUnique(count: nat, names: seq<string>, categories: seq<string>, draw: int -> Fraction, i: nat, j: nat)
    requires |names| > 0 && |categories| > 0
    requires i < count && j < count && i != j
    ensures GenerateProducts(count, names, categories, draw)[i].id != GenerateProducts(count, names, categories, draw)[j].id
  {
    if "product-" + NatToString(i + 1) == "product-" + NatToString(j + 1) {
      PrefixedNumberInjective("product-", i + 1, j + 1);
    }
  }

  /** Prices lie in [10, 510], ratings in [3, 5]; every fiftieth product is new; names and categories cycle. */
  lemma GeneratedProductFacts(count: nat, names: seq<string>, categories: seq<string>, draw: int -> Fraction, i: nat)
    requires |names| > 0 && |categories| > 0 && i < count
    ensures var p := GenerateProducts(count, names, categories, draw)[i];
      10.0 <= p.price <= 510.0 && 3.0 <= p.rating <= 5.0 &&
      (p.isNew <==> i % 50 == 0) &&
      p.category == categories[i % |categories|] &&
      StartsWith(p.name, names[i % |names|])
  {
    RoundToWithin(draw(i) * 500.0 + 10.0, 100, 10, 510);
    RoundToWithin(draw(i + 50) * 2.0 + 3.0, 10, 3, 5);
    var name := names[i % |names|];
    assert (name + " - Model " + NatToString(i + 1))[..|name|] == name;
  }
}

/** `generateRatingFromProductId`, from the seed its id yields. */
module RatingGenerator {
  import opened Numbers
  import opened SeededRandom

  datatype RatingSummary = RatingSummary(rating: real, reviewCount: int)

  function GenerateRating(seed: int, draw: int -> Fraction): (r: RatingSummary)
    ensures 3.0 <= r.rating <= 5.0
    ensures 50 <= r.reviewCount <= 1549
  {
    RoundToWithin(draw(seed + 50) * 2.0 + 3.0, 10, 3, 5);
    RatingSummary(RoundTo(draw(seed + 50) * 2.0 + 3.0, 10), (draw(seed + 100) * 1500.0).Floor + 50)
  }
}

/**
 * `generateProductDetails`: the product's fields, a rating summary, and
 * fields drawn from one value `rand` (the raw draw, or 0.5 when it is not
 * finite).
 */
module DetailsGenerator {
  import opened Wrappers
  import opened Seqs
  import opened Text
  import opened Numbers
  import opened SeededRandom
  import opened ProductTypes
  import opened RatingGenerator

  const Colors: seq<string> := ["Black", "White", "Blue", "Rose Gold"]
  const Sizes: seq<string> := ["Small", "Medium", "Large"]
  const Features: seq<string> := ["High quality build", "Premium finish", "Extended durability", "Advanced configuration"]
  const Description: string := "Premium quality product with advanced configuration and durable materials."

  function GalleryImage(product: Product, i: nat): ProductImage {
    ProductImage(
      "https://picsum.photos/seed/" + product.id + "-" + NatToString(i) + "/800/800",
      product.name + " image " + NatToString(i + 1))
  }

  /** `(rand * 2 + 0.5).toFixed(2) + " kg"`. */
  function WeightText(rand: Fraction): (r: string)
    ensures |r| > 3 && r[|r| - 3..] == " kg"
  {
    var hundredths := ((rand * 2.0 + 0.5) * 100.0 + 0.5).Floor;
    FixedTwo(hundredths) + " kg"
  }

  function GenerateProductDetails(product: Product, raw: Sample, summary: RatingSummary): (d: ProductDetails)
    ensures d.product == product.(rating := summary.rating)
    ensures d.reviewCount == summary.reviewCount
    ensures |d.images| == 5
  {
    var rand := OrHalf(raw);
    ProductDetails(
      product.(rating := summary.rating),
      "SKU-" + product.id,
      Description,
      Some(if rand > 0.6 then (rand * 30.0).Floor as real else 0.0),
      summary.reviewCount,
      rand > 0.2,
      (rand * 100.0).Floor,
      seq(5, i requires 0 <= i < 5 => GalleryImage(product, i)),
      Some(Take(Colors, (rand * 4.0).Floor + 1)),
      Some(Sizes),
      Features,
      map["Weight" := WeightText(rand), "Material" := "Aluminium", "Warranty" := "1 Year"])
  }

  /** The drawn fields and their ranges; a non-finite draw behaves as 0.5. */
  lemma DetailsFacts(product: Product, raw: Sample, summary: RatingSummary)
    ensures var d := GenerateProductDetails(product, raw, summary);
      var rand := if raw.Finite? then raw.value else 0.5;
      d.sku == "SKU-" + product.id &&
      (rand > 0.6 ==> d.discount == Some((rand * 30.0).Floor as real) && 18.0 <= d.discount.value <= 29.0) &&
      (rand <= 0.6 ==> d.discount == Some(0.0)) &&
      (d.inStock <==> rand > 0.2) &&
      0 <= d.stockCount <= 99 &&
      (d.inStock ==> d.stockCount >= 20) &&
      d.colors.Some? && 1 <= |d.colors.value| <= 4 &&
      (forall i :: 0 <= i < |d.colors.value| ==> d.colors.value[i] == Colors[i]) &&
      d.sizes == Some(Sizes)
  {
  }

  /** Image `i` is the `i`-th gallery picture, with alt text "<name> image <i+1>". */
  lemma DetailsImages(product: Product, raw: Sample, summary: RatingSummary, i: nat)
    requires i < 5
    ensures GenerateProductDetails(product, raw, summary).images[i] == GalleryImage(product, i)
    ensures GenerateProductDetails(product, raw, summary).images[i].alt == product.name + " image " + NatToString(i + 1)
  {
  }
}

/**
 * `generateProductReviews`, dates excluded: between three and eight reviews
 * whose fields come from per-review draws, and the summary of the rating
 * generator for the totals.
 */
module ReviewsGenerator {
  import opened Text
  import opened SeededRandom
  import opened ProductTypes
  import opened RatingGenerator

  datatype Review = Review(
    id: nat,
    author: string,
    avatar: string,
    avatarAlt: string,
    rating: int,
    verified: bool,
    title: string,
    content: string,
    helpful: int,
    images: seq<ProductImage>)

  datatype ReviewsData = ReviewsData(averageRating: real, totalReviews: int, reviews: seq<Review>)

  const Authors: seq<string> := ["Sarah Johnson", "Michael Chen", "Emily Rodriguez", "James Patel", "Aisha Khan", "Daniel Brooks"]
  const Titles: seq<string> := ["Excellent product quality!", "Worth the price", "Highly recommended", "Good but has minor issues", "Amazing performance"]
  const Content: seq<string> := [
    "This product exceeded expectations. Build quality is excellent.",
    "Very reliable and easy to use. Would purchase again.",
    "Performance is consistent and materials feel premium.",
    "Customer support was helpful and responsive.",
    "Good balance between price and quality."]

  /** The review at `index`, from the draw `r` for seed `seed + 3 * index`. */
  function MakeReview(seed: nat, index: nat, r: Fraction): (v: Review)
    ensures v.id == index + 1 && (v.rating == 3 || v.rating == 4) && 0 <= v.helpful <= 39
    ensures v.verified <==> r > 0.3
    ensures |v.images| <= 1 && (|v.images| == 1 <==> r > 0.6)
  {
    Review(
      index + 1,
      Authors[index % |Authors|],
      "https://i.pravatar.cc/150?img=" + NatToString((seed + index) % 70),
      "Reviewer avatar",
      (r * 2.0).Floor + 3,
      r > 0.3,
      Titles[index % |Titles|],
      Content[index % |Content|],
      (r * 40.0).Floor,
      if r > 0.6 then [ProductImage("https://picsum.photos/seed/review-" + NatToString(seed) + "-" + NatToString(index) + "/300/300", "Review image")]
      else [])
  }

  function GenerateProductReviews(seed: nat, raw: Sample, draw: int -> Fraction, summary: RatingSummary): (d: ReviewsData)
    ensures 3 <= |d.reviews| <= 8
    ensures d.averageRating == summary.rating && d.totalReviews == summary.reviewCount
  {
    var rand := OrHalf(raw);
    var count := (rand * 6.0).Floor + 3;
    ReviewsData(summary.rating, summary.reviewCount,
      seq(count, i requires 0 <= i < count => MakeReview(seed, i, draw(seed + i * 3))))
  }

  /** Each review's fields: ids count from 1, texts cycle, and the drawn values keep their ranges. */
  lemma ReviewFacts(seed: nat, raw: Sample, draw: int -> Fraction, summary: RatingSummary, i: nat)
    requires i < |GenerateProductReviews(seed, raw, draw, summary).reviews|
    ensures var v := GenerateProductReviews(seed, raw, draw, summary).reviews[i];
      var r := draw(seed + i * 3);
      v.id == i + 1 &&
      v.author == Authors[i % 6] && v.title == Titles[i % 5] && v.content == Content[i % 5] &&
      (v.rating == 3 || v.rating == 4) &&
      (v.verified <==> r > 0.3) &&
      0 <= v.helpful <= 39 &&
      (|v.images| == 1 <==> r > 0.6) && |v.images| <= 1
  {
  }
}

/**
 * `getRelatedProducts` and `useRelatedProducts` (the same selection with the
 * limit 4): the other products, in the given category when one is given,
 * the first `limit` of them, each expanded by the details generator.
 */
module RelatedProducts {
  import opened Wrappers
  import opened Seqs
  import opened ProductTypes

  /** `!category || p.category === category`: an absent or empty category admits every product. */
  predicate InCategory(p: Product, category: Option<string>) {
    category.None? || category.value == "" || p.category == category.value
  }

  predicate Eligible(p: Product, currentId: string, category: Option<string>) {
    p.id != currentId && InCategory(p, category)
  }

  /** The products chosen before they are expanded. */
  function RelatedCandidates(products: seq<Product>, currentId: string, category: Option<string>, limit: int): (s: seq<Product>)
    ensures |s| <= |products| && (limit >= 0 ==> |s| <= limit) && (limit < 0 ==> |s| <= |products| + limit || s == [])
    ensures forall p :: p in s ==> p in products && Eligible(p, currentId, category)
  {
    Take(Filter((p: Product) => InCategory(p, category), Filter((p: Product) => p.id != currentId, products)), limit)
  }

  function GetRelatedProducts(products: seq<Product>, currentId: string, category: Option<string>, limit: int,
                              details: Product -> ProductDetails): (r: seq<ProductDetails>)
    ensures |r| == |RelatedCandidates(products, currentId, category, limit)|
    ensures forall i :: 0 <= i < |r| ==> r[i] == details(RelatedCandidates(products, currentId, category, limit)[i])
  {
    Map(details, RelatedCandidates(products, currentId, category, limit))
  }

  /** `useRelatedProducts(productId, category)`. */
  function UseRelatedProducts(products: seq<Product>, productId: string, category: Option<string>,
                              details: Product -> ProductDetails): (r: seq<ProductDetails>)
    ensures |r| <= 4
  {
    GetRelatedProducts(products, productId, category, 4, details)
  }

  /**
   * The candidates are the eligible products in input order, cut at `limit`:
   * fewer than `limit` of them means every eligible product was taken, and a
   * negative `limit` drops that many eligible products from the end.
   */
  lemma {:induction false} CandidatesArePrefixOfEligible(products: seq<Product>, currentId: string, category: Option<string>, limit: int)
    ensures var s := RelatedCandidates(products, currentId, category, limit);
      var eligible := Filter((p: Product) => Eligible(p, currentId, category), products);
      |s| == (if limit >= |eligible| then |eligible| else if limit >= 0 then limit
              else if |eligible| + limit > 0 then |eligible| + limit else 0) &&
      (forall i :: 0 <= i < |s| ==> s[i] == eligible[i]) &&
      (|s| < limit ==> s == eligible)
  {
    var notCurrent := (p: Product) => p.id != currentId;
    var inCategory := (p: Product) => InCategory(p, category);
    var both := (p: Product) => Eligible(p, currentId, category);
    forall x ensures both(x) == (notCurrent(x) && inCategory(x)) {
    }
    FilterFilter(notCurrent, inCategory, both, products);
  }

  /** Example: `slice(0, -1)` over three eligible products keeps the first two. */
  lemma NegativeLimitDropsFromEnd(a: Product, b: Product, c: Product, currentId: string)
    requires a.id != currentId && b.id != currentId && c.id != currentId
    ensures RelatedCandidates([a, b, c], currentId, None, -1) == [a, b]
  {
    var both := (p: Product) => Eligible(p, currentId, None);
    FilterKeepsAll(both, [a, b, c]);
    CandidatesArePrefixOfEligible([a, b, c], currentId, None, -1);
  }

  /** The current product never shows among its related products. */
  lemma CurrentProductExcluded(products: seq<Product>, currentId: string, category: Option<string>, limit: int, i: nat)
    requires i < |RelatedCandidates(products, currentId, category, limit)|
    ensures RelatedCandidates(products, currentId, category, limit)[i].id != currentId
    ensures category.Some? && category.value != "" ==> RelatedCandidates(products, currentId, category, limit)[i].category == category.value
  {
    var s := RelatedCandidates(products, currentId, category, limit);
    assert s[i] in s;
  }
}
