/**
 * `useProductsSorting`: a copy of the product list ordered by name (the
 * default), by price either way, or by rating from the highest down.
 * The model sorts by insertion; what it proves is that the result is a
 * sorted permutation of the input.
 */
module ProductsSorting {
  import opened Text
  import opened ProductTypes

  /** `ProductsSortOption`. */
  datatype SortOption = Name | PriceLowHigh | PriceHighLow | Rating

  /** The comparator of `option` puts `a` no later than `b` (it returns zero or less). */
  predicate Before(option: SortOption, a: Product, b: Product) {
    match option
    case PriceLowHigh => a.price <= b.price
    case PriceHighLow => b.price <= a.price
    case Rating => b.rating <= a.rating
    case Name => LexLe(a.name, b.name)
  }

  lemma BeforeTotal(option: SortOption, a: Product, b: Product)
    ensures Before(option, a, b) || Before(option, b, a)
  {
    if option.Name? {
      LexLeTotal(a.name, b.name);
    }
  }

  lemma BeforeTransitive(option: SortOption, a: Product, b: Product, c: Product)
    requires Before(option, a, b) && Before(option, b, c)
    ensures Before(option, a, c)
  {
    if option.Name? {
      LexLeTransitive(a.name, b.name, c.name);
    }
  }

  /** Each product is placed no later than the next one. */
  predicate Sorted(option: SortOption, s: seq<Product>) {
    forall i :: 0 < i < |s| ==> Before(option, s[i - 1], s[i])
  }

  /** Places `x` before the first product it may precede. */
  function Insert(option: SortOption, x: Product, s: seq<Product>): (r: seq<Product>)
    ensures multiset(r) == multiset(s) + multiset{x}
    ensures |r| == |s| + 1
    ensures r[0] == x || (s != [] && r[0] == s[0])
  {
    if s == [] then [x]
    else if Before(option, x, s[0]) then [x] + s
    else
      assert s == [s[0]] + s[1..];
      [s[0]] + Insert(option, x, s[1..])
  }

  /** `[...products].sort(comparator(option))`. */
  function SortProducts(products: seq<Product>, option: SortOption): (r: seq<Product>)
    ensures multiset(r) == multiset(products)
    ensures |r| == |products|
  {
    if products == [] then []
    else
      assert products == [products[0]] + products[1..];
      Insert(option, products[0], SortProducts(products[1..], option))
  }

  lemma {:induction false} InsertSorted(option: SortOption, x: Product, s: seq<Product>)
    requires Sorted(option, s)
    ensures Sorted(option, Insert(option, x, s))
  {
    if s != [] && !Before(option, x, s[0]) {
      BeforeTotal(option, x, s[0]);
      InsertSorted(option, x, s[1..]);
      var t := Insert(option, x, s[1..]);
      assert Insert(option, x, s) == [s[0]] + t;
      if |s| > 1 {
        assert Before(option, s[0], s[1]);
      }
    }
  }

  /** The sorted copy is in the order of the comparator. */
  lemma {:induction false} SortProductsSorted(products: seq<Product>, option: SortOption)
    ensures Sorted(option, SortProducts(products, option))
  {
    if products != [] {
      SortProductsSorted(products[1..], option);
      InsertSorted(option, products[0], SortProducts(products[1..], option));
    }
  }

  /** In a sorted list every product may precede every later one, not just its neighbour. */
  lemma {:induction false} SortedPairwise(option: SortOption, s: seq<Product>, i: int, j: int)
    requires Sorted(option, s) && 0 <= i < j < |s|
    ensures Before(option, s[i], s[j])
    decreases j - i
  {
    if i + 1 < j {
      SortedPairwise(option, s, i + 1, j);
      BeforeTransitive(option, s[i], s[i + 1], s[j]);
    }
  }

  /** A list already in order comes back unchanged; in particular sorting twice is sorting once. */
  lemma {:induction false} SortSortedIsIdentity(products: seq<Product>, option: SortOption)
    requires Sorted(option, products)
    ensures SortProducts(products, option) == products
  {
    if products != [] {
      SortSortedIsIdentity(products[1..], option);
      if |products| > 1 {
        assert Before(option, products[0], products[1]);
      }
      assert products == [products[0]] + products[1..];
    }
  }

  lemma SortIdempotent(products: seq<Product>, option: SortOption)
    ensures SortProducts(SortProducts(products, option), option) == SortProducts(products, option)
  {
    SortProductsSorted(products, option);
    SortSortedIsIdentity(SortProducts(products, option), option);
  }
}
