/**
 * `useProductsFiltersState`: the products page's filters, updated by
 * shallow merge of the fields a caller supplies and reset to the defaults.
 */
module FilterState {
  import opened Wrappers
  import opened PageFilter

  /** `Partial<ProductsPageFilters>`: `Some` for a field the caller supplies. */
  datatype PartialFilters = PartialFilters(
    search: Option<string>,
    category: Option<string>,
    minPrice: Option<Option<real>>,
    maxPrice: Option<Option<real>>,
    categories: Option<seq<string>>,
    minRating: Option<Option<real>>)

  const NoChange: PartialFilters := PartialFilters(None, None, None, None, None, None)

  /** `{ ...prev, ...partial }`. */
  function Merge(prev: PageFilters, partial: PartialFilters): (r: PageFilters)
    ensures r.search == partial.search.GetOr(prev.search)
    ensures r.category == partial.category.GetOr(prev.category)
    ensures r.minPrice == partial.minPrice.GetOr(prev.minPrice)
    ensures r.maxPrice == partial.maxPrice.GetOr(prev.maxPrice)
    ensures r.categories == partial.categories.GetOr(prev.categories)
    ensures r.minRating == partial.minRating.GetOr(prev.minRating)
  {
    PageFilters(
      partial.search.GetOr(prev.search),
      partial.category.GetOr(prev.category),
      partial.minPrice.GetOr(prev.minPrice),
      partial.maxPrice.GetOr(prev.maxPrice),
      partial.categories.GetOr(prev.categories),
      partial.minRating.GetOr(prev.minRating))
  }

  /** Merging an empty partial changes nothing. */
  lemma MergeNoChange(prev: PageFilters)
    ensures Merge(prev, NoChange) == prev
  {
  }

  /** Applying the same update twice is applying it once. */
  lemma MergeIdempotent(prev: PageFilters, partial: PartialFilters)
    ensures Merge(Merge(prev, partial), partial) == Merge(prev, partial)
  {
  }

  /** A partial that supplies every field replaces the filters outright. */
  lemma MergeFullReplaces(prev: PageFilters, next: PageFilters)
    ensures Merge(prev, PartialFilters(Some(next.search), Some(next.category), Some(next.minPrice),
                                       Some(next.maxPrice), Some(next.categories), Some(next.minRating))) == next
  {
  }

  class FiltersState {
    var filters: PageFilters

    /** Starts from `DEFAULT_FILTERS`. */
    constructor ()
      ensures filters == DefaultFilters
    {
      filters := DefaultFilters;
    }

    /** `updateFilters(partial)`. */
    method UpdateFilters(partial: PartialFilters)
      modifies this
      ensures filters == Merge(old(filters), partial)
    {
      filters := Merge(filters, partial);
    }

    /** `resetFilters()`. */
    method ResetFilters()
      modifies this
      ensures filters == DefaultFilters
    {
      filters := DefaultFilters;
    }
  }
}
