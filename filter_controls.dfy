/**
 * The dashboard's `FilterToolbar`: four text inputs, the filter object it
 * emits from them, the category options, and the reset button.
 */
module FilterToolbar {
  import opened Wrappers
  import opened Seqs
  import opened Text
  import Select

  /** What `Number(text)` yields: a number or `NaN`. */
  datatype JsNumber = Num(value: real) | NaN

  /** `parseNumber(value)`; `number` is JavaScript's `Number` on the text. */
  function ParseNumber(value: string, number: string -> JsNumber): (r: Option<JsNumber>)
    ensures r.None? <==> forall i :: 0 <= i < |value| ==> IsSpace(value[i])
    ensures r.Some? ==> r.value == number(value)
  {
    TrimEmptyIff(value);
    if Trim(value) != [] then Some(number(value)) else None
  }

  /** `FilterValues`, with `None` for a `null` bound. */
  datatype FilterValues = FilterValues(search: string, category: string, minPrice: Option<JsNumber>, maxPrice: Option<JsNumber>)

  class Toolbar {
    var searchTerm: string
    var selectedCategory: string
    var minPrice: string
    var maxPrice: string

    constructor ()
      ensures searchTerm == "" && selectedCategory == "all" && minPrice == "" && maxPrice == ""
    {
      searchTerm := "";
      selectedCategory := "all";
      minPrice := "";
      maxPrice := "";
    }

    /** The object passed to `onFilterChange` after every change. */
    function Emitted(number: string -> JsNumber): (f: FilterValues)
      reads this
      ensures f.search == searchTerm && f.category == selectedCategory
      ensures f.minPrice == ParseNumber(minPrice, number) && f.maxPrice == ParseNumber(maxPrice, number)
    {
      FilterValues(searchTerm, selectedCategory, ParseNumber(minPrice, number), ParseNumber(maxPrice, number))
    }

    /** `handleReset`. */
    method HandleReset()
      modifies this
      ensures searchTerm == "" && selectedCategory == "all" && minPrice == "" && maxPrice == ""
    {
      searchTerm := "";
      selectedCategory := "all";
      minPrice := "";
      maxPrice := "";
    }
  }

  /** After a reset the toolbar emits the dashboard's default filters, whatever `Number` does. */
  lemma ResetEmitsDefaults(t: Toolbar, number: string -> JsNumber)
    requires t.searchTerm == "" && t.selectedCategory == "all" && t.minPrice == "" && t.maxPrice == ""
    ensures t.Emitted(number) == FilterValues("", "all", None, None)
  {
  }

  /** A price box holding only blanks is no bound; anything else is parsed. */
  lemma BlankPriceIsNoBound(value: string, number: string -> JsNumber)
    ensures ParseNumber(" " + value, number).None? <==> ParseNumber(value, number).None?
  {
    assert forall i :: 0 < i <= |value| ==> (" " + value)[i] == value[i - 1];
  }

  /** One category option: the value and its label with the first character upper-cased. */
  function CategoryOption(cat: string): (o: Select.SelectOption<string>)
    ensures o.value == cat && o.caption == Capitalize(cat) && !o.disabled
  {
    Select.SelectOption(Capitalize(cat), cat, false)
  }

  /** `categoryOptions`: "All Categories" first, then every category in order. */
  function CategoryOptions(categories: seq<string>): (r: seq<Select.SelectOption<string>>)
    ensures |r| == |categories| + 1
    ensures r[0] == Select.SelectOption("All Categories", "all", false)
    ensures forall i :: 0 <= i < |categories| ==> r[i + 1].value == categories[i] && r[i + 1].caption == Capitalize(categories[i])
  {
    [Select.SelectOption("All Categories", "all", false)] + Map(CategoryOption, categories)
  }
}

/**
 * `ProductsSidebarFilters`: a stateless panel that emits its filters with a
 * patch applied, or the defaults on reset.
 */
module SidebarFilters {
  import opened Wrappers
  import Select

  /** `SidebarFilters`; prices are the raw input text. */
  datatype Sidebar = Sidebar(search: string, category: string, minPrice: string, maxPrice: string, minRating: Option<int>)

  /** `Partial<SidebarFilters>`: `Some` for a field the patch supplies. */
  datatype Patch = Patch(
    search: Option<string>,
    category: Option<string>,
    minPrice: Option<string>,
    maxPrice: Option<string>,
    minRating: Option<Option<int>>)

  /** `update(patch)`: what `onChange` receives. */
  function Update(filters: Sidebar, patch: Patch): (r: Sidebar)
    ensures r.search == patch.search.GetOr(filters.search)
    ensures r.category == patch.category.GetOr(filters.category)
    ensures r.minPrice == patch.minPrice.GetOr(filters.minPrice)
    ensures r.maxPrice == patch.maxPrice.GetOr(filters.maxPrice)
    ensures r.minRating == patch.minRating.GetOr(filters.minRating)
  {
    Sidebar(
      patch.search.GetOr(filters.search),
      patch.category.GetOr(filters.category),
      patch.minPrice.GetOr(filters.minPrice),
      patch.maxPrice.GetOr(filters.maxPrice),
      patch.minRating.GetOr(filters.minRating))
  }

  const Defaults: Sidebar := Sidebar("", "all", "", "", None)

  /** `resetFilters`. */
  function ResetFilters(): (r: Sidebar)
    ensures r.search == "" && r.category == "all" && r.minPrice == "" && r.maxPrice == "" && r.minRating.None?
  {
    Defaults
  }

  /** `ratingOptions`. */
  const RatingOptions: seq<Select.SelectOption<int>> := [
    Select.SelectOption("4★ & above", 4, false),
    Select.SelectOption("3★ & above", 3, false),
    Select.SelectOption("2★ & above", 2, false)]

  /** The category select's `onChange`: a cleared select (`undefined`) means "all". */
  function OnCategoryChange(filters: Sidebar, v: Select.SelectValue<string>): (r: Sidebar)
    requires Select.FitsMode(false, v)
    ensures r.category == (if v.One? then v.v else "all")
    ensures r == filters.(category := r.category)
  {
    Update(filters, Patch(None, Some(if v.One? then v.v else "all"), None, None, None))
  }

  /** The rating select's `onChange`: clearing it drops the bound. */
  function OnRatingChange(filters: Sidebar, v: Select.SelectValue<int>): (r: Sidebar)
    requires Select.FitsMode(false, v)
    ensures r.minRating == (if v.One? then Some(v.v) else None)
    ensures r == filters.(minRating := r.minRating)
  {
    Update(filters, Patch(None, None, None, None, Some(if v.One? then Some(v.v) else None)))
  }

  /** Clearing the category select falls back to "all". */
  lemma ClearingCategoryGivesAll(filters: Sidebar)
    ensures OnCategoryChange(filters, Select.ClearValue(false)).category == "all"
  {
  }

  /** The same patch twice is the patch once; an empty patch changes nothing. */
  lemma UpdateIdempotent(filters: Sidebar, patch: Patch)
    ensures Update(Update(filters, patch), patch) == Update(filters, patch)
    ensures Update(filters, Patch(None, None, None, None, None)) == filters
  {
  }
}
