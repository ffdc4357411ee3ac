/** The shop page: a category and maximum-price filter over the whole
    catalogue, then the price sort; the filter panel and sort menu are
    state fields changed by their buttons. */
module Shop {
  import opened Wrappers
  import Seqs
  import opened Catalog
  import Pricing
  import opened Listing
  import KeySort

  datatype PriceRange = PriceRange(min: int, max: int)

  const FullRange := PriceRange(0, 2000)

  /** The product's parsed price lies in the range; a price that does not
      parse (NaN) fails both comparisons. */
  predicate InRange(p: Product, range: PriceRange) {
    match Pricing.ParsePrice(p.price)
    case None => false
    case Some(v) => range.min <= v <= range.max
  }

  predicate Shown(p: Product, category: string, range: PriceRange) {
    InCategory(p, category) && InRange(p, range)
  }

  function ShownBy(category: string, range: PriceRange): Product -> bool {
    (p: Product) => Shown(p, category, range)
  }

  /** `filteredProducts`, in catalogue order. */
  function Filtered(catalog: seq<Product>, category: string, range: PriceRange): (r: seq<Product>)
    ensures forall p :: p in r <==>
              p in catalog && (category == "All" || p.category == category) &&
              Pricing.ParsePrice(p.price).Some? &&
              range.min <= Pricing.ParsePrice(p.price).value <= range.max
    ensures AllPriced(r)
    ensures |r| <= |catalog|
  {
    Seqs.FilterMembers(catalog, ShownBy(category, range));
    Seqs.Filter(catalog, ShownBy(category, range))
  }

  /** The filter keeps catalogue order: filtering a catalogue made of two
      parts gives the first part's products followed by the second's. */
  lemma FilteredAppend(a: seq<Product>, b: seq<Product>, category: string, range: PriceRange)
    ensures Filtered(a + b, category, range) == Filtered(a, category, range) + Filtered(b, category, range)
  {
    Seqs.FilterAppend(a, b, ShownBy(category, range));
  }

  /** Raising the maximum price only adds products, and "All" shows every
      product any single category shows. */
  lemma FilterMonotone(catalog: seq<Product>, category: string, min: int, max1: int, max2: int)
    requires max1 <= max2
    ensures forall p :: p in Filtered(catalog, category, PriceRange(min, max1)) ==>
              p in Filtered(catalog, category, PriceRange(min, max2))
    ensures forall p :: p in Filtered(catalog, category, PriceRange(min, max1)) ==>
              p in Filtered(catalog, "All", PriceRange(min, max1))
  {
  }

  /** Narrowing "All" to one category is filtering the "All" list again. */
  lemma CategoryNarrowsAll(catalog: seq<Product>, category: string, range: PriceRange)
    ensures Seqs.Filter(Filtered(catalog, "All", range), ShownBy(category, range))
         == Filtered(catalog, category, range)
  {
    Seqs.FilterNarrows(catalog, ShownBy("All", range), ShownBy(category, range));
  }

  class Shop {
    const catalog: seq<Product>
    var activeCategory: string
    var sortBy: SortOption
    var isFilterOpen: bool
    var priceRange: PriceRange
    var isSortOpen: bool

    /** `initialCategory || "All"`: a missing or empty category means "All". */
    constructor (products: seq<Product>, initialCategory: string)
      ensures catalog == products
      ensures activeCategory == (if initialCategory == "" then "All" else initialCategory)
      ensures sortBy == Default && !isFilterOpen && priceRange == FullRange && !isSortOpen
    {
      catalog := products;
      activeCategory := if initialCategory == "" then "All" else initialCategory;
      sortBy := Default;
      isFilterOpen := false;
      priceRange := FullRange;
      isSortOpen := false;
    }

    /** The listed products: filtered, then sorted. */
    function SortedProducts(): (r: seq<Product>)
      reads this
      ensures multiset(r) == multiset(Filtered(catalog, activeCategory, priceRange))
      ensures AllPriced(r)
      ensures sortBy == Default ==> r == Filtered(catalog, activeCategory, priceRange)
      ensures sortBy == LowToHigh ==> KeySort.Sorted(r, PriceKey, KeySort.Ascending)
      ensures sortBy == HighToLow ==> KeySort.Sorted(r, PriceKey, KeySort.Descending)
    {
      SortProducts(Filtered(catalog, activeCategory, priceRange), sortBy)
    }

    /** "Showing N results". */
    function ResultCount(): (n: nat)
      reads this
      ensures n == |Filtered(catalog, activeCategory, priceRange)|
    {
      |SortedProducts()|
    }

    method OpenFilter()
      modifies this`isFilterOpen
      ensures isFilterOpen
    {
      isFilterOpen := true;
    }

    method CloseFilter()
      modifies this`isFilterOpen
      ensures !isFilterOpen
    {
      isFilterOpen := false;
    }

    method ToggleSortMenu()
      modifies this`isSortOpen
      ensures isSortOpen == !old(isSortOpen)
    {
      isSortOpen := !isSortOpen;
    }

    /** A sort option sets the order and closes the menu. */
    method ChooseSort(option: SortOption)
      modifies this`sortBy, this`isSortOpen
      ensures sortBy == option && !isSortOpen
    {
      sortBy := option;
      isSortOpen := false;
    }

    /** A category radio sets the category and closes the filter drawer. */
    method ChooseCategory(category: string)
      modifies this`activeCategory, this`isFilterOpen
      ensures activeCategory == category && !isFilterOpen
    {
      activeCategory := category;
      isFilterOpen := false;
    }

    /** The price slider moves only the maximum. */
    method SetMaxPrice(max: int)
      modifies this`priceRange
      ensures priceRange == PriceRange(old(priceRange).min, max)
    {
      priceRange := priceRange.(max := max);
    }

    /** "Reset Filters": every category, the full price range. */
    method ResetFilters()
      modifies this`activeCategory, this`priceRange
      ensures activeCategory == "All" && priceRange == FullRange
    {
      activeCategory := "All";
      priceRange := FullRange;
    }
  }
}
