/** The home page grid: the products it is given (the search results),
    narrowed by a category bar that is hidden and bypassed while searching,
    then sorted. */
module ProductGrid {
  import Seqs
  import opened Catalog
  import opened Listing
  import KeySort

  function InCategoryOf(category: string): Product -> bool {
    (p: Product) => InCategory(p, category)
  }

  /** `categoryFiltered`. */
  function CategoryFiltered(products: seq<Product>, isSearching: bool, category: string): (r: seq<Product>)
    ensures isSearching || category == "All" ==> r == products
    ensures forall p :: p in r <==> p in products && (isSearching || category == "All" || p.category == category)
    ensures |r| <= |products|
  {
    if isSearching || category == "All" then products
    else
      Seqs.FilterMembers(products, InCategoryOf(category));
      Seqs.Filter(products, InCategoryOf(category))
  }

  /** The category bar keeps the order of the products it is given:
      narrowing two parts gives the first part's products followed by the
      second's. */
  lemma CategoryFilteredAppend(a: seq<Product>, b: seq<Product>, isSearching: bool, category: string)
    ensures CategoryFiltered(a + b, isSearching, category)
         == CategoryFiltered(a, isSearching, category) + CategoryFiltered(b, isSearching, category)
  {
    Seqs.FilterAppend(a, b, InCategoryOf(category));
  }

  /** Filtering by "All" is the identity, as the short-cut branch assumes. */
  lemma AllCategoryIsIdentity(products: seq<Product>)
    ensures Seqs.Filter(products, InCategoryOf("All")) == products
  {
    Seqs.FilterKeepsAll(products, InCategoryOf("All"));
  }

  class ProductGrid {
    var activeCategory: string
    var sortBy: SortOption
    var isSortOpen: bool

    constructor ()
      ensures activeCategory == "All" && sortBy == Default && !isSortOpen
    {
      activeCategory := "All";
      sortBy := Default;
      isSortOpen := false;
    }

    /** The shown products for the given props. */
    function SortedProducts(products: seq<Product>, isSearching: bool): (r: seq<Product>)
      reads this
      ensures multiset(r) == multiset(CategoryFiltered(products, isSearching, activeCategory))
      ensures sortBy == Default ==> r == CategoryFiltered(products, isSearching, activeCategory)
      ensures sortBy == LowToHigh ==> KeySort.Sorted(r, PriceKey, KeySort.Ascending)
      ensures sortBy == HighToLow ==> KeySort.Sorted(r, PriceKey, KeySort.Descending)
    {
      SortProducts(CategoryFiltered(products, isSearching, activeCategory), sortBy)
    }

    method ChooseCategory(category: string)
      modifies this`activeCategory
      ensures activeCategory == category
    {
      activeCategory := category;
    }

    method ToggleSortMenu()
      modifies this`isSortOpen
      ensures isSortOpen == !old(isSortOpen)
    {
      isSortOpen := !isSortOpen;
    }

    method ChooseSort(option: SortOption)
      modifies this`sortBy, this`isSortOpen
      ensures sortBy == option && !isSortOpen
    {
      sortBy := option;
      isSortOpen := false;
    }
  }
}
