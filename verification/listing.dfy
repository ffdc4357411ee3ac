/** The catalogue views' shared pieces: the category test and the
    price sort that both the shop page and the home grid apply. */
module Listing {
  import Seqs
  import opened Catalog
  import KeySort

  /** The entries of `sortOptions`. */
  datatype SortOption = Default | LowToHigh | HighToLow

  /** "All" passes every product; any other category only its own. */
  predicate InCategory(p: Product, category: string) {
    category == "All" || p.category == category
  }

  /** `[...ps].sort(comparator)`: "Default" returns 0 for every pair and so
      keeps the order; the price options order by parsed price, stably. */
  function SortProducts(ps: seq<Product>, sort: SortOption): (r: seq<Product>)
    ensures multiset(r) == multiset(ps) && |r| == |ps|
    ensures sort == Default ==> r == ps
    ensures sort == LowToHigh ==> KeySort.Sorted(r, PriceKey, KeySort.Ascending)
    ensures sort == HighToLow ==> KeySort.Sorted(r, PriceKey, KeySort.Descending)
    ensures AllPriced(ps) ==> AllPriced(r)
  {
    var r := match sort
      case Default => ps
      case LowToHigh => KeySort.Sort(ps, PriceKey, KeySort.Ascending)
      case HighToLow => KeySort.Sort(ps, PriceKey, KeySort.Descending);
    assert forall p :: p in r ==> p in ps by {
      forall p | p in r ensures p in ps {
        assert p in multiset(r);
      }
    }
    r
  }

  /** Products of equal price keep their relative order under every sort
      option. */
  lemma SortKeepsTies(ps: seq<Product>, sort: SortOption, price: int)
    ensures Seqs.Filter(SortProducts(ps, sort), KeySort.KeyIs(PriceKey, price))
         == Seqs.Filter(ps, KeySort.KeyIs(PriceKey, price))
  {
    match sort
    case Default =>
    case LowToHigh => KeySort.SortIsStable(ps, PriceKey, KeySort.Ascending, price);
    case HighToLow => KeySort.SortIsStable(ps, PriceKey, KeySort.Descending, price);
  }
}
