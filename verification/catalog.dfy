/** The product catalogue the views read. The catalogue data file itself is
    not part of this model: every view takes the catalogue as a parameter. */
module Catalog {
  import opened Wrappers
  import Seqs
  import Pricing

  type ProductId = string

  /** A catalogue record: the price is the formatted string ("₹1,299") and
      `tags` may be missing. */
  datatype Product = Product(
    id: ProductId,
    name: string,
    category: string,
    price: string,
    image: string,
    tags: Option<seq<string>>)

  function IdOf(p: Product): ProductId { p.id }

  /** The catalogue invariant: product ids are unique. */
  predicate UniqueIds(catalog: seq<Product>) {
    Seqs.DistinctKeys(catalog, IdOf)
  }

  /** `products.find(p => p.id === id)`: the first product with that id; it
      is found exactly when some product has the id. */
  function Find(catalog: seq<Product>, id: ProductId): (r: Option<Product>)
    ensures r.Some? ==> r.value in catalog && r.value.id == id
    ensures r.None? <==> forall p :: p in catalog ==> p.id != id
    ensures r.Some? ==> exists i :: (0 <= i < |catalog| && catalog[i] == r.value &&
              forall j :: 0 <= j < i ==> catalog[j].id != id)
  {
    if catalog == [] then None
    else if catalog[0].id == id then Some(catalog[0])
    else Find(catalog[1..], id)
  }

  /** The price string reads as a number (`parseFloat` is not NaN). */
  predicate IsPriced(p: Product) { Pricing.ParsePrice(p.price).Some? }

  predicate AllPriced(ps: seq<Product>) { forall p :: p in ps ==> IsPriced(p) }

  /** The sort key of the price comparators; meaningful for priced products. */
  function PriceKey(p: Product): int {
    Pricing.ParsePrice(p.price).GetOr(0)
  }
}
