/** The wishlist drawer: it shows the catalogue products whose id is on the
    (id-based) wishlist. It holds no state; its buttons call the callbacks
    the `App` components pass in. */
module WishlistDrawer {
  import Seqs
  import opened Catalog

  /** The test of `products.filter(product => wishlistItems.includes(product.id))`. */
  function Listed(ids: seq<ProductId>): Product -> bool {
    (p: Product) => p.id in ids
  }

  /** The shown items, in catalogue order. */
  function Items(catalog: seq<Product>, ids: seq<ProductId>): (r: seq<Product>)
    ensures forall p :: p in r <==> p in catalog && p.id in ids
    ensures |r| <= |catalog|
    ensures UniqueIds(catalog) ==> UniqueIds(r)
  {
    var r := Seqs.Filter(catalog, Listed(ids));
    Seqs.FilterMembers(catalog, Listed(ids));
    assert UniqueIds(catalog) ==> UniqueIds(r) by {
      if UniqueIds(catalog) {
        Seqs.FilterKeepsDistinct(catalog, Listed(ids), IdOf);
      }
    }
    r
  }

  /** The drawer keeps catalogue order: the items of a catalogue made of two
      parts are the first part's items followed by the second's. */
  lemma ItemsAppend(a: seq<Product>, b: seq<Product>, ids: seq<ProductId>)
    ensures Items(a + b, ids) == Items(a, ids) + Items(b, ids)
  {
    Seqs.FilterAppend(a, b, Listed(ids));
  }

  /** The header count never exceeds the catalogue size. */
  function HeaderCount(catalog: seq<Product>, ids: seq<ProductId>): (n: nat)
    ensures n <= |catalog|
    ensures n == |Items(catalog, ids)|
  {
    |Items(catalog, ids)|
  }

  /** A wishlisted id with no catalogue product shows nothing. */
  lemma UnknownIdDropped(catalog: seq<Product>, ids: seq<ProductId>, id: ProductId)
    requires forall p :: p in catalog ==> p.id != id
    ensures forall p :: p in Items(catalog, ids) ==> p.id != id
    ensures Items(catalog, ids) == Items(catalog, Seqs.Filter(ids, (x: ProductId) => x != id))
  {
    var other := Seqs.Filter(ids, (x: ProductId) => x != id);
    Seqs.FilterMembers(ids, (x: ProductId) => x != id);
    Seqs.FilterCongruent(catalog, Listed(ids), Listed(other));
  }

  /** The drawer follows catalogue order: two wishlists holding the same ids
      in any order or multiplicity show the same items. */
  lemma WishlistOrderIgnored(catalog: seq<Product>, ids1: seq<ProductId>, ids2: seq<ProductId>)
    requires forall x :: x in ids1 <==> x in ids2
    ensures Items(catalog, ids1) == Items(catalog, ids2)
  {
    Seqs.FilterCongruent(catalog, Listed(ids1), Listed(ids2));
  }
}
