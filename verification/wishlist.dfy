/** The wishlist toggle. The reducer keeps whole product records and tests
    `item.id === product.id`; the hook-based `App` components keep bare ids
    and test `prev.includes(id)`. Both are "remove every entry with this key
    if one is present, otherwise append", instantiated here with two keys. */
module Wishlist {
  import Seqs
  import opened Catalog

  predicate HasKey<T, K(==)>(ws: seq<T>, k: K, key: T -> K) {
    exists i :: 0 <= i < |ws| && key(ws[i]) == k
  }

  /** Every entry whose key differs from `k`, in order. */
  function RemoveKey<T(==, !new), K(==)>(ws: seq<T>, k: K, key: T -> K): (r: seq<T>)
    ensures !HasKey(r, k, key)
    ensures forall y :: y in r <==> y in ws && key(y) != k
    ensures !HasKey(ws, k, key) ==> r == ws
    ensures Seqs.DistinctKeys(ws, key) ==> Seqs.DistinctKeys(r, key)
  {
    var keep := (y: T) => key(y) != k;
    var r := Seqs.Filter(ws, keep);
    Seqs.FilterMembers(ws, keep);
    assert !HasKey(ws, k, key) ==> r == ws by {
      if !HasKey(ws, k, key) {
        Seqs.FilterKeepsAll(ws, keep);
      }
    }
    assert Seqs.DistinctKeys(ws, key) ==> Seqs.DistinctKeys(r, key) by {
      if Seqs.DistinctKeys(ws, key) {
        Seqs.FilterKeepsDistinct(ws, keep, key);
      }
    }
    r
  }

  /** Present: every entry with that key is removed. Absent: `x` is appended. */
  function Toggle<T(==, !new), K(==)>(ws: seq<T>, x: T, key: T -> K): (r: seq<T>)
    ensures HasKey(r, key(x), key) <==> !HasKey(ws, key(x), key)
    ensures forall y :: key(y) != key(x) ==> (y in r <==> y in ws)
    ensures !HasKey(ws, key(x), key) ==> r == ws + [x]
    ensures Seqs.DistinctKeys(ws, key) ==> Seqs.DistinctKeys(r, key)
  {
    if HasKey(ws, key(x), key) then RemoveKey(ws, key(x), key)
    else
      var r := ws + [x];
      assert key(r[|ws|]) == key(x);
      r
  }

  /** Toggling the same entry twice restores whether its key is present;
      when it was absent, the list is restored exactly. */
  lemma ToggleTwice<T(!new), K>(ws: seq<T>, x: T, key: T -> K)
    ensures HasKey(Toggle(Toggle(ws, x, key), x, key), key(x), key) == HasKey(ws, key(x), key)
    ensures !HasKey(ws, key(x), key) ==> Toggle(Toggle(ws, x, key), x, key) == ws
  {
    if !HasKey(ws, key(x), key) {
      var once := ws + [x];
      assert Toggle(ws, x, key) == once;
      var keep := (y: T) => key(y) != key(x);
      Seqs.FilterAppend(ws, [x], keep);
      Seqs.FilterKeepsAll(ws, keep);
      Seqs.FilterSingleton(x, keep);
    }
  }

  /** The reducer's wishlist of product records, keyed by id. */
  function ToggleProduct(ws: seq<Product>, p: Product): (r: seq<Product>)
    ensures HasKey(r, p.id, IdOf) <==> !HasKey(ws, p.id, IdOf)
    ensures forall y: Product :: y.id != p.id ==> (y in r <==> y in ws)
    ensures !HasKey(ws, p.id, IdOf) ==> r == ws + [p]
    ensures UniqueIds(ws) ==> UniqueIds(r)
  {
    Toggle(ws, p, IdOf)
  }

  function SameId(id: ProductId): ProductId { id }

  /** The hook-based wishlist of bare ids. */
  function ToggleId(ws: seq<ProductId>, id: ProductId): (r: seq<ProductId>)
    ensures id in r <==> id !in ws
    ensures forall y :: y != id ==> (y in r <==> y in ws)
    ensures id !in ws ==> r == ws + [id]
  {
    var r := Toggle(ws, id, SameId);
    assert forall y :: y in r <==> HasKey(r, y, SameId) by {
      forall y ensures y in r <==> HasKey(r, y, SameId) {
        if y in r { var i :| 0 <= i < |r| && r[i] == y; }
      }
    }
    assert forall y :: y in ws <==> HasKey(ws, y, SameId) by {
      forall y ensures y in ws <==> HasKey(ws, y, SameId) {
        if y in ws { var i :| 0 <= i < |ws| && ws[i] == y; }
      }
    }
    r
  }

  /** Toggling an id twice restores its membership, and restores the list
      exactly when the id was absent. */
  lemma ToggleIdTwice(ws: seq<ProductId>, id: ProductId)
    ensures id in ToggleId(ToggleId(ws, id), id) <==> id in ws
    ensures id !in ws ==> ToggleId(ToggleId(ws, id), id) == ws
  {
    if id !in ws {
      assert forall y :: y in ws <==> HasKey(ws, y, SameId) by {
        forall y ensures y in ws <==> HasKey(ws, y, SameId) {
          if y in ws { var i :| 0 <= i < |ws| && ws[i] == y; }
        }
      }
      ToggleTwice(ws, id, SameId);
    }
  }
}
