/** The cart as a list of lines, and the operations on it that the reducer
    (`ShopContext`) and the two hook-based `App` components share: merge or
    append on add, filter on remove, clamp at 1 on update. */
module Cart {
  import opened Wrappers
  import Seqs
  import opened Catalog

  /** A cart line: the product record with its `quantity` field, which may
      be missing (for lines rehydrated from storage). */
  datatype CartLine = CartLine(item: Product, quantity: Option<int>)

  function LineId(l: CartLine): ProductId { l.item.id }

  /** JavaScript's `quantity || 1`: a missing or zero quantity counts as 1. */
  function OrOne(q: Option<int>): int {
    if q.None? || q.value == 0 then 1 else q.value
  }

  function Max(a: int, b: int): int { if a < b then b else a }

  predicate HasId(cart: seq<CartLine>, id: ProductId) {
    exists i :: 0 <= i < |cart| && cart[i].item.id == id
  }

  /** Cart ids are unique. */
  predicate UniqueIds(cart: seq<CartLine>) {
    Seqs.DistinctKeys(cart, LineId)
  }

  /** Every line shows a quantity of at least 1. */
  predicate QuantitiesPositive(cart: seq<CartLine>) {
    forall i :: 0 <= i < |cart| ==> OrOne(cart[i].quantity) >= 1
  }

  /** The new quantity of a bumped line: `n + delta`, or
      `Math.max(1, n + delta)` when clamped. */
  function Bumped(n: int, delta: int, clamp: bool): int {
    if clamp then Max(1, n + delta) else n + delta
  }

  /** `cart.map(item => item.id === id ? { ...item, quantity: Bumped(item.quantity || 1) } : item)`. */
  function Bump(cart: seq<CartLine>, id: ProductId, delta: int, clamp: bool): (r: seq<CartLine>)
    ensures |r| == |cart|
    ensures forall i :: 0 <= i < |cart| && cart[i].item.id == id ==>
              r[i] == cart[i].(quantity := Some(Bumped(OrOne(cart[i].quantity), delta, clamp)))
    ensures forall i :: 0 <= i < |cart| && cart[i].item.id != id ==> r[i] == cart[i]
  {
    if cart == [] then []
    else
      var head := if cart[0].item.id == id
                  then cart[0].(quantity := Some(Bumped(OrOne(cart[0].quantity), delta, clamp)))
                  else cart[0];
      [head] + Bump(cart[1..], id, delta, clamp)
  }

  /** Add `p` with the requested quantity `q` (`product.quantity`): an
      existing line grows by `q || 1`, starting from its own `quantity || 1`;
      otherwise one line of quantity `q || 1` is appended. */
  function Add(cart: seq<CartLine>, p: Product, q: Option<int>): (r: seq<CartLine>)
    ensures HasId(cart, p.id) ==>
              |r| == |cart| &&
              (forall i :: 0 <= i < |cart| && cart[i].item.id == p.id ==>
                 r[i] == cart[i].(quantity := Some(OrOne(cart[i].quantity) + OrOne(q)))) &&
              (forall i :: 0 <= i < |cart| && cart[i].item.id != p.id ==> r[i] == cart[i])
    ensures !HasId(cart, p.id) ==> r == cart + [CartLine(p, Some(OrOne(q)))]
    ensures HasId(r, p.id)
    ensures forall x :: x != p.id ==> (HasId(r, x) <==> HasId(cart, x))
    ensures UniqueIds(cart) ==> UniqueIds(r)
    ensures QuantitiesPositive(cart) && (q.None? || q.value >= 0) ==> QuantitiesPositive(r)
  {
    if HasId(cart, p.id) then
      var r := Bump(cart, p.id, OrOne(q), false);
      AddExisting(cart, p, q, r);
      r
    else
      var l := CartLine(p, Some(OrOne(q)));
      AppendLine(cart, l);
      cart + [l]
  }

  /** The existing-line case of `Add`. */
  lemma AddExisting(cart: seq<CartLine>, p: Product, q: Option<int>, r: seq<CartLine>)
    requires HasId(cart, p.id) && |r| == |cart|
    requires forall i :: 0 <= i < |cart| && cart[i].item.id == p.id ==>
               r[i] == cart[i].(quantity := Some(Bumped(OrOne(cart[i].quantity), OrOne(q), false)))
    requires forall i :: 0 <= i < |cart| && cart[i].item.id != p.id ==> r[i] == cart[i]
    ensures |r| == |cart|
    ensures forall i :: 0 <= i < |cart| && cart[i].item.id == p.id ==>
              r[i] == cart[i].(quantity := Some(OrOne(cart[i].quantity) + OrOne(q)))
    ensures forall i :: 0 <= i < |cart| && cart[i].item.id != p.id ==> r[i] == cart[i]
    ensures HasId(r, p.id)
    ensures forall x :: x != p.id ==> (HasId(r, x) <==> HasId(cart, x))
    ensures UniqueIds(cart) ==> UniqueIds(r)
    ensures QuantitiesPositive(cart) && (q.None? || q.value >= 0) ==> QuantitiesPositive(r)
  {
    SameIds(cart, r);
    forall i | 0 <= i < |cart| && cart[i].item.id == p.id
      ensures r[i] == cart[i].(quantity := Some(OrOne(cart[i].quantity) + OrOne(q)))
    {
      assert r[i] == cart[i].(quantity := Some(Bumped(OrOne(cart[i].quantity), OrOne(q), false)));
    }
    if QuantitiesPositive(cart) && (q.None? || q.value >= 0) {
      forall i | 0 <= i < |r| ensures OrOne(r[i].quantity) >= 1 {
        if cart[i].item.id == p.id {
          var n := OrOne(cart[i].quantity);
          assert r[i].quantity == Some(Bumped(n, OrOne(q), false));
          assert n >= 1 && OrOne(q) >= 1;
        } else {
          assert r[i] == cart[i];
        }
      }
    }
  }

  /** Two carts whose lines carry the same ids, position by position, have
      the same ids and are unique alike. */
  lemma SameIds(a: seq<CartLine>, b: seq<CartLine>)
    requires |a| == |b| && forall i :: 0 <= i < |a| ==> a[i].item.id == b[i].item.id
    ensures forall x :: HasId(a, x) <==> HasId(b, x)
    ensures UniqueIds(a) <==> UniqueIds(b)
  {
    assert forall i :: 0 <= i < |a| ==> LineId(a[i]) == LineId(b[i]);
  }

  /** Appending a line adds exactly its id, and keeps ids unique when the id
      is new. */
  lemma AppendLine(cart: seq<CartLine>, l: CartLine)
    ensures forall x :: HasId(cart + [l], x) <==> HasId(cart, x) || x == l.item.id
    ensures UniqueIds(cart) && !HasId(cart, l.item.id) ==> UniqueIds(cart + [l])
  {
    var r := cart + [l];
    assert r[|cart|] == l;
    forall x | HasId(r, x) && x != l.item.id ensures HasId(cart, x) {
      var i :| 0 <= i < |r| && r[i].item.id == x;
      assert i < |cart| && cart[i] == r[i];
    }
    forall x | HasId(cart, x) ensures HasId(r, x) {
      var i :| 0 <= i < |cart| && cart[i].item.id == x;
      assert r[i] == cart[i];
    }
    if UniqueIds(cart) && !HasId(cart, l.item.id) {
      forall i, j | 0 <= i < j < |r| ensures LineId(r[i]) != LineId(r[j]) {
        if j == |cart| {
          assert r[i] == cart[i];
        } else {
          assert r[i] == cart[i] && r[j] == cart[j];
        }
      }
    }
  }

  /** The filter test of `Remove`: the line has another id. */
  function Other(id: ProductId): CartLine -> bool {
    (l: CartLine) => l.item.id != id
  }

  /** `cart.filter(item => item.id !== id)`. */
  function Remove(cart: seq<CartLine>, id: ProductId): (r: seq<CartLine>)
    ensures !HasId(r, id)
    ensures forall l :: l in r <==> l in cart && l.item.id != id
    ensures forall x :: x != id ==> (HasId(r, x) <==> HasId(cart, x))
    ensures !HasId(cart, id) ==> r == cart
    ensures UniqueIds(cart) ==> UniqueIds(r)
    ensures QuantitiesPositive(cart) ==> QuantitiesPositive(r)
  {
    var keep := Other(id);
    var r := Seqs.Filter(cart, keep);
    Seqs.FilterMembers(cart, keep);
    assert forall x :: x != id ==> (HasId(r, x) <==> HasId(cart, x)) by {
      forall x | x != id ensures HasId(r, x) <==> HasId(cart, x) {
        if HasId(cart, x) {
          var i :| 0 <= i < |cart| && cart[i].item.id == x;
          assert cart[i] in r;
        }
        if HasId(r, x) {
          var i :| 0 <= i < |r| && r[i].item.id == x;
          assert r[i] in cart;
        }
      }
    }
    assert !HasId(cart, id) ==> r == cart by {
      if !HasId(cart, id) {
        Seqs.FilterKeepsAll(cart, keep);
      }
    }
    assert UniqueIds(cart) ==> UniqueIds(r) by {
      if UniqueIds(cart) {
        Seqs.FilterKeepsDistinct(cart, keep, LineId);
      }
    }
    assert QuantitiesPositive(cart) ==> QuantitiesPositive(r) by {
      if QuantitiesPositive(cart) {
        forall i | 0 <= i < |r| ensures OrOne(r[i].quantity) >= 1 {
          assert r[i] in cart;
        }
      }
    }
    r
  }

  /** The remaining lines keep their order: removing from a cart made of
      two parts removes from each part in turn. */
  lemma RemoveAppend(a: seq<CartLine>, b: seq<CartLine>, id: ProductId)
    ensures Remove(a + b, id) == Remove(a, id) + Remove(b, id)
  {
    Seqs.FilterAppend(a, b, Other(id));
  }

  /** Removing the id of a line just appended to a cart without it
      restores the cart. */
  lemma RemoveUndoesAppend(cart: seq<CartLine>, l: CartLine)
    requires !HasId(cart, l.item.id)
    ensures Remove(cart + [l], l.item.id) == cart
  {
    var keep := Other(l.item.id);
    Seqs.FilterAppend(cart, [l], keep);
    Seqs.FilterSingleton(l, keep);
    assert Seqs.Filter(cart, keep) == cart by {
      assert Remove(cart, l.item.id) == cart;
    }
    assert cart + [] == cart;
  }

  /** Apply `change` to the line with `id`, never going below 1:
      `Math.max(1, (item.quantity || 1) + change)`. */
  function UpdateQuantity(cart: seq<CartLine>, id: ProductId, change: int): (r: seq<CartLine>)
    ensures |r| == |cart|
    ensures forall i :: 0 <= i < |cart| && cart[i].item.id == id ==>
              r[i] == cart[i].(quantity := Some(Max(1, OrOne(cart[i].quantity) + change)))
    ensures forall i :: 0 <= i < |cart| && cart[i].item.id != id ==> r[i] == cart[i]
    ensures forall i :: 0 <= i < |cart| && cart[i].item.id == id ==> OrOne(r[i].quantity) >= 1
    ensures !HasId(cart, id) ==> r == cart
    ensures forall x :: HasId(r, x) <==> HasId(cart, x)
    ensures UniqueIds(cart) ==> UniqueIds(r)
    ensures QuantitiesPositive(cart) ==> QuantitiesPositive(r)
  {
    var r := Bump(cart, id, change, true);
    UpdateExisting(cart, id, change, r);
    r
  }

  /** The facts of `UpdateQuantity`, from those of the clamped `Bump`. */
  lemma UpdateExisting(cart: seq<CartLine>, id: ProductId, change: int, r: seq<CartLine>)
    requires |r| == |cart|
    requires forall i :: 0 <= i < |cart| && cart[i].item.id == id ==>
               r[i] == cart[i].(quantity := Some(Bumped(OrOne(cart[i].quantity), change, true)))
    requires forall i :: 0 <= i < |cart| && cart[i].item.id != id ==> r[i] == cart[i]
    ensures forall i :: 0 <= i < |cart| && cart[i].item.id == id ==>
              r[i] == cart[i].(quantity := Some(Max(1, OrOne(cart[i].quantity) + change)))
    ensures forall i :: 0 <= i < |cart| && cart[i].item.id == id ==> OrOne(r[i].quantity) >= 1
    ensures !HasId(cart, id) ==> r == cart
    ensures forall x :: HasId(r, x) <==> HasId(cart, x)
    ensures UniqueIds(cart) ==> UniqueIds(r)
    ensures QuantitiesPositive(cart) ==> QuantitiesPositive(r)
  {
    SameIds(cart, r);
    if !HasId(cart, id) {
      assert forall i :: 0 <= i < |cart| ==> r[i] == cart[i];
    }
  }

  /** The number of units: the sum of `quantity || 1` over lines. */
  function Units(cart: seq<CartLine>): (n: int)
    ensures QuantitiesPositive(cart) ==> n >= |cart|
  {
    if cart == [] then 0 else OrOne(cart[0].quantity) + Units(cart[1..])
  }

  /** Adding a product twice to a cart without it leaves one line whose
      quantity is the sum of both requests. */
  lemma AddTwice(cart: seq<CartLine>, p: Product, q1: Option<int>, q2: Option<int>)
    requires !HasId(cart, p.id)
    ensures Add(Add(cart, p, q1), p, q2) == cart + [CartLine(p, Some(OrOne(q1) + OrOne(q2)))]
  {
    var once := Add(cart, p, q1);
    var twice := Add(once, p, q2);
    assert once[|cart|].item.id == p.id;
    assert OrOne(once[|cart|].quantity) == OrOne(q1);
    assert |twice| == |cart| + 1;
    forall i | 0 <= i < |twice|
      ensures twice[i] == (cart + [CartLine(p, Some(OrOne(q1) + OrOne(q2)))])[i]
    {
      if i < |cart| {
        assert cart[i].item.id != p.id;
      }
    }
  }

  /** Changing one line changes the unit count by that line's difference. */
  lemma {:induction false} UnitsOneLine(a: seq<CartLine>, b: seq<CartLine>, k: nat)
    requires |a| == |b| && k < |a|
    requires forall i :: 0 <= i < |a| && i != k ==> a[i] == b[i]
    ensures Units(b) == Units(a) - OrOne(a[k].quantity) + OrOne(b[k].quantity)
  {
    if k == 0 {
      assert a[1..] == b[1..];
    } else {
      UnitsOneLine(a[1..], b[1..], k - 1);
    }
  }

  lemma {:induction false} UnitsAppend(a: seq<CartLine>, l: CartLine)
    ensures Units(a + [l]) == Units(a) + OrOne(l.quantity)
  {
    if a == [] {
      assert [l][1..] == [];
    } else {
      assert (a + [l])[1..] == a[1..] + [l];
      UnitsAppend(a[1..], l);
    }
  }

  /** In a cart with unique ids and positive quantities, adding with a
      non-negative request raises the unit count by exactly `q || 1`. */
  lemma AddRaisesUnits(cart: seq<CartLine>, p: Product, q: Option<int>)
    requires UniqueIds(cart) && QuantitiesPositive(cart)
    requires q.None? || q.value >= 0
    ensures Units(Add(cart, p, q)) == Units(cart) + OrOne(q)
  {
    var r := Add(cart, p, q);
    if HasId(cart, p.id) {
      var k :| 0 <= k < |cart| && cart[k].item.id == p.id;
      OnlyLine(cart, p.id, k);
      assert forall i :: 0 <= i < |cart| && i != k ==> cart[i] == r[i];
      UnitsOneLine(cart, r, k);
    } else {
      UnitsAppend(cart, CartLine(p, Some(OrOne(q))));
    }
  }

  /** With unique ids, the line carrying an id is the only one. */
  lemma OnlyLine(cart: seq<CartLine>, id: ProductId, k: nat)
    requires UniqueIds(cart) && k < |cart| && cart[k].item.id == id
    ensures forall i :: 0 <= i < |cart| && i != k ==> cart[i].item.id != id
  {
    forall i | 0 <= i < |cart| && i != k ensures cart[i].item.id != id {
      if i < k {
        assert LineId(cart[i]) != LineId(cart[k]);
      } else {
        assert LineId(cart[k]) != LineId(cart[i]);
      }
    }
  }
}
