/** The cart drawer: the subtotal, the line-count header, and what each
    line's buttons send to the cart callbacks. It holds no state. */
module CartDrawer {
  import opened Wrappers
  import opened Catalog
  import Pricing
  import Cart

  /** `parseFloat(price) * (quantity || 1)`; None stands for NaN. */
  function LineTotal(l: Cart.CartLine): (r: Option<int>)
    ensures r.Some? <==> IsPriced(l.item)
  {
    match Pricing.ParsePrice(l.item.price)
    case None => None
    case Some(price) => Some(price * Cart.OrOne(l.quantity))
  }

  /** NaN absorbs every sum. */
  function Sum(a: Option<int>, b: Option<int>): Option<int> {
    if a.Some? && b.Some? then Some(a.value + b.value) else None
  }

  lemma SumAssociative(x: Option<int>, y: Option<int>, z: Option<int>)
    ensures Sum(x, Sum(y, z)) == Sum(Sum(x, y), z)
  {
  }

  /** `totalPrice`: the sum of the line totals, starting from 0. */
  function Subtotal(cart: seq<Cart.CartLine>): (r: Option<int>)
    ensures cart == [] ==> r == Some(0)
    ensures r.Some? <==> forall i :: 0 <= i < |cart| ==> IsPriced(cart[i].item)
  {
    if cart == [] then Some(0) else Sum(LineTotal(cart[0]), Subtotal(cart[1..]))
  }

  /** The subtotal of a concatenation is the sum of the subtotals. */
  lemma {:induction false} SubtotalAppend(a: seq<Cart.CartLine>, b: seq<Cart.CartLine>)
    ensures Subtotal(a + b) == Sum(Subtotal(a), Subtotal(b))
  {
    if a == [] {
      assert a + b == b;
    } else {
      assert (a + b)[0] == a[0];
      assert (a + b)[1..] == a[1..] + b;
      SubtotalAppend(a[1..], b);
      assert Subtotal(a + b) == Sum(LineTotal(a[0]), Subtotal(a[1..] + b));
      assert Subtotal(a) == Sum(LineTotal(a[0]), Subtotal(a[1..]));
      SumAssociative(LineTotal(a[0]), Subtotal(a[1..]), Subtotal(b));
    }
  }

  /** Adding a product not yet in the cart raises the subtotal by its price
      times `quantity || 1`. */
  lemma AddRaisesSubtotal(cart: seq<Cart.CartLine>, p: Product, q: Option<int>)
    requires !Cart.HasId(cart, p.id)
    ensures Subtotal(Cart.Add(cart, p, q)) ==
              Sum(Subtotal(cart), LineTotal(Cart.CartLine(p, Some(Cart.OrOne(q)))))
  {
    var l := Cart.CartLine(p, Some(Cart.OrOne(q)));
    SubtotalAppend(cart, [l]);
    assert [l][1..] == [];
  }

  /** A priced line of positive quantity has a non-negative total. */
  lemma LineTotalNonNegative(l: Cart.CartLine)
    requires Cart.OrOne(l.quantity) >= 1 && IsPriced(l.item)
    ensures LineTotal(l).value >= 0
  {
    var price := Pricing.ParsePrice(l.item.price).value;
    var n := Cart.OrOne(l.quantity);
    assert price * n >= 0;
  }

  /** A subtotal of priced, positive-quantity lines is never negative. */
  lemma {:induction false} SubtotalNonNegative(cart: seq<Cart.CartLine>)
    requires Cart.QuantitiesPositive(cart)
    requires Subtotal(cart).Some?
    ensures Subtotal(cart).value >= 0
  {
    if cart != [] {
      assert Cart.QuantitiesPositive(cart[1..]) by {
        forall i | 0 <= i < |cart[1..]| ensures Cart.OrOne(cart[1..][i].quantity) >= 1 {
          assert cart[1..][i] == cart[i + 1];
        }
      }
      assert Subtotal(cart) == Sum(LineTotal(cart[0]), Subtotal(cart[1..]));
      SubtotalNonNegative(cart[1..]);
      LineTotalNonNegative(cart[0]);
    }
  }

  /** The header counts lines, which for positive quantities never exceeds
      the number of units the navbar shows. */
  function HeaderCount(cart: seq<Cart.CartLine>): (n: nat)
    ensures Cart.QuantitiesPositive(cart) ==> n <= Cart.Units(cart)
  {
    |cart|
  }

  /** The checkout footer is shown only for a non-empty cart. */
  predicate ShowsFooter(cart: seq<Cart.CartLine>) { |cart| > 0 }

  /** `disabled={item.quantity <= 1}`: a missing quantity compares false,
      so the button is enabled then. */
  predicate MinusDisabled(l: Cart.CartLine) {
    l.quantity.Some? && l.quantity.value <= 1
  }

  /** `{item.quantity || 1}`. */
  function Displayed(l: Cart.CartLine): int { Cart.OrOne(l.quantity) }

  datatype Button = Minus | Plus | Trash

  /** What a line's button hands to the cart callbacks. */
  datatype Call = UpdateQuantity(id: ProductId, change: int) | RemoveFromCart(id: ProductId)

  /** Pressing a button: None for the disabled minus button. */
  function Press(l: Cart.CartLine, b: Button): (r: Option<Call>)
    ensures r.Some? ==> r.value.id == l.item.id
    ensures r.None? <==> b == Minus && MinusDisabled(l)
  {
    match b
    case Minus => if MinusDisabled(l) then None else Some(UpdateQuantity(l.item.id, -1))
    case Plus => Some(UpdateQuantity(l.item.id, 1))
    case Trash => Some(RemoveFromCart(l.item.id))
  }

  /** The callbacks' effect on the cart. */
  function Apply(cart: seq<Cart.CartLine>, c: Option<Call>): seq<Cart.CartLine> {
    match c
    case None => cart
    case Some(UpdateQuantity(id, change)) => Cart.UpdateQuantity(cart, id, change)
    case Some(RemoveFromCart(id)) => Cart.Remove(cart, id)
  }

  /** Trash removes the line's product; plus raises its displayed quantity
      by one; an enabled minus lowers a stored quantity of at least 2 by one,
      and the shown quantity never drops below 1. */
  lemma PressEffects(cart: seq<Cart.CartLine>, k: nat)
    requires k < |cart|
    ensures !Cart.HasId(Apply(cart, Press(cart[k], Trash)), cart[k].item.id)
    ensures Displayed(Apply(cart, Press(cart[k], Plus))[k]) == Cart.Max(1, Displayed(cart[k]) + 1)
    ensures Displayed(cart[k]) >= 1 ==> Displayed(Apply(cart, Press(cart[k], Minus))[k]) >= 1
    ensures cart[k].quantity.Some? && cart[k].quantity.value >= 2 ==>
              Displayed(Apply(cart, Press(cart[k], Minus))[k]) == Displayed(cart[k]) - 1
  {
    if MinusDisabled(cart[k]) {
      assert Apply(cart, Press(cart[k], Minus)) == cart;
    }
  }
}
