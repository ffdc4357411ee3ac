/** The product page: a quantity stepper that never goes below one, the
    add-to-cart payload carrying the chosen quantity, and the wishlist
    heart. */
module ProductDetail {
  import opened Wrappers
  import opened Catalog
  import Cart

  /** The minus button: `Math.max(1, quantity - 1)`. */
  function Decrement(q: int): (r: int)
    ensures r >= 1
    ensures q > 1 ==> r == q - 1
    ensures q <= 1 ==> r == 1
  {
    Cart.Max(1, q - 1)
  }

  /** A minus after a plus restores any quantity of at least one. */
  lemma DecrementUndoesIncrement(q: int)
    requires q >= 1
    ensures Decrement(q + 1) == q
  {
  }

  /** The payload, added to a cart without the product, becomes one line
      whose quantity is exactly the chosen one. */
  lemma PayloadQuantityKept(cart: seq<Cart.CartLine>, p: Product, q: int)
    requires q >= 1 && !Cart.HasId(cart, p.id)
    ensures Cart.Add(cart, p, Some(q)) == cart + [Cart.CartLine(p, Some(q))]
  {
  }

  class ProductDetail {
    const product: Product
    var quantity: int

    predicate Valid()
      reads this
    {
      quantity >= 1
    }

    constructor (p: Product)
      ensures product == p && quantity == 1 && Valid()
    {
      product := p;
      quantity := 1;
    }

    method Minus()
      modifies this
      ensures quantity == Decrement(old(quantity)) && Valid()
    {
      quantity := Decrement(quantity);
    }

    method Plus()
      modifies this
      ensures quantity == old(quantity) + 1
      ensures old(Valid()) ==> Valid()
    {
      quantity := quantity + 1;
    }

    /** `addToCart({ ...product, quantity })`: the record with its quantity
        field set to the current selection. */
    function AddToCartPayload(): (r: (Product, Option<int>))
      reads this
      ensures r.0 == product && r.1 == Some(quantity)
      ensures Valid() ==> Cart.OrOne(r.1) == quantity
    {
      (product, Some(quantity))
    }

    /** The heart passes the id, not the record. */
    function HeartPayload(): (id: ProductId)
      ensures id == product.id
    {
      product.id
    }
  }
}
