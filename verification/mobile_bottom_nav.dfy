/** The mobile bottom bar: five items with badges for wishlist and cart, the
    active-item highlight, and a hide-on-scroll-down rule. */
module MobileBottomNav {
  import opened Wrappers
  import opened Catalog
  import Cart
  import Views

  datatype Item = HomeItem | ShopItem | SearchItem | WishlistItem | CartItem

  function ItemId(item: Item): string {
    match item
    case HomeItem => "home"
    case ShopItem => "shop"
    case SearchItem => "search"
    case WishlistItem => "wishlist"
    case CartItem => "cart"
  }

  /** An item is highlighted when the current view's name equals its id. */
  predicate IsActive(view: Views.View, item: Item) {
    Views.Id(view) == ItemId(item)
  }

  /** Home and shop highlight their own item; the product page highlights
      none; at most one item is ever highlighted. */
  lemma ActiveItems(view: Views.View, a: Item, b: Item)
    ensures view == Views.Home ==> (IsActive(view, a) <==> a == HomeItem)
    ensures view == Views.Shop ==> (IsActive(view, a) <==> a == ShopItem)
    ensures view == Views.ProductPage ==> !IsActive(view, a)
    ensures IsActive(view, a) && IsActive(view, b) ==> a == b
  {
    if IsActive(view, a) {
      assert Views.Id(view)[0] == ItemId(a)[0];
    }
    if IsActive(view, b) {
      assert Views.Id(view)[0] == ItemId(b)[0];
    }
  }

  /** The badge value: wishlist length and total cart units; the other
      items have none. */
  function Badge(item: Item, cart: seq<Cart.CartLine>, wishlist: seq<Product>): (b: Option<int>)
    ensures b.Some? <==> item == WishlistItem || item == CartItem
    ensures item == WishlistItem ==> b == Some(|wishlist|)
    ensures item == CartItem ==> b == Some(Cart.Units(cart))
    ensures item == CartItem && Cart.QuantitiesPositive(cart) ==> b.value >= |cart|
  {
    match item
    case WishlistItem => Some(|wishlist|)
    case CartItem => Some(Cart.Units(cart))
    case _ => None
  }

  /** A badge is drawn only for a positive value. */
  predicate ShowsBadge(item: Item, cart: seq<Cart.CartLine>, wishlist: seq<Product>) {
    var b := Badge(item, cart, wishlist);
    b.Some? && b.value > 0
  }

  /** With positive quantities the cart badge shows exactly when the cart
      has lines, and the wishlist badge exactly when the wishlist does. */
  lemma BadgeShownIffNonEmpty(cart: seq<Cart.CartLine>, wishlist: seq<Product>)
    requires Cart.QuantitiesPositive(cart)
    ensures ShowsBadge(CartItem, cart, wishlist) <==> |cart| > 0
    ensures ShowsBadge(WishlistItem, cart, wishlist) <==> |wishlist| > 0
  {
    if cart == [] {
      assert Cart.Units(cart) == 0;
    }
  }

  class ScrollState {
    var isVisible: bool
    var lastScrollY: int

    constructor ()
      ensures isVisible && lastScrollY == 0
    {
      isVisible := true;
      lastScrollY := 0;
    }

    /** A scroll to `y`: hide when moving down past 100, otherwise show. */
    method HandleScroll(y: int)
      modifies this
      ensures isVisible <==> y <= old(lastScrollY) || y <= 100
      ensures lastScrollY == y
    {
      if y > lastScrollY && y > 100 {
        isVisible := false;
      } else {
        isVisible := true;
      }
      lastScrollY := y;
    }
  }
}
