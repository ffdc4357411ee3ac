/** The earlier hook-based top-level component. It keeps the same cart,
    wishlist and login handlers as `App`, and adds an instant search over
    name, category and tags with a mobile search bar. */
module AppBackup {
  import opened Wrappers
  import Seqs
  import Text
  import opened Catalog
  import Cart
  import Wishlist
  import CartDrawer
  import opened Profile
  import opened Views
  import App

  /** Some tag of the product contains the term; a product without tags has
      none. */
  predicate TagMatches(p: Product, term: string) {
    p.tags.Some? && exists i :: 0 <= i < |p.tags.value| && Text.Matches(p.tags.value[i], term)
  }

  /** The search test: name, category or any tag contains the term,
      ignoring case. */
  predicate WideMatch(p: Product, term: string) {
    Text.Matches(p.name, term) || Text.Matches(p.category, term) || TagMatches(p, term)
  }

  function WideMatches(term: string): Product -> bool {
    (p: Product) => WideMatch(p, term)
  }

  /** `filteredProducts`, in catalogue order. */
  function SearchAll(catalog: seq<Product>, term: string): (r: seq<Product>)
    ensures forall p :: p in r <==> p in catalog && WideMatch(p, term)
    ensures forall p :: p in catalog && p.tags.None? ==>
              (p in r <==> Text.Matches(p.name, term) || Text.Matches(p.category, term))
    ensures |r| <= |catalog|
  {
    Seqs.FilterMembers(catalog, WideMatches(term));
    Seqs.Filter(catalog, WideMatches(term))
  }

  /** The search keeps catalogue order: searching a catalogue made of two
      parts gives the first part's results followed by the second's. */
  lemma SearchAllAppend(a: seq<Product>, b: seq<Product>, term: string)
    ensures SearchAll(a + b, term) == SearchAll(a, term) + SearchAll(b, term)
  {
    Seqs.FilterAppend(a, b, WideMatches(term));
  }

  /** An empty term keeps the whole catalogue, in order. */
  lemma EmptySearchKeepsAll(catalog: seq<Product>)
    ensures SearchAll(catalog, "") == catalog
  {
    forall i | 0 <= i < |catalog| ensures WideMatches("")(catalog[i]) {
      Text.EmptyTermMatches(catalog[i].name);
    }
    Seqs.FilterKeepsAll(catalog, WideMatches(""));
  }

  /** The wider search extends the name-only search of `App`: keeping only
      the name matches of its result gives exactly `App`'s result. */
  lemma WideSearchExtendsNameSearch(catalog: seq<Product>, term: string)
    ensures Seqs.Filter(SearchAll(catalog, term), App.NameMatches(term)) == App.SearchByName(catalog, term)
  {
    Seqs.FilterNarrows(catalog, WideMatches(term), App.NameMatches(term));
  }

  class AppBackup {
    const catalog: seq<Product>
    var cartItems: seq<Cart.CartLine>
    var wishlist: seq<ProductId>
    var user: Option<FormData>
    var isWishlistOpen: bool
    var isCartOpen: bool
    var isCheckoutOpen: bool
    var isPolicyOpen: bool
    var isAuthOpen: bool
    var showMobileSearch: bool
    var searchTerm: string
    var policyTab: string
    var currentView: View
    var selectedProduct: Option<Product>
    var selectedCategory: string

    /** Cart ids are unique and every line counts at least one unit. */
    predicate Valid()
      reads this
    {
      Cart.UniqueIds(cartItems) && Cart.QuantitiesPositive(cartItems)
    }

    constructor (products: seq<Product>)
      ensures catalog == products
      ensures cartItems == [] && wishlist == [] && user.None?
      ensures !isWishlistOpen && !isCartOpen && !isCheckoutOpen && !isPolicyOpen && !isAuthOpen
      ensures !showMobileSearch && searchTerm == "" && policyTab == "about"
      ensures currentView == Home && selectedProduct.None? && selectedCategory == "All"
      ensures Valid()
    {
      catalog := products;
      cartItems := [];
      wishlist := [];
      user := None;
      isWishlistOpen := false;
      isCartOpen := false;
      isCheckoutOpen := false;
      isPolicyOpen := false;
      isAuthOpen := false;
      showMobileSearch := false;
      searchTerm := "";
      policyTab := "about";
      currentView := Home;
      selectedProduct := None;
      selectedCategory := "All";
    }

    method HandleLogin(data: FormData)
      modifies this`user
      ensures user == Some(App.WithDefaultNames(data))
    {
      user := Some(App.WithDefaultNames(data));
    }

    method HandleLogout()
      modifies this`user
      ensures user.None?
    {
      user := None;
    }

    method HandleProductClick(p: Product)
      modifies this`selectedProduct, this`currentView
      ensures selectedProduct == Some(p) && currentView == ProductPage
    {
      selectedProduct := Some(p);
      currentView := ProductPage;
    }

    method HandleNavigation(v: View)
      modifies this`currentView, this`selectedProduct
      ensures currentView == v && selectedProduct.None?
    {
      currentView := v;
      selectedProduct := None;
    }

    method HandleCategoryClick(category: string)
      modifies this`selectedCategory, this`currentView
      ensures selectedCategory == category && currentView == Shop
    {
      selectedCategory := category;
      currentView := Shop;
    }

    method HandlePolicyClick(tab: Option<string>)
      modifies this`policyTab, this`isPolicyOpen
      ensures policyTab == tab.GetOr("about") && isPolicyOpen
    {
      policyTab := tab.GetOr("about");
      isPolicyOpen := true;
    }

    method AddToCart(p: Product, q: Option<int>)
      modifies this`cartItems, this`isCartOpen
      ensures cartItems == Cart.Add(old(cartItems), p, q) && isCartOpen
      ensures Cart.HasId(cartItems, p.id)
      ensures old(Valid()) && (q.None? || q.value >= 0) ==>
                Valid() && CartCount() == old(CartCount()) + Cart.OrOne(q)
    {
      if Valid() && (q.None? || q.value >= 0) {
        Cart.AddRaisesUnits(cartItems, p, q);
      }
      cartItems := Cart.Add(cartItems, p, q);
      isCartOpen := true;
    }

    method RemoveFromCart(id: ProductId)
      modifies this`cartItems
      ensures cartItems == Cart.Remove(old(cartItems), id)
      ensures !Cart.HasId(cartItems, id)
      ensures old(Valid()) ==> Valid()
    {
      cartItems := Cart.Remove(cartItems, id);
    }

    method UpdateCartQuantity(id: ProductId, change: int)
      modifies this`cartItems
      ensures cartItems == Cart.UpdateQuantity(old(cartItems), id, change)
      ensures old(Valid()) ==> Valid()
    {
      cartItems := Cart.UpdateQuantity(cartItems, id, change);
    }

    method ToggleWishlist(id: ProductId)
      modifies this`wishlist
      ensures wishlist == Wishlist.ToggleId(old(wishlist), id)
      ensures id in wishlist <==> id !in old(wishlist)
    {
      wishlist := Wishlist.ToggleId(wishlist, id);
    }

    /** `handleSearchChange`: the term is always stored; a non-empty term
        leaves the product page for the home grid. */
    method HandleSearchChange(term: string)
      modifies this`searchTerm, this`currentView
      ensures searchTerm == term
      ensures currentView == if old(currentView) == ProductPage && |term| > 0 then Home else old(currentView)
    {
      searchTerm := term;
      if currentView == ProductPage && |term| > 0 {
        currentView := Home;
      }
    }

    /** `toggleMobileSearch`: opening the bar on the product page returns to
        the home grid. */
    method ToggleMobileSearch()
      modifies this`showMobileSearch, this`currentView
      ensures showMobileSearch == !old(showMobileSearch)
      ensures currentView == if !old(showMobileSearch) && old(currentView) == ProductPage then Home else old(currentView)
    {
      var wasOpen := showMobileSearch;
      showMobileSearch := !wasOpen;
      if !wasOpen && currentView == ProductPage {
        currentView := Home;
      }
    }

    /** The mobile search bar's close button hides it and clears the term. */
    method CloseMobileSearch()
      modifies this`showMobileSearch, this`searchTerm
      ensures !showMobileSearch && searchTerm == ""
    {
      showMobileSearch := false;
      searchTerm := "";
    }

    method Checkout()
      modifies this`isCartOpen, this`isCheckoutOpen
      ensures !isCartOpen && isCheckoutOpen
    {
      isCartOpen := false;
      isCheckoutOpen := true;
    }

    method WishlistAddToCart(id: ProductId)
      modifies this`cartItems, this`isCartOpen, this`wishlist
      ensures Find(catalog, id).Some? ==>
                cartItems == Cart.Add(old(cartItems), Find(catalog, id).value, None) &&
                Cart.HasId(cartItems, id) && isCartOpen
      ensures Find(catalog, id).None? ==>
                cartItems == old(cartItems) && isCartOpen == old(isCartOpen)
      ensures wishlist == Wishlist.ToggleId(old(wishlist), id)
      ensures id in old(wishlist) ==> id !in wishlist
      ensures old(Valid()) ==> Valid()
    {
      var found := Find(catalog, id);
      if found.Some? {
        AddToCart(found.value, None);
      }
      ToggleWishlist(id);
    }

    /** The grid's products under the current term. */
    function FilteredProducts(): (r: seq<Product>)
      reads this
      ensures forall p :: p in r <==> p in catalog && WideMatch(p, searchTerm)
      ensures r == SearchAll(catalog, searchTerm)
    {
      SearchAll(catalog, searchTerm)
    }

    /** The navbar and bottom-nav cart badge: total units. */
    function CartCount(): (n: int)
      reads this
      ensures n == Cart.Units(cartItems)
      ensures Valid() ==> n >= |cartItems|
    {
      Cart.Units(cartItems)
    }

    function CartTotal(): (t: Option<int>)
      reads this
      ensures cartItems == [] ==> t == Some(0)
      ensures t == CartDrawer.Subtotal(cartItems)
    {
      CartDrawer.Subtotal(cartItems)
    }
  }
}
