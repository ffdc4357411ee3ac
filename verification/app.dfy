/** The hook-based top-level component: the cart, the id-based wishlist, the
    user and the navigation state live in fields that the handlers
    overwrite. The cart updaters are the shared `Cart` operations. */
module App {
  import opened Wrappers
  import Seqs
  import Text
  import opened Catalog
  import Cart
  import Wishlist
  import CartDrawer
  import opened Profile
  import opened Views

  /** `handleLogin`'s record: every field of the form, with an empty first
      name defaulting to "Sam" and an empty last name to "Charmz". */
  function WithDefaultNames(data: FormData): (u: FormData)
    ensures u.firstName != "" && u.lastName != ""
    ensures data.firstName != "" ==> u.firstName == data.firstName
    ensures data.lastName != "" ==> u.lastName == data.lastName
    ensures data.firstName == "" ==> u.firstName == "Sam"
    ensures data.lastName == "" ==> u.lastName == "Charmz"
    ensures u.age == data.age && u.email == data.email && u.password == data.password
  {
    data.(firstName := if data.firstName == "" then "Sam" else data.firstName,
          lastName := if data.lastName == "" then "Charmz" else data.lastName)
  }

  /** Applying the defaults to an already defaulted record changes nothing. */
  lemma DefaultNamesIdempotent(data: FormData)
    ensures WithDefaultNames(WithDefaultNames(data)) == WithDefaultNames(data)
  {
  }

  function NameMatches(term: string): Product -> bool {
    (p: Product) => Text.Matches(p.name, term)
  }

  /** `filteredProducts`: the catalogue products whose name contains the
      term, ignoring case, in catalogue order. */
  function SearchByName(catalog: seq<Product>, term: string): (r: seq<Product>)
    ensures forall p :: p in r <==> p in catalog && Text.Matches(p.name, term)
    ensures |r| <= |catalog|
  {
    Seqs.FilterMembers(catalog, NameMatches(term));
    Seqs.Filter(catalog, NameMatches(term))
  }

  /** The search keeps catalogue order: searching a catalogue made of two
      parts gives the first part's results followed by the second's. */
  lemma SearchByNameAppend(a: seq<Product>, b: seq<Product>, term: string)
    ensures SearchByName(a + b, term) == SearchByName(a, term) + SearchByName(b, term)
  {
    Seqs.FilterAppend(a, b, NameMatches(term));
  }

  /** An empty term keeps the whole catalogue, in order. */
  lemma EmptySearchKeepsAll(catalog: seq<Product>)
    ensures SearchByName(catalog, "") == catalog
  {
    forall i | 0 <= i < |catalog| ensures NameMatches("")(catalog[i]) {
      Text.EmptyTermMatches(catalog[i].name);
    }
    Seqs.FilterKeepsAll(catalog, NameMatches(""));
  }

  /** Searching for a product's full name finds it, in any letter case. */
  lemma SearchFindsName(catalog: seq<Product>, p: Product)
    requires p in catalog
    ensures p in SearchByName(catalog, p.name)
  {
    var l := Text.Lower(p.name);
    Text.ContainsSlice(l, 0, |l|);
    assert l[0..|l|] == l;
  }

  class App {
    const catalog: seq<Product>
    var cartItems: seq<Cart.CartLine>
    var wishlist: seq<ProductId>
    var user: Option<FormData>
    var isWishlistOpen: bool
    var isCartOpen: bool
    var isCheckoutOpen: bool
    var isPolicyOpen: bool
    var isAuthOpen: bool
    var policyTab: string
    var searchTerm: string
    var currentView: View
    var selectedProduct: Option<Product>
    var selectedCategory: string

    /** Cart ids are unique and every line counts at least one unit. */
    predicate Valid()
      reads this
    {
      Cart.UniqueIds(cartItems) && Cart.QuantitiesPositive(cartItems)
    }

    constructor (products: seq<Product>)
      ensures catalog == products
      ensures cartItems == [] && wishlist == [] && user.None?
      ensures !isWishlistOpen && !isCartOpen && !isCheckoutOpen && !isPolicyOpen && !isAuthOpen
      ensures policyTab == "about" && searchTerm == ""
      ensures currentView == Home && selectedProduct.None? && selectedCategory == "All"
      ensures Valid()
    {
      catalog := products;
      cartItems := [];
      wishlist := [];
      user := None;
      isWishlistOpen := false;
      isCartOpen := false;
      isCheckoutOpen := false;
      isPolicyOpen := false;
      isAuthOpen := false;
      policyTab := "about";
      searchTerm := "";
      currentView := Home;
      selectedProduct := None;
      selectedCategory := "All";
    }

    method HandleLogin(data: FormData)
      modifies this`user
      ensures user == Some(WithDefaultNames(data))
    {
      user := Some(WithDefaultNames(data));
    }

    method HandleLogout()
      modifies this`user
      ensures user.None?
    {
      user := None;
    }

    method HandleProductClick(p: Product)
      modifies this`selectedProduct, this`currentView
      ensures selectedProduct == Some(p) && currentView == ProductPage
    {
      selectedProduct := Some(p);
      currentView := ProductPage;
    }

    method HandleNavigation(v: View)
      modifies this`currentView, this`selectedProduct
      ensures currentView == v && selectedProduct.None?
    {
      currentView := v;
      selectedProduct := None;
    }

    /** Choosing a collection opens the shop on it; the selected product is
        kept. */
    method HandleCategoryClick(category: string)
      modifies this`selectedCategory, this`currentView
      ensures selectedCategory == category && currentView == Shop
    {
      selectedCategory := category;
      currentView := Shop;
    }

    /** `handlePolicyClick(tab = 'about')`. */
    method HandlePolicyClick(tab: Option<string>)
      modifies this`policyTab, this`isPolicyOpen
      ensures policyTab == tab.GetOr("about") && isPolicyOpen
    {
      policyTab := tab.GetOr("about");
      isPolicyOpen := true;
    }

    /** `addToCart(product)`, where `q` is the record's `quantity` field (set
        only by the product page). */
    method AddToCart(p: Product, q: Option<int>)
      modifies this`cartItems, this`isCartOpen
      ensures cartItems == Cart.Add(old(cartItems), p, q) && isCartOpen
      ensures Cart.HasId(cartItems, p.id)
      ensures old(Valid()) && (q.None? || q.value >= 0) ==>
                Valid() && CartCount() == old(CartCount()) + Cart.OrOne(q)
    {
      if Valid() && (q.None? || q.value >= 0) {
        Cart.AddRaisesUnits(cartItems, p, q);
      }
      cartItems := Cart.Add(cartItems, p, q);
      isCartOpen := true;
    }

    method RemoveFromCart(id: ProductId)
      modifies this`cartItems
      ensures cartItems == Cart.Remove(old(cartItems), id)
      ensures !Cart.HasId(cartItems, id)
      ensures old(Valid()) ==> Valid()
    {
      cartItems := Cart.Remove(cartItems, id);
    }

    method UpdateCartQuantity(id: ProductId, change: int)
      modifies this`cartItems
      ensures cartItems == Cart.UpdateQuantity(old(cartItems), id, change)
      ensures old(Valid()) ==> Valid()
    {
      cartItems := Cart.UpdateQuantity(cartItems, id, change);
    }

    method ToggleWishlist(id: ProductId)
      modifies this`wishlist
      ensures wishlist == Wishlist.ToggleId(old(wishlist), id)
      ensures id in wishlist <==> id !in old(wishlist)
    {
      wishlist := Wishlist.ToggleId(wishlist, id);
    }

    /** `handleSearch`: a non-empty term returns to the home grid. */
    method HandleSearch(term: string)
      modifies this`searchTerm, this`currentView, this`selectedProduct
      ensures searchTerm == term
      ensures term != "" ==> currentView == Home && selectedProduct.None?
      ensures term == "" ==> currentView == old(currentView) && selectedProduct == old(selectedProduct)
    {
      searchTerm := term;
      if term != "" {
        HandleNavigation(Home);
      }
    }

    /** The cart drawer's checkout button: close the cart, open checkout. */
    method Checkout()
      modifies this`isCartOpen, this`isCheckoutOpen
      ensures !isCartOpen && isCheckoutOpen
    {
      isCartOpen := false;
      isCheckoutOpen := true;
    }

    /** The wishlist drawer's "Add to Cart": the id is looked up in the
        catalogue and added when found, then toggled on the wishlist. */
    method WishlistAddToCart(id: ProductId)
      modifies this`cartItems, this`isCartOpen, this`wishlist
      ensures Find(catalog, id).Some? ==>
                cartItems == Cart.Add(old(cartItems), Find(catalog, id).value, None) &&
                Cart.HasId(cartItems, id) && isCartOpen
      ensures Find(catalog, id).None? ==>
                cartItems == old(cartItems) && isCartOpen == old(isCartOpen)
      ensures wishlist == Wishlist.ToggleId(old(wishlist), id)
      ensures id in old(wishlist) ==> id !in wishlist
      ensures old(Valid()) ==> Valid()
    {
      var found := Find(catalog, id);
      if found.Some? {
        AddToCart(found.value, None);
      }
      ToggleWishlist(id);
    }

    /** The home grid's products. */
    function FilteredProducts(): (r: seq<Product>)
      reads this
      ensures forall p :: p in r <==> p in catalog && Text.Matches(p.name, searchTerm)
      ensures r == SearchByName(catalog, searchTerm)
    {
      SearchByName(catalog, searchTerm)
    }

    function IsSearching(): bool
      reads this
    {
      |searchTerm| > 0
    }

    /** The navbar cart badge: total units. */
    function CartCount(): (n: int)
      reads this
      ensures n == Cart.Units(cartItems)
      ensures Valid() ==> n >= |cartItems|
    {
      Cart.Units(cartItems)
    }

    function WishlistCount(): (n: nat)
      reads this
      ensures n == |wishlist|
    {
      |wishlist|
    }

    /** The checkout total; None stands for NaN. */
    function CartTotal(): (t: Option<int>)
      reads this
      ensures cartItems == [] ==> t == Some(0)
      ensures t == CartDrawer.Subtotal(cartItems)
    {
      CartDrawer.Subtotal(cartItems)
    }
  }
}
