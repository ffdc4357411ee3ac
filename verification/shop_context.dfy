/** The shopping-state container: a record of cart, wishlist, user and three
    visibility flags, a closed set of actions, and the reducer that maps a
    state and an action to the next state. `ShopProvider` holds the state
    and exposes one method per action wrapper. */
module ShopContext {
  import opened Wrappers
  import Seqs
  import opened Catalog
  import Cart
  import Wishlist
  import opened Profile

  /** The logged-in user: the login payload with `isLoggedIn: true`. */
  datatype User = User(profile: FormData, isLoggedIn: bool)

  datatype State = State(
    cart: seq<Cart.CartLine>,
    wishlist: seq<Product>,
    user: Option<User>,
    isCartOpen: bool,
    isWishlistOpen: bool,
    isAuthOpen: bool)

  const InitialState := State([], [], None, false, false, false)

  /** Keys of the stored document besides cart, wishlist and user that name a
      state field; `...rest` copies them into the state. */
  datatype Extras = Extras(isCartOpen: Option<bool>, isWishlistOpen: Option<bool>, isAuthOpen: Option<bool>)

  const NoExtras := Extras(None, None, None)

  /** The parsed stored document handed to INIT_STATE. A cart or wishlist that
      is missing or not an array is None; a user that is missing or falsy is
      None. A `null` document is the one with every part None. */
  datatype Snapshot = Snapshot(
    cart: Option<seq<Cart.CartLine>>,
    wishlist: Option<seq<Product>>,
    user: Option<User>,
    extras: Extras)

  datatype Action =
    | AddToCart(product: Product, quantity: Option<int>)
    | RemoveFromCart(id: ProductId)
    | UpdateCartQty(id: ProductId, change: int)
    | ClearCart
    | ToggleWishlist(product: Product)
    | MoveToCart(product: Product)
    | Login(profile: FormData)
    | Logout
    | SetCartOpen(open: bool)
    | SetWishlistOpen(open: bool)
    | SetAuthOpen(open: bool)
    | InitState(snapshot: Snapshot)
    | Unrecognised(tag: string)

  /** The fields of the state record. */
  datatype Field = CartField | WishlistField | UserField | CartOpenField | WishlistOpenField | AuthOpenField

  /** The fields an action may change. */
  predicate Writes(a: Action, f: Field) {
    match a
    case AddToCart(_, _) => f == CartField || f == CartOpenField
    case RemoveFromCart(_) => f == CartField
    case UpdateCartQty(_, _) => f == CartField
    case ClearCart => f == CartField
    case ToggleWishlist(_) => f == WishlistField
    case MoveToCart(_) => f == CartField || f == WishlistField || f == CartOpenField
    case Login(_) => f == UserField || f == AuthOpenField
    case Logout => f == UserField
    case SetCartOpen(_) => f == CartOpenField
    case SetWishlistOpen(_) => f == WishlistOpenField
    case SetAuthOpen(_) => f == AuthOpenField
    case InitState(snap) =>
      || f == CartField || f == WishlistField || f == UserField
      || (f == CartOpenField && snap.extras.isCartOpen.Some?)
      || (f == WishlistOpenField && snap.extras.isWishlistOpen.Some?)
      || (f == AuthOpenField && snap.extras.isAuthOpen.Some?)
    case Unrecognised(_) => false
  }

  /** MOVE_TO_CART's cart half: an existing line grows by one, otherwise a
      line of quantity 1 is appended; the payload's quantity is ignored. */
  function MoveLine(cart: seq<Cart.CartLine>, p: Product): seq<Cart.CartLine> {
    if Cart.HasId(cart, p.id) then Cart.Bump(cart, p.id, 1, false)
    else cart + [Cart.CartLine(p, Some(1))]
  }

  /** The INIT_STATE case: stored cart, wishlist and user replace the current
      ones (with `[]`/`null` for malformed parts), extra keys override flags. */
  function Rehydrate(s: State, snap: Snapshot): State {
    State(
      snap.cart.GetOr([]),
      snap.wishlist.GetOr([]),
      snap.user,
      snap.extras.isCartOpen.GetOr(s.isCartOpen),
      snap.extras.isWishlistOpen.GetOr(s.isWishlistOpen),
      snap.extras.isAuthOpen.GetOr(s.isAuthOpen))
  }

  /** `shopReducer`. */
  function Reduce(s: State, a: Action): (r: State)
    ensures !Writes(a, CartField) ==> r.cart == s.cart
    ensures !Writes(a, WishlistField) ==> r.wishlist == s.wishlist
    ensures !Writes(a, UserField) ==> r.user == s.user
    ensures !Writes(a, CartOpenField) ==> r.isCartOpen == s.isCartOpen
    ensures !Writes(a, WishlistOpenField) ==> r.isWishlistOpen == s.isWishlistOpen
    ensures !Writes(a, AuthOpenField) ==> r.isAuthOpen == s.isAuthOpen
    ensures a.Unrecognised? ==> r == s
  {
    match a
    case AddToCart(p, q) => s.(cart := Cart.Add(s.cart, p, q), isCartOpen := true)
    case RemoveFromCart(id) => s.(cart := Cart.Remove(s.cart, id))
    case UpdateCartQty(id, change) => s.(cart := Cart.UpdateQuantity(s.cart, id, change))
    case ClearCart => s.(cart := [])
    case ToggleWishlist(p) => s.(wishlist := Wishlist.ToggleProduct(s.wishlist, p))
    case MoveToCart(p) =>
      s.(cart := MoveLine(s.cart, p),
         wishlist := Wishlist.RemoveKey(s.wishlist, p.id, IdOf),
         isCartOpen := true)
    case Login(data) => s.(user := Some(User(data, true)), isAuthOpen := false)
    case Logout => s.(user := None)
    case SetCartOpen(b) => s.(isCartOpen := b)
    case SetWishlistOpen(b) => s.(isWishlistOpen := b)
    case SetAuthOpen(b) => s.(isAuthOpen := b)
    case InitState(snap) => Rehydrate(s, snap)
    case Unrecognised(_) => s
  }

  /** What the persistence effect writes: cart, wishlist and user only. */
  function Persist(s: State): (snap: Snapshot)
    ensures snap.extras == NoExtras
  {
    Snapshot(Some(s.cart), Some(s.wishlist), s.user, NoExtras)
  }

  /** The data invariant: unique ids in cart and wishlist, every cart line
      counting at least one unit. */
  predicate Valid(s: State) {
    Cart.UniqueIds(s.cart) && Cart.QuantitiesPositive(s.cart) && UniqueIds(s.wishlist)
  }

  /** Actions that cannot break `Valid`: a non-negative requested quantity,
      and a stored snapshot whose present parts satisfy the invariant. */
  predicate Safe(a: Action) {
    match a
    case AddToCart(_, q) => q.None? || q.value >= 0
    case InitState(snap) =>
      (snap.cart.Some? ==> Cart.UniqueIds(snap.cart.value) && Cart.QuantitiesPositive(snap.cart.value)) &&
      (snap.wishlist.Some? ==> UniqueIds(snap.wishlist.value))
    case _ => true
  }

  /** MOVE_TO_CART's cart half is ADD_TO_CART without a quantity. */
  lemma MoveLineIsAdd(cart: seq<Cart.CartLine>, p: Product)
    ensures MoveLine(cart, p) == Cart.Add(cart, p, None)
  {
    var r := MoveLine(cart, p);
    var a := Cart.Add(cart, p, None);
    if Cart.HasId(cart, p.id) {
      assert |r| == |a|;
      forall i | 0 <= i < |r| ensures r[i] == a[i] {}
    }
  }

  /** Every reducer step from a valid state by a safe action is valid. */
  lemma ReducePreservesValid(s: State, a: Action)
    requires Valid(s) && Safe(a)
    ensures Valid(Reduce(s, a))
  {
    match a
    case MoveToCart(p) =>
      MoveLineIsAdd(s.cart, p);
    case InitState(snap) =>
      assert Cart.UniqueIds([]) && Cart.QuantitiesPositive([]) && UniqueIds([]);
    case _ =>
  }

  /** Moving a wishlisted product to the cart is adding it with no quantity
      and then toggling it off the wishlist; for one not on the wishlist the
      toggle is skipped. */
  lemma MoveIsAddThenToggle(s: State, p: Product)
    ensures Wishlist.HasKey(s.wishlist, p.id, IdOf) ==>
              Reduce(s, MoveToCart(p)) == Reduce(Reduce(s, AddToCart(p, None)), ToggleWishlist(p))
    ensures !Wishlist.HasKey(s.wishlist, p.id, IdOf) ==>
              Reduce(s, MoveToCart(p)) == Reduce(s, AddToCart(p, None))
  {
    MoveLineIsAdd(s.cart, p);
  }

  /** After MOVE_TO_CART the product is in the cart and off the wishlist,
      and the rest of the wishlist is untouched. */
  lemma MoveToCartMoves(s: State, p: Product)
    ensures Cart.HasId(Reduce(s, MoveToCart(p)).cart, p.id)
    ensures !Wishlist.HasKey(Reduce(s, MoveToCart(p)).wishlist, p.id, IdOf)
    ensures forall y: Product :: y.id != p.id ==> (y in Reduce(s, MoveToCart(p)).wishlist <==> y in s.wishlist)
    ensures Reduce(s, MoveToCart(p)).isCartOpen
  {
    MoveLineIsAdd(s.cart, p);
  }

  /** Adding a product that was not in the cart and then removing it gives
      back the original cart, with the drawer left open. */
  lemma AddThenRemove(s: State, p: Product, q: Option<int>)
    requires !Cart.HasId(s.cart, p.id)
    ensures Reduce(Reduce(s, AddToCart(p, q)), RemoveFromCart(p.id)) == s.(isCartOpen := true)
  {
    Cart.RemoveUndoesAppend(s.cart, Cart.CartLine(p, Some(Cart.OrOne(q))));
  }

  /** Toggling a product twice restores whether it is wishlisted, and
      restores the whole state when it was not. */
  lemma ToggleWishlistTwice(s: State, p: Product)
    ensures Wishlist.HasKey(Reduce(Reduce(s, ToggleWishlist(p)), ToggleWishlist(p)).wishlist, p.id, IdOf)
            == Wishlist.HasKey(s.wishlist, p.id, IdOf)
    ensures !Wishlist.HasKey(s.wishlist, p.id, IdOf) ==>
              Reduce(Reduce(s, ToggleWishlist(p)), ToggleWishlist(p)) == s
  {
    Wishlist.ToggleTwice(s.wishlist, p, IdOf);
  }

  /** LOGIN records a logged-in user and closes the auth modal; LOGOUT
      after it clears the user and keeps the rest. */
  lemma LoginThenLogout(s: State, data: FormData)
    ensures Reduce(s, Login(data)).user == Some(User(data, true))
    ensures !Reduce(s, Login(data)).isAuthOpen
    ensures Reduce(Reduce(s, Login(data)), Logout) == s.(user := None, isAuthOpen := false)
  {
  }

  /** Rehydrating from what the persistence effect wrote restores cart,
      wishlist and user and leaves the current flags alone; on a fresh load
      every drawer and modal stays closed. */
  lemma PersistRoundTrip(s: State, t: State)
    ensures Reduce(t, InitState(Persist(s))) ==
              t.(cart := s.cart, wishlist := s.wishlist, user := s.user)
    ensures Reduce(InitialState, InitState(Persist(s))) ==
              s.(isCartOpen := false, isWishlistOpen := false, isAuthOpen := false)
  {
  }

  /** A stored `null` (or a document with none of the keys) empties cart,
      wishlist and user. */
  lemma NullSnapshot(s: State)
    ensures Reduce(s, InitState(Snapshot(None, None, None, NoExtras))) ==
              s.(cart := [], wishlist := [], user := None)
  {
  }

  /** The provider: the reducer's state and one wrapper per action. */
  class ShopProvider {
    var state: State

    constructor ()
      ensures state == InitialState
    {
      state := InitialState;
    }

    /** The persistence-init effect: `stored` is the parsed document, None
        when nothing is stored or it does not parse (then nothing is
        dispatched). */
    method Load(stored: Option<Snapshot>)
      modifies this
      ensures stored.None? ==> state == old(state)
      ensures stored.Some? ==> state == Reduce(old(state), Action.InitState(stored.value))
    {
      if stored.Some? {
        state := Reduce(state, Action.InitState(stored.value));
      }
    }

    /** What the persistence effect stores for the current state. */
    function Saved(): (snap: Snapshot)
      reads this
      ensures snap.cart == Some(state.cart) && snap.wishlist == Some(state.wishlist)
      ensures snap.user == state.user && snap.extras == NoExtras
    {
      Persist(state)
    }

    /** `addToCart(product, quantity = 1)`: a missing quantity becomes 1. */
    method AddToCart(p: Product, quantity: Option<int>)
      modifies this
      ensures state == Reduce(old(state), Action.AddToCart(p, Some(quantity.GetOr(1))))
      ensures Cart.HasId(state.cart, p.id) && state.isCartOpen
      ensures old(Valid(state)) && (quantity.None? || quantity.value >= 0) ==> Valid(state)
    {
      var a := Action.AddToCart(p, Some(quantity.GetOr(1)));
      if Valid(state) && Safe(a) {
        ReducePreservesValid(state, a);
      }
      state := Reduce(state, a);
    }

    method RemoveFromCart(id: ProductId)
      modifies this
      ensures state == Reduce(old(state), Action.RemoveFromCart(id))
      ensures !Cart.HasId(state.cart, id)
      ensures old(Valid(state)) ==> Valid(state)
    {
      if Valid(state) {
        ReducePreservesValid(state, Action.RemoveFromCart(id));
      }
      state := Reduce(state, Action.RemoveFromCart(id));
    }

    method UpdateQuantity(id: ProductId, change: int)
      modifies this
      ensures state == Reduce(old(state), Action.UpdateCartQty(id, change))
      ensures old(Valid(state)) ==> Valid(state)
    {
      if Valid(state) {
        ReducePreservesValid(state, Action.UpdateCartQty(id, change));
      }
      state := Reduce(state, Action.UpdateCartQty(id, change));
    }

    method ToggleWishlist(p: Product)
      modifies this
      ensures state == Reduce(old(state), Action.ToggleWishlist(p))
      ensures Wishlist.HasKey(state.wishlist, p.id, IdOf) <==> !Wishlist.HasKey(old(state).wishlist, p.id, IdOf)
      ensures old(Valid(state)) ==> Valid(state)
    {
      if Valid(state) {
        ReducePreservesValid(state, Action.ToggleWishlist(p));
      }
      state := Reduce(state, Action.ToggleWishlist(p));
    }

    method MoveToCart(p: Product)
      modifies this
      ensures state == Reduce(old(state), Action.MoveToCart(p))
      ensures Cart.HasId(state.cart, p.id) && !Wishlist.HasKey(state.wishlist, p.id, IdOf)
      ensures old(Valid(state)) ==> Valid(state)
    {
      MoveToCartMoves(state, p);
      if Valid(state) {
        ReducePreservesValid(state, Action.MoveToCart(p));
      }
      state := Reduce(state, Action.MoveToCart(p));
    }

    method Login(data: FormData)
      modifies this
      ensures state == Reduce(old(state), Action.Login(data))
      ensures state.user == Some(User(data, true)) && !state.isAuthOpen
    {
      state := Reduce(state, Action.Login(data));
    }

    method Logout()
      modifies this
      ensures state == old(state).(user := None)
    {
      state := Reduce(state, Action.Logout);
    }

    method OpenCart()
      modifies this
      ensures state == old(state).(isCartOpen := true)
    {
      state := Reduce(state, Action.SetCartOpen(true));
    }

    method CloseCart()
      modifies this
      ensures state == old(state).(isCartOpen := false)
    {
      state := Reduce(state, Action.SetCartOpen(false));
    }

    method OpenWishlist()
      modifies this
      ensures state == old(state).(isWishlistOpen := true)
    {
      state := Reduce(state, Action.SetWishlistOpen(true));
    }

    method CloseWishlist()
      modifies this
      ensures state == old(state).(isWishlistOpen := false)
    {
      state := Reduce(state, Action.SetWishlistOpen(false));
    }

    method OpenAuth()
      modifies this
      ensures state == old(state).(isAuthOpen := true)
    {
      state := Reduce(state, Action.SetAuthOpen(true));
    }

    method CloseAuth()
      modifies this
      ensures state == old(state).(isAuthOpen := false)
    {
      state := Reduce(state, Action.SetAuthOpen(false));
    }
  }
}
