# Sam Charmz storefront — a Dafny model

This project models the client-side logic of the Sam Charmz jewellery
storefront, a React single-page shop. It covers:

- the shopping-state reducer (`shopReducer`) with its closed set of cart,
  wishlist, login, visibility and rehydration actions, the provider that
  wraps it, and the persisted snapshot `{cart, wishlist, user}`;
- the two hook-based top-level components (`App` and the earlier
  `App.backup`), whose handlers overwrite cart, id-based wishlist, user,
  search and navigation state;
- the catalogue views: the shop page's category and price filter and
  price sort, and the home grid's category bar with its search bypass;
- the derived views of the cart drawer (subtotal, header, line buttons)
  and of the wishlist drawer (catalogue cross-reference);
- the small UI state machines: the product page's quantity stepper, the
  testimonial carousel, the checkout steps, the sign-in modal's views and
  delayed submit, the mobile bottom bar, and the policy tabs.

Prices are strings such as `"₹1,299"`. They are read by deleting every `₹`
and `,` and taking the leading decimal digits as a natural number of
rupees; a string with no leading digit reads as `None`, which stands for
`NaN`. Quantities are `Option<int>`, so that a line without a `quantity`
field (`undefined`) differs from a line with one, and `q || 1` is
`Cart.OrOne`. The catalogue file is a parameter `seq<Product>`.

Modules follow the source files. Logic that two files share is defined
once and imported:

- `Seqs.Filter` for `Array.prototype.filter`;
- the `Cart` operations, used by the reducer and by both `App` variants;
- the generic `Wishlist.Toggle`, used with product records and with bare ids;
- `Pricing.ParsePrice`;
- the stable `KeySort.Sort` behind `Listing.SortProducts`.

Stateful components are classes. Their fields are the component's
`useState` fields and each handler is a method. Pure expressions are
functions, with lemmas for the properties that relate several of them.
Timer callbacks (`setTimeout`, `setInterval`) are methods that a caller
invokes when the timer fires; pending timers are counted or queued in
fields.

## Model

| member | source | states |
|---|---|---|
| Seqs.Filter | src/App.jsx:123-125 | every element of the result passes the test, and the result is no longer than the input |
| Seqs.FilterMembers | src/App.jsx:123-125 | the result holds exactly the input elements that pass the test |
| Seqs.FilterAppend | src/App.jsx:123-125 | filtering distributes over concatenation, so kept elements stay in input order |
| Seqs.FilterKeepsAll | src/components/ProductGrid.jsx:16-20 | a filter every element passes returns its input unchanged |
| Seqs.FilterKeepsDistinct | src/context/ShopContext.jsx:31-35 | filtering never makes two elements share a key |
| Seqs.FilterCongruent | src/components/WishlistDrawer.jsx:7 | two tests that agree on every element select the same sequence |
| Seqs.FilterNarrows | src/App.backup.jsx:152-159 | filtering by a looser test and then a stricter one equals filtering by the stricter one |
| Text.Lower | src/App.jsx:124 | lower-casing keeps the length, leaves no upper-case ASCII letter and keeps every other character |
| Text.LowerIdempotent | src/App.jsx:124 | lower-casing twice equals lower-casing once |
| Text.EmptyIsContained | src/App.jsx:124 | every string includes the empty string |
| Text.ContainsSlice | src/App.jsx:124 | a string includes each of its slices |
| Text.EmptyTermMatches | src/App.jsx:123-125 | an empty search term matches every text |
| Pricing.StripSymbols | src/components/Shop.jsx:21 | every character other than `₹` and `,` is kept and no symbol is; the result is no longer than the input and a lone symbol is deleted; with `Pricing.StripSymbolsAppend` and `Pricing.StripSymbolsKeepsPlain` the other characters keep their order and multiplicity |
| Pricing.StripSymbolsAppend | src/components/Shop.jsx:21 | stripping a concatenation strips each part in turn, so the other characters keep their order and multiplicity |
| Pricing.StripSymbolsKeepsPlain | src/components/Shop.jsx:21 | a price string without `₹` or `,` is left exactly as it is |
| Pricing.LeadingDigits | src/components/Shop.jsx:21 | the result is the longest prefix made only of decimal digits |
| Pricing.Digits | src/components/Shop.jsx:21 | the decimal rendering of a number is non-empty and all digits |
| Pricing.DigitsValueOfDigits | src/components/Shop.jsx:21 | reading the decimal rendering of `n` gives back `n` |
| Pricing.LeadingDigitsOfDigits | src/components/Shop.jsx:21 | a string of digits is its own longest digit prefix |
| Pricing.PriceRoundTrip | src/components/Shop.jsx:21 | `₹` followed by the digits of `n` parses to `n` |
| Pricing.SymbolIgnored | src/components/Shop.jsx:21 | inserting a `₹` or `,` anywhere does not change the parsed price |
| Pricing.GroupSeparatorIgnored | src/components/Shop.jsx:21 | the comma of "₹1,299" does not change the parsed price: it reads as "₹1299" |
| Pricing.GroupedPriceExample | src/components/Shop.jsx:21 | `"₹1,299"` parses to 1299 |
| Catalog.Find | src/App.jsx:152-155 | a found product is the first catalogue product with the id, and nothing is found exactly when no product has the id |
| Cart.Bump | src/context/ShopContext.jsx:21-25 | only lines with the id change, and only their quantity, which becomes `(quantity \|\| 1) + delta`, raised to 1 when clamped |
| Cart.Add | src/context/ShopContext.jsx:17-30 | an existing id's line grows by `q \|\| 1` from `quantity \|\| 1` and the other lines are untouched; a new id appends one line of quantity `q \|\| 1`; the id is present afterwards; other ids' presence, unique ids and positive quantities are kept |
| Cart.Remove | src/context/ShopContext.jsx:31-35 | no line with the id is left; exactly the other lines remain, in their order (with `Cart.RemoveAppend`); an absent id changes nothing; unique ids and positive quantities are kept |
| Cart.RemoveAppend | src/context/ShopContext.jsx:31-35 | removal works part by part over a concatenated cart, so the remaining lines keep their order |
| Cart.RemoveUndoesAppend | src/context/ShopContext.jsx:31-35 | removing the id of a line just appended to a cart without that id gives back the cart |
| Cart.UpdateQuantity | src/context/ShopContext.jsx:36-44 | the id's line becomes `max(1, (q \|\| 1) + change)` and so never goes below 1; other lines are untouched; an absent id changes nothing; ids, uniqueness and positivity are kept |
| Cart.Units | src/App.jsx:135 | with positive quantities the unit count is at least the number of lines |
| Cart.AddTwice | src/context/ShopContext.jsx:17-30 | adding a new product twice gives one line with the sum of both requests |
| Cart.UnitsOneLine | src/App.jsx:135 | changing one line changes the unit count by that line's difference |
| Cart.UnitsAppend | src/App.jsx:135 | appending a line adds its `quantity \|\| 1` to the unit count |
| Cart.AddRaisesUnits | src/App.jsx:76-89 | in a valid cart, adding with a non-negative request raises the unit count by exactly `q \|\| 1` |
| Wishlist.RemoveKey | src/context/ShopContext.jsx:79 | no entry with the key is left; exactly the other entries remain; an absent key changes nothing; distinct keys are kept |
| Wishlist.Toggle | src/context/ShopContext.jsx:49-59 | the key's presence flips; other entries' membership is kept; an absent key appends the entry; distinct keys are kept |
| Wishlist.ToggleTwice | src/context/ShopContext.jsx:49-59 | toggling twice restores the key's presence, and the whole list when the key was absent |
| Wishlist.ToggleProduct | src/context/ShopContext.jsx:49-59 | the product's id presence flips, other products' membership is kept, an absent id appends the record, unique ids are kept |
| Wishlist.ToggleId | src/App.jsx:105-109 | the id's membership flips, other ids are kept, an absent id is appended |
| Wishlist.ToggleIdTwice | src/App.jsx:105-109 | toggling an id twice restores its membership, and the list when it was absent |
| ShopContext.Reduce | src/context/ShopContext.jsx:14-110 | every field outside the action's write set is unchanged, and an unrecognised action returns the state itself |
| ShopContext.Persist | src/context/ShopContext.jsx:131-135 | the snapshot carries no visibility flags |
| ShopContext.MoveLineIsAdd | src/context/ShopContext.jsx:64-74 | MOVE_TO_CART's cart update is ADD_TO_CART with no quantity |
| ShopContext.ReducePreservesValid | src/context/ShopContext.jsx:14-110 | from a state with unique cart and wishlist ids and positive quantities, every action with a non-negative quantity and a valid stored snapshot leads to such a state |
| ShopContext.MoveIsAddThenToggle | src/context/ShopContext.jsx:60-82 | moving a wishlisted product is ADD_TO_CART followed by TOGGLE_WISHLIST; for one not wishlisted it is ADD_TO_CART alone |
| ShopContext.MoveToCartMoves | src/context/ShopContext.jsx:60-82 | after a move the id is in the cart and not on the wishlist, other wishlist entries are kept, and the cart drawer is open |
| ShopContext.AddThenRemove | src/context/ShopContext.jsx:17-35 | adding a new product and removing it restores the state except that the cart drawer is open |
| ShopContext.ToggleWishlistTwice | src/context/ShopContext.jsx:49-59 | two toggles restore the id's presence, and the whole state when it was absent |
| ShopContext.LoginThenLogout | src/context/ShopContext.jsx:85-88 | LOGIN stores the payload as a logged-in user and closes the auth modal; LOGOUT then clears only the user |
| ShopContext.PersistRoundTrip | src/context/ShopContext.jsx:96-105 | rehydrating from the stored snapshot restores cart, wishlist and user and keeps the current flags; on a fresh load all flags are closed |
| ShopContext.NullSnapshot | src/context/ShopContext.jsx:97-104 | a stored `null` empties cart and wishlist and clears the user |
| ShopContext.ShopProvider.constructor | src/context/ShopContext.jsx:5-12 | the provider starts in the initial state |
| ShopContext.ShopProvider.Load | src/context/ShopContext.jsx:116-126 | a parsed stored document is dispatched as INIT_STATE; a missing or unparsable one dispatches nothing |
| ShopContext.ShopProvider.Saved | src/context/ShopContext.jsx:131-135 | the stored document is the state's cart, wishlist and user |
| ShopContext.ShopProvider.AddToCart | src/context/ShopContext.jsx:140 | dispatches ADD_TO_CART with the quantity defaulting to 1; the id is in the cart, the drawer is open, and validity is kept for non-negative quantities |
| ShopContext.ShopProvider.RemoveFromCart | src/context/ShopContext.jsx:141 | dispatches REMOVE_FROM_CART; the id is gone and validity is kept |
| ShopContext.ShopProvider.UpdateQuantity | src/context/ShopContext.jsx:142 | dispatches UPDATE_CART_QTY and keeps validity |
| ShopContext.ShopProvider.ToggleWishlist | src/context/ShopContext.jsx:146 | dispatches TOGGLE_WISHLIST; the id's presence flips and validity is kept |
| ShopContext.ShopProvider.MoveToCart | src/context/ShopContext.jsx:147 | dispatches MOVE_TO_CART; the id is in the cart and off the wishlist, and validity is kept |
| ShopContext.ShopProvider.Login | src/context/ShopContext.jsx:149 | the user is the logged-in payload and the auth modal is closed |
| ShopContext.ShopProvider.Logout | src/context/ShopContext.jsx:150 | only the user changes, to none |
| ShopContext.ShopProvider.OpenCart | src/context/ShopContext.jsx:152 | only the cart flag changes, to open |
| ShopContext.ShopProvider.CloseCart | src/context/ShopContext.jsx:153 | only the cart flag changes, to closed |
| ShopContext.ShopProvider.OpenWishlist | src/context/ShopContext.jsx:155 | only the wishlist flag changes, to open |
| ShopContext.ShopProvider.CloseWishlist | src/context/ShopContext.jsx:156 | only the wishlist flag changes, to closed |
| ShopContext.ShopProvider.OpenAuth | src/context/ShopContext.jsx:158 | only the auth flag changes, to open |
| ShopContext.ShopProvider.CloseAuth | src/context/ShopContext.jsx:159 | only the auth flag changes, to closed |
| Views.IdInjective | src/App.jsx:34-35 | distinct views have distinct names |
| App.WithDefaultNames | src/App.jsx:39-47 | both names end up non-empty; a given name is kept; an empty first name becomes "Sam" and an empty last name "Charmz"; age, email and password are kept |
| App.DefaultNamesIdempotent | src/App.jsx:39-47 | applying the name defaults twice equals applying them once |
| App.SearchByName | src/App.jsx:123-125 | the result holds exactly the catalogue products whose lower-cased name includes the lower-cased term, in catalogue order (with `App.SearchByNameAppend`) |
| App.SearchByNameAppend | src/App.jsx:123-125 | searching a concatenated catalogue gives the first part's hits followed by the second's: results keep catalogue order |
| App.EmptySearchKeepsAll | src/App.jsx:123-125 | an empty term returns the catalogue unchanged, in order |
| App.SearchFindsName | src/App.jsx:123-125 | searching for a product's full name finds it |
| App.App.constructor | src/App.jsx:20-37 | empty cart and wishlist, no user, all modals closed, tab "about", empty search, home view, category "All" |
| App.App.HandleLogin | src/App.jsx:39-47 | the user is the form record with the name defaults |
| App.App.HandleLogout | src/App.jsx:49-51 | the user is cleared |
| App.App.HandleProductClick | src/App.jsx:53-57 | the clicked product is selected and the view is the product page |
| App.App.HandleNavigation | src/App.jsx:59-63 | the view is set and no product is selected |
| App.App.HandleCategoryClick | src/App.jsx:65-69 | the category is selected and the view is the shop |
| App.App.HandlePolicyClick | src/App.jsx:71-74 | the policy tab is the requested one, "about" by default, and the policy modal opens |
| App.App.AddToCart | src/App.jsx:76-89 | the cart is the shared add, the drawer opens, and for a valid cart and non-negative request the badge grows by `q \|\| 1` |
| App.App.RemoveFromCart | src/App.jsx:91-93 | the cart is the shared remove; the id is gone; validity is kept |
| App.App.UpdateCartQuantity | src/App.jsx:95-103 | the cart is the shared clamped update; validity is kept |
| App.App.ToggleWishlist | src/App.jsx:105-109 | the id list is toggled and the id's membership flips |
| App.App.HandleSearch | src/App.jsx:111-120 | the term is stored; a non-empty term navigates home; an empty term leaves view and selection alone |
| App.App.Checkout | src/App.jsx:164-167 | the cart drawer closes and the checkout opens |
| App.App.WishlistAddToCart | src/App.jsx:152-155 | a catalogued id is added to the cart with the drawer open, an unknown id leaves the cart alone, and the id is toggled off the wishlist |
| App.App.FilteredProducts | src/App.jsx:123-125 | the home grid holds exactly the catalogue products whose name matches the current term, and it is the name search of the catalogue, in catalogue order |
| App.App.CartCount | src/App.jsx:135 | the badge is the total of `quantity \|\| 1` over the cart lines (`Cart.Units`), and for a valid cart at least the number of lines |
| App.App.WishlistCount | src/App.jsx:136 | the wishlist badge is the wishlist length |
| App.App.CartTotal | src/App.jsx:127-130 | the checkout total is the cart drawer's subtotal Σ price × `(quantity \|\| 1)` (`CartDrawer.Subtotal`, additive by `SubtotalAppend`, non-negative by `SubtotalNonNegative`), so an empty cart totals 0 |
| AppBackup.SearchAll | src/App.backup.jsx:152-159 | the result holds exactly the catalogue products whose name, category or some tag matches; a product without tags matches only on name or category; catalogue order is kept (with `AppBackup.SearchAllAppend`) |
| AppBackup.SearchAllAppend | src/App.backup.jsx:152-159 | searching a concatenated catalogue gives the first part's hits followed by the second's: results keep catalogue order |
| AppBackup.EmptySearchKeepsAll | src/App.backup.jsx:152-159 | an empty term returns the catalogue unchanged, in order |
| AppBackup.WideSearchExtendsNameSearch | src/App.backup.jsx:152-159 | keeping the name matches of the wide search gives exactly the name-only search of `App` |
| AppBackup.AppBackup.constructor | src/App.backup.jsx:25-45 | the initial state, with the mobile search bar hidden |
| AppBackup.AppBackup.HandleLogin | src/App.backup.jsx:47-55 | the user is the form record with the name defaults |
| AppBackup.AppBackup.HandleLogout | src/App.backup.jsx:57-59 | the user is cleared |
| AppBackup.AppBackup.HandleProductClick | src/App.backup.jsx:61-65 | the clicked product is selected and the view is the product page |
| AppBackup.AppBackup.HandleNavigation | src/App.backup.jsx:67-75 | the view is set and no product is selected |
| AppBackup.AppBackup.HandleCategoryClick | src/App.backup.jsx:77-81 | the category is selected and the view is the shop |
| AppBackup.AppBackup.HandlePolicyClick | src/App.backup.jsx:83-86 | the requested tab, "about" by default, and the modal opens |
| AppBackup.AppBackup.AddToCart | src/App.backup.jsx:88-101 | the shared add, the drawer opens, and the badge grows by `q \|\| 1` for a valid cart |
| AppBackup.AppBackup.RemoveFromCart | src/App.backup.jsx:103-105 | the shared remove; the id is gone |
| AppBackup.AppBackup.UpdateCartQuantity | src/App.backup.jsx:107-115 | the shared clamped update |
| AppBackup.AppBackup.ToggleWishlist | src/App.backup.jsx:117-121 | the id's membership flips |
| AppBackup.AppBackup.HandleSearchChange | src/App.backup.jsx:123-137 | the term is always stored; the view moves from the product page to home only for a non-empty term |
| AppBackup.AppBackup.ToggleMobileSearch | src/App.backup.jsx:140-146 | the bar flips; opening it on the product page moves to home |
| AppBackup.AppBackup.CloseMobileSearch | src/App.backup.jsx:187-190 | the bar hides and the term is cleared |
| AppBackup.AppBackup.Checkout | src/App.backup.jsx:222-225 | the cart drawer closes and the checkout opens |
| AppBackup.AppBackup.WishlistAddToCart | src/App.backup.jsx:210-213 | a catalogued id is added to the cart, an unknown id leaves it alone, and the id is toggled off the wishlist |
| AppBackup.AppBackup.FilteredProducts | src/App.backup.jsx:152-159 | the grid holds exactly the catalogue products matching the term on name, category or tag, and it is the wide search of the catalogue, in catalogue order |
| AppBackup.AppBackup.CartCount | src/App.backup.jsx:173 | the badge is the total of `quantity \|\| 1` over the cart lines (`Cart.Units`), and for a valid cart at least the number of lines |
| AppBackup.AppBackup.CartTotal | src/App.backup.jsx:161-164 | the checkout total is the cart drawer's subtotal Σ price × `(quantity \|\| 1)` (`CartDrawer.Subtotal`, additive by `SubtotalAppend`, non-negative by `SubtotalNonNegative`), so an empty cart totals 0 |
| KeySort.Insert | src/components/Shop.jsx:27-32 | insertion adds exactly the element and keeps a sorted list sorted |
| KeySort.Sort | src/components/Shop.jsx:27-32 | the result is a permutation of the input, of the same length, ordered by the key in the chosen direction |
| KeySort.InsertIsStable | src/components/Shop.jsx:27-32 | insertion puts the element before every equal-key element |
| KeySort.SortIsStable | src/components/Shop.jsx:27-32 | among equal keys the sorted list keeps input order |
| Listing.SortProducts | src/components/ProductGrid.jsx:23-32 | a permutation of its input; "Default" keeps the order; Low-to-High gives non-decreasing and High-to-Low non-increasing prices; priced inputs give priced outputs |
| Listing.SortKeepsTies | src/components/Shop.jsx:27-32 | products of equal price keep their relative order under every option |
| Shop.Filtered | src/components/Shop.jsx:19-24 | exactly the catalogue products in the category ("All" passes all) whose parsed price lies in the range, in catalogue order (with `Shop.FilteredAppend`); none has an unparsable price |
| Shop.FilteredAppend | src/components/Shop.jsx:19-24 | filtering a concatenated catalogue gives the first part's products followed by the second's: catalogue order is kept |
| Shop.FilterMonotone | src/components/Shop.jsx:19-24 | raising the maximum only adds products, and "All" shows every product a single category shows |
| Shop.CategoryNarrowsAll | src/components/Shop.jsx:19-24 | the list for one category is the "All" list filtered again, in the same order |
| Shop.Shop.constructor | src/components/Shop.jsx:11-15 | category is the initial one or "All", sort "Default", range 0 to 2000, panels closed |
| Shop.Shop.SortedProducts | src/components/Shop.jsx:27-32 | a permutation of the filtered list, all priced, unchanged under "Default", in non-decreasing price for Low-to-High and non-increasing for High-to-Low |
| Shop.Shop.ResultCount | src/components/Shop.jsx:164 | the count is the filtered list's length |
| Shop.Shop.OpenFilter | src/components/Shop.jsx:51 | the filter drawer opens |
| Shop.Shop.CloseFilter | src/components/Shop.jsx:96 | the filter drawer closes |
| Shop.Shop.ToggleSortMenu | src/components/Shop.jsx:60 | the sort menu flips |
| Shop.Shop.ChooseSort | src/components/Shop.jsx:76 | the option is set and the menu closes |
| Shop.Shop.ChooseCategory | src/components/Shop.jsx:129 | the category is set and the filter drawer closes |
| Shop.Shop.SetMaxPrice | src/components/Shop.jsx:148 | only the maximum changes |
| Shop.Shop.ResetFilters | src/components/Shop.jsx:213 | category "All" and the full 0 to 2000 range |
| ProductGrid.CategoryFiltered | src/components/ProductGrid.jsx:16-20 | while searching or for "All" the products are returned unchanged; otherwise exactly those of the category, no more than were given, in the given order (with `ProductGrid.CategoryFilteredAppend`) |
| ProductGrid.CategoryFilteredAppend | src/components/ProductGrid.jsx:16-20 | narrowing concatenated products gives the first part's result followed by the second's: the given order is kept |
| ProductGrid.AllCategoryIsIdentity | src/components/ProductGrid.jsx:16-20 | filtering by "All" would return the products unchanged |
| ProductGrid.ProductGrid.constructor | src/components/ProductGrid.jsx:11-13 | category "All", sort "Default", menu closed |
| ProductGrid.ProductGrid.SortedProducts | src/components/ProductGrid.jsx:23-32 | a permutation of the category-filtered list, unchanged under "Default", in non-decreasing price for Low-to-High and non-increasing for High-to-Low |
| ProductGrid.ProductGrid.ChooseCategory | src/components/ProductGrid.jsx:55 | the category is set |
| ProductGrid.ProductGrid.ToggleSortMenu | src/components/ProductGrid.jsx:69 | the sort menu flips |
| ProductGrid.ProductGrid.ChooseSort | src/components/ProductGrid.jsx:87-90 | the option is set and the menu closes |
| CartDrawer.LineTotal | src/components/CartDrawer.jsx:7-10 | a line has a total exactly when its price parses |
| CartDrawer.Subtotal | src/components/CartDrawer.jsx:7-10 | an empty cart totals 0, and the total is defined exactly when every price parses |
| CartDrawer.SubtotalAppend | src/components/CartDrawer.jsx:7-10 | the subtotal of a concatenation is the sum of the subtotals |
| CartDrawer.AddRaisesSubtotal | src/components/CartDrawer.jsx:7-10 | adding a new product raises the subtotal by its price times `q \|\| 1` |
| CartDrawer.SubtotalNonNegative | src/components/CartDrawer.jsx:7-10 | priced lines with positive quantities never total below 0 |
| CartDrawer.HeaderCount | src/components/CartDrawer.jsx:35 | the header counts lines, which never exceeds the units for positive quantities |
| CartDrawer.Press | src/components/CartDrawer.jsx:77-92 | every call carries the line's id, and only the minus button when disabled sends nothing |
| CartDrawer.PressEffects | src/components/CartDrawer.jsx:77-92 | trash removes the product, plus sets the shown quantity to the larger of 1 and one more than before, minus never takes a positive shown quantity below 1 and lowers a stored quantity of at least 2 by one |
| WishlistDrawer.Items | src/components/WishlistDrawer.jsx:7 | exactly the catalogue products whose id is wishlisted, in catalogue order (with `WishlistDrawer.ItemsAppend`), no more than the catalogue holds, with unique ids when the catalogue has them |
| WishlistDrawer.ItemsAppend | src/components/WishlistDrawer.jsx:7 | the items of a concatenated catalogue are the first part's items followed by the second's: catalogue order is kept |
| WishlistDrawer.HeaderCount | src/components/WishlistDrawer.jsx:32 | the header count is the number of shown items and never exceeds the catalogue size |
| WishlistDrawer.UnknownIdDropped | src/components/WishlistDrawer.jsx:7 | an id with no catalogue product shows nothing, as if it were not wishlisted |
| WishlistDrawer.WishlistOrderIgnored | src/components/WishlistDrawer.jsx:7 | wishlists with the same ids in any order show the same items, in catalogue order |
| ProductDetail.Decrement | src/components/ProductDetail.jsx:65 | the result is at least 1; above 1 it is one less, otherwise 1 |
| ProductDetail.DecrementUndoesIncrement | src/components/ProductDetail.jsx:65-72 | a minus after a plus restores the quantity |
| ProductDetail.PayloadQuantityKept | src/components/ProductDetail.jsx:10-12 | the payload added to a cart without the product becomes one line with exactly the chosen quantity |
| ProductDetail.ProductDetail.constructor | src/components/ProductDetail.jsx:6 | the quantity starts at 1 |
| ProductDetail.ProductDetail.Minus | src/components/ProductDetail.jsx:65 | the quantity is decremented and stays at least 1 |
| ProductDetail.ProductDetail.Plus | src/components/ProductDetail.jsx:72 | the quantity grows by one |
| ProductDetail.ProductDetail.AddToCartPayload | src/components/ProductDetail.jsx:10-12 | the payload is the product with its quantity set to the selection |
| ProductDetail.ProductDetail.HeartPayload | src/components/ProductDetail.jsx:85 | the heart passes the product id |
| Testimonials.NextIndex | src/components/Testimonials.jsx:32 | the next index stays in range, moving up by one and wrapping to 0 |
| Testimonials.PrevIndex | src/components/Testimonials.jsx:33 | the previous index stays in range, moving down by one and wrapping to the last |
| Testimonials.PrevUndoesNext | src/components/Testimonials.jsx:32-33 | next and previous undo each other |
| Testimonials.Advance | src/components/Testimonials.jsx:36-39 | any number of auto-advances stays in range |
| Testimonials.AdvanceIsModular | src/components/Testimonials.jsx:32 | `k` advances from `i` land on `(i + k) mod 3` |
| Testimonials.FullCycle | src/components/Testimonials.jsx:32 | three advances return to the start |
| Testimonials.Carousel.constructor | src/components/Testimonials.jsx:30 | the index starts at 0 |
| Testimonials.Carousel.Next | src/components/Testimonials.jsx:32-39 | the index advances and stays in range |
| Testimonials.Carousel.Prev | src/components/Testimonials.jsx:33 | the index steps back and stays in range |
| Testimonials.Carousel.SelectDot | src/components/Testimonials.jsx:104 | the index is the clicked dot |
| CheckoutModal.Title | src/components/CheckoutModal.jsx:48 | the title reads "Order Confirmed" exactly on the success step |
| CheckoutModal.CheckoutModal.constructor | src/components/CheckoutModal.jsx:6-7 | details step, not loading, and a reset scheduled when created closed |
| CheckoutModal.CheckoutModal.Submit | src/components/CheckoutModal.jsx:9-12 | from the details step: processing, loading, one more payment pending |
| CheckoutModal.CheckoutModal.PaymentCompletes | src/components/CheckoutModal.jsx:14-17 | loading ends and the step is success |
| CheckoutModal.CheckoutModal.SetOpen | src/components/CheckoutModal.jsx:21-25 | closing schedules a reset; nothing else changes |
| CheckoutModal.CheckoutModal.ResetFires | src/components/CheckoutModal.jsx:23 | the step returns to details |
| Profile.SetField | src/components/AuthModal.jsx:19-21 | the named field takes the value and the other four are unchanged |
| Profile.SetFieldLastWins | src/components/AuthModal.jsx:19-21 | the last value typed into a field wins, and retyping the current value changes nothing |
| AuthModal.FooterTarget | src/components/AuthModal.jsx:198-212 | the footer link leads to signup exactly from login, and never to forgot |
| AuthModal.Complete | src/components/AuthModal.jsx:28-41 | the forgot view never logs in; the other views log in with the captured record |
| AuthModal.AuthModal.constructor | src/components/AuthModal.jsx:6-17 | login view, not loading, no message, empty form |
| AuthModal.AuthModal.InputChange | src/components/AuthModal.jsx:19-21 | only the named form field changes |
| AuthModal.AuthModal.Submit | src/components/AuthModal.jsx:23-25 | the submit goes through exactly when every shown required field is non-empty (the `required` inputs of lines 105-161: email; password outside forgot; names and age on signup); then loading starts and the current view and record are captured, otherwise nothing changes |
| AuthModal.AuthModal.SubmitCompletes | src/components/AuthModal.jsx:28-41 | loading ends; forgot shows the recovery message and schedules its clearing with no login; otherwise login with the captured record and close; a login record always has an email and a password, and names and age after signup |
| AuthModal.AuthModal.ClearFires | src/components/AuthModal.jsx:32-35 | the message is cleared and the view returns to login |
| AuthModal.AuthModal.ChooseForgot | src/components/AuthModal.jsx:170-174 | from login, while the form (not the recovery message) shows, the view becomes forgot |
| AuthModal.AuthModal.FollowFooterLink | src/components/AuthModal.jsx:198-212 | the view follows the footer link |
| MobileBottomNav.ActiveItems | src/components/MobileBottomNav.jsx:60 | home and shop highlight their own item, the product page none, and at most one item is highlighted |
| MobileBottomNav.Badge | src/components/MobileBottomNav.jsx:28-46 | only wishlist and cart carry badges: the wishlist length, and for the cart the total of `quantity \|\| 1` (`Cart.Units`), at least the line count under positive quantities |
| MobileBottomNav.BadgeShownIffNonEmpty | src/components/MobileBottomNav.jsx:69 | with positive quantities a badge shows exactly when its list is non-empty |
| MobileBottomNav.ScrollState.constructor | src/components/MobileBottomNav.jsx:10-11 | visible at scroll position 0 |
| MobileBottomNav.ScrollState.HandleScroll | src/components/MobileBottomNav.jsx:14-21 | the bar shows exactly when not moving down or not past 100, and the position is recorded |
| PolicyModal.Lookup | src/components/PolicyModal.jsx:121 | content exists exactly for the four tab ids |
| PolicyModal.TabsMatchContent | src/components/PolicyModal.jsx:8-70 | the content keys are exactly the four tab ids |
| PolicyModal.ContactHasNoContent | src/components/PolicyModal.jsx:121 | the "contact" tab has no content |
| PolicyModal.StaleTabExample | src/components/PolicyModal.jsx:6 | reopening a modal on "about" with "shipping" requested still shows the about section |
| PolicyModal.ReopenedTab | src/components/PolicyModal.jsx:6 | opening on a known requested tab shows that tab's content |
| PolicyModal.PolicyModal.constructor | src/components/PolicyModal.jsx:5-6 | the active tab is seeded from the default tab |
| PolicyModal.PolicyModal.ClickTab | src/components/PolicyModal.jsx:102 | the clicked tab becomes active and has content |
| PolicyModal.PolicyModal.OpenAsWritten | src/components/PolicyModal.jsx:6 | opening keeps the current tab whatever is requested |
| PolicyModal.PolicyModal.Open | src/components/PolicyModal.jsx:6 | opening shows the requested tab |
| PolicyModal.PolicyModal.Close | src/components/PolicyModal.jsx:80 | the modal closes |
| PolicyModal.PolicyModal.Shown | src/components/PolicyModal.jsx:121 | something is shown exactly when the active tab is one of the four |

## Findings

| source | as written | input that shows it | evidently intended | confidence | as-written member | corrected member |
|---|---|---|---|---|---|---|
| src/components/PolicyModal.jsx:6 | `useState(defaultTab)` reads the prop only when the component is first created. The modal stays mounted under `App`, so later `defaultTab` values from `handlePolicyClick` (src/App.jsx:71-74) are ignored | click the footer's "Shipping & Returns" link first: `policyTab` becomes "shipping" but the modal shows "About Us" | the modal opens on the tab the footer link asked for | not executed; high | PolicyModal.StaleTabExample | PolicyModal.ReopenedTab |

## Left out

- Browser I/O is not modelled. This covers `localStorage`, `JSON.parse`/`JSON.stringify`, `window.scrollTo`, `scrollIntoView`, `document.getElementById`, scroll listeners and focus handling. The stored document enters as `ShopProvider.Load`'s parameter, and a parse failure is `None`.
- Timers have no delays. Each firing is a method: `CheckoutModal.PaymentCompletes`, `CheckoutModal.ResetFires`, `AuthModal.SubmitCompletes`, `AuthModal.ClearFires` and `Carousel.Next` for the interval. `App.HandleSearch`'s 100 ms scroll timer only scrolls and is left out.
- Pricing.ParsePrice: `parseFloat` also accepts a sign, a decimal point, an exponent and leading whitespace. Only leading decimal digits are modelled. Float multiplication and `toLocaleString` formatting are left out, so subtotals are whole rupees.
- Listing.SortProducts: a price that does not parse makes the JavaScript comparator return `NaN`, and the engine's order is then unspecified. The model sorts such products with key 0. The shop page never meets this, because `Shop.Filtered` drops unparsable prices.
- ProductGrid.ProductGrid.SortedProducts: the comparator's final `return 0` for an unknown sort key is not modelled. The sort key is always one of the three options the menu offers.
- Text.Lower folds only ASCII letters; `toLowerCase` on other Unicode letters is not modelled.
- ShopContext.Reduce: INIT_STATE's `...rest` copies every extra key of the stored document into the state. Only the three visibility flags, with boolean values, are modelled (`Extras`). Other keys and non-boolean values are not.
- ShopContext.Reduce: a stored cart or wishlist that is an array is taken as it is, with no check of its elements. The model's stored lines are well-typed `CartLine` and `Product` values.
- AuthModal.AuthModal.Submit: of the browser's form validation only the `required` check (non-empty shown fields) is modelled. The email-format check of `type="email"` and the age bounds `min="13"`/`max="120"` are not.
- Form fields that are missing and fields that are empty are both falsy in the source. They are not told apart: a blank field is `""`.
- React plumbing is not modelled: rendering, `useContext`/`useShop` throwing outside the provider, framer-motion animations. Presentation-only components and the navbar are not part of this model.
- The mismatch between call sites that pass a bare id to the reducer's `toggleWishlist` and the reducer's `product.id` is not reconciled. The reducer's wishlist holds product records (`Wishlist.ToggleProduct`) and the `App` variants' wishlist holds ids (`Wishlist.ToggleId`).
- Wishlist.ToggleProduct: the result is not stated as a function of the input beyond membership and the absent case. The present case is `Wishlist.RemoveKey`, whose contract `Wishlist.Toggle` carries.
- App.App.IsSearching, AuthModal.AuthModal.SubmitDisabled and Testimonials.Carousel.DotActive are plain reads of one field, without contracts: `searchTerm.length > 0`, `isLoading`, and dot `k` being the current index.
- The navbar, the wishlist-drawer and cart-drawer open/close buttons and the checkout modal's close button only set a flag. Apart from `App.Checkout` and `ShopProvider`'s wrappers they are not modelled as methods.
- `MobileBottomNav` in the later layout reads cart and wishlist from the provider. Its `cartCount` prop from src/App.backup.jsx:200 is ignored by the component and is not modelled.
