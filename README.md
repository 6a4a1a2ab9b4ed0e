# OnlineShop front end — a verified model of its cart and session core

This project models the client-side core of the OnlineShop front end in
Dafny. The centre is the shopping cart:

- the cart reducer;
- the merge of a guest cart into the server cart at login;
- the two effects that load and persist the cart as the session changes;
- `clearCart`.

Around it are the pieces the cart depends on or feeds:

- the session reducer and provider;
- the in-memory account service;
- the route guard;
- the catalogue service and its filter page;
- the product page (quantity clamp, star row, add to cart);
- the admin product form;
- the cart page's totals and checkout;
- the profile page's two editors.

Modules follow the source files:

| module | file | source |
|---|---|---|
| `Cart` | cart.dfy | reducer, `mergeCarts`, guest storage (`src/contexts/CartContext.js`) |
| `CartEngine` | cart_provider.dfy | `CartProvider`, its two effects and its actions, `cartService` |
| `Auth` | auth.dfy | `src/contexts/AuthContext.js` |
| `AuthService` | auth_service.dfy | `src/services/authServiceTest.js` |
| `Access` | access.dfy | `src/components/ProtectedRoute.jsx` |
| `Catalog` | catalog.dfy | `src/services/productServiceTest.js` |
| `ProductsList` | products_list.dfy | `src/pages/ProductsListPage.jsx` |
| `ProductDetails` | product_details.dfy | `src/pages/ProductDetailsPage.jsx` |
| `ProductForm` | product_form.dfy | `src/components/Admin/ProductForm.jsx` |
| `Checkout` | checkout.dfy | `src/pages/CartPage.jsx` |
| `Profile` | profile.dfy | `src/pages/ProfilePage.jsx` |

`Wrappers`, `Text` and `Seqs` hold the shared vocabulary:

- `Option`/`Result`;
- the JavaScript string operations the code uses: `trim`, `split`,
  `includes`, `toLowerCase` on Latin and Cyrillic letters, `parseInt` and
  `Number#toString`;
- `Array#filter` and its algebra.

## How the JavaScript is represented

- **State owned by a component or provider** becomes a `class` whose
  methods update its fields:
  - `CartEngine.CartProvider`, `Auth.AuthProvider`, `AuthService.UserStore`;
  - `Checkout.CartPage`, `Profile.ProfilePage`.
- **Reducers and pure helpers** become functions on datatypes.
- **The outside world arrives as parameters:**
  - what the server answers (`fetched`, `saveResponse`, `outcome`, `created`);
  - the clock (`now`);
  - the token's encoded payload (`payload`);
  - what `localStorage` holds.
- **What leaves the client is logged in sequence fields:**
  - `CartProvider.serverWrites` holds every cart save that reached the server;
  - `CartPage.ordersSent` holds every order handed to the order service;
  - `ProfilePage.requests` holds every profile update.
- **Same-array tests.** `state.items === initialState.items` is represented
  by the flag `CartProvider.itemsPristine`. It is true until an action
  other than a status action replaces the items array.
- **JSON.** A JSON text is represented by what parsing it yields:
  - `Stored.Unparsable` for text `JSON.parse` rejects;
  - `Parsed(None)` for a parsed value without an `items` array.
- **Strings** are `seq<char>`. The reducers' error strings and the pages'
  Russian messages are copied verbatim.

## Effect 2 around a session change

The comment at src/contexts/CartContext.js:172 expects Effect 2 to write the
emptied cart to guest storage after a logout. In the renders that follow
the logout this does not happen:

- Effect 1's logout branch dispatches `CART_OPERATION_START` and then
  `CLEAR_CART` (src/contexts/CartContext.js:119, 170-172).
- Neither action ends the loading state.
- Effect 2 returns early while the cart is loading
  (src/contexts/CartContext.js:194-197).

The model follows the code:

- `CartEngine.CartProvider.InitializeCart` leaves the cart loading on logout.
- `CartEngine.LogoutThenNoPersist` proves that Effect 2 then skips in every
  later render, even after the guest adds an item.

Effect 2 also runs once in the commit that changes the session, beside
Effect 1. That run sees the state rendered before Effect 1's dispatches,
with the ref already updated at src/contexts/CartContext.js:187:

- At logout it sees the signed-out user's cart, not loading and not the
  initial array. The test at src/contexts/CartContext.js:201 fails, so the
  guest branch at :219-220 writes that user's cart under the guest key. The
  next guest start loads it.
- At login it sees the guest's items and a signed-in session, so it sends
  them to `saveUserCart` for the user before the merge is saved.

The model calls `Persist` only after `InitializeCart` has run, so it does
not include this same-commit run. It is listed under "## Left out".

## Model

| member | source | states |
|---|---|---|
| Cart.Ids | src/contexts/CartContext.js:51 | the list of line keys, one per line, in order |
| Cart.FindIndex | src/contexts/CartContext.js:51 | `findIndex`: -1 exactly when no line has the id, otherwise the first line with it |
| Cart.AddLine | src/contexts/CartContext.js:50-65 | ADD_ITEM appends a new line exactly when the id is absent, otherwise keeps the length |
| Cart.AddLineEntries | src/contexts/CartContext.js:52-60 | ADD_ITEM bumps the first matching line by the quantity, leaves every other line unchanged, and keeps each line's stored product fields |
| Cart.AddLineKeys | src/contexts/CartContext.js:50-65 | ADD_ITEM keeps the key list, or appends the new key at the end |
| Cart.AddLineQty | src/contexts/CartContext.js:50-65 | ADD_ITEM adds the quantity to that product's total and to no other id |
| Cart.AddLineUnique | src/contexts/CartContext.js:50-65 | ADD_ITEM never creates a duplicate key |
| Cart.SetQuantity | src/contexts/CartContext.js:67-69 | the `map` of UPDATE_QUANTITY: lines with the id get the new quantity, others are untouched, length kept |
| Cart.UpdateLines | src/contexts/CartContext.js:66-73 | UPDATE_QUANTITY leaves only lines with positive quantity |
| Cart.UpdateQuantityTarget | src/contexts/CartContext.js:66-73 | after UPDATE_QUANTITY a non-positive quantity removes the id; a positive one keeps it present exactly when it was, and every line with the id holds the new quantity |
| Cart.UpdateQuantityOthers | src/contexts/CartContext.js:66-73 | UPDATE_QUANTITY keeps every other line exactly when its quantity is positive, and the survivors keep their order |
| Cart.UpdateKeepsWellFormed | src/contexts/CartContext.js:66-73 | UPDATE_QUANTITY keeps keys unique and quantities positive |
| Cart.RemoveLines | src/contexts/CartContext.js:74-77 | REMOVE_ITEM keeps exactly the lines whose id differs |
| Cart.RemoveEffect | src/contexts/CartContext.js:74-77 | after REMOVE_ITEM no line has the id, the rest is an order-preserving sub-list, and removing again changes nothing |
| Cart.RemoveKeepsWellFormed | src/contexts/CartContext.js:74-77 | REMOVE_ITEM keeps keys unique and quantities positive |
| Cart.Reduce | src/contexts/CartContext.js:40-83 | `cartReducer`: throws exactly for an unknown type, with its message; status actions keep the items; SET_CART_ITEMS resets `isLoading` and `error`; the item actions keep both |
| Cart.ClearCartEffect | src/contexts/CartContext.js:78-79 | CLEAR_CART empties the items, keeps the status fields and is idempotent |
| Cart.FailureEffect | src/contexts/CartContext.js:46-47 | CART_OPERATION_FAILURE ends loading and records the message, items untouched |
| Cart.ReducePreservesWellFormed | src/contexts/CartContext.js:40-83 | every known action with positive input keeps keys unique and quantities positive |
| Cart.MergeCarts | src/contexts/CartContext.js:86-100 | `mergeCarts` computes the guest lines folded one by one into a copy of the server lines, as ADD_ITEM does |
| Cart.NewIdsFresh | src/contexts/CartContext.js:86-100 | every key the merge appends comes from the guest list, was not a server key, and is appended once |
| Cart.MergeKeys | src/contexts/CartContext.js:86-100 | the merged keys are the server keys, in order, then each new guest key once, in first-appearance order |
| Cart.MergeQty | src/contexts/CartContext.js:86-100 | each key's merged quantity is its server total plus its guest total (quantity conservation) |
| Cart.MergeServerPrefix | src/contexts/CartContext.js:86-100 | server lines stay in front with their own product fields, and unique server keys stay unique after the merge |
| Cart.LoadGuestCart | src/contexts/CartContext.js:20-32 | the stored items when storage parses with an `items` array, otherwise empty |
| Cart.GuestRoundTrip | src/contexts/CartContext.js:20-32 | reading back what Effect 2 wrote gives the same items |
| CartEngine.FetchUserCart | src/services/cartService.js:42-63 | no user id gives an empty cart without a request; otherwise the server's answer |
| CartEngine.SaveUserCart | src/services/cartService.js:72-91 | no user id throws "User ID is required to save cart."; otherwise the server's error, if any |
| CartEngine.CartProvider.constructor | src/contexts/CartContext.js:103-106 | the reducer starts at `initialState`; the ref holds the current `isAuthenticated` |
| CartEngine.CartProvider.Dispatch | src/contexts/CartContext.js:40-83 | the state becomes the reducer's result; the items stay pristine only through status actions |
| CartEngine.CartProvider.Save | src/services/cartService.js:72-91 | a request is logged exactly when the user id is non-empty; the result is `SaveUserCart`'s error |
| CartEngine.CartProvider.MergeOnLogin | src/contexts/CartContext.js:152-159 | the merged cart is sent to the save endpoint; on success it becomes the cart and the guest key is removed, on a save error the items and the stored guest cart stay as they were |
| CartEngine.CartProvider.InitializeCart | src/contexts/CartContext.js:109-189 | Effect 1 case by case: waits while the session loads; login merges, saves and drops the guest key only on success; refresh takes the server cart; logout clears and stays loading; a guest loads storage; a failure records the error and keeps the items, still the same array; every other branch installs a new items array; the ref is updated |
| CartEngine.CartProvider.Persist | src/contexts/CartContext.js:193-222 | Effect 2: skips while loading or for the untouched guest cart; otherwise saves to the server (not for the initial array) or writes guest storage |
| CartEngine.CartProvider.AddItem | src/contexts/CartContext.js:226-228 | `addItem` dispatches ADD_ITEM, with a quantity of 1 by default, and nothing else changes |
| CartEngine.CartProvider.UpdateQuantity | src/contexts/CartContext.js:230-232 | `updateQuantity` dispatches UPDATE_QUANTITY and nothing else changes |
| CartEngine.CartProvider.RemoveItem | src/contexts/CartContext.js:234-236 | `removeItem` dispatches REMOVE_ITEM and nothing else changes |
| CartEngine.CartProvider.ClearCart | src/contexts/CartContext.js:238-254 | signed in: the server cart is emptied first, and local items are replaced by a new empty array only if that succeeded, else the error is recorded and the items array is kept; a guest's items are replaced by a new empty array |
| CartEngine.LogoutThenNoPersist | src/contexts/CartContext.js:170-172 | after the logout commit the cart stays loading, so Effect 2 persists nothing in the later renders, even after an ADD_ITEM |
| CartEngine.GuestStartRoundTrips | src/contexts/CartContext.js:173-178 | a provider mounted signed out writes nothing before Effect 1; after Effect 1 has loaded the stored guest cart as a new array, Effect 2 writes it back, and storage reads back the same items |
| Auth.Reduce | src/contexts/AuthContext.js:16-68 | `authReducer`, action by action: requests start loading and clear the error; successes install the session; failures clear it and record the error; LOGOUT resets; LOAD_USER authenticates on a truthy token; UPDATE_USER_SUCCESS replaces user and token; unknown types throw |
| Auth.LogoutForgets | src/contexts/AuthContext.js:44-48 | LOGOUT's result does not depend on the prior state |
| Auth.ReduceAllConsistent | src/contexts/AuthContext.js:16-68 | any run of known actions whose sessions carry tokens keeps "authenticated implies a truthy token" |
| Auth.StartupAction | src/contexts/AuthContext.js:73-80 | the mount effect's LOAD_USER carries the stored session, or nulls |
| Auth.StartupSettles | src/contexts/AuthContext.js:73-80 | after start-up loading is over, and the user is authenticated exactly when a session with a non-empty token was stored |
| Auth.AuthProvider.constructor | src/contexts/AuthContext.js:8-14 | the provider starts at `initialState` |
| Auth.AuthProvider.Dispatch | src/contexts/AuthContext.js:16-68 | the state becomes the reducer's result |
| Auth.AuthProvider.Startup | src/contexts/AuthContext.js:73-80 | after mount the stored session is installed, or none |
| Auth.AuthProvider.Login | src/contexts/AuthContext.js:82-92 | `login` returns the outcome; success installs the session; failure records the error and keeps the session |
| Auth.AuthProvider.Register | src/contexts/AuthContext.js:94-104 | `register`, with the same contract as login |
| Auth.AuthProvider.SignOut | src/contexts/AuthContext.js:106-109 | `logout` leaves the signed-out, not-loading state |
| Auth.AuthProvider.UpdateUser | src/contexts/AuthContext.js:111-133 | an update returns the outcome; success replaces user and token; failure records the error; authentication is unchanged |
| Access.Decide | src/components/ProtectedRoute.jsx:9-42 | spinner while loading, login redirect with the location when signed out, and the element exactly when signed in and the roles are open or contain the user's role |
| Access.RedirectHomeExactly | src/components/ProtectedRoute.jsx:29-39 | a signed-in user is sent home exactly when a non-empty role list lacks their role |
| Catalog.Insert | src/services/productServiceTest.js:119-126 | adding to the ascending set list keeps it strictly ascending, with the same members plus `x` |
| Catalog.SortedFromSet | src/services/productServiceTest.js:125 | `Array.from(set).sort()` lists the set's members once each, strictly ascending |
| Catalog.GetAllTags | src/services/productServiceTest.js:119-126 | exactly the tags some product carries, strictly ascending |
| Catalog.GetAllCategories | src/services/productServiceTest.js:129-138 | exactly the non-empty categories some product has, strictly ascending |
| Catalog.TagUnionMembers | src/services/productServiceTest.js:122-124 | the collected set holds exactly the tags of some product |
| Catalog.CategoryUnionMembers | src/services/productServiceTest.js:132-136 | the collected set holds exactly the non-empty categories |
| Catalog.GetProductById | src/services/productServiceTest.js:110-117 | `null` exactly when no product has the id, otherwise the first such product |
| ProductsList.FilterProducts | src/pages/ProductsListPage.jsx:65-87 | the chain never shows more than the catalogue |
| ProductsList.FilterProductsExact | src/pages/ProductsListPage.jsx:65-87 | the three stages together keep exactly the products passing every active filter |
| ProductsList.FilterProductsProperties | src/pages/ProductsListPage.jsx:65-87 | the result is an order-preserving sub-list, and a product is shown exactly when it passes |
| ProductsList.TagAndCategoryProperty | src/pages/ProductsListPage.jsx:75-84 | a shown product has every selected tag, and the selected category when one is active |
| ProductsList.SearchProperty | src/pages/ProductsListPage.jsx:68-73 | with a non-blank term, a shown product contains it, case-folded, in its name or description |
| ProductsList.NoFiltersShowAll | src/pages/ProductsListPage.jsx:65-87 | with every filter off, the whole catalogue shows |
| ProductsList.ToggleTag | src/pages/ProductsListPage.jsx:90-96 | the tag's membership flips, other tags are unchanged, and a new tag is appended |
| ProductsList.ToggleTagTwice | src/pages/ProductsListPage.jsx:90-96 | selecting a tag and then deselecting it restores the selection |
| ProductsList.SelectCategory | src/pages/ProductsListPage.jsx:99-103 | choosing the current category clears it; any other becomes current |
| ProductsList.ClearFilters | src/pages/ProductsListPage.jsx:105-109 | after clearing, every catalogue is shown whole |
| ProductsList.ApplyUrlParams | src/pages/ProductsListPage.jsx:39-48 | a truthy URL tag or category that the service lists is selected; otherwise the filter is unchanged |
| ProductDetails.QuantityChange | src/pages/ProductDetailsPage.jsx:61-70 | NaN leaves the quantity; an in-range value is taken; one below 1 becomes 1; one above stock becomes the stock |
| ProductDetails.QuantityStaysInRange | src/pages/ProductDetailsPage.jsx:61-70 | a quantity within 1..stock stays there whatever is typed |
| ProductDetails.QuantityTypedBack | src/pages/ProductDetailsPage.jsx:61-70 | typing the current quantity back changes nothing |
| ProductDetails.StarAt | src/pages/ProductDetailsPage.jsx:23-29 | full, half or empty icon, each exactly on its rating interval |
| ProductDetails.RenderStars | src/pages/ProductDetailsPage.jsx:17-32 | `null` exactly for NaN; otherwise the five icons `StarAt` chooses |
| ProductDetails.StarsLayout | src/pages/ProductDetailsPage.jsx:22-30 | full stars come first, empty ones last, with at most one half star |
| ProductDetails.FullStarsCount | src/pages/ProductDetailsPage.jsx:22-30 | the number of full stars is the rating rounded down, at most 5 |
| ProductDetails.HandleAddToCart | src/pages/ProductDetailsPage.jsx:72-77 | nothing without a product; otherwise exactly the cart's ADD_ITEM |
| ProductForm.ImageOf | src/components/Admin/ProductForm.jsx:26 | `imageUrl` when truthy, else the first image's URL, else empty |
| ProductForm.FormFrom | src/components/Admin/ProductForm.jsx:18-37 | a blank form without a product; otherwise each field copied, falsy text becoming '' and missing stock becoming 0 |
| ProductForm.ParseTagsClean | src/components/Admin/ProductForm.jsx:43-44 | every parsed tag is non-empty, has no surrounding whitespace and holds no comma |
| ProductForm.ParseTagsMembers | src/components/Admin/ProductForm.jsx:43-44 | a tag is kept exactly when it is a non-empty trimmed comma piece |
| ProductForm.ParseTagsConcat | src/components/Admin/ProductForm.jsx:43-44 | the tags of `a,b` are the tags of `a` followed by those of `b` |
| ProductForm.ParseTagsLeadingSpace | src/components/Admin/ProductForm.jsx:43-44 | a space before the text changes nothing |
| ProductForm.TagsRoundTrip | src/components/Admin/ProductForm.jsx:205 | parsing the field's `tags.join(', ')` text gives back clean tags unchanged |
| ProductForm.HandleChange | src/components/Admin/ProductForm.jsx:40-51 | only the named text field changes, and the tags field is parsed |
| ProductForm.MatchesPriceCorrect | src/components/Admin/ProductForm.jsx:56 | the scan accepts exactly the strings `/^\d*\.?\d*$/` matches |
| ProductForm.HandlePriceChange | src/components/Admin/ProductForm.jsx:53-59 | a value matching the pattern becomes the price text; any other leaves the form |
| ProductForm.HandleStockChange | src/components/Admin/ProductForm.jsx:61-67 | non-digits leave the form; '' gives NaN; digits give their value |
| Checkout.TotalAppend | src/pages/CartPage.jsx:27-29 | the total of two runs of lines is the sum of their totals, and the empty cart's is 0 |
| Checkout.ItemCountAppend | src/pages/CartPage.jsx:135 | the item count is additive over runs of lines |
| Checkout.ItemCountUpdate | src/pages/CartPage.jsx:135 | changing one line's quantity moves the count by the difference |
| Checkout.ItemCountAddLine | src/pages/CartPage.jsx:135 | adding a product raises the count by exactly the quantity |
| Checkout.TotalAddNewLine | src/pages/CartPage.jsx:27-29 | adding a new product raises the total by price times quantity |
| Checkout.OrderFor | src/pages/CartPage.jsx:46-56 | the order carries the user's id, email and address, the cart items and their total |
| Checkout.CartPage.constructor | src/pages/CartPage.jsx:14-15 | no error, not processing, no orders sent |
| Checkout.CartPage.HandleCheckout | src/pages/CartPage.jsx:31-74 | not signed in or no address sets that message and sends nothing; otherwise the order is sent; on success the cart is cleared, on failure the error is shown and the cart is untouched |
| Profile.ValidEmailCorrect | src/pages/ProfilePage.jsx:128 | the scan accepts exactly the strings `/\S+@\S+\.\S+/` matches anywhere |
| Profile.EmailPatternSurvivesTrim | src/pages/ProfilePage.jsx:128-137 | an e-mail that matches still matches once trimmed |
| Profile.ValidateAddress | src/pages/ProfilePage.jsx:75-82 | no identified user or a blank address is refused with its message; otherwise the trimmed, non-empty address |
| Profile.ValidateProfileCorrect | src/pages/ProfilePage.jsx:116-131 | the checks run in the page's order, and the first failing one picks the message; otherwise the trimmed name and e-mail |
| Profile.ProfilePage.constructor | src/pages/ProfilePage.jsx:11-22 | both editors start closed and empty |
| Profile.ProfilePage.HandleEditAddressToggle | src/pages/ProfilePage.jsx:57-64 | editing flips and messages clear; on closing, the address is reset from the user |
| Profile.ProfilePage.HandleEditProfileToggle | src/pages/ProfilePage.jsx:98-105 | editing flips and messages clear; on closing, name and e-mail are reset from the user |
| Profile.ProfilePage.HandleAddressSubmit | src/pages/ProfilePage.jsx:73-95 | a failed check only sets the error; otherwise the update is sent, and success or error is set with submitting off |
| Profile.ProfilePage.HandleProfileSubmit | src/pages/ProfilePage.jsx:114-145 | the same sequence for name and e-mail |
| AuthService.Public | src/services/authServiceTest.js:43 | the user without the password, every other field kept |
| AuthService.SeedUsersWellFormed | src/services/authServiceTest.js:5-22 | the seed table has unique e-mails and ids |
| AuthService.FindByCredentials | src/services/authServiceTest.js:39 | the first row matching both e-mail and password, or -1 exactly when none does |
| AuthService.FindById | src/services/authServiceTest.js:115 | the first row with the id, or -1 exactly when none |
| AuthService.SplitThree | src/services/authServiceTest.js:90-92 | a three-part token splits back into its parts |
| AuthService.TokenExpiryOfMade | src/services/authServiceTest.js:25-33 | a token the service issued reads back with its expiry |
| AuthService.UserStore.constructor | src/services/authServiceTest.js:5-22 | the seed table and empty storage |
| AuthService.UserStore.Issue | src/services/authServiceTest.js:25-33 | a session with the public user and a token expiring an hour on, written to storage |
| AuthService.UserStore.Login | src/services/authServiceTest.js:36-50 | success exactly when some row matches both fields; the session is the first match's; otherwise the message |
| AuthService.UserStore.Register | src/services/authServiceTest.js:52-76 | refused exactly for a used e-mail; otherwise a customer row is appended without an address and signed in, and e-mails stay unique |
| AuthService.UserStore.Logout | src/services/authServiceTest.js:78-82 | both storage keys removed |
| AuthService.UserStore.LoadUserFromStorage | src/services/authServiceTest.js:84-111 | a session exactly when both keys parse and the token is unexpired; otherwise the keys are removed as the code does |
| AuthService.UserStore.UpdateDeliveryAddress | src/services/authServiceTest.js:113-127 | an unknown id throws; otherwise only that row's address changes, and a fresh session is issued |
| AuthService.EditKeepsUnique | src/services/authServiceTest.js:138-148 | rewriting one row under its own id, with its own e-mail or one no other id holds, keeps ids unique, and e-mails unique when ids are |
| AuthService.UserStore.UpdateUserProfile | src/services/authServiceTest.js:129-156 | an unknown id, or a changed e-mail held by a row with another id, throws before anything changes; otherwise only that row changes, a non-empty name or e-mail replacing the old one |
| AuthService.IssuedSessionReloads | src/services/authServiceTest.js:84-111 | a session issued less than an hour ago survives a reload |

## Left out

- Rehydrating the server cart is not modelled. At
  src/contexts/CartContext.js:129-134 the code calls `getProductById` for
  each server line without awaiting it. So when `mergeCarts` (:151) and
  SET_CART_ITEMS (:158, :161, :165) run, `serverCart.items` is still the
  empty `serverCartItems` array, and at login the code saves only the guest
  lines. The model takes the server cart as the parameter `fetched`, with
  every line already joined to its product, and merges that.
- Concurrent initialisations: Effect 1 starts `initializeCart` without
  awaiting it (src/contexts/CartContext.js:186). The model runs it to
  completion before the next event, so interleavings of two concurrent
  initialisations are not modelled.
- Effect 2's run in the commit that changes the session is not modelled.
  That run sees the state from before Effect 1's dispatches. At logout it
  writes the signed-out user's cart to guest storage. At login it sends the
  guest items to the user's server cart before the merge is saved.
- Effect 2's server save is fire-and-forget. Its outcome is not awaited and
  is not modelled, because the code ignores it.
- `CartPage` calls `clearCart` without awaiting it. The model runs the clear
  to completion inside `HandleCheckout`, so the order of renders is not
  modelled.
- Network, timers and `networkDelay` are not modelled. Results arrive as
  parameters, and `Date.now()` is the parameter `now`.
- Token generation: `btoa(JSON.stringify(...))` is taken as the `payload`
  parameter, because base64 and JSON encoding lie outside the model.
- JSON is represented by what parsing yields, not by text. A stored
  `authUser` that parses to `null` is not distinguished from one that does
  not parse.
- `handleSubmit` of the product form (src/components/Admin/ProductForm.jsx:69-78)
  is not modelled. It uses `parseFloat` and floating point, which lie
  outside this integer model.
- Prices are whole numbers. `toLocaleString` formatting is not modelled.
- ProductForm.HandleChange covers the text inputs only. The checkbox branch
  of `handleChange` is not modelled, because the form has no checkbox field.
- ProductForm.FormFrom reads `category` as a string. The
  `initialProduct.category?.name` object form is not modelled.
- String comparison in `sort()` is modelled over characters, not UTF-16 code
  units. The two orders differ only outside the Basic Multilingual Plane.
- `Text.ToLower` folds the Latin letters A-Z and the Cyrillic capitals
  U+0400-U+042F only. Full Unicode case mapping is not modelled.
- The fetch effects of `ProductsListPage` and `ProductDetailsPage` are not
  modelled: their loading flags, error messages and navigation are page
  plumbing around the service calls modelled in `Catalog`.
- AuthService.UserStore.UpdateUserProfile: e-mail uniqueness is proved only
  when ids are unique too. With duplicate ids the code's `u.id !== userId`
  check can let a second row with the same id take a used e-mail.
- The real `authService` and `productService` (HTTP clients) and
  `orderService` are not part of this model. Their answers are parameters.
- Catalog.GetProducts: `getProducts` (src/services/productServiceTest.js:105-108)
  returns a JSON deep copy of the table. On Dafny values that copy is the
  identity, so the model uses `SampleProducts` directly.
- Rendering, routing, navigation and styling are not modelled.
