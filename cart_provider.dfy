/** The side of src/contexts/CartContext.js that reacts to the session:
    `initializeCart` (Effect 1), the persistence rule (Effect 2), the
    item actions and `clearCart`, over the two cart-service calls of
    src/services/cartService.js. The reducer and the merge are in `Cart`. */
module CartEngine {

  import opened Wrappers
  import opened Catalog
  import opened Cart
  import Auth

  /** The fallback messages of the two `catch` blocks. */
  const InitFailed: string := "Failed to initialize cart"
  const ClearFailed: string := "Failed to clear server cart"

  /** `isAuthenticated && user && token`. */
  predicate SignedIn(auth: Auth.AuthState)
  {
    auth.isAuthenticated && auth.user.Some? && Auth.Truthy(auth.token)
  }

  /** `!previousIsAuthenticated && currentIsAuthenticated`. */
  predicate IsLogin(previous: bool, auth: Auth.AuthState)
  {
    !previous && auth.isAuthenticated
  }

  /** `previousIsAuthenticated && !currentIsAuthenticated`. */
  predicate IsLogout(previous: bool, auth: Auth.AuthState)
  {
    previous && !auth.isAuthenticated
  }

  // ---------------------------------------------------------------------
  // The cart service
  // ---------------------------------------------------------------------

  /** `cartService.fetchUserCart(userId, token)`: an empty cart when
      `userId` is falsy; otherwise what the server answered (`Err` when the
      request failed), taken here with its products already looked up. */
  function FetchUserCart(userId: string, response: Result<seq<Item>>): (r: Result<seq<Item>>)
    ensures userId == "" ==> r == Ok([])
    ensures userId != "" ==> r == response
  {
    if userId == "" then Ok([]) else response
  }

  /** The error `cartService.saveUserCart(userId, items, token)` throws, if
      any: it refuses a falsy `userId` before any request is made. */
  function SaveUserCart(userId: string, response: Option<string>): (error: Option<string>)
    ensures userId == "" ==> error == Some("User ID is required to save cart.")
    ensures userId != "" ==> error == response
  {
    if userId == "" then Some("User ID is required to save cart.") else response
  }

  /** One request that reached the server's save endpoint. */
  datatype Write = Write(userId: string, items: seq<Item>)

  /** `CartProvider`: the reducer's state and what lives beside it.
      - `itemsPristine`: `state.items` is still the very array of
        `initialState` (the `===` checks of Effect 2);
      - `prevIsAuthenticated`: `prevIsAuthenticatedRef.current`;
      - `guestStore`: what `localStorage` holds under the guest-cart key;
      - `serverWrites`: every save request sent to the server, in order. */
  class CartProvider {
    var state: CartState
    var itemsPristine: bool
    var prevIsAuthenticated: bool
    var guestStore: Option<Stored>
    var serverWrites: seq<Write>

    /** Mounting: `useReducer(cartReducer, initialState)` and
        `useRef(isAuthenticated)`. */
    constructor (isAuthenticated: bool, stored: Option<Stored>)
      ensures state == InitialState && itemsPristine
      ensures prevIsAuthenticated == isAuthenticated
      ensures guestStore == stored && serverWrites == []
    {
      state := InitialState;
      itemsPristine := true;
      prevIsAuthenticated := isAuthenticated;
      guestStore := stored;
      serverWrites := [];
    }

    /** `dispatch(action)`. Only the status actions keep the items array
        itself; every other action installs a new one. */
    method Dispatch(action: Action)
      requires !action.Unhandled?
      modifies this
      ensures state == Reduce(old(state), action).value
      ensures itemsPristine == (old(itemsPristine) && action.IsStatus())
      ensures prevIsAuthenticated == old(prevIsAuthenticated)
      ensures guestStore == old(guestStore) && serverWrites == old(serverWrites)
    {
      state := Reduce(state, action).value;
      itemsPristine := itemsPristine && action.IsStatus();
    }

    /** `await cartService.saveUserCart(userId, items, token)`: a request is
        sent unless `userId` is falsy; the error it throws, if any. */
    method Save(userId: string, items: seq<Item>, response: Option<string>) returns (error: Option<string>)
      modifies this
      ensures error == SaveUserCart(userId, response)
      ensures serverWrites == old(serverWrites) + (if userId != "" then [Write(userId, items)] else [])
      ensures state == old(state) && itemsPristine == old(itemsPristine)
      ensures prevIsAuthenticated == old(prevIsAuthenticated) && guestStore == old(guestStore)
    {
      if userId != "" {
        serverWrites := serverWrites + [Write(userId, items)];
      }
      error := SaveUserCart(userId, response);
    }

    /** The login branch of `initializeCart` with a non-empty guest cart:
        the merge is saved to the server, then either installed with the
        guest key dropped, or reported with both left as they were. */
    method MergeOnLogin(userId: string, serverItems: seq<Item>, guestCart: seq<Item>, saveResponse: Option<string>)
      modifies this
      ensures var merged := MergeAll(serverItems, guestCart);
        var error := SaveUserCart(userId, saveResponse);
        && serverWrites == old(serverWrites) + (if userId != "" then [Write(userId, merged)] else [])
        && prevIsAuthenticated == old(prevIsAuthenticated)
        && (error.None? ==> state == CartState(merged, false, None) && guestStore == None && !itemsPristine)
        && (error.Some? ==>
              state == CartState(old(state.items), false, Some(MessageOr(error.value, InitFailed))) &&
              guestStore == old(guestStore) && itemsPristine == old(itemsPristine))
    {
      var mergedItems := MergeCarts(serverItems, guestCart);
      var error := Save(userId, mergedItems, saveResponse);
      if error.Some? {
        var message := MessageOr(error.value, InitFailed);
        assert Reduce(state, OperationFailure(message)).value == CartState(state.items, false, Some(message));
        Dispatch(OperationFailure(message));
      } else {
        Dispatch(SetCartItems(mergedItems));
        guestStore := None;
      }
    }

    /** Effect 1 for the session `auth`: nothing while the session is still
        loading; otherwise `initializeCart` followed by the ref update.
        `fetched` is the server's cart and `saveResponse` the outcome of
        the save a login merge makes. */
    method InitializeCart(auth: Auth.AuthState, fetched: Result<seq<Item>>, saveResponse: Option<string>)
      modifies this
      ensures auth.isLoading ==>
        state == old(state) && itemsPristine == old(itemsPristine) &&
        prevIsAuthenticated == old(prevIsAuthenticated) &&
        guestStore == old(guestStore) && serverWrites == old(serverWrites)
      ensures !auth.isLoading ==> prevIsAuthenticated == auth.isAuthenticated
      // signed in, the server cart could not be fetched
      ensures !auth.isLoading && SignedIn(auth) && FetchUserCart(auth.user.value.id, fetched).Err? ==>
        state == CartState(old(state.items), false, Some(MessageOr(fetched.message, InitFailed))) &&
        itemsPristine == old(itemsPristine) &&
        guestStore == old(guestStore) && serverWrites == old(serverWrites)
      // a login with a non-empty guest cart: merge, save, set, drop the key
      ensures !auth.isLoading && SignedIn(auth) && FetchUserCart(auth.user.value.id, fetched).Ok? &&
              IsLogin(old(prevIsAuthenticated), auth) && LoadGuestCart(old(guestStore)) != [] ==>
        var merged := MergeAll(FetchUserCart(auth.user.value.id, fetched).value, LoadGuestCart(old(guestStore)));
        var error := SaveUserCart(auth.user.value.id, saveResponse);
        && serverWrites == old(serverWrites) + (if auth.user.value.id != "" then [Write(auth.user.value.id, merged)] else [])
        && (error.None? ==> state == CartState(merged, false, None) && !itemsPristine && guestStore == None)
        && (error.Some? ==>
              state == CartState(old(state.items), false, Some(MessageOr(error.value, InitFailed))) &&
              itemsPristine == old(itemsPristine) && guestStore == old(guestStore))
      // any other signed-in load: the server's items, nothing saved
      ensures !auth.isLoading && SignedIn(auth) && FetchUserCart(auth.user.value.id, fetched).Ok? &&
              !(IsLogin(old(prevIsAuthenticated), auth) && LoadGuestCart(old(guestStore)) != []) ==>
        state == CartState(FetchUserCart(auth.user.value.id, fetched).value, false, None) && !itemsPristine &&
        guestStore == old(guestStore) && serverWrites == old(serverWrites)
      // a logout: the items are cleared and the cart is left loading
      ensures !auth.isLoading && !SignedIn(auth) && IsLogout(old(prevIsAuthenticated), auth) ==>
        state == CartState([], true, None) && !itemsPristine &&
        guestStore == old(guestStore) && serverWrites == old(serverWrites)
      // a guest: the stored guest cart
      ensures !auth.isLoading && !SignedIn(auth) && !IsLogout(old(prevIsAuthenticated), auth) ==>
        state == CartState(LoadGuestCart(old(guestStore)), false, None) && !itemsPristine &&
        guestStore == old(guestStore) && serverWrites == old(serverWrites)
    {
      if auth.isLoading {
        return;
      }
      var previous := prevIsAuthenticated;
      Dispatch(OperationStart);
      if SignedIn(auth) {
        var userId := auth.user.value.id;
        var serverCart := FetchUserCart(userId, fetched);
        if serverCart.Err? {
          Dispatch(OperationFailure(MessageOr(serverCart.message, InitFailed)));
        } else if !previous && auth.isAuthenticated {
          var guestCart := LoadGuestCart(guestStore);
          if |guestCart| > 0 {
            MergeOnLogin(userId, serverCart.value, guestCart, saveResponse);
          } else {
            Dispatch(SetCartItems(serverCart.value));
          }
        } else {
          Dispatch(SetCartItems(serverCart.value));
        }
      } else {
        if previous && !auth.isAuthenticated {
          Dispatch(Action.ClearCart);
        } else {
          var guestCart := LoadGuestCart(guestStore);
          Dispatch(SetCartItems(guestCart));
        }
      }
      prevIsAuthenticated := auth.isAuthenticated;
    }

    /** Effect 2: nothing while the session or the cart is loading, nor for
        a guest whose cart is still the untouched initial one; a signed-in
        user's items are sent to the server (unless still the initial
        array; the outcome is not awaited); a guest's are written to
        storage. */
    method Persist(auth: Auth.AuthState)
      modifies this
      ensures state == old(state) && itemsPristine == old(itemsPristine)
      ensures prevIsAuthenticated == old(prevIsAuthenticated)
      ensures SkipsPersist(auth, old(state), old(itemsPristine), old(prevIsAuthenticated)) ==>
        guestStore == old(guestStore) && serverWrites == old(serverWrites)
      ensures !SkipsPersist(auth, old(state), old(itemsPristine), old(prevIsAuthenticated)) && SignedIn(auth) ==>
        guestStore == old(guestStore) &&
        serverWrites == old(serverWrites) +
          (if !itemsPristine && auth.user.value.id != "" then [Write(auth.user.value.id, state.items)] else [])
      ensures !SkipsPersist(auth, old(state), old(itemsPristine), old(prevIsAuthenticated)) && !SignedIn(auth) ==>
        guestStore == SaveGuestCart(state.items) && serverWrites == old(serverWrites)
    {
      if auth.isLoading || state.isLoading {
        return;
      }
      if itemsPristine && |state.items| == 0 && !prevIsAuthenticated && !auth.isAuthenticated {
        return;
      }
      if SignedIn(auth) {
        if !itemsPristine {
          var _ := Save(auth.user.value.id, state.items, None);
        }
      } else {
        guestStore := SaveGuestCart(state.items);
      }
    }

    /** `addItem(product, quantity = 1)`. */
    method AddItem(product: Product, quantity: int := 1)
      modifies this
      ensures state == old(state).(items := AddLine(old(state.items), product, quantity))
      ensures !itemsPristine && guestStore == old(guestStore) && serverWrites == old(serverWrites)
      ensures prevIsAuthenticated == old(prevIsAuthenticated)
    {
      Dispatch(Action.AddItem(product, quantity));
    }

    /** `updateQuantity(productId, quantity)`. */
    method UpdateQuantity(productId: string, quantity: int)
      modifies this
      ensures state == old(state).(items := UpdateLines(old(state.items), productId, quantity))
      ensures !itemsPristine && guestStore == old(guestStore) && serverWrites == old(serverWrites)
      ensures prevIsAuthenticated == old(prevIsAuthenticated)
    {
      Dispatch(Action.UpdateQuantity(productId, quantity));
    }

    /** `removeItem(productId)`. */
    method RemoveItem(productId: string)
      modifies this
      ensures state == old(state).(items := RemoveLines(old(state.items), productId))
      ensures !itemsPristine && guestStore == old(guestStore) && serverWrites == old(serverWrites)
      ensures prevIsAuthenticated == old(prevIsAuthenticated)
    {
      Dispatch(Action.RemoveItem(productId));
    }

    /** `clearCart()`. Signed in: the server cart is emptied first and the
        local items only once that succeeded; on failure the items stay
        and the error is recorded. A guest's items are simply emptied. */
    method ClearCart(auth: Auth.AuthState, saveResponse: Option<string>)
      modifies this
      ensures SignedIn(auth) ==>
        var error := SaveUserCart(auth.user.value.id, saveResponse);
        && serverWrites == old(serverWrites) + (if auth.user.value.id != "" then [Write(auth.user.value.id, [])] else [])
        && (error.None? ==> state == CartState([], false, None) && !itemsPristine)
        && (error.Some? ==>
              state == CartState(old(state.items), false, Some(MessageOr(error.value, ClearFailed))) &&
              itemsPristine == old(itemsPristine))
      ensures !SignedIn(auth) ==>
        state == old(state).(items := []) && !itemsPristine && serverWrites == old(serverWrites)
      ensures guestStore == old(guestStore) && prevIsAuthenticated == old(prevIsAuthenticated)
    {
      if SignedIn(auth) {
        Dispatch(OperationStart);
        var error := Save(auth.user.value.id, [], saveResponse);
        if error.None? {
          Dispatch(Action.ClearCart);
          Dispatch(OperationSuccess);
        } else {
          Dispatch(OperationFailure(MessageOr(error.value, ClearFailed)));
        }
      } else {
        Dispatch(Action.ClearCart);
      }
    }
  }

  /** When Effect 2 does nothing at all. */
  predicate SkipsPersist(auth: Auth.AuthState, state: CartState, itemsPristine: bool, prevIsAuthenticated: bool)
  {
    auth.isLoading || state.isLoading ||
    (itemsPristine && |state.items| == 0 && !prevIsAuthenticated && !auth.isAuthenticated)
  }

  /** After the logout commit the cart stays loading, so Effect 2 skips in
      every later render until the next session change: the emptied cart is
      not written to guest storage, and neither is anything the guest adds
      afterwards. */
  lemma LogoutThenNoPersist(auth: Auth.AuthState, pristine: bool, previous: bool, p: Product, q: int)
    ensures SkipsPersist(auth, CartState([], true, None), pristine, previous)
    ensures SkipsPersist(auth, Reduce(CartState([], true, None), Action.AddItem(p, q)).value, pristine, previous)
  {
  }

  /** A guest start: a provider mounted signed out over the stored guest
      cart writes nothing before Effect 1 has run; once Effect 1 has loaded
      the stored items (a new array), Effect 2 writes them back, and
      reading storage again gives the same items. */
  method GuestStartRoundTrips(auth: Auth.AuthState, stored: Option<Stored>,
                              fetched: Result<seq<Item>>, saveResponse: Option<string>)
    returns (untouched: Option<Stored>, c: CartProvider)
    requires !auth.isLoading && !auth.isAuthenticated
    ensures untouched == stored
    ensures c.state == CartState(LoadGuestCart(stored), false, None) && !c.itemsPristine
    ensures LoadGuestCart(c.guestStore) == LoadGuestCart(stored) && c.serverWrites == []
  {
    c := new CartProvider(false, stored);
    c.Persist(auth);
    untouched := c.guestStore;
    c.InitializeCart(auth, fetched, saveResponse);
    c.Persist(auth);
    GuestRoundTrip(LoadGuestCart(stored));
  }
}
