/** The session state machine of src/contexts/AuthContext.js: the record
    `{ isLoading, isAuthenticated, user, token, error }`, the reducer
    `authReducer`, the start-up `LOAD_USER` effect and the provider's
    request/success/failure dispatch sequences. */
module Auth {

  import opened Wrappers

  /** A user as the services hand it out (no password). */
  datatype User = User(id: string, email: string, name: string, role: string, deliveryAddress: Option<string>)

  /** What a successful login, registration or profile update returns. */
  datatype Session = Session(user: User, token: string)

  datatype AuthState = AuthState(
    isLoading: bool,
    isAuthenticated: bool,
    user: Option<User>,
    token: Option<string>,
    error: Option<string>)

  /** `initialState`. */
  const Initial: AuthState := AuthState(true, false, None, None, None)

  /** The reducer's actions; `Unhandled` is any other `type`. */
  datatype Action =
    | RequestLogin
    | RequestRegister
    | RequestUpdateUser
    | LoginSuccess(session: Session)
    | RegisterSuccess(session: Session)
    | LoginFailure(error: string)
    | RegisterFailure(error: string)
    | UpdateUserFailure(error: string)
    | Logout
    | LoadUser(user: Option<User>, token: Option<string>)
    | UpdateUserSuccess(session: Session)
    | Unhandled(actionType: string)
  {
    predicate IsRequest() { RequestLogin? || RequestRegister? || RequestUpdateUser? }
    predicate IsFailure() { LoginFailure? || RegisterFailure? || UpdateUserFailure? }
  }

  /** JavaScript truthiness of a token: present and not the empty string. */
  predicate Truthy(token: Option<string>)
  {
    token.Some? && token.value != ""
  }

  /** The two states agree on who is signed in. */
  predicate SameSession(a: AuthState, b: AuthState)
  {
    a.isAuthenticated == b.isAuthenticated && a.user == b.user && a.token == b.token
  }

  /** `authReducer(state, action)`; an unknown action type throws. */
  function Reduce(state: AuthState, action: Action): (r: Result<AuthState>)
    ensures r.Err? <==> action.Unhandled?
    ensures r.Err? ==> r.message == "Unhandled action type: " + action.actionType
    ensures action.IsRequest() ==>
      r.Ok? && r.value.isLoading && r.value.error.None? && SameSession(r.value, state)
    ensures (action.LoginSuccess? || action.RegisterSuccess?) ==>
      r.Ok? && r.value.isAuthenticated && !r.value.isLoading && r.value.error.None? &&
      r.value.user == Some(action.session.user) && r.value.token == Some(action.session.token)
    ensures action.IsFailure() ==>
      r.Ok? && !r.value.isLoading && r.value.error == Some(action.error) && SameSession(r.value, state)
    ensures action.Logout? ==>
      r.Ok? && !r.value.isLoading && !r.value.isAuthenticated &&
      r.value.user.None? && r.value.token.None? && r.value.error.None?
    ensures action.LoadUser? ==>
      r.Ok? && !r.value.isLoading && (r.value.isAuthenticated <==> Truthy(action.token)) &&
      r.value.user == action.user && r.value.token == action.token && r.value.error == state.error
    ensures action.UpdateUserSuccess? ==>
      r.Ok? && !r.value.isLoading && r.value.error.None? && r.value.isAuthenticated == state.isAuthenticated &&
      r.value.user == Some(action.session.user) && r.value.token == Some(action.session.token)
  {
    match action
    case RequestLogin => Ok(state.(isLoading := true, error := None))
    case RequestRegister => Ok(state.(isLoading := true, error := None))
    case RequestUpdateUser => Ok(state.(isLoading := true, error := None))
    case LoginSuccess(s) =>
      Ok(state.(isLoading := false, isAuthenticated := true, user := Some(s.user), token := Some(s.token), error := None))
    case RegisterSuccess(s) =>
      Ok(state.(isLoading := false, isAuthenticated := true, user := Some(s.user), token := Some(s.token), error := None))
    case LoginFailure(e) => Ok(state.(isLoading := false, error := Some(e)))
    case RegisterFailure(e) => Ok(state.(isLoading := false, error := Some(e)))
    case UpdateUserFailure(e) => Ok(state.(isLoading := false, error := Some(e)))
    case Logout => Ok(Initial.(isLoading := false))
    case LoadUser(u, t) => Ok(state.(isLoading := false, isAuthenticated := Truthy(t), user := u, token := t))
    case UpdateUserSuccess(s) =>
      Ok(state.(isLoading := false, user := Some(s.user), token := Some(s.token), error := None))
    case Unhandled(t) => Err("Unhandled action type: " + t)
  }

  /** LOGOUT forgets everything: the result does not depend on the state. */
  lemma LogoutForgets(a: AuthState, b: AuthState)
    ensures Reduce(a, Logout) == Reduce(b, Logout)
    ensures Reduce(a, Logout).value == Initial.(isLoading := false)
  {
  }

  // ---------------------------------------------------------------------
  // Runs of actions
  // ---------------------------------------------------------------------

  /** The state after dispatching `actions` in order; `None` once one throws. */
  function ReduceAll(state: AuthState, actions: seq<Action>): Option<AuthState>
    decreases |actions|
  {
    if actions == [] then Some(state)
    else
      var r := Reduce(state, actions[0]);
      if r.Err? then None else ReduceAll(r.value, actions[1..])
  }

  /** An authenticated state holds a truthy token. */
  predicate Consistent(s: AuthState)
  {
    s.isAuthenticated ==> Truthy(s.token)
  }

  /** Every session the services hand out carries a non-empty token. */
  predicate TokensIssued(actions: seq<Action>)
  {
    forall k :: 0 <= k < |actions| ==>
      (actions[k].LoginSuccess? || actions[k].RegisterSuccess? || actions[k].UpdateUserSuccess?) ==>
        actions[k].session.token != ""
  }

  /** From a consistent state, any run of known actions whose sessions carry
      non-empty tokens ends in a consistent state: the app never believes a
      user is signed in without a token to send. */
  lemma {:induction false} ReduceAllConsistent(state: AuthState, actions: seq<Action>)
    requires Consistent(state) && TokensIssued(actions)
    requires forall k :: 0 <= k < |actions| ==> !actions[k].Unhandled?
    ensures ReduceAll(state, actions).Some?
    ensures Consistent(ReduceAll(state, actions).value)
    decreases |actions|
  {
    if actions != [] {
      var next := Reduce(state, actions[0]).value;
      assert TokensIssued(actions[1..]) by {
        forall k | 0 <= k < |actions| - 1 ensures actions[1..][k] == actions[k + 1] { }
      }
      ReduceAllConsistent(next, actions[1..]);
    }
  }

  // ---------------------------------------------------------------------
  // The provider
  // ---------------------------------------------------------------------

  /** The start-up effect's action: the stored session, or `{ user: null,
      token: null }` when nothing usable is stored. */
  function StartupAction(stored: Option<Session>): (a: Action)
    ensures a.LoadUser?
    ensures stored.None? ==> a.user.None? && a.token.None?
    ensures stored.Some? ==> a.user == Some(stored.value.user) && a.token == Some(stored.value.token)
  {
    match stored
    case None => LoadUser(None, None)
    case Some(s) => LoadUser(Some(s.user), Some(s.token))
  }

  /** After start-up the session is known: loading is over and the user is
      signed in exactly when a session with a non-empty token was stored. */
  lemma StartupSettles(stored: Option<Session>)
    ensures var r := Reduce(Initial, StartupAction(stored)).value;
      && !r.isLoading
      && (r.isAuthenticated <==> stored.Some? && stored.value.token != "")
      && r.error.None?
  {
  }

  /** `AuthProvider`: the reducer's state and the actions it offers. The
      service calls are awaited outside the model; their outcome is a
      parameter (`Err` is a thrown error's message). */
  class AuthProvider {
    var state: AuthState

    constructor ()
      ensures state == Initial
    {
      state := Initial;
    }

    /** `dispatch(action)` for a known action. */
    method Dispatch(action: Action)
      requires !action.Unhandled?
      modifies this
      ensures state == Reduce(old(state), action).value
    {
      state := Reduce(state, action).value;
    }

    /** The mount effect: `LOAD_USER` with the stored session or nulls. */
    method Startup(stored: Option<Session>)
      modifies this
      ensures !state.isLoading && state.error == old(state.error)
      ensures state.isAuthenticated <==> stored.Some? && stored.value.token != ""
      ensures stored.Some? ==> state.user == Some(stored.value.user) && state.token == Some(stored.value.token)
      ensures stored.None? ==> state.user.None? && state.token.None?
    {
      Dispatch(StartupAction(stored));
    }

    /** `login(credentials)`: REQUEST_LOGIN, then LOGIN_SUCCESS with the
        session or LOGIN_FAILURE with the message, which is rethrown. */
    method Login(outcome: Result<Session>) returns (r: Result<Session>)
      modifies this
      ensures r == outcome
      ensures !state.isLoading
      ensures outcome.Ok? ==>
        state.isAuthenticated && state.error.None? &&
        state.user == Some(outcome.value.user) && state.token == Some(outcome.value.token)
      ensures outcome.Err? ==> state.error == Some(outcome.message) && SameSession(state, old(state))
    {
      Dispatch(RequestLogin);
      match outcome {
        case Ok(s) => Dispatch(LoginSuccess(s));
        case Err(m) => Dispatch(LoginFailure(m));
      }
      r := outcome;
    }

    /** `register(userData)`: the same sequence with the REGISTER actions. */
    method Register(outcome: Result<Session>) returns (r: Result<Session>)
      modifies this
      ensures r == outcome
      ensures !state.isLoading
      ensures outcome.Ok? ==>
        state.isAuthenticated && state.error.None? &&
        state.user == Some(outcome.value.user) && state.token == Some(outcome.value.token)
      ensures outcome.Err? ==> state.error == Some(outcome.message) && SameSession(state, old(state))
    {
      Dispatch(RequestRegister);
      match outcome {
        case Ok(s) => Dispatch(RegisterSuccess(s));
        case Err(m) => Dispatch(RegisterFailure(m));
      }
      r := outcome;
    }

    /** `logout()`: once the service has cleared storage, LOGOUT. */
    method SignOut()
      modifies this
      ensures state == Initial.(isLoading := false)
    {
      Dispatch(Logout);
    }

    /** `updateUserDeliveryAddress` and `updateUserProfile`: REQUEST_UPDATE_USER,
        then UPDATE_USER_SUCCESS with the re-issued session or
        UPDATE_USER_FAILURE. Neither touches `isAuthenticated`. */
    method UpdateUser(outcome: Result<Session>) returns (r: Result<Session>)
      modifies this
      ensures r == outcome
      ensures !state.isLoading && state.isAuthenticated == old(state.isAuthenticated)
      ensures outcome.Ok? ==>
        state.error.None? &&
        state.user == Some(outcome.value.user) && state.token == Some(outcome.value.token)
      ensures outcome.Err? ==> state.error == Some(outcome.message) && SameSession(state, old(state))
    {
      Dispatch(RequestUpdateUser);
      match outcome {
        case Ok(s) => Dispatch(UpdateUserSuccess(s));
        case Err(m) => Dispatch(UpdateUserFailure(m));
      }
      r := outcome;
    }
  }
}
