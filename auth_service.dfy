/** The in-memory account service of src/services/authServiceTest.js: the
    module-level `users` table, updated in place, and the two
    `localStorage` keys `authToken` and `authUser` it writes. */
module AuthService {

  import opened Wrappers
  import opened Text
  import opened Auth

  /** A row of the `users` table: a user with a password. */
  datatype UserRecord = UserRecord(
    id: string,
    email: string,
    password: string,
    name: string,
    role: string,
    deliveryAddress: Option<string>)

  /** `const { password, ...userWithoutPassword } = user`. */
  function Public(u: UserRecord): (user: User)
    ensures user.id == u.id && user.email == u.email && user.name == u.name
    ensures user.role == u.role && user.deliveryAddress == u.deliveryAddress
  {
    User(u.id, u.email, u.name, u.role, u.deliveryAddress)
  }

  /** The table the module starts with. */
  const SeedUsers: seq<UserRecord> := [
    UserRecord("1", "user@example.com", "password123", "Тестовый Пользователь", "customer",
      Some("г. Москва, ул. Примерная, д. 1, кв. 2")),
    UserRecord("2", "admin@example.com", "adminpassword", "Администратор Сайта", "admin", None)
  ]

  const BadCredentials: string := "Неверный email или пароль"
  const EmailTaken: string := "Пользователь с таким email уже существует"
  const NoUserForAddress: string := "Пользователь не найден для обновления адреса"
  const NoUserForProfile: string := "Пользователь не найден для обновления профиля"
  const EmailInUse: string := "Этот email уже используется другим пользователем."

  /** A token lives for an hour after it is issued. */
  const TokenLifetime: nat := 3600000

  // ---------------------------------------------------------------------
  // Lookups and the table invariant
  // ---------------------------------------------------------------------

  /** `users.find(u => u.email === email && u.password === password)`, as
      an index (-1 for none). */
  function FindByCredentials(users: seq<UserRecord>, email: string, password: string): (k: int)
    ensures -1 <= k < |users|
    ensures k >= 0 ==> users[k].email == email && users[k].password == password
    ensures k >= 0 ==> forall j :: 0 <= j < k ==> !(users[j].email == email && users[j].password == password)
    ensures k == -1 <==> forall j :: 0 <= j < |users| ==> !(users[j].email == email && users[j].password == password)
  {
    if users == [] then -1
    else if users[0].email == email && users[0].password == password then 0
    else
      var k := FindByCredentials(users[1..], email, password);
      if k == -1 then -1 else k + 1
  }

  /** `users.findIndex(u => u.id === userId)`. */
  function FindById(users: seq<UserRecord>, id: string): (k: int)
    ensures -1 <= k < |users|
    ensures k >= 0 ==> users[k].id == id && forall j :: 0 <= j < k ==> users[j].id != id
    ensures k == -1 <==> forall j :: 0 <= j < |users| ==> users[j].id != id
  {
    if users == [] then -1
    else if users[0].id == id then 0
    else
      var k := FindById(users[1..], id);
      if k == -1 then -1 else k + 1
  }

  /** `users.some(u => u.email === email)`. */
  predicate EmailUsed(users: seq<UserRecord>, email: string)
  {
    exists j :: 0 <= j < |users| && users[j].email == email
  }

  /** No two rows share an e-mail. */
  predicate EmailsUnique(users: seq<UserRecord>)
  {
    forall i, j :: 0 <= i < j < |users| ==> users[i].email != users[j].email
  }

  /** No two rows share an id. */
  predicate IdsUnique(users: seq<UserRecord>)
  {
    forall i, j :: 0 <= i < j < |users| ==> users[i].id != users[j].id
  }

  /** `users.some(u => u.email === email && u.id !== userId)`. */
  predicate EmailTakenByOther(users: seq<UserRecord>, email: string, userId: string)
  {
    exists j :: 0 <= j < |users| && users[j].email == email && users[j].id != userId
  }

  /** Rewriting row `k` under its own id, with its own e-mail or one no
      other id holds, keeps ids unique, and e-mails too when ids are. */
  lemma EditKeepsUnique(users: seq<UserRecord>, k: int, row: UserRecord)
    requires 0 <= k < |users| && row.id == users[k].id
    requires row.email == users[k].email || !EmailTakenByOther(users, row.email, row.id)
    ensures IdsUnique(users) ==> IdsUnique(users[k := row])
    ensures EmailsUnique(users) && IdsUnique(users) ==> EmailsUnique(users[k := row])
  {
    var edited := users[k := row];
    if EmailsUnique(users) && IdsUnique(users) {
      forall i, j | 0 <= i < j < |edited|
        ensures edited[i].email != edited[j].email
      {
        if i == k || j == k {
          var o := if i == k then j else i;
          assert users[o].id != row.id;
        }
      }
    }
  }

  lemma SeedUsersWellFormed()
    ensures EmailsUnique(SeedUsers) && IdsUnique(SeedUsers)
  {
  }

  // ---------------------------------------------------------------------
  // Tokens
  // ---------------------------------------------------------------------

  /** `generatePseudoToken`: `pseudo-jwt-token.<payload>.<expiry>`. The
      base64 payload (without `=`) is an input; base64 never holds a `.`. */
  function MakeToken(payload: string, expiry: nat): string
  {
    "pseudo-jwt-token" + ['.'] + payload + ['.'] + ShowNat(expiry)
  }

  /** The expiry `loadUserFromStorage` reads from a token: `None` when the
      token does not have three `.`-separated parts, `Some(None)` when the
      third part is not a number (`NaN`). */
  function TokenExpiry(token: string): Option<Option<int>>
  {
    var parts := Split(token, '.');
    if |parts| == 3 then Some(ParseInt(parts[2])) else None
  }

  /** Three pieces without separators, joined by two, split back apart. */
  lemma SplitThree(a: string, b: string, c: string, sep: char)
    requires sep !in a && sep !in b && sep !in c
    ensures Split(a + [sep] + b + [sep] + c, sep) == [a, b, c]
  {
    assert a + [sep] + b + [sep] + c == a + [sep] + (b + [sep] + c);
    SplitConcat(a, sep, b + [sep] + c);
    SplitConcat(b, sep, c);
    SplitNoSeparator(a, sep);
    SplitNoSeparator(b, sep);
    SplitNoSeparator(c, sep);
  }

  /** A token the service issued reads back with the expiry it was given. */
  lemma TokenExpiryOfMade(payload: string, expiry: nat)
    requires '.' !in payload
    ensures TokenExpiry(MakeToken(payload, expiry)) == Some(Some(expiry))
  {
    var tail := ShowNat(expiry);
    assert '.' !in tail by {
      forall i | 0 <= i < |tail| ensures tail[i] != '.' { assert IsDigit(tail[i]); }
    }
    assert Split(MakeToken(payload, expiry), '.') == ["pseudo-jwt-token", payload, tail] by {
      SplitThree("pseudo-jwt-token", payload, tail, '.');
    }
    ParseShownNat(expiry);
  }

  // ---------------------------------------------------------------------
  // Storage
  // ---------------------------------------------------------------------

  /** What `localStorage` holds under `authUser`: the empty string
      (falsy), text that is not JSON, or a parsed user. A stored user
      without `deliveryAddress` reads as `null`, which `Option` already
      expresses. */
  datatype StoredUser = EmptyText | Unparsable | Parsed(user: User)

  /** The service: the `users` table and the two storage keys. */
  class UserStore {
    var users: seq<UserRecord>
    var authToken: Option<string>
    var authUser: Option<StoredUser>

    constructor ()
      ensures users == SeedUsers && authToken.None? && authUser.None?
    {
      users := SeedUsers;
      authToken := None;
      authUser := None;
    }

    /** Issues a session for row `k`: the token is written to storage
        beside the password-free user. */
    method Issue(k: int, now: nat, payload: string) returns (s: Session)
      requires 0 <= k < |users|
      modifies this
      ensures users == old(users)
      ensures s == Session(Public(users[k]), MakeToken(payload, now + TokenLifetime))
      ensures authToken == Some(s.token) && authUser == Some(Parsed(s.user))
    {
      var user := Public(users[k]);
      var token := MakeToken(payload, now + TokenLifetime);
      authToken := Some(token);
      authUser := Some(Parsed(user));
      s := Session(user, token);
    }

    /** `login({ email, password })`: the first row matching both, exactly;
        the time and the token payload are inputs. */
    method Login(email: string, password: string, now: nat, payload: string) returns (r: Result<Session>)
      modifies this
      ensures users == old(users)
      ensures r.Ok? <==> exists j :: 0 <= j < |users| && users[j].email == email && users[j].password == password
      ensures r.Ok? ==>
        var k := FindByCredentials(users, email, password);
        r.value == Session(Public(users[k]), MakeToken(payload, now + TokenLifetime)) &&
        authToken == Some(r.value.token) && authUser == Some(Parsed(r.value.user))
      ensures r.Err? ==>
        r.message == BadCredentials && authToken == old(authToken) && authUser == old(authUser)
    {
      var k := FindByCredentials(users, email, password);
      if k == -1 {
        return Err(BadCredentials);
      }
      var s := Issue(k, now, payload);
      return Ok(s);
    }

    /** `register({ email, password, name })`: refused when the e-mail is
        taken; otherwise one customer row without an address is appended,
        its id the decimal time. */
    method Register(email: string, password: string, name: string, now: nat, payload: string)
      returns (r: Result<Session>)
      modifies this
      ensures r.Err? <==> EmailUsed(old(users), email)
      ensures r.Err? ==>
        r.message == EmailTaken && users == old(users) &&
        authToken == old(authToken) && authUser == old(authUser)
      ensures r.Ok? ==>
        users == old(users) + [UserRecord(ShowNat(now), email, password, name, "customer", None)] &&
        r.value == Session(Public(users[|users| - 1]), MakeToken(payload, now + TokenLifetime)) &&
        authToken == Some(r.value.token) && authUser == Some(Parsed(r.value.user))
      ensures EmailsUnique(old(users)) ==> EmailsUnique(users)
    {
      if exists j :: 0 <= j < |users| && users[j].email == email {
        return Err(EmailTaken);
      }
      users := users + [UserRecord(ShowNat(now), email, password, name, "customer", None)];
      var s := Issue(|users| - 1, now, payload);
      return Ok(s);
    }

    /** `logout()`: both keys removed. */
    method Logout()
      modifies this
      ensures users == old(users) && authToken.None? && authUser.None?
    {
      authToken := None;
      authUser := None;
    }

    /** `loadUserFromStorage()` at time `now`. Without a truthy token and
        stored user: `null`. Text that is not JSON, or a three-part token
        whose expiry is not after `now` (or not a number): `null`, and both
        keys are removed. A token of any other shape: `null`, keys kept. */
    method LoadUserFromStorage(now: int) returns (r: Option<Session>)
      modifies this
      ensures users == old(users)
      ensures r.Some? <==>
        old(authToken).Some? && old(authToken).value != "" && old(authUser).Some? &&
        old(authUser).value.Parsed? &&
        TokenExpiry(old(authToken).value).Some? &&
        TokenExpiry(old(authToken).value).value.Some? &&
        TokenExpiry(old(authToken).value).value.value > now
      ensures r.Some? ==>
        r.value == Session(old(authUser).value.user, old(authToken).value) &&
        authToken == old(authToken) && authUser == old(authUser)
      ensures r.None? ==>
        var removes :=
          old(authToken).Some? && old(authToken).value != "" &&
          old(authUser).Some? && !old(authUser).value.EmptyText? &&
          (old(authUser).value.Unparsable? || TokenExpiry(old(authToken).value).Some?);
        (removes ==> authToken.None? && authUser.None?) &&
        (!removes ==> authToken == old(authToken) && authUser == old(authUser))
    {
      if authToken.None? || authToken.value == "" || authUser.None? || authUser.value.EmptyText? {
        return None;
      }
      var token := authToken.value;
      match authUser.value {
        case Unparsable =>
          authToken, authUser := None, None;
          return None;
        case Parsed(user) =>
          var parts := Split(token, '.');
          if |parts| == 3 {
            var expiry := ParseInt(parts[2]);
            if expiry.Some? && expiry.value > now {
              return Some(Session(user, token));
            }
            authToken, authUser := None, None;
          }
          return None;
        case EmptyText =>
          return None;
      }
    }

    /** `updateDeliveryAddress(userId, address)`: the first row with the
        id gets the address and nothing else changes; an unknown id
        throws. A fresh session is issued either way it succeeds. */
    method UpdateDeliveryAddress(userId: string, address: string, now: nat, payload: string)
      returns (r: Result<Session>)
      modifies this
      ensures var k := FindById(old(users), userId);
        && (k == -1 ==>
              r == Err(NoUserForAddress) && users == old(users) &&
              authToken == old(authToken) && authUser == old(authUser))
        && (k >= 0 ==>
              users == old(users)[k := old(users)[k].(deliveryAddress := Some(address))] &&
              r == Ok(Session(Public(users[k]), MakeToken(payload, now + TokenLifetime))) &&
              authToken == Some(r.value.token) && authUser == Some(Parsed(r.value.user)))
      ensures EmailsUnique(old(users)) ==> EmailsUnique(users)
      ensures IdsUnique(old(users)) ==> IdsUnique(users)
    {
      var k := FindById(users, userId);
      if k == -1 {
        return Err(NoUserForAddress);
      }
      users := users[k := users[k].(deliveryAddress := Some(address))];
      var s := Issue(k, now, payload);
      return Ok(s);
    }

    /** `updateUserProfile(userId, { name, email })`: an unknown id throws;
        a new e-mail (non-empty and different) held by a row with another
        id throws before anything changes; otherwise a non-empty e-mail and
        a non-empty name replace the row's. */
    method UpdateUserProfile(userId: string, name: string, email: string, now: nat, payload: string)
      returns (r: Result<Session>)
      modifies this
      ensures var k := FindById(old(users), userId);
        && (k == -1 ==>
              r == Err(NoUserForProfile) && users == old(users) &&
              authToken == old(authToken) && authUser == old(authUser))
        && (k >= 0 && email != "" && email != old(users)[k].email && EmailTakenByOther(old(users), email, userId) ==>
              r == Err(EmailInUse) && users == old(users) &&
              authToken == old(authToken) && authUser == old(authUser))
        && (k >= 0 && r.Ok? ==>
              var row := old(users)[k];
              users == old(users)[k := row.(email := if email != "" then email else row.email,
                                            name := if name != "" then name else row.name)] &&
              r.value == Session(Public(users[k]), MakeToken(payload, now + TokenLifetime)) &&
              authToken == Some(r.value.token) && authUser == Some(Parsed(r.value.user)))
      ensures r.Err? ==> users == old(users)
      ensures (FindById(old(users), userId) >= 0 &&
               !(email != "" && email != old(users)[FindById(old(users), userId)].email &&
                 EmailTakenByOther(old(users), email, userId))) ==>
              r.Ok?
      ensures EmailsUnique(old(users)) && IdsUnique(old(users)) ==> EmailsUnique(users)
      ensures IdsUnique(old(users)) ==> IdsUnique(users)
    {
      var k := FindById(users, userId);
      if k == -1 {
        return Err(NoUserForProfile);
      }
      if email != "" && email != users[k].email && EmailTakenByOther(users, email, userId) {
        return Err(EmailInUse);
      }
      var row := users[k].(email := if email != "" then email else users[k].email,
                           name := if name != "" then name else users[k].name);
      EditKeepsUnique(users, k, row);
      users := users[k := row];
      var s := Issue(k, now, payload);
      return Ok(s);
    }
  }

  /** A session survives a reload within the hour: right after a login or
      registration issued at `issued`, loading from storage at any `now`
      before the expiry gives the same session back. */
  lemma IssuedSessionReloads(user: User, payload: string, issued: nat, now: int)
    requires '.' !in payload && now < issued + TokenLifetime
    ensures var token := MakeToken(payload, issued + TokenLifetime);
      && token != ""
      && TokenExpiry(token) == Some(Some(issued + TokenLifetime))
      && TokenExpiry(token).value.value > now
  {
    TokenExpiryOfMade(payload, issued + TokenLifetime);
  }
}
