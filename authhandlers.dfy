/** The account endpoint: login, registration and "who am I". Password
    hashing and checking, token signing and token verification are
    cryptographic and appear as the functions `hash`, `check`, `sign` and
    `verify`. */
module AuthHandlers {

  import opened Seqs
  import opened Text
  import opened Schema
  import opened Storage
  import opened Http
  import opened AuthLib

  /** What the endpoint tells a client about a user: never the hash. */
  datatype PublicUser = PublicUser(id: Id, email: string, name: string, role: string)

  function Public(u: User): PublicUser
  {
    PublicUser(u.id, u.email, u.name, RoleName(u.role))
  }

  datatype Out = Session(user: PublicUser, token: string) | Me(me: PublicUser)

  const InvalidInput := "Invalid input"
  const InvalidCredentials := "Invalid credentials"
  const EmailTaken := "Email already registered"
  const Unauthorized := "Unauthorized"

  // ================================================================ login

  /** `POST ?action=login`: 400 for a body the login schema refuses; the same
      401 whether the address is unknown or the password wrong; otherwise the
      public view of the account and a fresh token. Whether the account is
      active plays no part. */
  function Login(users: seq<User>, body: LoginBody, check: (string, string) -> bool, sign: Id -> string)
    : (r: Reply<Out>)
    ensures r.Status() in {200, 400, 401}
    ensures r.Status() == 400 <==> !LoginValid(body)
    ensures r.Status() == 400 ==> r == Error(400, InvalidInput)
    ensures r.Status() == 401 ==> r == Error(401, InvalidCredentials)
    ensures r.Status() == 200 <==>
      LoginValid(body) && UserByEmail(users, body.email.value).Some?
      && check(body.password.value, UserByEmail(users, body.email.value).value.passwordHash)
    ensures r.Status() == 200 ==>
      exists u :: u in users && u.email == body.email.value && check(body.password.value, u.passwordHash)
                  && r == Json(200, Session(Public(u), sign(u.id)))
  {
    if !LoginValid(body) then Error(400, InvalidInput)
    else match UserByEmail(users, body.email.value)
      case None => Error(401, InvalidCredentials)
      case Some(u) =>
        if !check(body.password.value, u.passwordHash) then Error(401, InvalidCredentials)
        else Json(200, Session(Public(u), sign(u.id)))
  }

  /** An unknown address and a wrong password are answered alike, so the
      answer does not reveal whether an account exists. */
  lemma LoginDoesNotRevealAccounts(users: seq<User>, u: User, password: string,
                                   check: (string, string) -> bool, sign: Id -> string)
    requires u in users && !check(password, u.passwordHash)
    requires DistinctKeys(users, UserEmail)
    requires LoginValid(LoginBody(Some(u.email), Some(password)))
    ensures Login(users, LoginBody(Some(u.email), Some(password)), check, sign)
         == Login([], LoginBody(Some(u.email), Some(password)), check, sign)
         == Error(401, InvalidCredentials)
  {
    var found := UserByEmail(users, u.email).value;
    var i :| 0 <= i < |users| && users[i] == u;
    var j :| 0 <= j < |users| && users[j] == found;
    assert UserEmail(users[i]) == UserEmail(users[j]);
  }

  function UserEmail(u: User): string
  {
    u.email
  }

  /** A deactivated account logs in exactly as the active one would. */
  lemma LoginIgnoresActive(users: seq<User>, i: nat, body: LoginBody,
                           check: (string, string) -> bool, sign: Id -> string)
    requires i < |users|
    ensures Login(users[i := users[i].(isActive := false)], body, check, sign).Status()
         == Login(users[i := users[i].(isActive := true)], body, check, sign).Status()
  {
    if LoginValid(body) {
      var f := (x: User) => x.email == body.email.value;
      var a := users[i := users[i].(isActive := false)];
      var b := users[i := users[i].(isActive := true)];
      FirstPointwise(a, b, f);
    }
  }

  /** Two tables that differ row by row only in the activity flag have their
      first match on the address at the same place. */
  lemma FirstPointwise(a: seq<User>, b: seq<User>, f: User -> bool)
    requires |a| == |b|
    requires forall k :: 0 <= k < |a| ==> a[k] == b[k].(isActive := a[k].isActive)
    requires forall x: User, y: bool :: f(x.(isActive := y)) == f(x)
    ensures First(a, f).Some? == First(b, f).Some?
    ensures First(a, f).Some? ==> First(a, f).value == First(b, f).value.(isActive := First(a, f).value.isActive)
  {
    var i, j := FirstIndex(a, f), FirstIndex(b, f);
    assert forall k :: 0 <= k < |a| ==> f(a[k]) == f(b[k]) by {
      forall k | 0 <= k < |a| ensures f(a[k]) == f(b[k]) {
        assert f(b[k].(isActive := a[k].isActive)) == f(b[k]);
      }
    }
    assert i == j;
  }

  // ================================================================ registration

  /** The user insert of the registration branch, with the role it asks for. */
  function Registration(body: RegisterBody, hash: string -> string, role: string): NewUser
    requires RegisterValid(body)
  {
    NewUser(body.email.value, hash(body.password.value), body.name.value, None, Some(role), None, Some(true))
  }

  /** The role the registration branch writes. */
  const RegisteredRole := "client"

  /** The role column is an enum without `client`, so the database refuses
      the registration insert whatever the request. */
  lemma ClientIsNotARole()
    ensures ParseRole(RegisteredRole).None?
    ensures forall r :: RoleName(r) != RegisteredRole
  {
  }

  /** `POST ?action=register` as written: 400 for a body the register schema
      refuses, 409 for an address already taken; otherwise the insert, with
      role `client`, is refused by the database and the handler answers 500.
      No request ever registers an account. */
  method Register(store: Store, body: RegisterBody, hash: string -> string, sign: Id -> string,
                  newId: Id, now: Time) returns (reply: Reply<Out>)
    modifies store`users
    ensures store.users == old(store.users)
    ensures reply.Status() in {400, 409, 500}
    ensures !RegisterValid(body) ==> reply == Error(400, InvalidInput)
    ensures RegisterValid(body) && UserByEmail(old(store.users), body.email.value).Some? ==>
      reply == Error(409, EmailTaken)
    ensures RegisterValid(body) && UserByEmail(old(store.users), body.email.value).None? ==>
      reply == ServerError()
  {
    if !RegisterValid(body) {
      return Error(400, InvalidInput);
    }
    if UserByEmail(store.users, body.email.value).Some? {
      return Error(409, EmailTaken);
    }
    var created := store.CreateUser(newId, Registration(body, hash, RegisteredRole), now);
    match created
    case DbError =>
      reply := ServerError();
    case DbOk(u) =>
      reply := Json(Created, Session(Public(u), sign(u.id)));
  }

  /** The role a self-registered account is meant to hold: it owns what it
      then sets up. */
  const IntendedRole := "owner"

  /** Registration as intended: the same checks, then an active owner account
      without an organisation, answered with 201, its public view and a
      token. The insert fails (500) only when the fresh id is taken. */
  method RegisterCorrected(store: Store, body: RegisterBody, hash: string -> string, sign: Id -> string,
                           newId: Id, now: Time) returns (reply: Reply<Out>)
    modifies store`users
    ensures reply.Status() in {201, 400, 409, 500}
    ensures reply.Status() != 201 ==> store.users == old(store.users)
    ensures !RegisterValid(body) ==> reply == Error(400, InvalidInput)
    ensures RegisterValid(body) && UserByEmail(old(store.users), body.email.value).Some? ==>
      reply == Error(409, EmailTaken)
    ensures reply.Status() == 201 <==>
      RegisterValid(body) && UserByEmail(old(store.users), body.email.value).None?
      && forall x :: x in old(store.users) ==> x.id != newId
    ensures reply.Status() == 201 ==>
      var u := UserRow(newId, Registration(body, hash, IntendedRole), Some(Owner), now);
      store.users == old(store.users) + [u]
      && reply == Json(201, Session(Public(u), sign(newId)))
      && u.role == Owner && u.isActive && !u.isSuperAdmin && u.organizationId == None
      && u.passwordHash == hash(body.password.value)
  {
    if !RegisterValid(body) {
      return Error(400, InvalidInput);
    }
    if UserByEmail(store.users, body.email.value).Some? {
      return Error(409, EmailTaken);
    }
    var created := store.CreateUser(newId, Registration(body, hash, IntendedRole), now);
    if created.DbError? {
      return ServerError();
    }
    reply := Json(Created, Session(Public(created.value), sign(created.value.id)));
  }

  /** Right after an account is added under an unused address, logging in
      with its password (as the hash check accepts it) yields that account. */
  lemma {:induction false} LoginAfterRegistration(users: seq<User>, u: User, password: string,
                                                  check: (string, string) -> bool, sign: Id -> string)
    requires forall x :: x in users ==> x.email != u.email
    requires check(password, u.passwordHash)
    requires LoginValid(LoginBody(Some(u.email), Some(password)))
    ensures Login(users + [u], LoginBody(Some(u.email), Some(password)), check, sign)
         == Json(200, Session(Public(u), sign(u.id)))
  {
    var found := UserByEmail(users + [u], u.email);
    assert u in users + [u];
    assert found.value == u by {
      assert found.value in users + [u] && found.value.email == u.email;
      assert found.value !in users;
    }
  }

  /** Once an address is registered, registering it again is a conflict. */
  lemma RegisterTwiceConflicts(users: seq<User>, u: User)
    ensures UserByEmail(users + [u], u.email).Some?
  {
    assert u in users + [u];
  }

  // ================================================================ me

  /** `GET ?action=me`: 401 unless the header carries a token that verifies
      to a stored user; otherwise that user's public view. */
  function WhoAmI(header: Option<string>, verify: string -> Option<Id>, users: seq<User>): (r: Reply<Out>)
    ensures r.Status() in {200, 401}
    ensures r.Status() == 401 <==> AuthUser(header, verify, users).None?
    ensures r.Status() == 401 ==> r == Error(401, Unauthorized)
    ensures r.Status() == 200 ==>
      exists u :: u in users && verify(BearerToken(header).value) == Some(u.id) && r == Json(200, Me(Public(u)))
  {
    match AuthUser(header, verify, users)
    case None => Error(401, Unauthorized)
    case Some(u) => Json(200, Me(Public(u)))
  }

  /** The token a login hands out, sent back with the prefix, identifies the
      account that logged in (given that verification undoes signing and ids
      are unique). */
  lemma LoginThenMe(users: seq<User>, body: LoginBody, check: (string, string) -> bool,
                    sign: Id -> string, verify: string -> Option<Id>)
    requires DistinctKeys(users, UserId)
    requires forall id :: verify(sign(id)) == Some(id)
    requires Login(users, body, check, sign).Status() == 200
    ensures var s := Login(users, body, check, sign).value;
      WhoAmI(Some(BearerPrefix + s.token), verify, users) == Json(200, Me(s.user))
  {
    var u := UserByEmail(users, body.email.value).value;
    AuthUserOfToken(sign(u.id), verify, users, u);
  }

  // ================================================================ the handler

  datatype Route = LoginRoute | RegisterRoute | MeRoute | Unsupported

  /** The `action` query parameter selects the branch, together with the method. */
  function RouteOf(m: Method, action: Option<string>): (r: Route)
    ensures r == LoginRoute <==> m == Post && action == Some("login")
    ensures r == RegisterRoute <==> m == Post && action == Some("register")
    ensures r == MeRoute <==> m == Get && action == Some("me")
  {
    if m == Post && action == Some("login") then LoginRoute
    else if m == Post && action == Some("register") then RegisterRoute
    else if m == Get && action == Some("me") then MeRoute
    else Unsupported
  }

  /** The whole endpoint as written: registration goes through `Register`,
      so it never writes; no branch writes. */
  method Handle(store: Store, m: Method, action: Option<string>, header: Option<string>,
                login: LoginBody, register: RegisterBody,
                hash: string -> string, check: (string, string) -> bool, sign: Id -> string,
                verify: string -> Option<Id>, newId: Id, now: Time) returns (reply: Reply<Out>)
    modifies store`users
    ensures store.users == old(store.users)
    ensures RouteOf(m, action) == LoginRoute ==> reply == Login(store.users, login, check, sign)
    ensures RouteOf(m, action) == MeRoute ==> reply == WhoAmI(header, verify, store.users)
    ensures RouteOf(m, action) == RegisterRoute ==>
      reply.Status() in {400, 409, 500}
      && (!RegisterValid(register) ==> reply == Error(400, InvalidInput))
      && (RegisterValid(register) && UserByEmail(store.users, register.email.value).Some? ==>
            reply == Error(409, EmailTaken))
      && (RegisterValid(register) && UserByEmail(store.users, register.email.value).None? ==>
            reply == ServerError())
    ensures RouteOf(m, action) == Unsupported ==> reply == Error(405, MethodNotAllowed)
  {
    match RouteOf(m, action)
    case LoginRoute =>
      reply := Login(store.users, login, check, sign);
    case RegisterRoute =>
      reply := Register(store, register, hash, sign, newId, now);
    case MeRoute =>
      reply := WhoAmI(header, verify, store.users);
    case Unsupported =>
      reply := NotAllowed();
  }

  /** The whole endpoint with registration as intended (`RegisterCorrected`):
      only registration writes, and a successful one appends an owner. */
  method HandleCorrected(store: Store, m: Method, action: Option<string>, header: Option<string>,
                         login: LoginBody, register: RegisterBody,
                         hash: string -> string, check: (string, string) -> bool, sign: Id -> string,
                         verify: string -> Option<Id>, newId: Id, now: Time) returns (reply: Reply<Out>)
    modifies store`users
    ensures RouteOf(m, action) != RegisterRoute ==> store.users == old(store.users)
    ensures RouteOf(m, action) == LoginRoute ==> reply == Login(store.users, login, check, sign)
    ensures RouteOf(m, action) == MeRoute ==> reply == WhoAmI(header, verify, store.users)
    ensures RouteOf(m, action) == RegisterRoute ==>
      reply.Status() in {201, 400, 409, 500}
      && (reply.Status() == 201 <==>
            RegisterValid(register) && UserByEmail(old(store.users), register.email.value).None?
            && forall x :: x in old(store.users) ==> x.id != newId)
      && (reply.Status() == 201 ==>
            var u := UserRow(newId, Registration(register, hash, IntendedRole), Some(Owner), now);
            store.users == old(store.users) + [u] && reply == Json(201, Session(Public(u), sign(newId))))
      && (reply.Status() != 201 ==> store.users == old(store.users))
    ensures RouteOf(m, action) == Unsupported ==> reply == Error(405, MethodNotAllowed)
  {
    match RouteOf(m, action)
    case LoginRoute =>
      reply := Login(store.users, login, check, sign);
    case RegisterRoute =>
      reply := RegisterCorrected(store, register, hash, sign, newId, now);
    case MeRoute =>
      reply := WhoAmI(header, verify, store.users);
    case Unsupported =>
      reply := NotAllowed();
  }

}
