/** Request identity: the `Authorization: Bearer <token>` header, the admin
    e-mail allowlist read from the environment, and the admin gate. Token
    signing and verification are cryptographic and appear only as the
    function `verify`, which yields the user id a token carries or nothing
    when the token is rejected for any reason. */
module AuthLib {

  import opened Seqs
  import opened Text
  import opened Schema
  import opened Storage

  // ================================================================ allowlist

  /** One allowlist entry as it is stored: trimmed, then lower-cased. */
  function NormalizeEmail(e: string): string
  {
    Lower(Trim(e))
  }

  predicate NonEmpty(s: string)
  {
    s != ""
  }

  /** The normalised, non-empty entries of a list of pieces, in order. */
  function NormalizedEntries(pieces: seq<string>): (allow: seq<string>)
    ensures forall e :: e in allow <==> e != "" && exists piece :: piece in pieces && NormalizeEmail(piece) == e
  {
    if pieces == [] then []
    else
      var e := NormalizeEmail(pieces[0]);
      var rest := NormalizedEntries(pieces[1..]);
      assert forall piece :: piece in pieces <==> piece == pieces[0] || piece in pieces[1..];
      if e != "" then [e] + rest else rest
  }

  /** `ADMIN_EMAILS`: the comma-separated environment value (absent counts as
      empty), each piece trimmed and lower-cased, empty pieces dropped. */
  function AdminEmails(env: Option<string>): (allow: seq<string>)
    ensures forall e :: e in allow <==>
      e != "" && exists piece :: piece in Split(env.GetOr(""), ',') && NormalizeEmail(piece) == e
  {
    NormalizedEntries(Split(env.GetOr(""), ','))
  }

  /** Lower-casing never creates or removes white space. */
  lemma LowerKeepsSpaces(c: char)
    ensures IsSpace(LowerChar(c)) <==> IsSpace(c)
  {
  }

  /** Every allowlist entry is non-empty, lower-case and has no white space
      at either end, so comparing it with a lower-cased address is exact. */
  lemma {:induction false} AdminEmailsNormalized(env: Option<string>)
    ensures forall e :: e in AdminEmails(env) ==> e != "" && Lower(e) == e && Trim(e) == e
  {
    forall e | e in AdminEmails(env) ensures e != "" && Lower(e) == e && Trim(e) == e {
      var piece :| piece in Split(env.GetOr(""), ',') && NormalizeEmail(piece) == e;
      var t := Trim(piece);
      LowerIdempotent(t);
      LowerKeepsSpaces(t[0]);
      LowerKeepsSpaces(t[|t| - 1]);
    }
  }

  /** `isAdminEmail(email)`: the address, lower-cased, is on the allowlist
      `allow` (the module constant `ADMIN_EMAILS`, that is `AdminEmails(env)`). */
  function IsAdminEmail(allow: seq<string>, email: string): bool
  {
    Lower(email) in allow
  }

  /** The allowlist test ignores the case of the address. */
  lemma {:induction false} AdminEmailCaseInsensitive(allow: seq<string>, email: string)
    ensures IsAdminEmail(allow, Lower(email)) == IsAdminEmail(allow, email)
  {
    LowerIdempotent(email);
  }

  // ================================================================ bearer header

  const BearerPrefix := "Bearer "

  /** The token of an `Authorization` header: what follows the exact,
      case-sensitive prefix `Bearer ` (seven characters). */
  function BearerToken(header: Option<string>): (token: Option<string>)
    ensures token.Some? <==> header.Some? && StartsWith(header.value, BearerPrefix)
    ensures token.Some? ==> header.value == BearerPrefix + token.value
  {
    if header.Some? && StartsWith(header.value, BearerPrefix) then Some(header.value[7..]) else None
  }

  /** The header a client builds from a token gives that token back. */
  lemma BearerRoundTrip(token: string)
    ensures BearerToken(Some(BearerPrefix + token)) == Some(token)
  {
    assert (BearerPrefix + token)[..7] == BearerPrefix;
    assert (BearerPrefix + token)[7..] == token;
  }

  /** `getAuthUser(req)`: nothing when the header lacks the prefix, when the
      token is rejected or when no user has the id it carries; otherwise that
      user (whether or not the account is active). */
  function AuthUser(header: Option<string>, verify: string -> Option<Id>, users: seq<User>): (r: Option<User>)
    ensures r.Some? ==> r.value in users && BearerToken(header).Some?
                        && verify(BearerToken(header).value) == Some(r.value.id)
    ensures r.None? <==> BearerToken(header).None? || verify(BearerToken(header).value).None?
                         || forall u :: u in users ==> u.id != verify(BearerToken(header).value).value
  {
    match BearerToken(header)
    case None => None
    case Some(token) =>
      match verify(token)
      case None => None
      case Some(userId) => UserById(users, userId)
  }

  /** A token that verifies to the id of a stored user, sent with the prefix,
      identifies that user. */
  lemma {:induction false} AuthUserOfToken(token: string, verify: string -> Option<Id>, users: seq<User>, u: User)
    requires u in users && verify(token) == Some(u.id)
    requires DistinctKeys(users, UserId)
    ensures AuthUser(Some(BearerPrefix + token), verify, users) == Some(u)
  {
    BearerRoundTrip(token);
    var r := AuthUser(Some(BearerPrefix + token), verify, users);
    var i :| 0 <= i < |users| && users[i] == u;
    var j :| 0 <= j < |users| && users[j] == r.value;
    assert UserId(users[i]) == UserId(users[j]);
  }

  // ================================================================ admin gate

  /** `requireAdmin(req)`: the caller, when authenticated and either holding
      the `admin` role or allowlisted by e-mail. */
  function RequireAdmin(caller: Option<User>, allow: seq<string>): (r: Option<User>)
    ensures r.Some? <==> caller.Some? && (caller.value.role == Admin || Lower(caller.value.email) in allow)
    ensures r.Some? ==> r == caller
  {
    if caller.Some? && (caller.value.role == Admin || IsAdminEmail(allow, caller.value.email)) then caller else None
  }

  /** Neither the owner role nor the super-admin flag opens the gate by
      itself, and a deactivated admin still passes it. */
  lemma AdminGateIgnoresOwnerAndFlags(u: User, allow: seq<string>)
    ensures u.role != Admin && !IsAdminEmail(allow, u.email) ==> RequireAdmin(Some(u), allow) == None
    ensures RequireAdmin(Some(u), allow).Some? == RequireAdmin(Some(u.(isSuperAdmin := true)), allow).Some?
    ensures u.role == Admin ==> RequireAdmin(Some(u.(isActive := false)), allow).Some?
  {
  }
}
