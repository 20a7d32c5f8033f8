/** The back-office endpoint: platform statistics, organisations (with their
    trial billing row), users, establishments, billing, reply templates and
    the activity log, all behind the admin gate. Password hashing, the random
    slug suffix, fresh ids and the clock are parameters. */
module Admin {

  import opened Seqs
  import opened Text
  import opened Schema
  import opened Storage
  import opened Http
  import opened AuthLib

  // ================================================================ slugs

  predicate IsSlugChar(c: char)
  {
    'a' <= c <= 'z' || '0' <= c <= '9'
  }

  /** The base letter that canonical decomposition leaves of a lower-case
      Latin-1 letter once its combining mark is removed. */
  function StripDiacritic(c: char): (r: char)
    ensures !('\U{00E0}' <= c <= '\U{00FF}') ==> r == c
    ensures r != c ==> 'a' <= r <= 'z'
  {
    if '\U{00E0}' <= c <= '\U{00E5}' then 'a'
    else if c == '\U{00E7}' then 'c'
    else if '\U{00E8}' <= c <= '\U{00EB}' then 'e'
    else if '\U{00EC}' <= c <= '\U{00EF}' then 'i'
    else if c == '\U{00F1}' then 'n'
    else if '\U{00F2}' <= c <= '\U{00F6}' then 'o'
    else if '\U{00F9}' <= c <= '\U{00FC}' then 'u'
    else if c == '\U{00FD}' || c == '\U{00FF}' then 'y'
    else c
  }

  predicate IsCombiningMark(c: char)
  {
    '\U{0300}' <= c <= '\U{036F}'
  }

  /** `normalize("NFD").replace(/[̀-ͯ]/g, "")`: accented letters
      lose their accent and stray combining marks are dropped. */
  function RemoveDiacritics(s: string): (r: string)
    ensures |r| == |s| - Count(s, IsCombiningMark)
    ensures forall i :: 0 <= i < |r| ==> !IsCombiningMark(r[i])
  {
    if s == [] then []
    else (if IsCombiningMark(s[0]) then [] else [StripDiacritic(s[0])]) + RemoveDiacritics(s[1..])
  }

  /** How many characters outside `[a-z0-9]` open `s`. */
  function NonSlugPrefix(s: string): (k: nat)
    ensures k <= |s| && (k < |s| ==> IsSlugChar(s[k]))
    ensures forall i :: 0 <= i < k ==> !IsSlugChar(s[i])
  {
    if s != [] && !IsSlugChar(s[0]) then
      var k := 1 + NonSlugPrefix(s[1..]);
      assert forall i :: 1 <= i < k ==> s[i] == s[1..][i - 1];
      k
    else 0
  }

  /** `s` without its leading characters outside `[a-z0-9]`. */
  function SkipNonSlug(s: string): (r: string)
    ensures |r| <= |s| && r == s[NonSlugPrefix(s)..]
    ensures r == [] || IsSlugChar(r[0])
  {
    s[NonSlugPrefix(s)..]
  }

  /** Only letters `a`-`z`, digits and hyphens, never two hyphens in a row. */
  ghost predicate SlugShaped(r: string)
  {
    (forall i :: 0 <= i < |r| ==> IsSlugChar(r[i]) || r[i] == '-')
    && (forall i :: 0 <= i < |r| - 1 ==> !(r[i] == '-' && r[i + 1] == '-'))
  }

  /** `replace(/[^a-z0-9]+/g, "-")`: every maximal run of other characters
      becomes one hyphen. */
  function CollapseRuns(s: string): (r: string)
    ensures SlugShaped(r)
    ensures s == [] <==> r == []
    ensures s != [] && IsSlugChar(s[0]) ==> r[0] == s[0]
    ensures s != [] && !IsSlugChar(s[0]) ==> r[0] == '-'
    decreases |s|
  {
    if s == [] then []
    else if IsSlugChar(s[0]) then [s[0]] + CollapseRuns(s[1..])
    else "-" + CollapseRuns(SkipNonSlug(s[1..]))
  }

  /** `replace(/^-|-$/g, "")`: one hyphen off each end. */
  function TrimHyphens(s: string): string
  {
    var t := if s != [] && s[0] == '-' then s[1..] else s;
    if t != [] && t[|t| - 1] == '-' then t[..|t| - 1] else t
  }

  /** The part of the slug derived from the name. */
  function SlugBase(name: string): (r: string)
    ensures SlugShaped(r)
    ensures r == [] || (r[0] != '-' && r[|r| - 1] != '-')
  {
    var c := CollapseRuns(RemoveDiacritics(Lower(name)));
    TrimHyphens(c)
  }

  /** `generateSlug(name)`: the name's slug, a hyphen, then the random suffix
      (`Math.random().toString(36).substring(2, 6)`), given here as `suffix`. */
  function GenerateSlug(name: string, suffix: string): (r: string)
    ensures |r| == |SlugBase(name)| + 1 + |suffix|
    ensures r[..|SlugBase(name)|] == SlugBase(name) && r[|r| - |suffix|..] == suffix
    ensures r[0] != '-' <==> SlugBase(name) != []
    ensures (forall i :: 0 <= i < |suffix| ==> IsSlugChar(suffix[i])) ==> SlugShaped(r)
  {
    var b := SlugBase(name);
    SlugShapedJoin(b, suffix);
    b + "-" + suffix
  }

  /** A slug base, a hyphen and a suffix of letters and digits make a
      slug-shaped string. */
  lemma SlugShapedJoin(b: string, t: string)
    requires SlugShaped(b) && (b == [] || b[|b| - 1] != '-')
    ensures |b + "-" + t| == |b| + 1 + |t| && (b + "-" + t)[|b|] == '-'
    ensures (forall i :: 0 <= i < |t| ==> IsSlugChar(t[i])) ==> SlugShaped(b + "-" + t)
  {
    var r := b + "-" + t;
    assert forall i :: 0 <= i < |b| ==> r[i] == b[i];
    assert forall i :: 0 <= i < |t| ==> r[|b| + 1 + i] == t[i];
  }

  /** Dropping a prefix of non-slug characters keeps the slug characters. */
  lemma {:induction false} SkipKeepsSlugChars(s: string)
    ensures Filter(SkipNonSlug(s), IsSlugChar) == Filter(s, IsSlugChar)
  {
    if s != [] && !IsSlugChar(s[0]) {
      SkipKeepsSlugChars(s[1..]);
    }
  }

  /** Collapsing runs keeps every letter and digit, in order. */
  lemma {:induction false} CollapseKeepsSlugChars(s: string)
    ensures Filter(CollapseRuns(s), IsSlugChar) == Filter(s, IsSlugChar)
    decreases |s|
  {
    if s != [] {
      var r := CollapseRuns(s);
      if IsSlugChar(s[0]) {
        CollapseKeepsSlugChars(s[1..]);
        assert r[1..] == CollapseRuns(s[1..]);
      } else {
        var rest := SkipNonSlug(s[1..]);
        CollapseKeepsSlugChars(rest);
        SkipKeepsSlugChars(s[1..]);
        assert r[1..] == CollapseRuns(rest);
      }
    }
  }

  /** Trimming the edge hyphens keeps every letter and digit. */
  lemma TrimHyphensKeepsSlugChars(c: string)
    ensures Filter(TrimHyphens(c), IsSlugChar) == Filter(c, IsSlugChar)
  {
    var t := if c != [] && c[0] == '-' then c[1..] else c;
    assert Filter(t, IsSlugChar) == Filter(c, IsSlugChar);
    if t != [] && t[|t| - 1] == '-' {
      var u := t[..|t| - 1];
      assert t == u + [t[|t| - 1]];
      FilterAppend(u, [t[|t| - 1]], IsSlugChar);
      assert Filter([t[|t| - 1]], IsSlugChar) == [];
    }
  }

  /** The slug keeps every letter and digit of the accent-free, lower-cased
      name, in order; only the separators between them change. */
  lemma SlugKeepsLettersAndDigits(name: string)
    ensures Filter(SlugBase(name), IsSlugChar) == Filter(RemoveDiacritics(Lower(name)), IsSlugChar)
  {
    CollapseKeepsSlugChars(RemoveDiacritics(Lower(name)));
    TrimHyphensKeepsSlugChars(CollapseRuns(RemoveDiacritics(Lower(name))));
  }

  /** A slug-shaped string is its own collapse. */
  lemma {:induction false} CollapseShaped(s: string)
    requires SlugShaped(s) && (s == [] || s[0] != '-' || |s| == 1 || IsSlugChar(s[1]))
    ensures CollapseRuns(s) == s
    decreases |s|
  {
    if s != [] {
      if IsSlugChar(s[0]) {
        CollapseShaped(s[1..]);
      } else {
        assert s[1..] == [] || IsSlugChar(s[1]);
        assert SkipNonSlug(s[1..]) == s[1..];
        if |s| > 1 {
          CollapseShaped(s[1..]);
        }
      }
    }
  }

  /** A slug base is a fixed point: the name-derived part of a slug gives
      itself back. */
  lemma {:induction false} SlugBaseIdempotent(name: string)
    ensures SlugBase(SlugBase(name)) == SlugBase(name)
  {
    var b := SlugBase(name);
    LowerAscii(b);
    RemoveDiacriticsAscii(b);
    CollapseShaped(b);
  }

  /** Lower-casing leaves letters, digits and hyphens alone. */
  lemma LowerAscii(s: string)
    requires forall i :: 0 <= i < |s| ==> IsSlugChar(s[i]) || s[i] == '-'
    ensures Lower(s) == s
  {
    forall i | 0 <= i < |s| ensures Lower(s)[i] == s[i] {
    }
  }

  /** Slug characters and hyphens are left alone by `RemoveDiacritics`. */
  lemma {:induction false} RemoveDiacriticsAscii(s: string)
    requires forall i :: 0 <= i < |s| ==> IsSlugChar(s[i]) || s[i] == '-'
    ensures RemoveDiacritics(s) == s
  {
    if s != [] {
      RemoveDiacriticsAscii(s[1..]);
    }
  }

  predicate IsBaseChar(c: char)
  {
    !IsCombiningMark(c)
  }

  /** `RemoveDiacritics` drops exactly the combining marks and maps every
      other character, in order, through `StripDiacritic`. */
  lemma {:induction false} RemoveDiacriticsPointwise(s: string)
    ensures RemoveDiacritics(s) == MapSeq(Filter(s, IsBaseChar), StripDiacritic)
  {
    if s != [] {
      RemoveDiacriticsPointwise(s[1..]);
    }
  }

  /** With a letter or digit in `u`, the leading separators of `u + v` are
      those of `u`. */
  lemma {:induction false} NonSlugPrefixAppend(u: string, v: string)
    requires NonSlugPrefix(u) < |u|
    ensures NonSlugPrefix(u + v) == NonSlugPrefix(u)
  {
    if !IsSlugChar(u[0]) {
      DropAppend(u, v, 1);
      NonSlugPrefixAppend(u[1..], v);
    }
  }

  lemma SkipNonSlugAppend(u: string, v: string)
    requires NonSlugPrefix(u) < |u|
    ensures SkipNonSlug(u + v) == SkipNonSlug(u) + v
  {
    NonSlugPrefixAppend(u, v);
    DropAppend(u, v, NonSlugPrefix(u));
  }

  /** A run made only of separators is skipped whole when a letter, a digit
      or the end follows it. */
  lemma {:induction false} SkipNonSlugRun(sep: string, b: string)
    requires forall i :: 0 <= i < |sep| ==> !IsSlugChar(sep[i])
    requires b == [] || IsSlugChar(b[0])
    ensures SkipNonSlug(sep + b) == b
  {
    if sep != [] {
      SkipNonSlugRun(sep[1..], b);
      DropAppend(sep, b, 1);
    }
  }

  /** Collapsing splits after a letter or digit: what follows it is
      collapsed on its own. */
  lemma {:induction false} CollapseAppend(a: string, t: string)
    requires a != [] && IsSlugChar(a[|a| - 1])
    ensures CollapseRuns(a + t) == CollapseRuns(a) + CollapseRuns(t)
    decreases |a|
  {
    DropAppend(a, t, 1);
    if IsSlugChar(a[0]) {
      if |a| > 1 {
        CollapseAppend(a[1..], t);
      }
    } else {
      SkipNonSlugAppend(a[1..], t);
      var w := SkipNonSlug(a[1..]);
      assert w[|w| - 1] == a[|a| - 1];
      CollapseAppend(w, t);
    }
  }

  /** A run of separators becomes exactly one hyphen. */
  lemma CollapseSeparator(sep: string, b: string)
    requires sep != [] && forall i :: 0 <= i < |sep| ==> !IsSlugChar(sep[i])
    requires b == [] || IsSlugChar(b[0])
    ensures CollapseRuns(sep + b) == "-" + CollapseRuns(b)
  {
    DropAppend(sep, b, 1);
    SkipNonSlugRun(sep[1..], b);
  }

  /** `replace(/[^a-z0-9]+/g, "-")` between two words: the run of
      separators between `a` and `b` becomes one hyphen and each side is
      collapsed on its own. */
  lemma CollapseBetween(a: string, sep: string, b: string)
    requires a != [] && IsSlugChar(a[|a| - 1])
    requires sep != [] && forall i :: 0 <= i < |sep| ==> !IsSlugChar(sep[i])
    requires b == [] || IsSlugChar(b[0])
    ensures CollapseRuns(a + sep + b) == CollapseRuns(a) + "-" + CollapseRuns(b)
  {
    assert a + sep + b == a + (sep + b);
    CollapseAppend(a, sep + b);
    CollapseSeparator(sep, b);
  }

  // ================================================================ request and reply shapes

  /** The fields of a request body the admin routes read (absent or not of
      the expected JSON type: `None`). */
  datatype AdminBody = AdminBody(
    name: Option<string>, maxUsers: Option<int>, maxEstablishments: Option<int>,
    email: Option<string>, password: Option<string>, role: Option<string>, organizationId: Option<string>,
    isActive: Option<bool>, isSuperAdmin: Option<bool>,
    description: Option<string>, promptTemplate: Option<string>, category: Option<string>)

  datatype AdminRequest = AdminRequest(
    m: Method, resource: Option<string>, id: Option<string>,
    organizationIdQuery: Option<string>, limitQuery: Option<string>, body: AdminBody)

  /** What the environment supplies: fresh ids, the slug suffix, the clock
      and the password hash function. */
  datatype Supply = Supply(
    organizationId: Id, billingId: Id, userId: Id, templateId: Id,
    slugSuffix: string, now: Time, hash: string -> string)

  /** A user as it leaves the server: every column but the password hash
      (`{ ...user, passwordHash: undefined }`). */
  datatype SafeUser = SafeUser(
    id: Id, email: string, name: string, avatar: Option<string>,
    organizationId: Option<Id>, role: OrgRole, isSuperAdmin: bool, isActive: bool,
    lastLoginAt: Option<Time>, createdAt: Time)

  function SafeUserCreatedAt(s: SafeUser): int { s.createdAt }

  function Strip(u: User): SafeUser
  {
    SafeUser(u.id, u.email, u.name, u.avatar, u.organizationId, u.role, u.isSuperAdmin, u.isActive,
             u.lastLoginAt, u.createdAt)
  }

  /** Putting the hash back on a stripped user. */
  function WithHash(s: SafeUser, passwordHash: string): User
  {
    User(s.id, s.email, passwordHash, s.name, s.avatar, s.organizationId, s.role, s.isSuperAdmin,
         s.isActive, s.lastLoginAt, s.createdAt)
  }

  /** Stripping loses the password hash and nothing else. */
  lemma StripLosesOnlyHash(u: User, v: User)
    ensures WithHash(Strip(u), u.passwordHash) == u
    ensures Strip(u) == Strip(v) <==> u == v.(passwordHash := u.passwordHash)
  {
  }

  datatype OrganizationSummary = OrganizationSummary(
    organization: Organization, usersCount: nat, establishmentsCount: nat, billing: Option<Billing>)

  datatype OrganizationDetail = OrganizationDetail(
    organization: Organization, users: seq<SafeUser>, establishments: seq<Establishment>, billing: Option<Billing>)

  datatype EstablishmentListing = EstablishmentListing(establishment: Establishment, organizationName: string)

  datatype Out =
    | StatsOut(stats: GlobalStats)
    | Organizations(summaries: seq<OrganizationSummary>)
    | OrganizationOut(organization: Organization)
    | Detail(detail: OrganizationDetail)
    | Users(users: seq<SafeUser>)
    | UserOut(user: SafeUser)
    | UpdatedUser(updated: Option<SafeUser>)
    | Establishments(listings: seq<EstablishmentListing>)
    | BillingOut(bill: Option<Billing>)
    | TemplateOut(template: Option<AiTemplate>)
    | Logs(logs: seq<ActivityLog>)
    | Unmodelled

  // ================================================================ routes

  datatype Route =
    | StatsRoute
    | ListOrganizations | CreateOrganizationRoute | ReadOrganization | UpdateOrganization | DeleteOrganization
    | ListUsers | CreateUserRoute | ReadUser | UpdateUserRoute | DeleteUser
    | ListEstablishments
    | ReadBilling | UpdateBilling
    | ListTemplates | CreateTemplateRoute | ReadTemplate | UpdateTemplate | DeleteTemplate
    | ActivityLogs
    | Unsupported

  predicate IsWrite(m: Method) { m == Patch || m == Put }

  /** The handler's dispatch, in source order: the first matching test wins.
      `id` counts as present when it is a non-empty string. */
  function RouteOf(m: Method, resource: Option<string>, id: Option<string>): (r: Route)
    ensures r == StatsRoute <==> m == Get && resource == Some("stats")
    ensures r == CreateOrganizationRoute <==> m == Post && resource == Some("organizations")
    ensures r == CreateUserRoute <==> m == Post && resource == Some("users")
    ensures r == CreateTemplateRoute <==> m == Post && resource == Some("ai-templates")
    ensures r == ActivityLogs <==> m == Get && resource == Some("activity-logs")
    ensures r == ReadOrganization <==> m == Get && resource == Some("organizations") && Truthy(id)
    ensures r == UpdateUserRoute <==> IsWrite(m) && resource == Some("users") && Truthy(id)
    ensures r == Unsupported <==>
      resource !in {Some("stats"), Some("organizations"), Some("users"), Some("establishments"),
                    Some("billing"), Some("ai-templates"), Some("activity-logs")}
      || m == OtherMethod
      || (resource in {Some("stats"), Some("establishments"), Some("activity-logs")} && m != Get)
      || (resource == Some("billing") && (m == Post || m == Delete || !Truthy(id)))
      || (resource in {Some("organizations"), Some("users"), Some("ai-templates")} && m != Get && m != Post && !Truthy(id))
  {
    var hasId := Truthy(id);
    if m == Get && resource == Some("stats") then StatsRoute
    else if m == Get && resource == Some("organizations") && !hasId then ListOrganizations
    else if m == Post && resource == Some("organizations") then CreateOrganizationRoute
    else if m == Get && resource == Some("organizations") && hasId then ReadOrganization
    else if IsWrite(m) && resource == Some("organizations") && hasId then UpdateOrganization
    else if m == Delete && resource == Some("organizations") && hasId then DeleteOrganization
    else if m == Get && resource == Some("users") && !hasId then ListUsers
    else if m == Post && resource == Some("users") then CreateUserRoute
    else if m == Get && resource == Some("users") && hasId then ReadUser
    else if IsWrite(m) && resource == Some("users") && hasId then UpdateUserRoute
    else if m == Delete && resource == Some("users") && hasId then DeleteUser
    else if m == Get && resource == Some("establishments") then ListEstablishments
    else if m == Get && resource == Some("billing") && hasId then ReadBilling
    else if IsWrite(m) && resource == Some("billing") && hasId then UpdateBilling
    else if m == Get && resource == Some("ai-templates") && !hasId then ListTemplates
    else if m == Post && resource == Some("ai-templates") then CreateTemplateRoute
    else if m == Get && resource == Some("ai-templates") && hasId then ReadTemplate
    else if IsWrite(m) && resource == Some("ai-templates") && hasId then UpdateTemplate
    else if m == Delete && resource == Some("ai-templates") && hasId then DeleteTemplate
    else if m == Get && resource == Some("activity-logs") then ActivityLogs
    else Unsupported
  }

  // ================================================================ reading branches

  /** One row of the organisation list. */
  function Summary(users: seq<User>, ests: seq<Establishment>, billing: seq<Billing>, o: Organization)
    : (r: OrganizationSummary)
    ensures r.organization == o
    ensures r.usersCount == Count(users, UserInOrganization(o.id))
    ensures r.establishmentsCount == Count(ests, EstablishmentInOrganization(o.id))
    ensures r.billing == BillingOf(billing, o.id)
  {
    OrganizationSummary(o, |UsersOf(users, o.id)|, |EstablishmentsOf(ests, o.id)|, BillingOf(billing, o.id))
  }

  function Summaries(os: seq<Organization>, users: seq<User>, ests: seq<Establishment>, billing: seq<Billing>)
    : (r: seq<OrganizationSummary>)
    ensures |r| == |os|
    ensures forall i :: 0 <= i < |r| ==> r[i] == Summary(users, ests, billing, os[i])
  {
    if os == [] then [] else [Summary(users, ests, billing, os[0])] + Summaries(os[1..], users, ests, billing)
  }

  /** The organisation list: every organisation once, newest first, with its
      number of users and establishments and its billing row. */
  function OrganizationSummaries(orgs: seq<Organization>, users: seq<User>, ests: seq<Establishment>,
                                 billing: seq<Billing>): (r: seq<OrganizationSummary>)
    ensures |r| == |orgs|
    ensures forall i :: 0 <= i < |r| ==> r[i].organization == AllOrganizations(orgs)[i]
    ensures forall i :: 0 <= i < |r| ==>
      r[i].usersCount == Count(users, UserInOrganization(r[i].organization.id))
      && r[i].establishmentsCount == Count(ests, EstablishmentInOrganization(r[i].organization.id))
      && r[i].billing == BillingOf(billing, r[i].organization.id)
  {
    var all := AllOrganizations(orgs);
    assert |all| == |multiset(all)| == |multiset(orgs)| == |orgs|;
    Summaries(all, users, ests, billing)
  }

  /** The organisations listed are exactly the stored ones, each as often as
      it is stored, newest first. */
  lemma OrganizationSummariesArePermutation(orgs: seq<Organization>, users: seq<User>, ests: seq<Establishment>,
                                            billing: seq<Billing>)
    ensures var listed := MapSeq(OrganizationSummaries(orgs, users, ests, billing), OrganizationOfSummary);
      multiset(listed) == multiset(orgs) && SortedDesc(listed, OrganizationCreatedAt)
  {
    var listed := MapSeq(OrganizationSummaries(orgs, users, ests, billing), OrganizationOfSummary);
    assert listed == AllOrganizations(orgs);
  }

  function OrganizationOfSummary(s: OrganizationSummary): Organization
  {
    s.organization
  }

  /** The users as they leave the server, in the same order. */
  function StripAll(us: seq<User>): (r: seq<SafeUser>)
    ensures |r| == |us|
    ensures forall i :: 0 <= i < |us| ==> r[i] == Strip(us[i])
    ensures forall s :: s in r <==> exists u :: u in us && s == Strip(u)
    ensures SortedDesc(us, UserCreatedAt) ==> SortedDesc(r, SafeUserCreatedAt)
  {
    if us == [] then []
    else
      var rest := StripAll(us[1..]);
      assert forall u :: u in us <==> u == us[0] || u in us[1..];
      [Strip(us[0])] + rest
  }

  /** The organisation detail: 404 when missing; otherwise the row with its
      users (without their password hashes), establishments and billing. */
  function OrganizationDetailOf(orgs: seq<Organization>, users: seq<User>, ests: seq<Establishment>,
                                billing: seq<Billing>, id: Id): (r: Reply<Out>)
    ensures r.Status() == 404 <==> forall o :: o in orgs ==> o.id != id
    ensures r.Status() in {200, 404}
    ensures r.Status() == 200 ==>
      r.Json? && r.value.Detail? && r.value.detail.organization in orgs && r.value.detail.organization.id == id
      && r.value.detail.billing == BillingOf(billing, id)
      && (forall e :: e in r.value.detail.establishments <==> e in ests && e.organizationId == id)
      && (forall s :: s in r.value.detail.users <==> exists u :: u in users && u.organizationId == Some(id) && s == Strip(u))
      && SortedDesc(r.value.detail.users, SafeUserCreatedAt)
  {
    match OrganizationById(orgs, id)
    case None => Error(404, "Not found")
    case Some(o) =>
      Json(200, Detail(OrganizationDetail(o, StripAll(UsersOf(users, id)), EstablishmentsOf(ests, id), BillingOf(billing, id))))
  }

  /** The user list: an organisation's users when `organizationId` is a
      non-empty string, every user otherwise; newest first, hashes removed. */
  function UserList(users: seq<User>, organizationId: Option<string>): (r: seq<SafeUser>)
    ensures forall s :: s in r ==> exists u :: u in users && s == Strip(u)
    ensures Truthy(organizationId) ==>
      forall u :: u in users ==> (Strip(u) in r <== u.organizationId == organizationId)
    ensures Truthy(organizationId) ==> forall s :: s in r ==> s.organizationId == organizationId
    ensures !Truthy(organizationId) ==> |r| == |users| && forall u :: u in users ==> Strip(u) in r
    ensures SortedDesc(r, SafeUserCreatedAt)
  {
    if Truthy(organizationId) then StripAll(UsersOf(users, organizationId.value))
    else
      var all := AllUsers(users);
      assert |all| == |multiset(all)| == |multiset(users)| == |users|;
      assert forall u :: u in all <==> u in users by {
        forall u ensures u in all <==> u in users {
          assert u in all <==> u in multiset(all);
        }
      }
      StripAll(all)
  }

  /** `org?.name || "Unknown"`. */
  function OrganizationName(orgs: seq<Organization>, id: Id): (name: string)
    ensures name == "Unknown" <==>
      OrganizationById(orgs, id).None? || OrganizationById(orgs, id).value.name in {"", "Unknown"}
    ensures OrganizationById(orgs, id).Some? && OrganizationById(orgs, id).value.name != "" ==>
      name == OrganizationById(orgs, id).value.name
  {
    match OrganizationById(orgs, id)
    case Some(o) => if o.name != "" then o.name else "Unknown"
    case None => "Unknown"
  }

  function ListingEstablishment(l: EstablishmentListing): Establishment
  {
    l.establishment
  }

  /** The establishments of a list, in its order. */
  function ListedEstablishments(r: seq<EstablishmentListing>): seq<Establishment>
  {
    MapSeq(r, ListingEstablishment)
  }

  /** The establishment list: an organisation's establishments when
      `organizationId` is a non-empty string, all of them otherwise, newest
      first, each with the name of its organisation. */
  function EstablishmentListings(orgs: seq<Organization>, ests: seq<Establishment>, organizationId: Option<string>)
    : (r: seq<EstablishmentListing>)
    ensures forall i :: 0 <= i < |r| ==>
      r[i].establishment in ests && r[i].organizationName == OrganizationName(orgs, r[i].establishment.organizationId)
    ensures Truthy(organizationId) ==> forall i :: 0 <= i < |r| ==> r[i].establishment.organizationId == organizationId.value
    ensures Truthy(organizationId) ==>
      (forall e :: e in ests && e.organizationId == organizationId.value ==> e in ListedEstablishments(r))
      && |r| == Count(ests, EstablishmentInOrganization(organizationId.value))
    ensures !Truthy(organizationId) ==>
      multiset(ListedEstablishments(r)) == multiset(ests)
      && SortedDesc(ListedEstablishments(r), EstablishmentCreatedAt)
    ensures !Truthy(organizationId) ==> |r| == |ests|
  {
    var chosen := if Truthy(organizationId) then EstablishmentsOf(ests, organizationId.value) else AllEstablishments(ests);
    assert !Truthy(organizationId) ==> |chosen| == |multiset(chosen)| == |multiset(ests)| == |ests|;
    assert forall e :: e in chosen ==> e in ests by {
      forall e | e in chosen ensures e in ests {
        if !Truthy(organizationId) {
          assert e in multiset(chosen);
        }
      }
    }
    var r := MapSeq(chosen, (e: Establishment) => EstablishmentListing(e, OrganizationName(orgs, e.organizationId)));
    assert ListedEstablishments(r) == chosen;
    r
  }

  /** `parseInt(limit) || 100`: the parsed number unless it is `NaN` or 0. */
  function LogLimit(limit: Option<string>): (n: int)
    ensures n != 0
    ensures limit.None? ==> n == 100
  {
    if limit.None? then 100
    else match ParseInt(limit.value)
      case Some(v) => if v != 0 then v else 100
      case None => 100
  }

  /** A decimal limit is used as written, except 0, which means the default. */
  lemma LogLimitDecimal(n: int)
    ensures LogLimit(Some(DecimalText(n))) == if n == 0 then 100 else n
  {
    ParseIntDecimal(n);
  }

  /** The activity-log branch: the newest `LogLimit` entries; a negative
      limit is refused by the database (500). */
  function ActivityLogPage(logs: seq<ActivityLog>, limit: Option<string>): (r: Reply<Out>)
    ensures r.Status() == 500 <==> LogLimit(limit) < 0
    ensures r.Status() in {200, 500}
    ensures r.Status() == 200 ==>
      r.Json? && r.value.Logs? && r.value.logs == RecentActivityLogs(logs, LogLimit(limit))
      && |r.value.logs| <= LogLimit(limit) && SortedDesc(r.value.logs, LogCreatedAt)
  {
    var n := LogLimit(limit);
    if n < 0 then ServerError() else Json(200, Logs(RecentActivityLogs(logs, n)))
  }

  // ================================================================ writing branches

  /** `x || d` on a number: 0 (and an absent value) falls back to `d`. */
  function NumberOr(x: Option<int>, d: int): int
  {
    if x.Some? && x.value != 0 then x.value else d
  }

  /** The organisation insert of the create branch. */
  function NewOrganizationOf(body: AdminBody, slugSuffix: string): NewOrganization
    requires Truthy(body.name)
  {
    NewOrganization(body.name.value, GenerateSlug(body.name.value, slugSuffix),
                    Some(NumberOr(body.maxUsers, 5)), Some(NumberOr(body.maxEstablishments, 10)), Some(true))
  }

  const TrialDays := 14

  /** The billing insert of the create branch: a trial ending 14 days on. */
  function TrialBilling(organizationId: Id, now: Time): NewBilling
  {
    NewBilling(organizationId, Some(Trial), Some("trial"), Some(now + TrialDays * DayMs))
  }

  /** The create branch writes an active organisation with its limits
      defaulted and a trial billing row ending 14 days after its creation. */
  lemma CreatedOrganizationDefaults(body: AdminBody, s: Supply)
    requires Truthy(body.name)
    ensures var o := OrganizationRow(s.organizationId, NewOrganizationOf(body, s.slugSuffix), s.now);
      o.isActive && o.name == body.name.value
      && o.maxUsers == Some(if body.maxUsers.Some? && body.maxUsers.value != 0 then body.maxUsers.value else 5)
      && o.maxEstablishments == Some(if body.maxEstablishments.Some? && body.maxEstablishments.value != 0
                                     then body.maxEstablishments.value else 10)
      && SlugShaped(o.slug[..|SlugBase(body.name.value)|])
    ensures var b := BillingRow(s.billingId, TrialBilling(s.organizationId, s.now), s.now);
      b.organizationId == s.organizationId && b.status == Trial && b.planName == Some("trial")
      && b.trialEndsAt == Some(b.createdAt + 14 * 86_400_000)
  {
    var slug := GenerateSlug(body.name.value, s.slugSuffix);
    assert slug[..|SlugBase(body.name.value)|] == SlugBase(body.name.value);
  }

  /** The organisation create branch: 400 without a name; then the
      organisation is inserted, then its trial billing row. A failed
      organisation insert is a 500 with nothing written; a failed billing
      insert is a 500 that leaves the organisation in place. */
  method CreateOrganization(store: Store, body: AdminBody, s: Supply) returns (reply: Reply<Out>)
    modifies store`organizations, store`billing
    ensures !Truthy(body.name) ==>
      reply == Error(400, "Name required")
      && store.organizations == old(store.organizations) && store.billing == old(store.billing)
    ensures reply.Status() in {201, 400, 500}
    ensures reply.Status() == 201 <==>
      Truthy(body.name)
      && (forall x :: x in old(store.organizations) ==>
            x.id != s.organizationId && x.slug != GenerateSlug(body.name.value, s.slugSuffix))
      && (forall x :: x in old(store.billing) ==> x.id != s.billingId && x.organizationId != s.organizationId)
    ensures reply.Status() == 201 ==>
      var o := OrganizationRow(s.organizationId, NewOrganizationOf(body, s.slugSuffix), s.now);
      reply == Json(201, OrganizationOut(o))
      && store.organizations == old(store.organizations) + [o]
      && store.billing == old(store.billing) + [BillingRow(s.billingId, TrialBilling(s.organizationId, s.now), s.now)]
    ensures reply.Status() == 500 ==>
      store.billing == old(store.billing)
      && (store.organizations == old(store.organizations)
          || store.organizations == old(store.organizations)
             + [OrganizationRow(s.organizationId, NewOrganizationOf(body, s.slugSuffix), s.now)])
    ensures CreateOrganizationOutcome(old(store.organizations), store.organizations, old(store.billing), store.billing,
                                      body, s, reply)
  {
    if !Truthy(body.name) {
      return Error(400, "Name required");
    }
    var created := store.CreateOrganization(s.organizationId, NewOrganizationOf(body, s.slugSuffix), s.now);
    if created.DbError? {
      return ServerError();
    }
    var bill := store.CreateBilling(s.billingId, TrialBilling(created.value.id, s.now), s.now);
    if bill.DbError? {
      return ServerError();
    }
    reply := Json(201, OrganizationOut(created.value));
  }

  /** `role || "viewer"`. */
  function RoleOrViewer(role: Option<string>): string
  {
    if Truthy(role) then role.value else "viewer"
  }

  /** The user insert of the create branch. */
  function NewUserOf(body: AdminBody, hash: string -> string): NewUser
    requires Truthy(body.password)
  {
    NewUser(body.email.GetOr(""), hash(body.password.value), body.name.GetOr(""), body.organizationId,
            Some(RoleOrViewer(body.role)), Some(false), Some(true))
  }

  predicate UserFieldsGiven(body: AdminBody)
  {
    Truthy(body.email) && Truthy(body.password) && Truthy(body.name) && Truthy(body.organizationId)
  }

  /** The user create branch: 400 unless e-mail, password, name and
      organisation are all non-empty; the user is inserted active, not a
      super-admin, with the hashed password and the role given (viewer when
      none is); the database refuses a role outside the enum, a taken e-mail
      or an unknown organisation (500). The answer carries no hash. */
  method CreateUser(store: Store, body: AdminBody, s: Supply) returns (reply: Reply<Out>)
    modifies store`users
    ensures !UserFieldsGiven(body) ==>
      reply == Error(400, "Email, password, name and organizationId required") && store.users == old(store.users)
    ensures reply.Status() in {201, 400, 500}
    ensures reply.Status() != 201 ==> store.users == old(store.users)
    ensures reply.Status() == 201 <==>
      UserFieldsGiven(body)
      && (forall x :: x in old(store.users) ==> x.id != s.userId && x.email != body.email.value)
      && (exists o :: o in store.organizations && o.id == body.organizationId.value)
      && ParseRole(RoleOrViewer(body.role)).Some?
    ensures reply.Status() == 201 ==>
      var u := UserRow(s.userId, NewUserOf(body, s.hash), ParseRole(RoleOrViewer(body.role)), s.now);
      store.users == old(store.users) + [u]
      && reply == Json(201, UserOut(Strip(u)))
      && u.passwordHash == s.hash(body.password.value) && !u.isSuperAdmin && u.isActive
      && RoleName(u.role) == RoleOrViewer(body.role)
    ensures CreateUserOutcome(old(store.users), store.users, store.organizations, body, s, reply)
  {
    if !UserFieldsGiven(body) {
      return Error(400, "Email, password, name and organizationId required");
    }
    var created := store.CreateUser(s.userId, NewUserOf(body, s.hash), s.now);
    if created.DbError? {
      return ServerError();
    }
    reply := Json(201, UserOut(Strip(created.value)));
  }

  /** The columns the user update writes: the name, e-mail and role when
      they are non-empty strings, the two flags when they are booleans. */
  function SelectUserFields(body: AdminBody): (p: UserPatch)
    ensures p.name.Some? <==> Truthy(body.name)
    ensures p.email.Some? <==> Truthy(body.email)
    ensures p.role.Some? <==> Truthy(body.role)
    ensures p.isActive == body.isActive && p.isSuperAdmin == body.isSuperAdmin
  {
    UserPatch(if Truthy(body.name) then body.name else None,
              if Truthy(body.email) then body.email else None,
              if Truthy(body.role) then body.role else None,
              body.isActive, body.isSuperAdmin)
  }

  /** The update changes only the fields supplied: an empty name or e-mail
      leaves the stored one, and the password hash, organisation, id and
      timestamps are never touched. */
  lemma UpdateOnlySupplied(u: User, body: AdminBody)
    requires !Truthy(body.role) || ParseRole(body.role.value).Some?
    ensures var p := SelectUserFields(body);
      var v := PatchUser(u, p, if p.role.Some? then ParseRole(p.role.value) else None);
      v.id == u.id && v.passwordHash == u.passwordHash && v.organizationId == u.organizationId
      && v.avatar == u.avatar && v.createdAt == u.createdAt && v.lastLoginAt == u.lastLoginAt
      && (v.name != u.name ==> Truthy(body.name) && v.name == body.name.value)
      && (v.email != u.email ==> Truthy(body.email) && v.email == body.email.value)
      && (v.role != u.role ==> Truthy(body.role) && RoleName(v.role) == body.role.value)
      && (v.isActive != u.isActive ==> body.isActive == Some(v.isActive))
      && (v.isSuperAdmin != u.isSuperAdmin ==> body.isSuperAdmin == Some(v.isSuperAdmin))
  {
  }

  /** The user update branch: the selected fields are written; a body that
      selects nothing or a role outside the enum is refused by the database
      (500), and so is an e-mail held by another user when the row exists.
      An unknown id answers `{}`. */
  method UpdateUser(store: Store, id: Id, body: AdminBody) returns (reply: Reply<Out>)
    modifies store`users
    ensures reply.Status() in {200, 500}
    ensures reply.Status() == 500 ==> store.users == old(store.users)
    ensures var p := SelectUserFields(body);
      reply.Status() == 200 <==>
        !p.IsEmpty() && (p.role.Some? ==> ParseRole(p.role.value).Some?)
        && (p.email.Some? && UserById(old(store.users), id).Some? ==>
              forall x :: x in old(store.users) && x.id != id ==> x.email != p.email.value)
    ensures reply.Status() == 200 ==>
      var p := SelectUserFields(body);
      var role := if p.role.Some? then ParseRole(p.role.value) else None;
      store.users == UpdateWhere(old(store.users), UserId, id, UserPatcher(p, role))
      && reply == Json(200, UpdatedUser(match UserById(old(store.users), id)
                                        case Some(u) => Some(Strip(PatchUser(u, p, role)))
                                        case None => None))
    ensures UpdateUserOutcome(old(store.users), store.users, id, body, reply)
  {
    var updated := store.UpdateUser(id, SelectUserFields(body));
    if updated.DbError? {
      return ServerError();
    }
    reply := Json(200, UpdatedUser(match updated.value case Some(u) => Some(Strip(u)) case None => None));
  }

  /** The template create branch: 400 unless name and prompt are non-empty;
      the template is inserted active, in category "general" unless one is
      given. */
  method CreateTemplate(store: Store, body: AdminBody, s: Supply) returns (reply: Reply<Out>)
    modifies store`aiTemplates
    ensures !Truthy(body.name) || !Truthy(body.promptTemplate) ==>
      reply == Error(400, "Name and promptTemplate required") && store.aiTemplates == old(store.aiTemplates)
    ensures reply.Status() in {201, 400, 500}
    ensures reply.Status() != 201 ==> store.aiTemplates == old(store.aiTemplates)
    ensures reply.Status() == 201 <==>
      Truthy(body.name) && Truthy(body.promptTemplate) && forall x :: x in old(store.aiTemplates) ==> x.id != s.templateId
    ensures reply.Status() == 201 ==>
      var t := AiTemplateRow(s.templateId,
                             NewAiTemplate(body.name.value, body.description, body.promptTemplate.value,
                                           Some(if Truthy(body.category) then body.category.value else "general"), Some(true)),
                             s.now);
      reply == Json(201, TemplateOut(Some(t))) && store.aiTemplates == old(store.aiTemplates) + [t]
      && t.isActive && t.category == Some(if Truthy(body.category) then body.category.value else "general")
    ensures CreateTemplateOutcome(old(store.aiTemplates), store.aiTemplates, body, s, reply)
  {
    if !Truthy(body.name) || !Truthy(body.promptTemplate) {
      return Error(400, "Name and promptTemplate required");
    }
    var category := if Truthy(body.category) then body.category.value else "general";
    var created := store.CreateAiTemplate(s.templateId,
      NewAiTemplate(body.name.value, body.description, body.promptTemplate.value, Some(category), Some(true)), s.now);
    if created.DbError? {
      return ServerError();
    }
    reply := Json(201, TemplateOut(Some(created.value)));
  }

  // ================================================================ the handler

  /** The organisation-creation branch's promise, over the rows before and after it. */
  ghost predicate CreateOrganizationOutcome(orgs0: seq<Organization>, orgs: seq<Organization>,
                                            billing0: seq<Billing>, billing: seq<Billing>,
                                            body: AdminBody, s: Supply, reply: Reply<Out>)
  {
    (!Truthy(body.name) ==> reply == Error(400, "Name required") && orgs == orgs0 && billing == billing0)
    && (reply.Status() == 201 <==>
          Truthy(body.name)
          && (forall x :: x in orgs0 ==>
                x.id != s.organizationId && x.slug != GenerateSlug(body.name.value, s.slugSuffix))
          && (forall x :: x in billing0 ==> x.id != s.billingId && x.organizationId != s.organizationId))
    && (reply.Status() == 201 ==>
          var o := OrganizationRow(s.organizationId, NewOrganizationOf(body, s.slugSuffix), s.now);
          reply == Json(201, OrganizationOut(o))
          && orgs == orgs0 + [o]
          && billing == billing0 + [BillingRow(s.billingId, TrialBilling(s.organizationId, s.now), s.now)])
    && reply.Status() in {201, 400, 500}
  }

  /** The user-creation branch's promise, over the rows before and after it. */
  ghost predicate CreateUserOutcome(users0: seq<User>, users: seq<User>, orgs: seq<Organization>,
                                    body: AdminBody, s: Supply, reply: Reply<Out>)
  {
    (!UserFieldsGiven(body) ==> reply == Error(400, "Email, password, name and organizationId required"))
    && (reply.Status() == 201 <==>
          UserFieldsGiven(body)
          && (forall x :: x in users0 ==> x.id != s.userId && x.email != body.email.value)
          && (exists o :: o in orgs && o.id == body.organizationId.value)
          && ParseRole(RoleOrViewer(body.role)).Some?)
    && (reply.Status() == 201 ==>
          var u := UserRow(s.userId, NewUserOf(body, s.hash), ParseRole(RoleOrViewer(body.role)), s.now);
          users == users0 + [u] && reply == Json(201, UserOut(Strip(u))))
    && (reply.Status() != 201 ==> users == users0)
    && reply.Status() in {201, 400, 500}
  }

  /** The user-update branch's promise, over the rows before and after it. */
  ghost predicate UpdateUserOutcome(users0: seq<User>, users: seq<User>, id: Id, body: AdminBody, reply: Reply<Out>)
  {
    var p := SelectUserFields(body);
    var role := if p.role.Some? then ParseRole(p.role.value) else None;
    (reply.Status() == 200 <==>
       !p.IsEmpty() && (p.role.Some? ==> ParseRole(p.role.value).Some?)
       && (p.email.Some? && UserById(users0, id).Some? ==>
             forall x :: x in users0 && x.id != id ==> x.email != p.email.value))
    && (reply.Status() == 200 ==>
          users == UpdateWhere(users0, UserId, id, UserPatcher(p, role))
          && reply == Json(200, UpdatedUser(match UserById(users0, id)
                                            case Some(u) => Some(Strip(PatchUser(u, p, role)))
                                            case None => None)))
    && (reply.Status() != 200 ==> users == users0)
    && reply.Status() in {200, 500}
  }

  /** The template-creation branch's promise, over the rows before and after it. */
  ghost predicate CreateTemplateOutcome(templates0: seq<AiTemplate>, templates: seq<AiTemplate>,
                                        body: AdminBody, s: Supply, reply: Reply<Out>)
  {
    (!Truthy(body.name) || !Truthy(body.promptTemplate) ==> reply == Error(400, "Name and promptTemplate required"))
    && (reply.Status() == 201 <==>
          Truthy(body.name) && Truthy(body.promptTemplate)
          && forall x :: x in templates0 ==> x.id != s.templateId)
    && (reply.Status() == 201 ==>
          var t := AiTemplateRow(s.templateId,
                                 NewAiTemplate(body.name.value, body.description, body.promptTemplate.value,
                                               Some(if Truthy(body.category) then body.category.value else "general"),
                                               Some(true)),
                                 s.now);
          reply == Json(201, TemplateOut(Some(t))) && templates == templates0 + [t])
    && (reply.Status() != 201 ==> templates == templates0)
    && reply.Status() in {201, 400, 500}
  }

  /** The whole endpoint: 403 before any read or write unless `RequireAdmin`
      lets the caller through, then the branch `RouteOf` selects. */
  method Handle(store: Store, caller: Option<User>, allow: seq<string>, req: AdminRequest, s: Supply)
    returns (reply: Reply<Out>)
    modifies store`organizations, store`billing, store`users, store`aiTemplates
    ensures RequireAdmin(caller, allow).None? ==>
      reply == Error(403, "Admin access required")
      && store.organizations == old(store.organizations) && store.billing == old(store.billing)
      && store.users == old(store.users) && store.aiTemplates == old(store.aiTemplates)
    ensures RouteOf(req.m, req.resource, req.id) !in {CreateOrganizationRoute, CreateUserRoute, UpdateUserRoute, CreateTemplateRoute} ==>
      store.organizations == old(store.organizations) && store.billing == old(store.billing)
      && store.users == old(store.users) && store.aiTemplates == old(store.aiTemplates)
    ensures RequireAdmin(caller, allow).Some? && RouteOf(req.m, req.resource, req.id) == StatsRoute ==>
      reply == Json(200, StatsOut(Stats(store.organizations, store.users, store.establishments, store.reviews, store.responses)))
    ensures RequireAdmin(caller, allow).Some? && RouteOf(req.m, req.resource, req.id) == ListOrganizations ==>
      reply == Json(200, Organizations(OrganizationSummaries(store.organizations, store.users, store.establishments, store.billing)))
    ensures RequireAdmin(caller, allow).Some? && RouteOf(req.m, req.resource, req.id) == ReadOrganization ==>
      reply == OrganizationDetailOf(store.organizations, store.users, store.establishments, store.billing, req.id.value)
    ensures RequireAdmin(caller, allow).Some? && RouteOf(req.m, req.resource, req.id) == ListUsers ==>
      reply == Json(200, Users(UserList(store.users, req.organizationIdQuery)))
    ensures RequireAdmin(caller, allow).Some? && RouteOf(req.m, req.resource, req.id) == ReadUser ==>
      (reply == Error(404, "Not found") <==> UserById(store.users, req.id.value).None?)
      && (UserById(store.users, req.id.value).Some? ==> reply == Json(200, UserOut(Strip(UserById(store.users, req.id.value).value))))
    ensures RequireAdmin(caller, allow).Some? && RouteOf(req.m, req.resource, req.id) == ListEstablishments ==>
      reply == Json(200, Establishments(EstablishmentListings(store.organizations, store.establishments, req.organizationIdQuery)))
    ensures RequireAdmin(caller, allow).Some? && RouteOf(req.m, req.resource, req.id) == ReadBilling ==>
      reply == Json(200, BillingOut(BillingOf(store.billing, req.id.value)))
    ensures RequireAdmin(caller, allow).Some? && RouteOf(req.m, req.resource, req.id) == ReadTemplate ==>
      reply == Json(200, TemplateOut(AiTemplateById(store.aiTemplates, req.id.value)))
    ensures RequireAdmin(caller, allow).Some? && RouteOf(req.m, req.resource, req.id) == ActivityLogs ==>
      reply == ActivityLogPage(store.activityLogs, req.limitQuery)
    ensures RequireAdmin(caller, allow).Some? && RouteOf(req.m, req.resource, req.id) == Unsupported ==>
      reply.Status() == 405
    ensures RequireAdmin(caller, allow).Some? && RouteOf(req.m, req.resource, req.id) == CreateOrganizationRoute ==>
      CreateOrganizationOutcome(old(store.organizations), store.organizations, old(store.billing), store.billing,
                                req.body, s, reply)
      && store.users == old(store.users) && store.aiTemplates == old(store.aiTemplates)
    ensures RequireAdmin(caller, allow).Some? && RouteOf(req.m, req.resource, req.id) == CreateUserRoute ==>
      CreateUserOutcome(old(store.users), store.users, store.organizations, req.body, s, reply)
    ensures RequireAdmin(caller, allow).Some? && RouteOf(req.m, req.resource, req.id) == UpdateUserRoute ==>
      UpdateUserOutcome(old(store.users), store.users, req.id.value, req.body, reply)
    ensures RequireAdmin(caller, allow).Some? && RouteOf(req.m, req.resource, req.id) == CreateTemplateRoute ==>
      CreateTemplateOutcome(old(store.aiTemplates), store.aiTemplates, req.body, s, reply)
  {
    if RequireAdmin(caller, allow).None? {
      return Error(403, "Admin access required");
    }
    match RouteOf(req.m, req.resource, req.id)
    case StatsRoute =>
      reply := Json(200, StatsOut(Stats(store.organizations, store.users, store.establishments, store.reviews, store.responses)));
    case ListOrganizations =>
      reply := Json(200, Organizations(OrganizationSummaries(store.organizations, store.users, store.establishments, store.billing)));
    case CreateOrganizationRoute =>
      reply := CreateOrganization(store, req.body, s);
    case ReadOrganization =>
      reply := OrganizationDetailOf(store.organizations, store.users, store.establishments, store.billing, req.id.value);
    case ListUsers =>
      reply := Json(200, Users(UserList(store.users, req.organizationIdQuery)));
    case CreateUserRoute =>
      reply := CreateUser(store, req.body, s);
    case ReadUser =>
      reply := match UserById(store.users, req.id.value)
               case None => Error(404, "Not found")
               case Some(u) => Json(200, UserOut(Strip(u)));
    case UpdateUserRoute =>
      reply := UpdateUser(store, req.id.value, req.body);
    case ListEstablishments =>
      reply := Json(200, Establishments(EstablishmentListings(store.organizations, store.establishments, req.organizationIdQuery)));
    case ReadBilling =>
      reply := Json(200, BillingOut(BillingOf(store.billing, req.id.value)));
    case CreateTemplateRoute =>
      reply := CreateTemplate(store, req.body, s);
    case ReadTemplate =>
      reply := Json(200, TemplateOut(AiTemplateById(store.aiTemplates, req.id.value)));
    case ActivityLogs =>
      reply := ActivityLogPage(store.activityLogs, req.limitQuery);
    case UpdateOrganization =>
      reply := Json(200, Unmodelled);
    case DeleteOrganization =>
      reply := Json(200, Unmodelled);
    case DeleteUser =>
      reply := Json(200, Unmodelled);
    case UpdateBilling =>
      reply := Json(200, Unmodelled);
    case ListTemplates =>
      reply := Json(200, Unmodelled);
    case UpdateTemplate =>
      reply := Json(200, Unmodelled);
    case DeleteTemplate =>
      reply := Json(200, Unmodelled);
    case Unsupported =>
      reply := NotAllowed();
  }
}
