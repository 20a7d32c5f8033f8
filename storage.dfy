/** The storage layer: the queries over the tables, stated as functions of the
    tables' contents, and the `Store`, whose methods insert, update and delete
    rows the way the database does (an insert that breaks a key, uniqueness,
    foreign-key or enum constraint is rejected and nothing changes; a delete
    cascades along the foreign keys declared `on delete cascade`). */
module Storage {

  import opened Seqs
  import opened Text
  import opened Schema

  /** The outcome of a statement: the database raised an error, or it ran. */
  datatype DbResult<T> = DbError | DbOk(value: T)

  // ================================================================ keys

  function OrganizationId(o: Organization): Id { o.id }
  function UserId(u: User): Id { u.id }
  function UserEmail(u: User): string { u.email }
  function PermissionId(p: Permission): Id { p.id }
  function PermissionPair(p: Permission): (Id, Id) { (p.userId, p.establishmentId) }
  function EstablishmentId(e: Establishment): Id { e.id }
  function ReviewId(v: Review): Id { v.id }
  function ResponseId(s: Response): Id { s.id }
  function ResponseReview(s: Response): Id { s.reviewId }
  function PublishedAt(v: Review): int { v.publishedAt }
  function LogCreatedAt(l: ActivityLog): int { l.createdAt }
  function UserCreatedAt(u: User): int { u.createdAt }
  function OrganizationCreatedAt(o: Organization): int { o.createdAt }
  function EstablishmentCreatedAt(e: Establishment): int { e.createdAt }

  // ================================================================ single-row lookups

  /** `getUser(id)`. */
  function UserById(users: seq<User>, id: Id): (r: Option<User>)
    ensures r.Some? ==> r.value in users && r.value.id == id
    ensures r.None? <==> forall u :: u in users ==> u.id != id
  {
    First(users, (u: User) => u.id == id)
  }

  /** `getUserByEmail(email)`: an exact, case-sensitive match. */
  function UserByEmail(users: seq<User>, email: string): (r: Option<User>)
    ensures r.Some? ==> r.value in users && r.value.email == email
    ensures r.None? <==> forall u :: u in users ==> u.email != email
  {
    First(users, (u: User) => u.email == email)
  }

  /** `getOrganization(id)`. */
  function OrganizationById(orgs: seq<Organization>, id: Id): (r: Option<Organization>)
    ensures r.Some? ==> r.value in orgs && r.value.id == id
    ensures r.None? <==> forall o :: o in orgs ==> o.id != id
  {
    First(orgs, (o: Organization) => o.id == id)
  }

  /** `getEstablishment(id)`. */
  function EstablishmentById(ests: seq<Establishment>, id: Id): (r: Option<Establishment>)
    ensures r.Some? ==> r.value in ests && r.value.id == id
    ensures r.None? <==> forall e :: e in ests ==> e.id != id
  {
    First(ests, (e: Establishment) => e.id == id)
  }

  /** `getReview(id)`. */
  function ReviewById(reviews: seq<Review>, id: Id): (r: Option<Review>)
    ensures r.Some? ==> r.value in reviews && r.value.id == id
    ensures r.None? <==> forall v :: v in reviews ==> v.id != id
  {
    First(reviews, (v: Review) => v.id == id)
  }

  function ForReview(reviewId: Id): Response -> bool
  {
    (s: Response) => s.reviewId == reviewId
  }

  /** `getResponseByReview(reviewId)`. */
  function ResponseByReview(responses: seq<Response>, reviewId: Id): (r: Option<Response>)
    ensures r.Some? ==> r.value in responses && r.value.reviewId == reviewId
    ensures r.None? <==> forall s :: s in responses ==> s.reviewId != reviewId
  {
    First(responses, ForReview(reviewId))
  }

  /** `getBilling(organizationId)`. */
  function BillingOf(billing: seq<Billing>, orgId: Id): (r: Option<Billing>)
    ensures r.Some? ==> r.value in billing && r.value.organizationId == orgId
    ensures r.None? <==> forall b :: b in billing ==> b.organizationId != orgId
  {
    First(billing, (b: Billing) => b.organizationId == orgId)
  }

  /** `getAiTemplate(id)`. */
  function AiTemplateById(templates: seq<AiTemplate>, id: Id): (r: Option<AiTemplate>)
    ensures r.Some? ==> r.value in templates && r.value.id == id
    ensures r.None? <==> forall t :: t in templates ==> t.id != id
  {
    First(templates, (t: AiTemplate) => t.id == id)
  }

  function PairIs(userId: Id, establishmentId: Id): Permission -> bool
  {
    (p: Permission) => p.userId == userId && p.establishmentId == establishmentId
  }

  /** `getUserPermissionForEstablishment(userId, establishmentId)`. */
  function PermissionFor(perms: seq<Permission>, userId: Id, establishmentId: Id): (r: Option<Permission>)
    ensures r.Some? ==> r.value in perms && r.value.userId == userId && r.value.establishmentId == establishmentId
    ensures r.None? <==> forall p :: p in perms ==> !(p.userId == userId && p.establishmentId == establishmentId)
  {
    First(perms, PairIs(userId, establishmentId))
  }

  // ================================================================ multi-row queries

  /** `getEstablishmentsByOrganization(orgId)` (the order by name is not modelled). */
  function EstablishmentsOf(ests: seq<Establishment>, orgId: Id): (r: seq<Establishment>)
    ensures forall e :: e in r <==> e in ests && e.organizationId == orgId
    ensures |r| == Count(ests, EstablishmentInOrganization(orgId))
  {
    Filter(ests, EstablishmentInOrganization(orgId))
  }

  function EstablishmentInOrganization(orgId: Id): Establishment -> bool
  {
    (e: Establishment) => e.organizationId == orgId
  }

  function UserInOrganization(orgId: Id): User -> bool
  {
    (u: User) => u.organizationId == Some(orgId)
  }

  /** `getUsersByOrganization(orgId)`: the organisation's users, newest first. */
  function UsersOf(users: seq<User>, orgId: Id): (r: seq<User>)
    ensures SortedDesc(r, UserCreatedAt)
    ensures forall u :: u in r <==> u in users && u.organizationId == Some(orgId)
    ensures |r| == Count(users, UserInOrganization(orgId))
  {
    var mine := Filter(users, UserInOrganization(orgId));
    var r := SortDesc(mine, UserCreatedAt);
    assert forall u :: u in r <==> u in multiset(r);
    assert forall u :: u in mine <==> u in multiset(mine);
    assert |r| == |multiset(r)| == |multiset(mine)| == |mine|;
    r
  }

  /** `getAllEstablishments()`: every establishment, most recently created first. */
  function AllEstablishments(ests: seq<Establishment>): (r: seq<Establishment>)
    ensures SortedDesc(r, EstablishmentCreatedAt) && multiset(r) == multiset(ests)
  {
    SortDesc(ests, EstablishmentCreatedAt)
  }

  /** `getAllUsers()`: newest first. */
  function AllUsers(users: seq<User>): (r: seq<User>)
    ensures SortedDesc(r, UserCreatedAt) && multiset(r) == multiset(users)
  {
    SortDesc(users, UserCreatedAt)
  }

  /** `getAllOrganizations()`: newest first. */
  function AllOrganizations(orgs: seq<Organization>): (r: seq<Organization>)
    ensures SortedDesc(r, OrganizationCreatedAt) && multiset(r) == multiset(orgs)
  {
    SortDesc(orgs, OrganizationCreatedAt)
  }

  /** The permission rows of one user that grant viewing (`canView`). */
  function ViewGrants(perms: seq<Permission>, userId: Id): (r: seq<Permission>)
    ensures forall p :: p in r <==> p in perms && p.userId == userId && p.canView
  {
    Filter(perms, (p: Permission) => p.userId == userId && p.canView)
  }

  /** The reference definition of which establishment ids a user may see:
      owners and admins see every establishment of their organisation (none
      without one); managers and viewers see those they hold a viewing grant
      for, in whatever organisation. */
  ghost predicate MaySee(u: User, ests: seq<Establishment>, perms: seq<Permission>, id: Id)
  {
    if IsOwnerOrAdmin(u.role) then
      Truthy(u.organizationId) && exists e :: e in ests && e.organizationId == u.organizationId.value && e.id == id
    else
      exists p :: p in perms && p.userId == u.id && p.establishmentId == id && p.canView
  }

  /** `getEstablishmentIdsForUser(user)`. */
  function EstablishmentIdsForUser(u: User, ests: seq<Establishment>, perms: seq<Permission>): (ids: seq<Id>)
    ensures forall id :: id in ids <==> MaySee(u, ests, perms, id)
  {
    if IsOwnerOrAdmin(u.role) then
      if !Truthy(u.organizationId) then []
      else
        var mine := EstablishmentsOf(ests, u.organizationId.value);
        var ids := MapSeq(mine, EstablishmentId);
        assert forall id :: id in ids <==> exists e :: e in mine && e.id == id by {
          forall id | id in ids ensures exists e :: e in mine && e.id == id {
            var k :| 0 <= k < |ids| && ids[k] == id;
            assert mine[k] in mine;
          }
          forall id | exists e :: e in mine && e.id == id ensures id in ids {
            var e :| e in mine && e.id == id;
            var k :| 0 <= k < |mine| && mine[k] == e;
            assert ids[k] == id;
          }
        }
        ids
    else
      var grants := ViewGrants(perms, u.id);
      var ids := MapSeq(grants, (p: Permission) => p.establishmentId);
      assert forall id :: id in ids <==> exists p :: p in grants && p.establishmentId == id by {
        forall id | id in ids ensures exists p :: p in grants && p.establishmentId == id {
          var k :| 0 <= k < |ids| && ids[k] == id;
          assert grants[k] in grants;
        }
        forall id | exists p :: p in grants && p.establishmentId == id ensures id in ids {
          var p :| p in grants && p.establishmentId == id;
          var k :| 0 <= k < |grants| && grants[k] == p;
          assert ids[k] == id;
        }
      }
      ids
  }

  function InEstablishments(ids: seq<Id>): Review -> bool
  {
    (v: Review) => v.establishmentId in ids
  }

  /** `getReviewsByEstablishments(ids)`: none for an empty list, otherwise
      exactly the reviews of those establishments, most recently published
      first. */
  function ReviewsByEstablishments(reviews: seq<Review>, ids: seq<Id>): (r: seq<Review>)
    ensures |ids| == 0 ==> r == []
    ensures |ids| > 0 ==> multiset(r) == multiset(Filter(reviews, InEstablishments(ids)))
    ensures SortedDesc(r, PublishedAt)
    ensures forall v :: v in r <==> v in reviews && v.establishmentId in ids
  {
    if |ids| == 0 then []
    else
      var mine := Filter(reviews, InEstablishments(ids));
      var r := SortDesc(mine, PublishedAt);
      assert forall v :: v in r <==> v in multiset(r);
      assert forall v :: v in mine <==> v in multiset(mine);
      r
  }

  /** `getReviewsByEstablishment(id)`: the establishment's reviews, most
      recently published first. */
  function ReviewsByEstablishment(reviews: seq<Review>, id: Id): (r: seq<Review>)
    ensures SortedDesc(r, PublishedAt)
    ensures forall v :: v in r <==> v in reviews && v.establishmentId == id
  {
    var mine := Filter(reviews, (v: Review) => v.establishmentId == id);
    var r := SortDesc(mine, PublishedAt);
    assert forall v :: v in r <==> v in multiset(r);
    assert forall v :: v in mine <==> v in multiset(mine);
    r
  }

  /** `getActivityLogs(limit)`: the `limit` most recent entries, newest first;
      every entry left out is no newer than every entry returned. */
  function RecentActivityLogs(logs: seq<ActivityLog>, limit: nat): (r: seq<ActivityLog>)
    ensures |r| == if limit < |logs| then limit else |logs|
    ensures SortedDesc(r, LogCreatedAt)
    ensures multiset(r) <= multiset(logs)
    ensures forall x, y :: x in multiset(logs) - multiset(r) && y in r ==> x.createdAt <= y.createdAt
  {
    var sorted := SortDesc(logs, LogCreatedAt);
    var r := Take(sorted, limit);
    TopSlice(sorted, |r|, LogCreatedAt);
    r
  }

  /** In a sequence sorted largest first, what a prefix leaves out ranks no
      higher than anything in the prefix. */
  lemma TopSlice<T>(s: seq<T>, n: nat, key: T -> int)
    requires SortedDesc(s, key) && n <= |s|
    ensures SortedDesc(s[..n], key)
    ensures multiset(s[..n]) <= multiset(s)
    ensures forall x, y :: x in multiset(s) - multiset(s[..n]) && y in s[..n] ==> key(x) <= key(y)
  {
    assert s == s[..n] + s[n..];
    assert multiset(s) == multiset(s[..n]) + multiset(s[n..]);
    forall x, y | x in multiset(s) - multiset(s[..n]) && y in s[..n] ensures key(x) <= key(y) {
      assert x in multiset(s[n..]);
      assert x in s[n..];
    }
  }

  // ================================================================ counts and statistics

  predicate IsPendingReview(v: Review) { v.status == Some(Pending) }
  predicate IsUrgentPendingReview(v: Review) { v.status == Some(Pending) && v.sentiment == Some(Urgent) }
  predicate IsPostedResponse(s: Response) { s.postedToGoogle == Some(true) }

  /** `Math.round(part / whole * 100)` for `whole > 0` (half rounds up), and 0
      for `whole == 0`. */
  function RoundedPercent(part: nat, whole: nat): (p: nat)
    ensures whole == 0 ==> p == 0
    ensures whole > 0 ==> p * (2 * whole) <= 200 * part + whole < (p + 1) * (2 * whole)
  {
    if whole == 0 then 0
    else
      var n, d := 200 * part + whole, 2 * whole;
      var q := n / d;
      assert n == q * d + n % d;
      q
  }

  /** A share of a whole rounds to at most 100 percent. */
  lemma RoundedPercentAtMost100(part: nat, whole: nat)
    requires part <= whole
    ensures RoundedPercent(part, whole) <= 100
  {
    if whole > 0 {
      var p := RoundedPercent(part, whole);
      MulLessCancel(p, 101, 2 * whole);
    }
  }

  /** Cancelling a positive factor keeps a strict inequality. */
  lemma {:induction false} MulLessCancel(a: nat, b: nat, c: nat)
    requires c > 0 && a * c < b * c
    ensures a < b
  {
    if a > 0 {
      assert b * c > c;
      assert (a - 1) * c == a * c - c;
      assert b > 0;
      assert (b - 1) * c == b * c - c;
      MulLessCancel(a - 1, b - 1, c);
    }
  }

  datatype GlobalStats = GlobalStats(
    totalOrganizations: nat, totalUsers: nat, totalEstablishments: nat, totalReviews: nat,
    pendingReviews: nat, urgentReviews: nat, totalResponses: nat, responseRate: nat)

  /** `getGlobalStats()`. `totalResponses` counts posted responses only, and
      `responseRate` is that count as a rounded percentage of all reviews. */
  function Stats(orgs: seq<Organization>, users: seq<User>, ests: seq<Establishment>,
                 reviews: seq<Review>, responses: seq<Response>): (s: GlobalStats)
    ensures s.totalOrganizations == |orgs| && s.totalUsers == |users|
    ensures s.totalEstablishments == |ests| && s.totalReviews == |reviews|
    ensures s.pendingReviews == Count(reviews, IsPendingReview)
    ensures s.urgentReviews == Count(reviews, IsUrgentPendingReview)
    ensures s.totalResponses == Count(responses, IsPostedResponse)
    ensures s.urgentReviews <= s.pendingReviews <= s.totalReviews
    ensures s.totalResponses <= |responses|
    ensures s.totalReviews == 0 ==> s.responseRate == 0
    ensures s.totalReviews > 0 ==>
      s.responseRate * (2 * s.totalReviews) <= 200 * s.totalResponses + s.totalReviews < (s.responseRate + 1) * (2 * s.totalReviews)
  {
    CountMonotonic(reviews, IsUrgentPendingReview, IsPendingReview);
    var posted := Count(responses, IsPostedResponse);
    GlobalStats(|orgs|, |users|, |ests|, |reviews|,
                Count(reviews, IsPendingReview), Count(reviews, IsUrgentPendingReview),
                posted, RoundedPercent(posted, |reviews|))
  }

  /** When every review has at most one response and every response belongs to
      an existing review, the response rate never exceeds 100. */
  lemma {:induction false} ResponseRateAtMost100(orgs: seq<Organization>, users: seq<User>, ests: seq<Establishment>,
                                                reviews: seq<Review>, responses: seq<Response>)
    requires DistinctKeys(responses, ResponseReview)
    requires forall s :: s in responses ==> exists v :: v in reviews && v.id == s.reviewId
    ensures Stats(orgs, users, ests, reviews, responses).responseRate <= 100
  {
    var posted := Filter(responses, IsPostedResponse);
    FilterDistinct(responses, IsPostedResponse, ResponseReview);
    KeySetDistinct(posted, ResponseReview);
    KeySetBound(reviews, ReviewId);
    var ks := KeySet(posted, ResponseReview);
    var ids := KeySet(reviews, ReviewId);
    forall k | k in ks ensures k in ids {
      var i :| 0 <= i < |posted| && posted[i].reviewId == k;
      assert posted[i] in responses;
      var v :| v in reviews && v.id == k;
      var j :| 0 <= j < |reviews| && reviews[j] == v;
      assert ReviewId(reviews[j]) == k;
    }
    assert ks <= ids;
    SubsetCard(ks, ids);
    RoundedPercentAtMost100(|posted|, |reviews|);
  }

  lemma SubsetCard<K>(a: set<K>, b: set<K>)
    requires a <= b
    ensures |a| <= |b|
  {
    assert b == a + (b - a);
  }

  // ================================================================ updates stated as patches

  /** What `.set(perm)` writes over an existing permission row: the pair, and
      each flag the caller gave. */
  function PatchPermission(row: Permission, p: NewPermission): (r: Permission)
  {
    row.(userId := p.userId, establishmentId := p.establishmentId,
         canView := p.canView.GetOr(row.canView),
         canRespond := p.canRespond.GetOr(row.canRespond),
         canManage := p.canManage.GetOr(row.canManage))
  }

  /** The columns of an establishment that an update body may carry; the
      primary key `id` is one of them. */
  datatype EstablishmentPatch = EstablishmentPatch(
    id: Option<Id>, organizationId: Option<Id>, google: GoogleLink, name: Option<string>, address: Option<string>, phone: Option<string>,
    aiTone: Option<AiTone>, signatureTemplate: Option<string>, isActive: Option<bool>)
  {
    /** No column is written: the statement has an empty `SET` list, which the
        query builder rejects. */
    predicate IsEmpty()
    {
      id.None? && organizationId.None? && google.IsEmpty() && name.None? && address.None? && phone.None?
      && aiTone.None? && signatureTemplate.None? && isActive.None?
    }
  }

  /** The Google columns after an update: each given one is written. */
  function PatchGoogle(g: GoogleLink, p: GoogleLink): GoogleLink
  {
    GoogleLink(if p.placeId.Some? then p.placeId else g.placeId,
               if p.accountId.Some? then p.accountId else g.accountId,
               if p.locationId.Some? then p.locationId else g.locationId,
               if p.accessToken.Some? then p.accessToken else g.accessToken,
               if p.refreshToken.Some? then p.refreshToken else g.refreshToken)
  }

  function PatchEstablishment(e: Establishment, p: EstablishmentPatch): Establishment
  {
    e.(id := p.id.GetOr(e.id), organizationId := p.organizationId.GetOr(e.organizationId),
       google := PatchGoogle(e.google, p.google), name := p.name.GetOr(e.name),
       address := if p.address.Some? then p.address else e.address,
       phone := if p.phone.Some? then p.phone else e.phone,
       aiTone := if p.aiTone.Some? then p.aiTone else e.aiTone,
       signatureTemplate := if p.signatureTemplate.Some? then p.signatureTemplate else e.signatureTemplate,
       isActive := p.isActive.GetOr(e.isActive))
  }

  /** The columns of a user that the admin update writes; `role` is text. */
  datatype UserPatch = UserPatch(
    name: Option<string>, email: Option<string>, role: Option<string>,
    isActive: Option<bool>, isSuperAdmin: Option<bool>)
  {
    predicate IsEmpty()
    {
      name.None? && email.None? && role.None? && isActive.None? && isSuperAdmin.None?
    }
  }

  function PatchUser(u: User, p: UserPatch, role: Option<OrgRole>): User
  {
    u.(name := p.name.GetOr(u.name), email := p.email.GetOr(u.email), role := role.GetOr(u.role),
       isActive := p.isActive.GetOr(u.isActive), isSuperAdmin := p.isSuperAdmin.GetOr(u.isSuperAdmin))
  }

  /** The update `updateUser(id, p)` makes, as a function of the row. */
  function UserPatcher(p: UserPatch, role: Option<OrgRole>): User -> User
  {
    (u: User) => PatchUser(u, p, role)
  }

  /** The columns of a response that the review workflow writes. */
  datatype ResponsePatch = ResponsePatch(
    userId: Option<Id>, aiGeneratedText: Option<string>, finalText: Option<string>,
    postedToGoogle: Option<bool>, postedAt: Option<Time>)
  {
    /** A patch naming no column: Drizzle refuses an update with nothing to set. */
    predicate IsEmpty()
    {
      userId.None? && aiGeneratedText.None? && finalText.None? && postedToGoogle.None? && postedAt.None?
    }
  }

  function PatchResponse(s: Response, p: ResponsePatch): Response
  {
    s.(userId := if p.userId.Some? then p.userId else s.userId,
       aiGeneratedText := p.aiGeneratedText.GetOr(s.aiGeneratedText),
       finalText := if p.finalText.Some? then p.finalText else s.finalText,
       postedToGoogle := if p.postedToGoogle.Some? then p.postedToGoogle else s.postedToGoogle,
       postedAt := if p.postedAt.Some? then p.postedAt else s.postedAt)
  }

  /** The update a response patch makes, as a function of the row. */
  function Patcher(p: ResponsePatch): Response -> Response
  {
    (s: Response) => PatchResponse(s, p)
  }

  /** The update `updateReview(id, { status })` makes, as a function of the row. */
  function SetStatus(status: ReviewStatus): Review -> Review
  {
    (v: Review) => v.(status := Some(status))
  }

  /** `rows` with `f` applied to every row whose key is `id` (SQL `UPDATE ... WHERE id = $1`). */
  function UpdateWhere<T>(rows: seq<T>, key: T -> Id, id: Id, f: T -> T): (r: seq<T>)
    ensures |r| == |rows|
    ensures forall i :: 0 <= i < |rows| ==> r[i] == if key(rows[i]) == id then f(rows[i]) else rows[i]
  {
    if rows == [] then []
    else [if key(rows[0]) == id then f(rows[0]) else rows[0]] + UpdateWhere(rows[1..], key, id, f)
  }

  /** An update that keeps `p` true exactly where it was true leaves the
      first match of `p` in place, updated when its key is `id`. */
  lemma {:induction false} FirstAfterUpdate<T>(rows: seq<T>, key: T -> Id, id: Id, f: T -> T, p: T -> bool)
    requires forall x :: p(f(x)) == p(x)
    ensures First(UpdateWhere(rows, key, id, f), p)
            == match First(rows, p) case Some(x) => Some(if key(x) == id then f(x) else x) case None => None
  {
    var r := UpdateWhere(rows, key, id, f);
    assert forall j :: 0 <= j < |rows| ==> p(r[j]) == p(rows[j]);
    assert FirstIndex(r, p) == FirstIndex(rows, p);
  }

  // ================================================================ invariants and the cascade

  /** The invariants the workflow relies on: primary keys of the permission
      and response tables are unique, a user holds at most one permission row
      per establishment, a review has at most one response, and every response
      belongs to an existing review. The first and last are the database's own
      constraints; the middle two are kept only by the application's
      read-then-write upserts. */
  ghost predicate TablesValid(permissions: seq<Permission>, reviews: seq<Review>, responses: seq<Response>)
  {
    DistinctKeys(permissions, PermissionId)
    && DistinctKeys(permissions, PermissionPair)
    && DistinctKeys(responses, ResponseId)
    && DistinctKeys(responses, ResponseReview)
    && (forall s :: s in responses ==> exists v :: v in reviews && v.id == s.reviewId)
  }

  /** The ids of the reviews of one establishment. */
  function ReviewIdsOf(reviews: seq<Review>, establishmentId: Id): (ids: seq<Id>)
    ensures forall k :: k in ids <==> exists v :: v in reviews && v.establishmentId == establishmentId && v.id == k
  {
    var mine := Filter(reviews, (v: Review) => v.establishmentId == establishmentId);
    var ids := MapSeq(mine, ReviewId);
    assert forall k :: k in ids <==> exists v :: v in mine && v.id == k by {
      forall k | k in ids ensures exists v :: v in mine && v.id == k {
        var j :| 0 <= j < |ids| && ids[j] == k;
        assert mine[j] in mine;
      }
      forall k | exists v :: v in mine && v.id == k ensures k in ids {
        var v :| v in mine && v.id == k;
        var j :| 0 <= j < |mine| && mine[j] == v;
        assert ids[j] == k;
      }
    }
    ids
  }

  function NotAnswering(reviewIds: seq<Id>): Response -> bool
  {
    (s: Response) => s.reviewId !in reviewIds
  }

  /** Deleting an establishment together with everything that cascades from
      it keeps the invariants: no response is left pointing at a deleted review. */
  lemma DeleteCascadeValid(permissions: seq<Permission>, reviews: seq<Review>, responses: seq<Response>, id: Id)
    requires TablesValid(permissions, reviews, responses)
    ensures TablesValid(Filter(permissions, (p: Permission) => p.establishmentId != id),
                        Filter(reviews, (v: Review) => v.establishmentId != id),
                        Filter(responses, NotAnswering(ReviewIdsOf(reviews, id))))
  {
    var gone := ReviewIdsOf(reviews, id);
    var keepPerm := (p: Permission) => p.establishmentId != id;
    var keepReview := (v: Review) => v.establishmentId != id;
    FilterDistinct(permissions, keepPerm, PermissionId);
    FilterDistinct(permissions, keepPerm, PermissionPair);
    FilterDistinct(responses, NotAnswering(gone), ResponseId);
    FilterDistinct(responses, NotAnswering(gone), ResponseReview);
    var rs := Filter(responses, NotAnswering(gone));
    var vs := Filter(reviews, keepReview);
    forall s | s in rs ensures exists v :: v in vs && v.id == s.reviewId {
      var v :| v in reviews && v.id == s.reviewId;
      assert s.reviewId !in gone;
      assert v.establishmentId != id;
      var j :| 0 <= j < |reviews| && reviews[j] == v;
      assert keepReview(reviews[j]);
      assert v in vs;
    }
  }

  /** An update that keeps a key keeps that key unique. */
  lemma UpdateWhereDistinct<T, K>(rows: seq<T>, key: T -> Id, id: Id, f: T -> T, k: T -> K)
    requires DistinctKeys(rows, k)
    requires forall x :: k(f(x)) == k(x)
    ensures DistinctKeys(UpdateWhere(rows, key, id, f), k)
  {
    var r := UpdateWhere(rows, key, id, f);
    forall i, j | 0 <= i < j < |r| ensures k(r[i]) != k(r[j]) {
      assert k(r[i]) == k(rows[i]) && k(r[j]) == k(rows[j]);
    }
  }

  /** Setting a review's status keeps the invariants: no review id changes. */
  lemma UpdateReviewsValid(permissions: seq<Permission>, reviews: seq<Review>, responses: seq<Response>,
                           id: Id, status: ReviewStatus)
    requires TablesValid(permissions, reviews, responses)
    ensures TablesValid(permissions, UpdateWhere(reviews, ReviewId, id, SetStatus(status)), responses)
  {
    var f := SetStatus(status);
    var after := UpdateWhere(reviews, ReviewId, id, f);
    forall s | s in responses ensures exists v :: v in after && v.id == s.reviewId {
      var v :| v in reviews && v.id == s.reviewId;
      var j :| 0 <= j < |reviews| && reviews[j] == v;
      assert f(v).id == v.id;
      assert after[j] in after && after[j].id == v.id;
    }
  }

  /** Patching a response keeps the invariants: its id and its review stay. */
  lemma UpdateResponsesValid(permissions: seq<Permission>, reviews: seq<Review>, responses: seq<Response>,
                             id: Id, p: ResponsePatch)
    requires TablesValid(permissions, reviews, responses)
    ensures TablesValid(permissions, reviews, UpdateWhere(responses, ResponseId, id, Patcher(p)))
  {
    var f := Patcher(p);
    var after := UpdateWhere(responses, ResponseId, id, f);
    assert forall x :: ResponseId(f(x)) == ResponseId(x) && ResponseReview(f(x)) == ResponseReview(x);
    UpdateWhereDistinct(responses, ResponseId, id, f, ResponseId);
    UpdateWhereDistinct(responses, ResponseId, id, f, ResponseReview);
    forall s | s in after ensures exists v :: v in reviews && v.id == s.reviewId {
      var j :| 0 <= j < |after| && after[j] == s;
      assert responses[j] in responses && responses[j].reviewId == s.reviewId;
    }
  }

  // ================================================================ the store

  /** Whether `UPDATE establishments SET … WHERE id = $id` succeeds: the column
      set is not empty; and when a row has the id, the new organisation exists
      and a new id is unused and not referenced by permissions or reviews
      (their foreign keys take no action on update). An update that touches
      no row violates nothing. */
  function EstablishmentPatchAccepted(orgs: seq<Organization>, ests: seq<Establishment>,
                                      perms: seq<Permission>, reviews: seq<Review>,
                                      id: Id, p: EstablishmentPatch): (b: bool)
    ensures b <==>
      (!p.IsEmpty()
       && (EstablishmentById(ests, id).Some? ==>
             (p.organizationId.Some? ==> exists o :: o in orgs && o.id == p.organizationId.value)
             && (p.id.Some? && p.id.value != id ==>
                   (forall x :: x in ests ==> x.id != p.id.value)
                   && (forall q :: q in perms ==> q.establishmentId != id)
                   && (forall v :: v in reviews ==> v.establishmentId != id))))
  {
    var noPerm := !Exists(perms, (q: Permission) => q.establishmentId == id);
    var noReview := !Exists(reviews, (v: Review) => v.establishmentId == id);
    assert noPerm <==> forall q :: q in perms ==> q.establishmentId != id by {
      if q :| q in perms && q.establishmentId == id {
        var i :| 0 <= i < |perms| && perms[i] == q;
      }
    }
    assert noReview <==> forall v :: v in reviews ==> v.establishmentId != id by {
      if v :| v in reviews && v.establishmentId == id {
        var i :| 0 <= i < |reviews| && reviews[i] == v;
      }
    }
    !p.IsEmpty()
    && (EstablishmentById(ests, id).None?
        || ((p.organizationId.None? || OrganizationById(orgs, p.organizationId.value).Some?)
            && (p.id.None? || p.id.value == id
                || (EstablishmentById(ests, p.id.value).None? && noPerm && noReview))))
  }

  /** The tables, held in memory; every method is one SQL statement or, for
      `SetUserPermission`, the read-then-write the source performs. */
  class Store {
    var organizations: seq<Organization>
    var users: seq<User>
    var permissions: seq<Permission>
    var establishments: seq<Establishment>
    var reviews: seq<Review>
    var responses: seq<Response>
    var activityLogs: seq<ActivityLog>
    var billing: seq<Billing>
    var aiTemplates: seq<AiTemplate>

    constructor ()
      ensures organizations == [] && users == [] && permissions == [] && establishments == []
      ensures reviews == [] && responses == [] && activityLogs == [] && billing == [] && aiTemplates == []
      ensures Valid()
    {
      organizations, users, permissions, establishments := [], [], [], [];
      reviews, responses, activityLogs, billing, aiTemplates := [], [], [], [], [];
    }

    /** The invariants of `TablesValid`, over this store's tables. */
    ghost predicate Valid()
      reads this
    {
      TablesValid(permissions, reviews, responses)
    }

    // -------------------------------------------------------------- organizations, billing

    /** `createOrganization`: rejected when the id or the slug is taken. */
    method CreateOrganization(id: Id, o: NewOrganization, now: Time) returns (r: DbResult<Organization>)
      modifies this`organizations
      ensures r.DbOk? <==> (forall x :: x in old(organizations) ==> x.id != id && x.slug != o.slug)
      ensures r.DbOk? ==> r.value == OrganizationRow(id, o, now) && organizations == old(organizations) + [r.value]
      ensures r.DbError? ==> organizations == old(organizations)
    {
      if Exists(organizations, (x: Organization) => x.id == id || x.slug == o.slug) {
        return DbError;
      }
      r := DbOk(OrganizationRow(id, o, now));
      organizations := organizations + [r.value];
    }

    /** `createBilling`: rejected when the id is taken, the organisation does
        not exist or already has a billing row. */
    method CreateBilling(id: Id, b: NewBilling, now: Time) returns (r: DbResult<Billing>)
      modifies this`billing
      ensures r.DbOk? <==> (forall x :: x in old(billing) ==> x.id != id && x.organizationId != b.organizationId)
                           && (exists o :: o in organizations && o.id == b.organizationId)
      ensures r.DbOk? ==> r.value == BillingRow(id, b, now) && billing == old(billing) + [r.value]
      ensures r.DbError? ==> billing == old(billing)
    {
      if Exists(billing, (x: Billing) => x.id == id || x.organizationId == b.organizationId)
        || OrganizationById(organizations, b.organizationId).None? {
        return DbError;
      }
      r := DbOk(BillingRow(id, b, now));
      billing := billing + [r.value];
    }

    // -------------------------------------------------------------- users

    /** `createUser`: rejected when the id or the e-mail is taken, the
        organisation does not exist, or the role is not one of the enum's. */
    method CreateUser(id: Id, u: NewUser, now: Time) returns (r: DbResult<User>)
      modifies this`users
      ensures r.DbOk? <==>
        (forall x :: x in old(users) ==> x.id != id && x.email != u.email)
        && (u.organizationId.Some? ==> exists o :: o in organizations && o.id == u.organizationId.value)
        && (u.role.Some? ==> ParseRole(u.role.value).Some?)
      ensures r.DbOk? ==> users == old(users) + [r.value]
      ensures r.DbOk? ==> r.value == UserRow(id, u, if u.role.Some? then ParseRole(u.role.value) else None, now)
      ensures r.DbError? ==> users == old(users)
    {
      if Exists(users, (x: User) => x.id == id || x.email == u.email)
        || (u.organizationId.Some? && OrganizationById(organizations, u.organizationId.value).None?)
        || (u.role.Some? && ParseRole(u.role.value).None?) {
        return DbError;
      }
      var role := if u.role.Some? then ParseRole(u.role.value) else None;
      r := DbOk(UserRow(id, u, role, now));
      users := users + [r.value];
    }

    /** `updateUser(id, data)`: rejected when no column is given, the role is
        not one of the enum's or the new e-mail belongs to another user;
        otherwise the rows with that id are patched and the first of them is
        returned. */
    method UpdateUser(id: Id, p: UserPatch) returns (r: DbResult<Option<User>>)
      modifies this`users
      ensures r.DbOk? <==>
        (!p.IsEmpty()
         && (p.role.Some? ==> ParseRole(p.role.value).Some?)
         && (p.email.Some? && UserById(old(users), id).Some? ==>
               forall x :: x in old(users) && x.id != id ==> x.email != p.email.value))
      ensures r.DbOk? ==>
        var role := if p.role.Some? then ParseRole(p.role.value) else None;
        users == UpdateWhere(old(users), UserId, id, UserPatcher(p, role))
        && r.value == (match UserById(old(users), id)
                       case Some(u) => Some(PatchUser(u, p, role))
                       case None => None)
      ensures r.DbError? ==> users == old(users)
    {
      if p.IsEmpty() || (p.role.Some? && ParseRole(p.role.value).None?)
        || (p.email.Some? && UserById(users, id).Some?
            && Exists(users, (x: User) => x.id != id && x.email == p.email.value)) {
        return DbError;
      }
      var role := if p.role.Some? then ParseRole(p.role.value) else None;
      var before := UserById(users, id);
      users := UpdateWhere(users, UserId, id, UserPatcher(p, role));
      r := DbOk(match before case Some(u) => Some(PatchUser(u, p, role)) case None => None);
    }

    // -------------------------------------------------------------- permissions

    /** `setUserPermission`: looks the (user, establishment) pair up; when a
        row exists it is updated in place and keeps its id, otherwise a row
        is inserted (rejected when the id is taken or the user or the
        establishment does not exist). */
    method SetUserPermission(id: Id, p: NewPermission, now: Time) returns (r: DbResult<Permission>)
      modifies this`permissions
      ensures old(Valid()) ==> Valid()
      ensures match PermissionFor(old(permissions), p.userId, p.establishmentId)
        case Some(existing) =>
          r == DbOk(PatchPermission(existing, p)) && r.value.id == existing.id
          && (old(Valid()) ==>
                exists i :: 0 <= i < |old(permissions)| && old(permissions)[i] == existing
                            && permissions == old(permissions)[i := r.value])
        case None =>
          (r.DbOk? <==> (forall x :: x in old(permissions) ==> x.id != id)
                        && (exists u :: u in users && u.id == p.userId)
                        && (exists e :: e in establishments && e.id == p.establishmentId))
          && (r.DbOk? ==> r.value == PermissionRow(id, p, now) && permissions == old(permissions) + [r.value])
          && (r.DbError? ==> permissions == old(permissions))
    {
      var i := FirstIndex(permissions, PairIs(p.userId, p.establishmentId));
      if i < |permissions| {
        var existing := permissions[i];
        var updated := PatchPermission(existing, p);
        ghost var before := permissions;
        permissions := UpdateWhere(permissions, PermissionId, existing.id, (x: Permission) => PatchPermission(x, p));
        r := DbOk(updated);
        if old(Valid()) {
          forall k | 0 <= k < |before| ensures permissions[k] == before[i := updated][k] {
            if k != i {
              assert PermissionId(before[k]) != PermissionId(before[i]);
            }
          }
          assert permissions == before[i := updated];
          ReplaceDistinct(before, i, updated, PermissionId);
          ReplaceDistinct(before, i, updated, PermissionPair);
        }
      } else {
        if Exists(permissions, (x: Permission) => x.id == id)
          || UserById(users, p.userId).None? || EstablishmentById(establishments, p.establishmentId).None? {
          return DbError;
        }
        var row := PermissionRow(id, p, now);
        if old(Valid()) {
          AppendDistinct(permissions, row, PermissionId);
          AppendDistinct(permissions, row, PermissionPair);
        }
        permissions := permissions + [row];
        r := DbOk(row);
      }
    }

    /** `deleteUserPermission`: removes every row of the pair and reports
        whether there was one; other rows are kept, in order. */
    method DeleteUserPermission(userId: Id, establishmentId: Id) returns (removed: bool)
      modifies this`permissions
      ensures old(Valid()) ==> Valid()
      ensures removed <==> exists p :: p in old(permissions) && p.userId == userId && p.establishmentId == establishmentId
      ensures permissions == Filter(old(permissions), (p: Permission) => !(p.userId == userId && p.establishmentId == establishmentId))
    {
      removed := PermissionFor(permissions, userId, establishmentId).Some?;
      var keep := (p: Permission) => !(p.userId == userId && p.establishmentId == establishmentId);
      if old(Valid()) {
        FilterDistinct(permissions, keep, PermissionId);
        FilterDistinct(permissions, keep, PermissionPair);
      }
      permissions := Filter(permissions, keep);
    }

    // -------------------------------------------------------------- establishments

    /** `createEstablishment`: rejected when the id is taken or the
        organisation does not exist. */
    method CreateEstablishment(id: Id, e: NewEstablishment, now: Time) returns (r: DbResult<Establishment>)
      modifies this`establishments
      ensures old(Valid()) ==> Valid()
      ensures r.DbOk? <==> (forall x :: x in old(establishments) ==> x.id != id)
                           && (exists o :: o in organizations && o.id == e.organizationId)
      ensures r.DbOk? ==> r.value == EstablishmentRow(id, e, now) && establishments == old(establishments) + [r.value]
      ensures r.DbError? ==> establishments == old(establishments)
    {
      if Exists(establishments, (e: Establishment) => e.id == id) || OrganizationById(organizations, e.organizationId).None? {
        return DbError;
      }
      r := DbOk(EstablishmentRow(id, e, now));
      establishments := establishments + [r.value];
    }

    /** `updateEstablishment(id, data)`: every given column is written, the
        key and `organizationId` included. An empty `SET` list is rejected
        outright; when a row with that id exists, so is a new organisation
        that does not exist, and a new key that is another row's or that
        permission or review rows still point at (their foreign keys take no
        action on update). */
    method UpdateEstablishment(id: Id, p: EstablishmentPatch) returns (r: DbResult<Option<Establishment>>)
      modifies this`establishments
      ensures old(Valid()) ==> Valid()
      ensures r.DbOk? <==>
        (!p.IsEmpty()
         && (EstablishmentById(old(establishments), id).Some? ==>
               (p.organizationId.Some? ==> exists o :: o in organizations && o.id == p.organizationId.value)
               && (p.id.Some? && p.id.value != id ==>
                     (forall x :: x in old(establishments) ==> x.id != p.id.value)
                     && (forall q :: q in permissions ==> q.establishmentId != id)
                     && (forall v :: v in reviews ==> v.establishmentId != id))))
      ensures r.DbOk? ==>
        establishments == UpdateWhere(old(establishments), EstablishmentId, id, (e: Establishment) => PatchEstablishment(e, p))
        && r.value == (match EstablishmentById(old(establishments), id)
                       case Some(e) => Some(PatchEstablishment(e, p))
                       case None => None)
      ensures r.DbError? ==> establishments == old(establishments)
    {
      var before := EstablishmentById(establishments, id);
      if !EstablishmentPatchAccepted(organizations, establishments, permissions, reviews, id, p) {
        return DbError;
      }
      establishments := UpdateWhere(establishments, EstablishmentId, id, (e: Establishment) => PatchEstablishment(e, p));
      r := DbOk(match before case Some(e) => Some(PatchEstablishment(e, p)) case None => None);
    }

    /** `deleteEstablishment(id)`: removes the establishment together with its
        permission rows, its reviews and those reviews' responses. */
    method DeleteEstablishment(id: Id) returns (removed: bool)
      modifies this`establishments, this`permissions, this`reviews, this`responses
      ensures old(Valid()) ==> Valid()
      ensures removed <==> exists e :: e in old(establishments) && e.id == id
      ensures establishments == Filter(old(establishments), (e: Establishment) => e.id != id)
      ensures permissions == Filter(old(permissions), (p: Permission) => p.establishmentId != id)
      ensures reviews == Filter(old(reviews), (v: Review) => v.establishmentId != id)
      ensures responses == Filter(old(responses), NotAnswering(ReviewIdsOf(old(reviews), id)))
    {
      removed := EstablishmentById(establishments, id).Some?;
      if old(Valid()) {
        DeleteCascadeValid(permissions, reviews, responses, id);
      }
      var gone := ReviewIdsOf(reviews, id);
      establishments := Filter(establishments, (e: Establishment) => e.id != id);
      permissions := Filter(permissions, (p: Permission) => p.establishmentId != id);
      reviews := Filter(reviews, (v: Review) => v.establishmentId != id);
      responses := Filter(responses, NotAnswering(gone));
    }

    // -------------------------------------------------------------- reviews, responses

    /** `updateReview(id, { status })`. */
    method UpdateReviewStatus(id: Id, status: ReviewStatus) returns (r: Option<Review>)
      modifies this`reviews
      ensures old(Valid()) ==> Valid()
      ensures reviews == UpdateWhere(old(reviews), ReviewId, id, SetStatus(status))
      ensures r == match ReviewById(old(reviews), id) case Some(v) => Some(v.(status := Some(status))) case None => None
    {
      r := match ReviewById(reviews, id) case Some(v) => Some(v.(status := Some(status))) case None => None;
      if old(Valid()) {
        UpdateReviewsValid(permissions, reviews, responses, id, status);
      }
      reviews := UpdateWhere(reviews, ReviewId, id, SetStatus(status));
    }

    /** `createResponse`: rejected when the id is taken, the review does not
        exist or the author does not. */
    method CreateResponse(id: Id, n: NewResponse, now: Time) returns (r: DbResult<Response>)
      modifies this`responses
      ensures r.DbOk? <==> (forall x :: x in old(responses) ==> x.id != id)
                           && (exists v :: v in reviews && v.id == n.reviewId)
                           && (n.userId.Some? ==> exists u :: u in users && u.id == n.userId.value)
      ensures r.DbOk? ==> r.value == ResponseRow(id, n, now) && responses == old(responses) + [r.value]
      ensures r.DbError? ==> responses == old(responses)
      ensures old(Valid()) && (forall x :: x in old(responses) ==> x.reviewId != n.reviewId) ==> Valid()
    {
      if Exists(responses, (x: Response) => x.id == id) || ReviewById(reviews, n.reviewId).None?
        || (n.userId.Some? && UserById(users, n.userId.value).None?) {
        return DbError;
      }
      var row := ResponseRow(id, n, now);
      if old(Valid()) && (forall x :: x in responses ==> x.reviewId != n.reviewId) {
        AppendDistinct(responses, row, ResponseId);
        AppendDistinct(responses, row, ResponseReview);
      }
      responses := responses + [row];
      r := DbOk(row);
    }

    /** `updateResponse(id, data)`: rejected only when a row with that id
        exists and the new author does not. */
    method UpdateResponse(id: Id, p: ResponsePatch) returns (r: DbResult<Option<Response>>)
      modifies this`responses
      ensures old(Valid()) ==> Valid()
      ensures r.DbOk? <==>
        !p.IsEmpty()
        && (p.userId.Some? && (exists s :: s in old(responses) && s.id == id) ==>
              exists u :: u in users && u.id == p.userId.value)
      ensures r.DbOk? ==>
        responses == UpdateWhere(old(responses), ResponseId, id, Patcher(p))
        && r.value == (match First(old(responses), (x: Response) => x.id == id)
                       case Some(s) => Some(PatchResponse(s, p))
                       case None => None)
      ensures r.DbError? ==> responses == old(responses)
    {
      if p.IsEmpty() {
        return DbError;
      }
      var before := First(responses, (x: Response) => x.id == id);
      if p.userId.Some? && before.Some? && UserById(users, p.userId.value).None? {
        return DbError;
      }
      if old(Valid()) {
        UpdateResponsesValid(permissions, reviews, responses, id, p);
      }
      responses := UpdateWhere(responses, ResponseId, id, Patcher(p));
      r := DbOk(match before case Some(s) => Some(PatchResponse(s, p)) case None => None);
    }

    // -------------------------------------------------------------- activity logs, templates

    /** `createActivityLog`: rejected when the id is taken or a referenced
        organisation or user does not exist. */
    method CreateActivityLog(id: Id, l: NewActivityLog, now: Time) returns (r: DbResult<ActivityLog>)
      modifies this`activityLogs
      ensures r.DbOk? <==> (forall x :: x in old(activityLogs) ==> x.id != id)
                           && (l.organizationId.Some? ==> exists o :: o in organizations && o.id == l.organizationId.value)
                           && (l.userId.Some? ==> exists u :: u in users && u.id == l.userId.value)
      ensures r.DbOk? ==> r.value == ActivityLogRow(id, l, now) && activityLogs == old(activityLogs) + [r.value]
      ensures r.DbError? ==> activityLogs == old(activityLogs)
    {
      if Exists(activityLogs, (x: ActivityLog) => x.id == id)
        || (l.organizationId.Some? && OrganizationById(organizations, l.organizationId.value).None?)
        || (l.userId.Some? && UserById(users, l.userId.value).None?) {
        return DbError;
      }
      r := DbOk(ActivityLogRow(id, l, now));
      activityLogs := activityLogs + [r.value];
    }

    /** `createAiTemplate`: rejected when the id is taken. */
    method CreateAiTemplate(id: Id, t: NewAiTemplate, now: Time) returns (r: DbResult<AiTemplate>)
      modifies this`aiTemplates
      ensures r.DbOk? <==> forall x :: x in old(aiTemplates) ==> x.id != id
      ensures r.DbOk? ==> r.value == AiTemplateRow(id, t, now) && aiTemplates == old(aiTemplates) + [r.value]
      ensures r.DbError? ==> aiTemplates == old(aiTemplates)
    {
      if Exists(aiTemplates, (x: AiTemplate) => x.id == id) {
        return DbError;
      }
      r := DbOk(AiTemplateRow(id, t, now));
      aiTemplates := aiTemplates + [r.value];
    }
  }
}
