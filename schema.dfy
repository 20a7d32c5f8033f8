/** The data model: the enumerations, the row shape of every table with the
    defaults a row receives when an insert omits a column, and the input
    validation rules for login, registration and invitations. */
module Schema {

  import opened Seqs
  import opened Text

  /** Primary and foreign keys are text (generated UUIDs). */
  type Id = string

  /** Timestamps, in milliseconds since the epoch. */
  type Time = int

  const DayMs: int := 86_400_000

  // ================================================================ enums

  datatype ReviewStatus = Pending | Responded | Ignored
  datatype Sentiment = Urgent | Positive | Neutral
  datatype AiTone = Formal | Friendly | Professional
  datatype OrgRole = Owner | Admin | Manager | Viewer
  datatype BillingStatus = Trial | Active | PastDue | Cancelled
  datatype ActivityType =
    | LoginActivity | ReviewResponded | AiGenerated | SettingsChanged | EstablishmentAdded | UserInvited

  function RoleName(r: OrgRole): string
  {
    match r
    case Owner => "owner"
    case Admin => "admin"
    case Manager => "manager"
    case Viewer => "viewer"
  }

  /** The database's check of a text value against the `org_role` enum. */
  function ParseRole(s: string): (r: Option<OrgRole>)
    ensures r.Some? <==> s == "owner" || s == "admin" || s == "manager" || s == "viewer"
    ensures r.Some? ==> RoleName(r.value) == s
  {
    if s == "owner" then Some(Owner)
    else if s == "admin" then Some(Admin)
    else if s == "manager" then Some(Manager)
    else if s == "viewer" then Some(Viewer)
    else None
  }

  /** Every role survives the trip through its database text. */
  lemma RoleRoundTrip(r: OrgRole)
    ensures ParseRole(RoleName(r)) == Some(r)
  {
  }

  function StatusName(s: ReviewStatus): string
  {
    match s
    case Pending => "pending"
    case Responded => "responded"
    case Ignored => "ignored"
  }

  function ToneName(t: AiTone): string
  {
    match t
    case Formal => "formal"
    case Friendly => "friendly"
    case Professional => "professional"
  }

  /** The database's (and the insert validator's) check against `ai_tone`. */
  function ParseTone(s: string): (r: Option<AiTone>)
    ensures r.Some? <==> s == "formal" || s == "friendly" || s == "professional"
    ensures r.Some? ==> ToneName(r.value) == s
  {
    if s == "formal" then Some(Formal)
    else if s == "friendly" then Some(Friendly)
    else if s == "professional" then Some(Professional)
    else None
  }

  /** Owners and admins have organisation-wide access; managers and viewers
      depend on per-establishment permission rows. */
  predicate IsOwnerOrAdmin(r: OrgRole)
  {
    r == Owner || r == Admin
  }

  // ================================================================ rows

  datatype Organization = Organization(
    id: Id, name: string, slug: string, logo: Option<string>,
    defaultAiTone: Option<AiTone>, defaultSignature: Option<string>,
    customPromptInstructions: Option<string>,
    maxUsers: Option<int>, maxEstablishments: Option<int>,
    isActive: bool, createdAt: Time)

  datatype User = User(
    id: Id, email: string, passwordHash: string, name: string, avatar: Option<string>,
    organizationId: Option<Id>, role: OrgRole, isSuperAdmin: bool, isActive: bool,
    lastLoginAt: Option<Time>, createdAt: Time)

  datatype Permission = Permission(
    id: Id, userId: Id, establishmentId: Id,
    canView: bool, canRespond: bool, canManage: bool, createdAt: Time)

  /** The Google Business Profile columns of an establishment, all nullable:
      the place, account and location identifiers and the OAuth tokens. */
  datatype GoogleLink = GoogleLink(
    placeId: Option<string>, accountId: Option<string>, locationId: Option<string>,
    accessToken: Option<string>, refreshToken: Option<string>)
  {
    predicate IsEmpty()
    {
      placeId.None? && accountId.None? && locationId.None? && accessToken.None? && refreshToken.None?
    }
  }

  datatype Establishment = Establishment(
    id: Id, organizationId: Id, google: GoogleLink, name: string, address: Option<string>, phone: Option<string>,
    aiTone: Option<AiTone>, signatureTemplate: Option<string>, isActive: bool, createdAt: Time)

  datatype Review = Review(
    id: Id, establishmentId: Id, googleReviewId: Option<string>, authorName: string,
    rating: int, content: Option<string>, publishedAt: Time,
    sentiment: Option<Sentiment>, status: Option<ReviewStatus>, createdAt: Time)

  datatype Response = Response(
    id: Id, reviewId: Id, userId: Option<Id>, aiGeneratedText: string,
    finalText: Option<string>, postedToGoogle: Option<bool>, postedAt: Option<Time>,
    createdAt: Time)

  datatype ActivityLog = ActivityLog(
    id: Id, organizationId: Option<Id>, userId: Option<Id>, activityType: ActivityType,
    description: string, ipAddress: Option<string>, userAgent: Option<string>, createdAt: Time)

  datatype Billing = Billing(
    id: Id, organizationId: Id, status: BillingStatus, planName: Option<string>,
    trialEndsAt: Option<Time>, currentPeriodEnd: Option<Time>, createdAt: Time, updatedAt: Time)

  datatype AiTemplate = AiTemplate(
    id: Id, name: string, description: Option<string>, promptTemplate: string,
    category: Option<string>, isActive: bool, createdAt: Time, updatedAt: Time)

  // ================================================================ inserts and defaults
  // An insert names some columns; `None` means the column was left out and
  // takes its default.

  datatype NewOrganization = NewOrganization(
    name: string, slug: string, maxUsers: Option<int>, maxEstablishments: Option<int>,
    isActive: Option<bool>)

  /** An organisation row as the table's defaults complete it. */
  function OrganizationRow(id: Id, o: NewOrganization, now: Time): (r: Organization)
    ensures r.id == id && r.name == o.name && r.slug == o.slug && r.createdAt == now
    ensures r.defaultAiTone == Some(Professional)
    ensures r.maxUsers == Some(o.maxUsers.GetOr(5)) && r.maxEstablishments == Some(o.maxEstablishments.GetOr(10))
    ensures r.isActive == o.isActive.GetOr(true)
  {
    Organization(id, o.name, o.slug, None, Some(Professional), None, None,
                 Some(o.maxUsers.GetOr(5)), Some(o.maxEstablishments.GetOr(10)),
                 o.isActive.GetOr(true), now)
  }

  /** A user insert; `role` is text, checked against the enum by the database. */
  datatype NewUser = NewUser(
    email: string, passwordHash: string, name: string, organizationId: Option<Id>,
    role: Option<string>, isSuperAdmin: Option<bool>, isActive: Option<bool>)

  /** A user row as the defaults complete it, given the already checked role. */
  function UserRow(id: Id, u: NewUser, role: Option<OrgRole>, now: Time): (r: User)
    ensures r.id == id && r.email == u.email && r.passwordHash == u.passwordHash && r.name == u.name
    ensures r.organizationId == u.organizationId && r.createdAt == now
    ensures r.role == role.GetOr(Viewer)
    ensures r.isSuperAdmin == u.isSuperAdmin.GetOr(false) && r.isActive == u.isActive.GetOr(true)
    ensures r.lastLoginAt == None
  {
    User(id, u.email, u.passwordHash, u.name, None, u.organizationId, role.GetOr(Viewer),
         u.isSuperAdmin.GetOr(false), u.isActive.GetOr(true), None, now)
  }

  datatype NewPermission = NewPermission(
    userId: Id, establishmentId: Id,
    canView: Option<bool>, canRespond: Option<bool>, canManage: Option<bool>)

  /** A fresh permission row: view granted, respond and manage withheld unless given. */
  function PermissionRow(id: Id, p: NewPermission, now: Time): (r: Permission)
    ensures r.id == id && r.userId == p.userId && r.establishmentId == p.establishmentId
    ensures r.canView == p.canView.GetOr(true)
    ensures r.canRespond == p.canRespond.GetOr(false)
    ensures r.canManage == p.canManage.GetOr(false)
    ensures r.createdAt == now
  {
    Permission(id, p.userId, p.establishmentId,
               p.canView.GetOr(true), p.canRespond.GetOr(false), p.canManage.GetOr(false), now)
  }

  datatype NewEstablishment = NewEstablishment(
    organizationId: Id, google: GoogleLink, name: string, address: Option<string>, phone: Option<string>,
    aiTone: Option<AiTone>, signatureTemplate: Option<string>, isActive: Option<bool>)

  function EstablishmentRow(id: Id, e: NewEstablishment, now: Time): (r: Establishment)
    ensures r.id == id && r.organizationId == e.organizationId && r.name == e.name && r.google == e.google
    ensures r.aiTone == Some(e.aiTone.GetOr(Professional))
    ensures r.isActive == e.isActive.GetOr(true)
  {
    Establishment(id, e.organizationId, e.google, e.name, e.address, e.phone,
                  Some(e.aiTone.GetOr(Professional)), e.signatureTemplate, e.isActive.GetOr(true), now)
  }

  datatype NewReview = NewReview(
    establishmentId: Id, googleReviewId: Option<string>, authorName: string, rating: int,
    content: Option<string>, publishedAt: Time, sentiment: Option<Sentiment>,
    status: Option<ReviewStatus>)

  /** A fresh review row: status pending and sentiment neutral unless given. */
  function ReviewRow(id: Id, v: NewReview, now: Time): (r: Review)
    ensures r.id == id && r.establishmentId == v.establishmentId
    ensures r.status == Some(v.status.GetOr(Pending))
    ensures r.sentiment == Some(v.sentiment.GetOr(Neutral))
  {
    Review(id, v.establishmentId, v.googleReviewId, v.authorName, v.rating, v.content,
           v.publishedAt, Some(v.sentiment.GetOr(Neutral)), Some(v.status.GetOr(Pending)), now)
  }

  datatype NewResponse = NewResponse(
    reviewId: Id, userId: Option<Id>, aiGeneratedText: string, finalText: Option<string>,
    postedToGoogle: Option<bool>, postedAt: Option<Time>)

  /** A fresh response row: not posted unless given; the AI text is mandatory. */
  function ResponseRow(id: Id, n: NewResponse, now: Time): (r: Response)
    ensures r.id == id && r.reviewId == n.reviewId && r.userId == n.userId
    ensures r.aiGeneratedText == n.aiGeneratedText && r.finalText == n.finalText
    ensures r.postedToGoogle == Some(n.postedToGoogle.GetOr(false)) && r.postedAt == n.postedAt
  {
    Response(id, n.reviewId, n.userId, n.aiGeneratedText, n.finalText,
             Some(n.postedToGoogle.GetOr(false)), n.postedAt, now)
  }

  datatype NewBilling = NewBilling(
    organizationId: Id, status: Option<BillingStatus>, planName: Option<string>, trialEndsAt: Option<Time>)

  /** A fresh billing row: status and plan "trial" unless given. */
  function BillingRow(id: Id, b: NewBilling, now: Time): (r: Billing)
    ensures r.id == id && r.organizationId == b.organizationId
    ensures r.status == b.status.GetOr(Trial) && r.planName == Some(b.planName.GetOr("trial"))
    ensures r.trialEndsAt == b.trialEndsAt && r.currentPeriodEnd == None
  {
    Billing(id, b.organizationId, b.status.GetOr(Trial), Some(b.planName.GetOr("trial")),
            b.trialEndsAt, None, now, now)
  }

  datatype NewAiTemplate = NewAiTemplate(
    name: string, description: Option<string>, promptTemplate: string,
    category: Option<string>, isActive: Option<bool>)

  function AiTemplateRow(id: Id, t: NewAiTemplate, now: Time): (r: AiTemplate)
    ensures r.id == id && r.name == t.name && r.promptTemplate == t.promptTemplate
    ensures r.category == Some(t.category.GetOr("general")) && r.isActive == t.isActive.GetOr(true)
  {
    AiTemplate(id, t.name, t.description, t.promptTemplate,
               Some(t.category.GetOr("general")), t.isActive.GetOr(true), now, now)
  }

  datatype NewActivityLog = NewActivityLog(
    organizationId: Option<Id>, userId: Option<Id>, activityType: ActivityType,
    description: string, ipAddress: Option<string>, userAgent: Option<string>)

  function ActivityLogRow(id: Id, l: NewActivityLog, now: Time): (r: ActivityLog)
    ensures r.id == id && r.activityType == l.activityType && r.createdAt == now
    ensures r.organizationId == l.organizationId && r.userId == l.userId
  {
    ActivityLog(id, l.organizationId, l.userId, l.activityType, l.description,
                l.ipAddress, l.userAgent, now)
  }

  // ================================================================ input validation

  /** JavaScript's `length`: UTF-16 code units, two for a character outside
      the Basic Multilingual Plane. */
  function JsLength(s: string): (n: nat)
    ensures |s| <= n <= 2 * |s|
  {
    if s == [] then 0
    else (if s[0] as int > 0xFFFF then 2 else 1) + JsLength(s[1..])
  }

  predicate IsAsciiLetter(c: char) { 'a' <= c <= 'z' || 'A' <= c <= 'Z' }
  predicate IsAsciiAlnum(c: char) { IsAsciiLetter(c) || '0' <= c <= '9' }

  predicate IsLocalChar(c: char)
  {
    IsAsciiAlnum(c) || c == '_' || c == '\'' || c == '+' || c == '-' || c == '.'
  }

  /** The local part of an e-mail address: allowed characters only, not
      starting with a dot, no two dots in a row, and a last character that is
      neither a dot nor an apostrophe. */
  predicate ValidLocalPart(l: string)
  {
    |l| >= 1 && l[0] != '.'
    && (forall i :: 0 <= i < |l| ==> IsLocalChar(l[i]))
    && (forall i :: 0 <= i < |l| - 1 ==> !(l[i] == '.' && l[i + 1] == '.'))
    && l[|l| - 1] != '.' && l[|l| - 1] != '\''
  }

  /** One dot-separated label of a domain: a letter or digit, then letters,
      digits and hyphens. */
  predicate ValidLabel(s: string)
  {
    |s| >= 1 && IsAsciiAlnum(s[0]) && forall i :: 0 <= i < |s| ==> IsAsciiAlnum(s[i]) || s[i] == '-'
  }

  /** The top-level part of a domain: two or more letters. */
  predicate ValidTopLevel(t: string)
  {
    |t| >= 2 && forall k :: 0 <= k < |t| ==> IsAsciiLetter(t[k])
  }

  /** One or more labels, each followed by a dot, then a top-level part of at
      least two letters. */
  predicate ValidDomain(d: string)
  {
    var labels := Split(d, '.');
    |labels| >= 2
    && (forall i :: 0 <= i < |labels| - 1 ==> ValidLabel(labels[i]))
    && ValidTopLevel(labels[|labels| - 1])
  }

  /** `z.string().email()`: Zod's e-mail pattern, case-insensitive. */
  predicate ValidEmail(s: string)
  {
    var parts := Split(s, '@');
    |parts| == 2 && ValidLocalPart(parts[0]) && ValidDomain(parts[1])
  }

  /** A well-formed address is a local part, one `@` and a domain. */
  lemma ValidEmailShape(s: string)
    requires ValidEmail(s)
    ensures exists l, d :: s == l + "@" + d && '@' !in l && '@' !in d && ValidLocalPart(l) && ValidDomain(d)
  {
    var parts := Split(s, '@');
    JoinSplit(s, '@');
    assert Join(parts, '@') == parts[0] + "@" + Join(parts[1..], '@');
    assert s == parts[0] + "@" + parts[1];
  }

  /** The body of a login request; `None` is a missing field. */
  datatype LoginBody = LoginBody(email: Option<string>, password: Option<string>)

  /** `loginSchema`: a well-formed e-mail and a password of six or more characters. */
  predicate LoginValid(b: LoginBody)
  {
    b.email.Some? && ValidEmail(b.email.value) && b.password.Some? && JsLength(b.password.value) >= 6
  }

  datatype RegisterBody = RegisterBody(
    email: Option<string>, password: Option<string>, name: Option<string>, organizationName: Option<string>)

  /** `registerSchema`: as for login, plus a name of two or more characters
      and, when given, an organisation name of two or more characters. */
  predicate RegisterValid(b: RegisterBody)
  {
    b.email.Some? && ValidEmail(b.email.value)
    && b.password.Some? && JsLength(b.password.value) >= 6
    && b.name.Some? && JsLength(b.name.value) >= 2
    && (b.organizationName.Some? ==> JsLength(b.organizationName.value) >= 2)
  }

  datatype InviteBody = InviteBody(
    email: Option<string>, name: Option<string>, role: Option<string>, establishmentIds: Option<seq<string>>)

  /** `inviteUserSchema`: the role offered to an invitee is admin, manager or viewer. */
  predicate InviteValid(b: InviteBody)
  {
    b.email.Some? && ValidEmail(b.email.value)
    && b.name.Some? && JsLength(b.name.value) >= 2
    && b.role.Some? && (b.role.value == "admin" || b.role.value == "manager" || b.role.value == "viewer")
  }

  /** An accepted invitation never grants the owner role. */
  lemma InviteNeverOwner(b: InviteBody)
    requires InviteValid(b)
    ensures ParseRole(b.role.value).Some? && ParseRole(b.role.value) != Some(Owner)
  {
  }
}
