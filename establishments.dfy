/** The establishments endpoint: list, create, read, update and delete, each
    gated by the caller's role, organisation and permission rows. The access
    decisions are functions of the caller and the rows; the three writing
    branches are methods over the `Store`. */
module Establishments {

  import opened Seqs
  import opened Text
  import opened Schema
  import opened Storage
  import opened Http

  /** The request body as the handler receives it: text stays text (the tone
      is checked later, by the schema or by the database). `id` and
      `createdAt` are columns too: the create schema drops them, the raw
      update writes them. A JSON body carries `createdAt` only as text. */
  datatype EstablishmentBody = EstablishmentBody(
    id: Option<string>, organizationId: Option<string>, google: GoogleLink, name: Option<string>,
    address: Option<string>, phone: Option<string>, aiTone: Option<string>, signatureTemplate: Option<string>,
    isActive: Option<bool>, createdAt: Option<string>)

  /** What a successful request answers with. */
  datatype Out = Listed(items: seq<Establishment>) | Single(item: Establishment)

  datatype Route = ListAll | CreateOne | ReadOne | UpdateOne | DeleteOne | Unsupported

  /** The handler's dispatch, in source order: the `id` query parameter
      counts as present only when it is a non-empty string. */
  function RouteOf(m: Method, id: Option<string>): (r: Route)
    ensures r == Unsupported <==>
      ((m == Post && Truthy(id)) || m == OtherMethod || (m == Delete && !Truthy(id))
       || ((m == Put || m == Patch) && !Truthy(id)))
    ensures r in {CreateOne, ListAll} ==> !Truthy(id)
    ensures r in {ReadOne, UpdateOne, DeleteOne} ==> Truthy(id)
  {
    match m
    case Get => if Truthy(id) then ReadOne else ListAll
    case Post => if Truthy(id) then Unsupported else CreateOne
    case Put => if Truthy(id) then UpdateOne else Unsupported
    case Patch => if Truthy(id) then UpdateOne else Unsupported
    case Delete => if Truthy(id) then DeleteOne else Unsupported
    case OtherMethod => Unsupported
  }

  // ================================================================ decisions

  function IdIn(ids: seq<Id>): Establishment -> bool
  {
    (e: Establishment) => e.id in ids
  }

  /** The list branch: nothing without an organisation; the organisation's
      establishments, narrowed to those the caller may see. */
  function ListVisible(u: User, ests: seq<Establishment>, perms: seq<Permission>): (r: seq<Establishment>)
    ensures !Truthy(u.organizationId) ==> r == []
    ensures forall e :: e in r <==>
      Truthy(u.organizationId) && e in ests && e.organizationId == u.organizationId.value && MaySee(u, ests, perms, e.id)
  {
    if !Truthy(u.organizationId) then []
    else
      var all := EstablishmentsOf(ests, u.organizationId.value);
      if IsOwnerOrAdmin(u.role) then all
      else Filter(all, IdIn(EstablishmentIdsForUser(u, ests, perms)))
  }

  /** Owners and admins of an organisation list every establishment of it. */
  lemma ListForOwnerOrAdmin(u: User, ests: seq<Establishment>, perms: seq<Permission>)
    requires IsOwnerOrAdmin(u.role) && Truthy(u.organizationId)
    ensures ListVisible(u, ests, perms) == EstablishmentsOf(ests, u.organizationId.value)
  {
  }

  /** A manager or viewer holding a viewing grant for an establishment of
      another organisation can read it by id, yet never sees it listed. */
  lemma {:induction false} GrantOutsideOrganisationReadableNotListed(
    u: User, ests: seq<Establishment>, perms: seq<Permission>, e: Establishment, p: Permission)
    requires !IsOwnerOrAdmin(u.role)
    requires e in ests && DistinctKeys(ests, EstablishmentId)
    requires p in perms && p.userId == u.id && p.establishmentId == e.id && p.canView
    requires u.organizationId != Some(e.organizationId)
    ensures Read(u, ests, perms, e.id) == Json(200, Single(e))
    ensures e !in ListVisible(u, ests, perms)
  {
    var found := EstablishmentById(ests, e.id);
    var i :| 0 <= i < |ests| && ests[i] == e;
    var j :| 0 <= j < |ests| && ests[j] == found.value;
    assert EstablishmentId(ests[i]) == EstablishmentId(ests[j]);
    assert MaySee(u, ests, perms, e.id);
  }

  /** The read branch: 404 when there is no such establishment (checked
      first), 403 when the caller may not see it, the row otherwise. */
  function Read(u: User, ests: seq<Establishment>, perms: seq<Permission>, id: Id): (r: Reply<Out>)
    ensures r.Status() == 404 <==> forall e :: e in ests ==> e.id != id
    ensures r.Status() == 403 <==> (exists e :: e in ests && e.id == id) && !MaySee(u, ests, perms, id)
    ensures r.Status() in {200, 403, 404}
    ensures r.Status() == 200 ==> r.Json? && r.value.Single? && r.value.item in ests && r.value.item.id == id
  {
    match EstablishmentById(ests, id)
    case None => Error(404, "Not found")
    case Some(e) =>
      if e.id !in EstablishmentIdsForUser(u, ests, perms) then Error(403, "Access denied")
      else Json(200, Single(e))
  }

  /** The update branch's permission test: owners and admins need the
      establishment to be in their organisation; managers and viewers need
      the permission row of the pair to grant `canManage` (viewing is not
      required, and the organisation is not compared). */
  function MayUpdate(u: User, e: Establishment, perms: seq<Permission>): bool
  {
    if IsOwnerOrAdmin(u.role) then u.organizationId == Some(e.organizationId)
    else
      var p := PermissionFor(perms, u.id, e.id);
      p.Some? && p.value.canManage
  }

  /** With one permission row per pair, the update test is: same
      organisation for owners and admins, a managing grant for the others. */
  lemma {:induction false} MayUpdateIff(u: User, e: Establishment, perms: seq<Permission>)
    requires DistinctKeys(perms, PermissionPair)
    ensures MayUpdate(u, e, perms) <==>
      if IsOwnerOrAdmin(u.role) then u.organizationId == Some(e.organizationId)
      else exists p :: p in perms && p.userId == u.id && p.establishmentId == e.id && p.canManage
  {
    if !IsOwnerOrAdmin(u.role) {
      var first := PermissionFor(perms, u.id, e.id);
      if q :| q in perms && q.userId == u.id && q.establishmentId == e.id && q.canManage {
        var i :| 0 <= i < |perms| && perms[i] == q;
        var j :| 0 <= j < |perms| && perms[j] == first.value;
        assert PermissionPair(perms[i]) == PermissionPair(perms[j]);
      }
    }
  }

  /** The delete branch's test, after the role check: the establishment
      exists and belongs to the caller's organisation. */
  predicate MayDelete(u: User, found: Option<Establishment>)
  {
    found.Some? && u.organizationId == Some(found.value.organizationId)
  }

  // ================================================================ parsing the body

  /** `insertEstablishmentSchema` on the body with the caller's organisation
      written over whatever the body says: a name is required and a tone,
      when given, must be one of the enum's. */
  function ParseCreate(body: EstablishmentBody, orgId: Id): (r: Option<NewEstablishment>)
    ensures r.Some? <==> body.name.Some? && (body.aiTone.Some? ==> ParseTone(body.aiTone.value).Some?)
    ensures r.Some? ==> r.value.organizationId == orgId && r.value.name == body.name.value
    ensures r.Some? ==>
      r.value.google == body.google && r.value.address == body.address
      && r.value.phone == body.phone && r.value.signatureTemplate == body.signatureTemplate
      && r.value.isActive == body.isActive
      && (body.aiTone.Some? ==> r.value.aiTone.Some? && ToneName(r.value.aiTone.value) == body.aiTone.value)
  {
    if body.name.None? || (body.aiTone.Some? && ParseTone(body.aiTone.value).None?) then None
    else
      var tone := if body.aiTone.Some? then ParseTone(body.aiTone.value) else None;
      Some(NewEstablishment(orgId, body.google, body.name.value, body.address, body.phone, tone,
                            body.signatureTemplate, body.isActive))
  }

  /** The raw body as a set of columns; `None` when the statement cannot be
      built or sent: a tone that is not one of the enum's (the database
      rejects it) or a `createdAt`, which arrives as text where the query
      builder expects a date. */
  function RawPatch(body: EstablishmentBody): (r: Option<EstablishmentPatch>)
    ensures r.Some? <==> body.createdAt.None? && (body.aiTone.Some? ==> ParseTone(body.aiTone.value).Some?)
    ensures r.Some? ==>
      r.value.id == body.id && r.value.organizationId == body.organizationId
      && r.value.google == body.google && r.value.name == body.name && r.value.address == body.address
      && r.value.phone == body.phone && r.value.signatureTemplate == body.signatureTemplate
      && r.value.isActive == body.isActive
      && (r.value.aiTone.Some? <==> body.aiTone.Some?)
      && (body.aiTone.Some? ==> ToneName(r.value.aiTone.value) == body.aiTone.value)
  {
    if body.createdAt.Some? || (body.aiTone.Some? && ParseTone(body.aiTone.value).None?) then None
    else
      var tone := if body.aiTone.Some? then ParseTone(body.aiTone.value) else None;
      Some(EstablishmentPatch(body.id, body.organizationId, body.google, body.name, body.address, body.phone, tone,
                              body.signatureTemplate, body.isActive))
  }

  // ================================================================ the writing branches

  /** The create branch: 403 for managers and viewers, 400 without an
      organisation or with an invalid body; otherwise the row is inserted in
      the caller's organisation, whatever the body names. */
  method Create(store: Store, u: User, body: EstablishmentBody, newId: Id, now: Time) returns (reply: Reply<Out>)
    modifies store`establishments
    ensures !IsOwnerOrAdmin(u.role) ==> reply == Error(403, "Only owners and admins can create establishments")
    ensures IsOwnerOrAdmin(u.role) && !Truthy(u.organizationId) ==>
      reply == Error(400, "User must belong to an organization")
    ensures IsOwnerOrAdmin(u.role) && Truthy(u.organizationId) && ParseCreate(body, u.organizationId.value).None? ==>
      reply == Error(400, "Invalid input")
    ensures reply.Status() in {201, 400, 403, 500}
    ensures reply.Status() == 201 <==>
      IsOwnerOrAdmin(u.role) && Truthy(u.organizationId)
      && ParseCreate(body, u.organizationId.value).Some?
      && (forall x :: x in old(store.establishments) ==> x.id != newId)
      && (exists o :: o in store.organizations && o.id == u.organizationId.value)
    ensures reply.Status() == 201 ==>
      reply.Json? && reply.value.Single? && reply.value.item.organizationId == u.organizationId.value
      && reply.value.item == EstablishmentRow(newId, ParseCreate(body, u.organizationId.value).value, now)
      && store.establishments == old(store.establishments) + [reply.value.item]
    ensures reply.Status() != 201 ==> store.establishments == old(store.establishments)
  {
    if !IsOwnerOrAdmin(u.role) {
      return Error(403, "Only owners and admins can create establishments");
    }
    if !Truthy(u.organizationId) {
      return Error(400, "User must belong to an organization");
    }
    var parsed := ParseCreate(body, u.organizationId.value);
    if parsed.None? {
      return Error(400, "Invalid input");
    }
    var created := store.CreateEstablishment(newId, parsed.value, now);
    if created.DbError? {
      return ServerError();
    }
    reply := Json(201, Single(created.value));
  }

  /** The update branch: 404 when missing, 403 unless `MayUpdate`; then the
      raw body is written, so any column, the key and the organisation
      included, can change. A bad tone, a `createdAt`, an empty body, an
      unknown organisation or a key that is taken or still referenced fails
      the statement (500). */
  method Update(store: Store, u: User, id: Id, body: EstablishmentBody) returns (reply: Reply<Out>)
    modifies store`establishments
    ensures old(store.Valid()) ==> store.Valid()
    ensures reply.Status() == 404 <==> EstablishmentById(old(store.establishments), id).None?
    ensures reply.Status() == 403 <==>
      EstablishmentById(old(store.establishments), id).Some?
      && !MayUpdate(u, EstablishmentById(old(store.establishments), id).value, store.permissions)
    ensures reply.Status() == 200 ==>
      var e := EstablishmentById(old(store.establishments), id).value;
      MayUpdate(u, e, store.permissions) && RawPatch(body).Some?
      && var patch := RawPatch(body).value;
      reply == Json(200, Single(PatchEstablishment(e, patch)))
      && store.establishments
         == UpdateWhere(old(store.establishments), EstablishmentId, id, (x: Establishment) => PatchEstablishment(x, patch))
    ensures reply.Status() == 200 <==>
      var found := EstablishmentById(old(store.establishments), id);
      found.Some? && MayUpdate(u, found.value, store.permissions) && RawPatch(body).Some?
      && var p := RawPatch(body).value;
      !p.IsEmpty()
      && (p.organizationId.Some? ==> exists o :: o in store.organizations && o.id == p.organizationId.value)
      && (p.id.Some? && p.id.value != id ==>
            (forall x :: x in old(store.establishments) ==> x.id != p.id.value)
            && (forall q :: q in store.permissions ==> q.establishmentId != id)
            && (forall v :: v in store.reviews ==> v.establishmentId != id))
    ensures reply.Status() != 200 ==> store.establishments == old(store.establishments)
    ensures reply.Status() in {200, 403, 404, 500}
  {
    var found := EstablishmentById(store.establishments, id);
    if found.None? {
      return Error(404, "Not found");
    }
    if !MayUpdate(u, found.value, store.permissions) {
      return Error(403, "Access denied");
    }
    var patch := RawPatch(body);
    if patch.None? {
      return ServerError();
    }
    var updated := store.UpdateEstablishment(id, patch.value);
    if updated.DbError? {
      return ServerError();
    }
    reply := Json(200, Single(updated.value.value));
  }

  /** An owner or admin can move an establishment of their organisation to
      any existing organisation by naming it in the update body. */
  lemma UpdateCanMoveOrganisation(u: User, e: Establishment, perms: seq<Permission>, body: EstablishmentBody, target: Id)
    requires IsOwnerOrAdmin(u.role) && u.organizationId == Some(e.organizationId)
    requires body.organizationId == Some(target) && body.aiTone.None? && body.createdAt.None?
    ensures MayUpdate(u, e, perms)
    ensures RawPatch(body).Some? && PatchEstablishment(e, RawPatch(body).value).organizationId == target
  {
  }

  /** The delete branch: 403 for managers and viewers before any lookup, 404
      when the establishment is missing or in another organisation; then the
      establishment and everything that cascades from it is removed. */
  method Remove(store: Store, u: User, id: Id) returns (reply: Reply<Out>)
    modifies store`establishments, store`permissions, store`reviews, store`responses
    ensures old(store.Valid()) ==> store.Valid()
    ensures !IsOwnerOrAdmin(u.role) ==> reply.Status() == 403
    ensures IsOwnerOrAdmin(u.role) && !MayDelete(u, EstablishmentById(old(store.establishments), id)) ==> reply.Status() == 404
    ensures reply.Status() == 204 <==> IsOwnerOrAdmin(u.role) && MayDelete(u, EstablishmentById(old(store.establishments), id))
    ensures reply.Status() == 204 ==>
      store.establishments == Filter(old(store.establishments), (e: Establishment) => e.id != id)
      && store.permissions == Filter(old(store.permissions), (p: Permission) => p.establishmentId != id)
      && store.reviews == Filter(old(store.reviews), (v: Review) => v.establishmentId != id)
      && store.responses == Filter(old(store.responses), NotAnswering(ReviewIdsOf(old(store.reviews), id)))
    ensures reply.Status() != 204 ==>
      store.establishments == old(store.establishments) && store.permissions == old(store.permissions)
      && store.reviews == old(store.reviews) && store.responses == old(store.responses)
  {
    if !IsOwnerOrAdmin(u.role) {
      return Error(403, "Only owners and admins can delete establishments");
    }
    var found := EstablishmentById(store.establishments, id);
    if !MayDelete(u, found) {
      return Error(404, "Not found");
    }
    var _ := store.DeleteEstablishment(id);
    reply := NoContent;
  }

  // ================================================================ the handler

  /** The whole endpoint: 401 before anything else when the caller is not
      authenticated, then the branch `RouteOf` selects. */
  method Handle(store: Store, caller: Option<User>, m: Method, id: Option<string>, body: EstablishmentBody,
                newId: Id, now: Time) returns (reply: Reply<Out>)
    modifies store`establishments, store`permissions, store`reviews, store`responses
    ensures old(store.Valid()) ==> store.Valid()
    ensures caller.None? ==> reply == Error(401, "Unauthorized")
    ensures caller.None? || RouteOf(m, id) in {ListAll, ReadOne, Unsupported} ==>
      store.establishments == old(store.establishments) && store.permissions == old(store.permissions)
      && store.reviews == old(store.reviews) && store.responses == old(store.responses)
    ensures caller.Some? && RouteOf(m, id) == ListAll ==>
      reply == Json(200, Listed(ListVisible(caller.value, store.establishments, store.permissions)))
    ensures caller.Some? && RouteOf(m, id) == ReadOne ==>
      reply == Read(caller.value, store.establishments, store.permissions, id.value)
    ensures caller.Some? && RouteOf(m, id) == Unsupported ==> reply.Status() == 405
    ensures caller.Some? && RouteOf(m, id) == CreateOne ==>
      var u := caller.value;
      (!IsOwnerOrAdmin(u.role) ==> reply == Error(403, "Only owners and admins can create establishments"))
      && (IsOwnerOrAdmin(u.role) && !Truthy(u.organizationId) ==>
            reply == Error(400, "User must belong to an organization"))
      && (IsOwnerOrAdmin(u.role) && Truthy(u.organizationId) && ParseCreate(body, u.organizationId.value).None? ==>
            reply == Error(400, "Invalid input"))
      && (reply.Status() == 201 <==>
            IsOwnerOrAdmin(u.role) && Truthy(u.organizationId)
            && ParseCreate(body, u.organizationId.value).Some?
            && (forall x :: x in old(store.establishments) ==> x.id != newId)
            && (exists o :: o in store.organizations && o.id == u.organizationId.value))
      && (reply.Status() == 201 ==>
            reply == Json(201, Single(EstablishmentRow(newId, ParseCreate(body, u.organizationId.value).value, now)))
            && store.establishments == old(store.establishments) + [reply.value.item])
      && (reply.Status() != 201 ==> store.establishments == old(store.establishments))
      && reply.Status() in {201, 400, 403, 500}
    ensures caller.Some? && RouteOf(m, id) == UpdateOne ==>
      var u := caller.value;
      var found := EstablishmentById(old(store.establishments), id.value);
      (reply.Status() == 404 <==> found.None?)
      && (reply.Status() == 403 <==> found.Some? && !MayUpdate(u, found.value, store.permissions))
      && (reply.Status() == 200 ==>
            MayUpdate(u, found.value, store.permissions) && RawPatch(body).Some?
            && var patch := RawPatch(body).value;
            reply == Json(200, Single(PatchEstablishment(found.value, patch)))
            && store.establishments
               == UpdateWhere(old(store.establishments), EstablishmentId, id.value,
                              (x: Establishment) => PatchEstablishment(x, patch)))
      && (reply.Status() != 200 ==> store.establishments == old(store.establishments))
      && reply.Status() in {200, 403, 404, 500}
    ensures caller.Some? && RouteOf(m, id) == DeleteOne ==>
      var u := caller.value;
      (!IsOwnerOrAdmin(u.role) ==> reply.Status() == 403)
      && (reply.Status() == 204 <==>
            IsOwnerOrAdmin(u.role) && MayDelete(u, EstablishmentById(old(store.establishments), id.value)))
      && (reply.Status() == 204 ==>
            store.establishments == Filter(old(store.establishments), (e: Establishment) => e.id != id.value)
            && store.permissions == Filter(old(store.permissions), (p: Permission) => p.establishmentId != id.value)
            && store.reviews == Filter(old(store.reviews), (v: Review) => v.establishmentId != id.value)
            && store.responses == Filter(old(store.responses), NotAnswering(ReviewIdsOf(old(store.reviews), id.value))))
      && (reply.Status() != 204 ==>
            store.establishments == old(store.establishments) && store.permissions == old(store.permissions)
            && store.reviews == old(store.reviews) && store.responses == old(store.responses))
  {
    if caller.None? {
      return Error(401, "Unauthorized");
    }
    var u := caller.value;
    match RouteOf(m, id)
    case ListAll =>
      reply := Json(200, Listed(ListVisible(u, store.establishments, store.permissions)));
    case CreateOne =>
      reply := Create(store, u, body, newId, now);
    case ReadOne =>
      reply := Read(u, store.establishments, store.permissions, id.value);
    case UpdateOne =>
      reply := Update(store, u, id.value, body);
    case DeleteOne =>
      reply := Remove(store, u, id.value);
    case Unsupported =>
      reply := NotAllowed();
  }
}
