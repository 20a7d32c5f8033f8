/** The reviews endpoint: the filtered review list, the generation of a reply
    by the language model, and the posting of the final reply. The model call
    is a parameter `ai` from the prompt to the text it answers with, or to
    nothing when the call fails. */
module Reviews {

  import opened Seqs
  import opened Text
  import opened Schema
  import opened Storage
  import opened Http

  /** What a successful request answers with. */
  datatype Out =
    | Listed(items: seq<Review>)
    | Generated(response: string, responseId: Option<Id>)
    | Posted(posted: Option<Response>)

  datatype Route = ListReviews | GenerateReply | PostReply | Unsupported

  /** The handler's dispatch: a GET without an `id` lists; a POST with an
      `id` generates or posts according to `action`; anything else is 405. */
  function RouteOf(m: Method, id: Option<string>, action: Option<string>): (r: Route)
    ensures r == ListReviews <==> m == Get && !Truthy(id)
    ensures r == GenerateReply <==> m == Post && Truthy(id) && action == Some("generate")
    ensures r == PostReply <==> m == Post && Truthy(id) && action == Some("respond")
  {
    if m == Get && !Truthy(id) then ListReviews
    else if m == Post && Truthy(id) && action == Some("generate") then GenerateReply
    else if m == Post && Truthy(id) && action == Some("respond") then PostReply
    else Unsupported
  }

  // ================================================================ listing

  /** The test `r.status === status`: a review without a status never matches. */
  function HasStatus(status: string): Review -> bool
  {
    (v: Review) => v.status.Some? && StatusName(v.status.value) == status
  }

  /** The list branch. With an `establishmentId` the caller must be able to
      see it, and then all of its reviews are listed whatever `status` says;
      without one, the reviews of every establishment the caller can see,
      narrowed to `status` when it is given. Most recent first in both. */
  function List(u: User, ests: seq<Establishment>, perms: seq<Permission>, reviews: seq<Review>,
                establishmentId: Option<string>, status: Option<string>): (r: Reply<Out>)
    ensures r.Status() in {200, 403}
    ensures r.Status() == 403 <==> establishmentId.Some? && !MaySee(u, ests, perms, establishmentId.value)
    ensures r.Status() == 403 ==> r == Error(403, "Access denied")
    ensures r.Status() == 200 ==> r.Json? && r.value.Listed? && SortedDesc(r.value.items, PublishedAt)
    ensures r.Status() == 200 && establishmentId.Some? ==>
      forall v :: v in r.value.items <==> v in reviews && v.establishmentId == establishmentId.value
    ensures r.Status() == 200 && establishmentId.None? ==>
      forall v :: v in r.value.items <==>
        v in reviews && MaySee(u, ests, perms, v.establishmentId)
        && (status.Some? ==> v.status.Some? && StatusName(v.status.value) == status.value)
  {
    var accessible := EstablishmentIdsForUser(u, ests, perms);
    if establishmentId.Some? then
      if establishmentId.value !in accessible then Error(403, "Access denied")
      else Json(200, Listed(ReviewsByEstablishment(reviews, establishmentId.value)))
    else
      var all := ReviewsByEstablishments(reviews, accessible);
      if status.Some? then
        FilterSorted(all, HasStatus(status.value), PublishedAt);
        Json(200, Listed(Filter(all, HasStatus(status.value))))
      else Json(200, Listed(all))
  }

  /** Whatever the query, every listed review belongs to an establishment
      the caller can see. */
  lemma ListOnlyVisible(u: User, ests: seq<Establishment>, perms: seq<Permission>, reviews: seq<Review>,
                        establishmentId: Option<string>, status: Option<string>, v: Review)
    requires List(u, ests, perms, reviews, establishmentId, status).Json?
    requires v in List(u, ests, perms, reviews, establishmentId, status).value.items
    ensures v in reviews && MaySee(u, ests, perms, v.establishmentId)
  {
  }

  // ================================================================ access to one review

  /** The respond permission of the generate and post branches: owners and
      admins hold it; managers and viewers need the permission row of the
      pair to grant `canRespond`. */
  predicate RespondGranted(u: User, perms: seq<Permission>, establishmentId: Id)
  {
    IsOwnerOrAdmin(u.role)
    || (var p := PermissionFor(perms, u.id, establishmentId); p.Some? && p.value.canRespond)
  }

  /** With one permission row per pair, the respond permission is a
      responding grant for managers and viewers. */
  lemma {:induction false} RespondGrantedIff(u: User, perms: seq<Permission>, establishmentId: Id)
    requires DistinctKeys(perms, PermissionPair)
    ensures RespondGranted(u, perms, establishmentId) <==>
      IsOwnerOrAdmin(u.role)
      || exists p :: p in perms && p.userId == u.id && p.establishmentId == establishmentId && p.canRespond
  {
    if !IsOwnerOrAdmin(u.role) {
      var first := PermissionFor(perms, u.id, establishmentId);
      if q :| q in perms && q.userId == u.id && q.establishmentId == establishmentId && q.canRespond {
        var i :| 0 <= i < |perms| && perms[i] == q;
        var j :| 0 <= j < |perms| && perms[j] == first.value;
        assert PermissionPair(perms[i]) == PermissionPair(perms[j]);
      }
    }
  }

  /** The outcome of the checks the generate and post branches share. */
  datatype Access = Denied(code: nat, message: string) | Granted(review: Review, establishment: Establishment)

  /** In order: the review must exist (404), its establishment must exist
      (404), the caller must be able to see that establishment (403) and must
      hold the respond permission for it (403). */
  function CheckAccess(u: User, reviews: seq<Review>, ests: seq<Establishment>, perms: seq<Permission>,
                       id: Id): (a: Access)
    ensures a.Denied? ==> a.code in {403, 404}
    ensures a == Denied(404, "Review not found") <==> forall v :: v in reviews ==> v.id != id
    ensures a.Granted? <==>
      ReviewById(reviews, id).Some?
      && EstablishmentById(ests, ReviewById(reviews, id).value.establishmentId).Some?
      && MaySee(u, ests, perms, ReviewById(reviews, id).value.establishmentId)
      && RespondGranted(u, perms, ReviewById(reviews, id).value.establishmentId)
    ensures a.Granted? ==>
      Some(a.review) == ReviewById(reviews, id) && a.review in reviews && a.review.id == id
      && a.establishment in ests && a.establishment.id == a.review.establishmentId
    ensures match ReviewById(reviews, id)
      case None => a == Denied(404, "Review not found")
      case Some(v) =>
        var e := EstablishmentById(ests, v.establishmentId);
        (e.None? ==> a == Denied(404, "Establishment not found"))
        && (e.Some? && !MaySee(u, ests, perms, v.establishmentId) ==> a == Denied(403, "Access denied"))
        && (e.Some? && MaySee(u, ests, perms, v.establishmentId) && !RespondGranted(u, perms, v.establishmentId) ==>
              a == Denied(403, "You don't have permission to respond to reviews"))
  {
    match ReviewById(reviews, id)
    case None => Denied(404, "Review not found")
    case Some(v) =>
      match EstablishmentById(ests, v.establishmentId)
      case None => Denied(404, "Establishment not found")
      case Some(e) =>
        if e.id !in EstablishmentIdsForUser(u, ests, perms) then Denied(403, "Access denied")
        else if !RespondGranted(u, perms, e.id) then
          Denied(403, "You don't have permission to respond to reviews")
        else Granted(v, e)
  }

  /** An owner or admin may act on every review of an establishment of their
      own organisation, without any permission row. */
  lemma {:induction false} OwnerMayActOnOwnReviews(u: User, reviews: seq<Review>, ests: seq<Establishment>,
                                                   perms: seq<Permission>, v: Review, e: Establishment)
    requires IsOwnerOrAdmin(u.role) && Truthy(u.organizationId)
    requires v in reviews && DistinctKeys(reviews, ReviewId)
    requires e in ests && e.id == v.establishmentId && e.organizationId == u.organizationId.value
    ensures CheckAccess(u, reviews, ests, perms, v.id).Granted?
    ensures CheckAccess(u, reviews, ests, perms, v.id).review == v
  {
    var found := ReviewById(reviews, v.id);
    var i :| 0 <= i < |reviews| && reviews[i] == v;
    var j :| 0 <= j < |reviews| && reviews[j] == found.value;
    assert ReviewId(reviews[i]) == ReviewId(reviews[j]);
    assert found == Some(v);
    assert EstablishmentById(ests, v.establishmentId).Some?;
    assert MaySee(u, ests, perms, v.establishmentId);
    assert RespondGranted(u, perms, v.establishmentId);
  }

  /** A responding grant without a viewing grant is not enough. */
  lemma RespondNeedsView(u: User, reviews: seq<Review>, ests: seq<Establishment>, perms: seq<Permission>, id: Id)
    requires !IsOwnerOrAdmin(u.role)
    requires forall p :: p in perms && p.userId == u.id ==> !p.canView
    ensures CheckAccess(u, reviews, ests, perms, id).Denied?
  {
  }

  // ================================================================ the prompt

  /** `toneMap[aiTone || "professional"]`. */
  function ToneDescription(tone: Option<AiTone>): string
  {
    match tone.GetOr(Professional)
    case Formal => "formel et professionnel"
    case Friendly => "chaleureux et amical"
    case Professional => "professionnel mais accessible"
  }

  /** Distinct tones are described differently, and no tone is described as
      the professional one. */
  lemma ToneDescriptionFaithful(a: AiTone, b: AiTone)
    ensures ToneDescription(Some(a)) == ToneDescription(Some(b)) <==> a == b
    ensures ToneDescription(None) == ToneDescription(Some(Professional))
  {
  }

  /** The establishment's own signature when it has a non-empty one, the
      default signature naming it otherwise. */
  function Signature(e: Establishment): (r: string)
    ensures r != ""
    ensures Truthy(e.signatureTemplate) ==> r == e.signatureTemplate.value
    ensures !Truthy(e.signatureTemplate) ==> Contains(r, e.name)
  {
    if Truthy(e.signatureTemplate) then e.signatureTemplate.value
    else
      ContainsEnd("Cordialement, L'équipe ", e.name);
      "Cordialement, L'équipe " + e.name
  }

  /** `t` occurs in `s` at index `i`. */
  ghost predicate OccursAt(s: string, t: string, i: int)
  {
    0 <= i <= |s| - |t| && s[i..i + |t|] == t
  }

  /** `t` occurs in `s`. */
  ghost predicate Contains(s: string, t: string)
  {
    exists i :: OccursAt(s, t, i)
  }

  lemma ContainsHead(t: string, rest: string)
    ensures Contains(t + rest, t)
  {
    assert OccursAt(t + rest, t, 0);
  }

  lemma ContainsAfter(a: string, s: string, t: string)
    requires Contains(s, t)
    ensures Contains(a + s, t)
  {
    var i :| OccursAt(s, t, i);
    assert (a + s)[|a| + i..|a| + i + |t|] == s[i..i + |t|];
    assert OccursAt(a + s, t, |a| + i);
  }

  lemma ContainsEnd(a: string, t: string)
    ensures Contains(a + t, t)
  {
    ContainsHead(t, "");
    assert t + "" == t;
    ContainsAfter(a, t, t);
  }

  /** The concatenation of `parts`, as a template literal builds it. */
  function Concat(parts: seq<string>): string
  {
    if parts == [] then "" else parts[0] + Concat(parts[1..])
  }

  /** Every part occurs in the concatenation. */
  lemma {:induction false} ContainsPart(parts: seq<string>, k: nat)
    requires k < |parts|
    ensures Contains(Concat(parts), parts[k])
  {
    if k == 0 {
      ContainsHead(parts[0], Concat(parts[1..]));
    } else {
      ContainsPart(parts[1..], k - 1);
      ContainsAfter(parts[0], Concat(parts[1..]), parts[k]);
    }
  }

  function ContentText(content: Option<string>): string
  {
    if Truthy(content) then content.value else "Pas de commentaire"
  }

  const PromptRules := "Règles: Réponse en français, 2-4 phrases max. Personnalise avec le prénom. "
    + "Si négatif: excuse + solution. Si positif: remercie + invite à revenir.\nGénère uniquement la réponse, sans guillemets."

  const PromptIntro := "Tu es un assistant qui rédige des réponses aux avis Google My Business pour \""
  const PromptTone := "\".\nTon: "
  const PromptSignature := "\nSignature: "
  const PromptAuthor := "\nAvis client:\n- Auteur: "
  const PromptRating := "\n- Note: "
  const PromptContent := "/5\n- Contenu: \""
  const PromptEnd := "\"\n"

  /** The pieces of the text sent to the model: the establishment's name,
      tone and signature, then the review's author, rating and content. */
  function PromptParts(e: Establishment, v: Review): seq<string>
  {
    [ PromptIntro, e.name, PromptTone, ToneDescription(e.aiTone), PromptSignature, Signature(e),
      PromptAuthor, v.authorName, PromptRating, DecimalText(v.rating), PromptContent, ContentText(v.content),
      PromptEnd, PromptRules ]
  }

  /** The text sent to the model for review `v` of establishment `e`. */
  function Prompt(e: Establishment, v: Review): string
  {
    Concat(PromptParts(e, v))
  }

  /** The prompt carries the establishment's name, tone and signature and the
      review's author, rating and content (the placeholder when it has none). */
  lemma PromptMentions(e: Establishment, v: Review)
    ensures Contains(Prompt(e, v), e.name)
    ensures Contains(Prompt(e, v), ToneDescription(e.aiTone))
    ensures Contains(Prompt(e, v), Signature(e))
    ensures Contains(Prompt(e, v), v.authorName)
    ensures Contains(Prompt(e, v), DecimalText(v.rating))
    ensures Contains(Prompt(e, v), ContentText(v.content))
    ensures !Truthy(v.content) ==> Contains(Prompt(e, v), "Pas de commentaire")
  {
    var parts := PromptParts(e, v);
    ContainsPart(parts, 1);
    ContainsPart(parts, 3);
    ContainsPart(parts, 5);
    ContainsPart(parts, 7);
    ContainsPart(parts, 9);
    ContainsPart(parts, 11);
  }

  // ================================================================ the writing branches

  /** The columns the generate branch writes over an existing reply. */
  function GeneratedPatch(userId: Id, text: string): (p: ResponsePatch)
    ensures !p.IsEmpty()
  {
    ResponsePatch(Some(userId), Some(text), None, None, None)
  }

  /** The columns the post branch writes over an existing reply. */
  function PostedPatch(userId: Id, finalText: string, now: Time): (p: ResponsePatch)
    ensures !p.IsEmpty()
  {
    ResponsePatch(Some(userId), None, Some(finalText), Some(true), Some(now))
  }

  /** After an update that keeps review ids, `getResponseByReview` finds the
      updated form of the reply it found before. */
  lemma ResponseByReviewAfterUpdate(responses: seq<Response>, reviewId: Id, s: Response, p: ResponsePatch)
    requires ResponseByReview(responses, reviewId) == Some(s)
    ensures ResponseByReview(UpdateWhere(responses, ResponseId, s.id, Patcher(p)), reviewId) == Some(PatchResponse(s, p))
  {
    forall x ensures ForReview(reviewId)(Patcher(p)(x)) == ForReview(reviewId)(x) {
    }
    FirstAfterUpdate(responses, ResponseId, s.id, Patcher(p), ForReview(reviewId));
  }

  /** The reply table after the read-then-write both writing branches
      perform: the review's reply, when there is one, updated with `patch`;
      otherwise `inserted` appended under `newId`. */
  function Upserted(responses: seq<Response>, reviewId: Id, patch: ResponsePatch, inserted: NewResponse,
                    newId: Id, now: Time): seq<Response>
  {
    match ResponseByReview(responses, reviewId)
    case Some(s) => UpdateWhere(responses, ResponseId, s.id, Patcher(patch))
    case None => responses + [ResponseRow(newId, inserted, now)]
  }

  /** The row that read-then-write leaves for the review. */
  function UpsertedRow(responses: seq<Response>, reviewId: Id, patch: ResponsePatch, inserted: NewResponse,
                       newId: Id, now: Time): Response
  {
    match ResponseByReview(responses, reviewId)
    case Some(s) => PatchResponse(s, patch)
    case None => ResponseRow(newId, inserted, now)
  }

  /** After the read-then-write, `getResponseByReview` finds the row written. */
  lemma UpsertFound(responses: seq<Response>, reviewId: Id, patch: ResponsePatch, inserted: NewResponse,
                    newId: Id, now: Time)
    requires inserted.reviewId == reviewId
    ensures ResponseByReview(Upserted(responses, reviewId, patch, inserted, newId, now), reviewId)
            == Some(UpsertedRow(responses, reviewId, patch, inserted, newId, now))
  {
    match ResponseByReview(responses, reviewId)
    case Some(s) =>
      ResponseByReviewAfterUpdate(responses, reviewId, s, patch);
    case None =>
      var after := responses + [ResponseRow(newId, inserted, now)];
      assert after[|responses|] in after;
  }

  /** The generate branch's write leaves the trimmed model text and the
      caller as the review's reply's AI text and author, and changes nothing
      else of a reply that already existed but its author. */
  lemma GenerateWrites(responses: seq<Response>, reviewId: Id, userId: Id, text: string, newId: Id, now: Time)
    ensures var inserted := NewResponse(reviewId, Some(userId), text, None, None, None);
      var row := UpsertedRow(responses, reviewId, GeneratedPatch(userId, text), inserted, newId, now);
      ResponseByReview(Upserted(responses, reviewId, GeneratedPatch(userId, text), inserted, newId, now), reviewId) == Some(row)
      && row.reviewId == reviewId && row.aiGeneratedText == text && row.userId == Some(userId)
      && match ResponseByReview(responses, reviewId)
         case Some(s) =>
           row.id == s.id && row.finalText == s.finalText && row.postedToGoogle == s.postedToGoogle
           && row.postedAt == s.postedAt
         case None => row.id == newId && row.postedToGoogle == Some(false) && row.finalText.None?
  {
    UpsertFound(responses, reviewId, GeneratedPatch(userId, text),
                NewResponse(reviewId, Some(userId), text, None, None, None), newId, now);
  }

  /** The post branch's write leaves the final text, the posted flag, the
      posting time and the caller on the review's reply; a reply created by
      it carries the final text as its AI text too, an existing one keeps its
      AI text. */
  lemma PostWrites(responses: seq<Response>, reviewId: Id, userId: Id, text: string, newId: Id, now: Time)
    ensures var inserted := NewResponse(reviewId, Some(userId), text, Some(text), Some(true), Some(now));
      var row := UpsertedRow(responses, reviewId, PostedPatch(userId, text, now), inserted, newId, now);
      ResponseByReview(Upserted(responses, reviewId, PostedPatch(userId, text, now), inserted, newId, now), reviewId) == Some(row)
      && row.reviewId == reviewId && row.finalText == Some(text) && row.postedToGoogle == Some(true)
      && row.postedAt == Some(now) && row.userId == Some(userId)
      && match ResponseByReview(responses, reviewId)
         case Some(s) => row.id == s.id && row.aiGeneratedText == s.aiGeneratedText
         case None => row.id == newId && row.aiGeneratedText == text
  {
    UpsertFound(responses, reviewId, PostedPatch(userId, text, now),
                NewResponse(reviewId, Some(userId), text, Some(text), Some(true), Some(now)), newId, now);
  }

  /** Both branches' read-then-write: `getResponseByReview`, then
      `updateResponse` or `createResponse`. The result is what the statement
      returned; it is the row written whenever the ids are unique. */
  method Upsert(store: Store, reviewId: Id, patch: ResponsePatch, inserted: NewResponse, newId: Id, now: Time)
    returns (r: DbResult<Option<Response>>)
    requires inserted.reviewId == reviewId && inserted.userId == patch.userId
    requires exists v :: v in store.reviews && v.id == reviewId
    modifies store`responses
    ensures old(store.Valid()) ==> store.Valid()
    ensures r.DbOk? <==>
      (patch.userId.Some? ==> exists x :: x in store.users && x.id == patch.userId.value)
      && (ResponseByReview(old(store.responses), reviewId).Some? ==> !patch.IsEmpty())
      && (ResponseByReview(old(store.responses), reviewId).None? ==> forall x :: x in old(store.responses) ==> x.id != newId)
    ensures r.DbError? ==> store.responses == old(store.responses)
    ensures r.DbOk? ==>
      var row := UpsertedRow(old(store.responses), reviewId, patch, inserted, newId, now);
      store.responses == Upserted(old(store.responses), reviewId, patch, inserted, newId, now)
      && r.value.Some? && r.value.value.id == row.id
      && (old(store.Valid()) ==> r.value == Some(row))
  {
    var existing := ResponseByReview(store.responses, reviewId);
    if existing.Some? {
      if old(store.Valid()) {
        SameIdSameResponse(store.responses, existing.value);
      }
      var updated := store.UpdateResponse(existing.value.id, patch);
      if updated.DbError? {
        return DbError;
      }
      r := DbOk(updated.value);
    } else {
      var created := store.CreateResponse(newId, inserted, now);
      if created.DbError? {
        return DbError;
      }
      r := DbOk(Some(created.value));
    }
  }

  /** The generate branch: after the shared checks, the model's answer,
      trimmed, is written as the review's reply's AI text by `Upsert`, and
      the reply names the row. The review's status does not change. A failed
      model call or a rejected statement is a 500. */
  method Generate(store: Store, u: User, id: Id, ai: string -> Option<string>, newId: Id, now: Time)
    returns (reply: Reply<Out>)
    modifies store`responses
    ensures old(store.Valid()) ==> store.Valid()
    ensures GenerateOutcome(store.users, store.reviews, store.establishments, store.permissions, u, id, ai, newId, now,
                            old(store.responses), store.responses, reply)
  {
    var access := CheckAccess(u, store.reviews, store.establishments, store.permissions, id);
    if access.Denied? {
      return Error(access.code, access.message);
    }
    var answer := ai(Prompt(access.establishment, access.review));
    if answer.None? {
      return ServerError();
    }
    var text := Trim(answer.value);
    var written := Upsert(store, id, GeneratedPatch(u.id, text), NewResponse(id, Some(u.id), text, None, None, None), newId, now);
    if written.DbError? {
      return ServerError();
    }
    reply := Json(200, Generated(text, match written.value case Some(x) => Some(x.id) case None => None));
  }

  /** The post branch's writes: the read-then-write of the reply with the
      final text, then, when it succeeded, the review's status. */
  method Publish(store: Store, u: User, id: Id, text: string, newId: Id, now: Time)
    returns (r: DbResult<Option<Response>>)
    requires exists v :: v in store.reviews && v.id == id
    modifies store`responses, store`reviews
    ensures old(store.Valid()) ==> store.Valid()
    ensures r.DbOk? <==>
      (exists x :: x in store.users && x.id == u.id)
      && (ResponseByReview(old(store.responses), id).None? ==> forall x :: x in old(store.responses) ==> x.id != newId)
    ensures r.DbError? ==> store.responses == old(store.responses) && store.reviews == old(store.reviews)
    ensures r.DbOk? ==>
      var inserted := NewResponse(id, Some(u.id), text, Some(text), Some(true), Some(now));
      var row := UpsertedRow(old(store.responses), id, PostedPatch(u.id, text, now), inserted, newId, now);
      store.responses == Upserted(old(store.responses), id, PostedPatch(u.id, text, now), inserted, newId, now)
      && store.reviews == UpdateWhere(old(store.reviews), ReviewId, id, SetStatus(Responded))
      && r.value.Some? && r.value.value.id == row.id
      && (old(store.Valid()) ==> r.value == Some(row))
  {
    r := Upsert(store, id, PostedPatch(u.id, text, now),
                NewResponse(id, Some(u.id), text, Some(text), Some(true), Some(now)), newId, now);
    if r.DbOk? {
      var _ := store.UpdateReviewStatus(id, Responded);
    }
  }

  /** The post branch: after the shared checks a non-empty `finalText` is
      required (400); `Upsert` writes the final text, the posted flag, the
      posting time and the author (a new row takes the final text as its AI
      text as well), then the review is marked responded. No activity is
      logged. */
  method Respond(store: Store, u: User, id: Id, finalText: Option<string>, newId: Id, now: Time)
    returns (reply: Reply<Out>)
    modifies store`responses, store`reviews
    ensures old(store.Valid()) ==> store.Valid()
    ensures RespondOutcome(store.users, store.establishments, store.permissions, u, id, finalText, newId, now,
                           old(store.Valid()), old(store.reviews), store.reviews, old(store.responses), store.responses, reply)
  {
    var access := CheckAccess(u, store.reviews, store.establishments, store.permissions, id);
    if access.Denied? {
      return Error(access.code, access.message);
    }
    if !Truthy(finalText) {
      return Error(400, "finalText required");
    }
    var text := finalText.value;
    var written := Publish(store, u, id, text, newId, now);
    if written.DbError? {
      return ServerError();
    }
    reply := Json(200, Posted(written.value));
  }

  /** With unique ids, the row found by the id of a row is that row. */
  lemma SameIdSameResponse(responses: seq<Response>, s: Response)
    requires s in responses && DistinctKeys(responses, ResponseId)
    ensures First(responses, (x: Response) => x.id == s.id) == Some(s)
  {
    var found := First(responses, (x: Response) => x.id == s.id);
    var i :| 0 <= i < |responses| && responses[i] == s;
    var j :| 0 <= j < |responses| && responses[j] == found.value;
    assert ResponseId(responses[i]) == ResponseId(responses[j]);
  }

  /** After a successful post, every review with that id is marked responded. */
  lemma PostedReviewIsResponded(reviews: seq<Review>, id: Id, v: Review)
    requires v in UpdateWhere(reviews, ReviewId, id, SetStatus(Responded)) && v.id == id
    ensures v.status == Some(Responded)
  {
    var after := UpdateWhere(reviews, ReviewId, id, SetStatus(Responded));
    var k :| 0 <= k < |after| && after[k] == v;
    assert SetStatus(Responded)(reviews[k]).id == reviews[k].id;
  }

  /** The generate branch's promise, over the rows before and after it. */
  ghost predicate GenerateOutcome(users: seq<User>, reviews: seq<Review>, ests: seq<Establishment>,
                                  perms: seq<Permission>, u: User, id: Id, ai: string -> Option<string>,
                                  newId: Id, now: Time, before: seq<Response>, after: seq<Response>,
                                  reply: Reply<Out>)
  {
    var a := CheckAccess(u, reviews, ests, perms, id);
    (a.Denied? ==> reply == Error(a.code, a.message))
    && (reply.Status() == 200 <==>
          a.Granted? && ai(Prompt(a.establishment, a.review)).Some?
          && (exists x :: x in users && x.id == u.id)
          && (ResponseByReview(before, id).None? ==> forall x :: x in before ==> x.id != newId))
    && (reply.Status() == 200 ==>
          var text := Trim(ai(Prompt(a.establishment, a.review)).value);
          var inserted := NewResponse(id, Some(u.id), text, None, None, None);
          var row := UpsertedRow(before, id, GeneratedPatch(u.id, text), inserted, newId, now);
          after == Upserted(before, id, GeneratedPatch(u.id, text), inserted, newId, now)
          && reply == Json(200, Generated(text, Some(row.id))))
    && (reply.Status() != 200 ==> after == before)
    && reply.Status() in {200, 403, 404, 500}
  }

  /** The post branch's promise, over the rows before and after it. */
  ghost predicate RespondOutcome(users: seq<User>, ests: seq<Establishment>, perms: seq<Permission>, u: User, id: Id,
                                 finalText: Option<string>, newId: Id, now: Time, wasValid: bool,
                                 reviewsBefore: seq<Review>, reviewsAfter: seq<Review>,
                                 before: seq<Response>, after: seq<Response>, reply: Reply<Out>)
  {
    var a := CheckAccess(u, reviewsBefore, ests, perms, id);
    (a.Denied? ==> reply == Error(a.code, a.message))
    && (a.Granted? && !Truthy(finalText) ==> reply == Error(400, "finalText required"))
    && (reply.Status() == 200 <==>
          a.Granted? && Truthy(finalText)
          && (exists x :: x in users && x.id == u.id)
          && (ResponseByReview(before, id).None? ==> forall x :: x in before ==> x.id != newId))
    && (reply.Status() == 200 ==>
          var text := finalText.value;
          var inserted := NewResponse(id, Some(u.id), text, Some(text), Some(true), Some(now));
          var row := UpsertedRow(before, id, PostedPatch(u.id, text, now), inserted, newId, now);
          after == Upserted(before, id, PostedPatch(u.id, text, now), inserted, newId, now)
          && reviewsAfter == UpdateWhere(reviewsBefore, ReviewId, id, SetStatus(Responded))
          && reply.Json? && reply.value.Posted? && reply.value.posted.Some? && reply.value.posted.value.id == row.id
          && (wasValid ==> reply == Json(200, Posted(Some(row)))))
    && (reply.Status() != 200 ==> after == before && reviewsAfter == reviewsBefore)
    && reply.Status() in {200, 400, 403, 404, 500}
  }

  // ================================================================ the handler

  /** The whole endpoint: 401 before anything else when the caller is not
      authenticated, then the branch `RouteOf` selects. */
  method Handle(store: Store, caller: Option<User>, m: Method, id: Option<string>, action: Option<string>,
                establishmentId: Option<string>, status: Option<string>, finalText: Option<string>,
                ai: string -> Option<string>, newId: Id, now: Time) returns (reply: Reply<Out>)
    modifies store`responses, store`reviews
    ensures old(store.Valid()) ==> store.Valid()
    ensures caller.None? ==> reply == Error(401, "Unauthorized")
    ensures caller.None? || RouteOf(m, id, action) in {ListReviews, Unsupported} ==>
      store.responses == old(store.responses) && store.reviews == old(store.reviews)
    ensures caller.Some? && RouteOf(m, id, action) == ListReviews ==>
      reply == List(caller.value, store.establishments, store.permissions, store.reviews, establishmentId, status)
    ensures caller.Some? && RouteOf(m, id, action) == GenerateReply ==> store.reviews == old(store.reviews)
    ensures caller.Some? && RouteOf(m, id, action) == Unsupported ==> reply.Status() == 405
    ensures caller.Some? && RouteOf(m, id, action) == GenerateReply ==>
      GenerateOutcome(store.users, store.reviews, store.establishments, store.permissions, caller.value, id.value, ai,
                      newId, now, old(store.responses), store.responses, reply)
    ensures caller.Some? && RouteOf(m, id, action) == PostReply ==>
      RespondOutcome(store.users, store.establishments, store.permissions, caller.value, id.value, finalText, newId, now,
                     old(store.Valid()), old(store.reviews), store.reviews, old(store.responses), store.responses, reply)
  {
    if caller.None? {
      return Error(401, "Unauthorized");
    }
    var u := caller.value;
    match RouteOf(m, id, action)
    case ListReviews =>
      reply := List(u, store.establishments, store.permissions, store.reviews, establishmentId, status);
    case GenerateReply =>
      reply := Generate(store, u, id.value, ai, newId, now);
    case PostReply =>
      reply := Respond(store, u, id.value, finalText, newId, now);
    case Unsupported =>
      reply := NotAllowed();
  }
}
