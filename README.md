# Avis Genius server core in Dafny

Avis Genius is a multi-tenant back end for answering Google reviews. An
organisation owns establishments. Users belong to an organisation with a role:
owner, admin, manager or viewer. Managers and viewers reach establishments
only through per-establishment permission rows (view, respond, manage).
Reviews belong to establishments. Each review has at most one reply
(`Response`). A reply is first drafted by a language model, then posted, and
posting marks the review `responded`. A back office lets platform admins run
organisations, users, billing and reply templates.

This project models the server side of that system:

- the table shapes and column defaults (`schema.dfy`);
- the storage functions over an in-memory database: a class `Store` with one
  `seq` field per table, and the read queries as functions over those
  sequences (`storage.dfy`);
- bearer-token identity and the admin gate (`authlib.dfy`);
- the establishment, review, admin and account endpoints (`establishments.dfy`,
  `reviews.dfy`, `admin.dfy`, `authhandlers.dfy`).

Two support modules hold no source logic of their own:

- `seqs.dfy`: filtering, first match, descending sort, limit;
- `text.dfy`: the JavaScript string operations the handlers use, namely
  `split`, `trim`, `toLowerCase`, `startsWith`, `parseInt` and number
  formatting.

`http.dfy` gives a handler's answer as a status code with either a JSON
value or an `{ error }` message.

The model follows these conventions:

- **Database statements.** Each statement is the operation it performs on the
  table sequences:
  - an insert appends a row;
  - an update by key maps every matching row;
  - a delete filters, and cascades along the schema's foreign keys;
  - `const [row] = select…` takes the first match.
- **Constraint failures.** A failed primary-key, unique, foreign-key or enum
  check is a `DbError`. The handler's `catch` turns it into a 500.
- **Parameters.** The clock, fresh row ids, the random slug suffix, password
  hashing and checking, token signing and verification, and the language model
  call are all parameters.
- **Request bodies.** A request body is a record of optional fields.
- **Truthiness.** JavaScript truthiness of a text field is `Truthy`: present
  and non-empty.

## Model

| member | source | states |
|---|---|---|
| Schema.ParseRole | shared/schema.ts:11 | the role column accepts exactly owner, admin, manager and viewer, and a parsed role prints back as the same text |
| Schema.RoleRoundTrip | shared/schema.ts:11 | every role's text parses back to that role |
| Schema.ParseTone | shared/schema.ts:10 | the tone column accepts exactly formal, friendly and professional |
| Schema.OrganizationRow | shared/schema.ts:16-28 | a new organisation defaults to 5 users, 10 establishments, active, professional tone |
| Schema.UserRow | shared/schema.ts:31-43 | a new user defaults to the viewer role, not super-admin, active, never logged in |
| Schema.PermissionRow | shared/schema.ts:46-54 | a new permission row defaults to view granted, respond and manage withheld |
| Schema.EstablishmentRow | shared/schema.ts:57-72 | a new establishment defaults to the professional tone and active |
| Schema.ReviewRow | shared/schema.ts:75-87 | a new review defaults to status pending and sentiment neutral |
| Schema.ResponseRow | shared/schema.ts:90-99 | a new reply is not posted unless stated; its final text and posting time are kept as given (nullable) |
| Schema.ActivityLogRow | shared/schema.ts:103-113 | a log row keeps its type, organisation and user and is stamped with the insert time |
| Schema.BillingRow | shared/schema.ts:116-127 | a new billing row defaults to status trial and plan "trial" |
| Schema.AiTemplateRow | shared/schema.ts:130-139 | a new template defaults to category "general" and active |
| Schema.JsLength | shared/schema.ts:230-240 | the length the schema's `min` checks lies between the number of code points and twice that |
| Schema.ValidEmailShape | shared/schema.ts:231 | an address the e-mail check accepts is a local part, one `@`, and a domain |
| Schema.InviteNeverOwner | shared/schema.ts:242-247 | an accepted invitation names a valid role that is never owner |
| Text.Split | api/lib/auth.ts:10 | there is always at least one piece, and no piece contains the separator |
| Text.JoinSplit | api/lib/auth.ts:10 | joining the pieces of a split with its separator gives the input back |
| Text.Trim | api/lib/auth.ts:10 | the result has no white space at either end, is never longer, and a string without white space at its ends is returned unchanged |
| Text.TrimIsSlice | api/lib/auth.ts:10 | the trimmed text is the slice of the input that starts where the leading white space ends (all of which `TrimStart` states is white space) |
| Text.TrimDropsOnlySpace | api/lib/auth.ts:10 | everything of the input after that slice is white space |
| Text.Lower | api/lib/auth.ts:10 | lower-casing keeps the length and maps each character on its own, turning A-Z into a-z |
| Text.LowerIdempotent | api/lib/auth.ts:10 | lower-casing twice is lower-casing once |
| Text.ParseInt | api/admin.ts:209 | `parseInt` yields a number only when the text has a digit |
| Text.DecimalText | api/reviews.ts:75 | a number's text is its digits, with a minus sign when it is negative |
| Text.ParseIntDecimal | api/admin.ts:209 | `parseInt` of a number's decimal text is that number |
| Storage.UserById | api/lib/storage.ts:55-58 | finds a stored user with that id, and nothing exactly when none has it |
| Storage.UserByEmail | api/lib/storage.ts:60-63 | finds a stored user with exactly that address, and nothing exactly when none has it |
| Storage.OrganizationById | api/lib/storage.ts:20-23 | finds a stored organisation with that id, and nothing exactly when none has it |
| Storage.EstablishmentById | api/lib/storage.ts:138-141 | finds a stored establishment with that id, and nothing exactly when none has it |
| Storage.ReviewById | api/lib/storage.ts:172-175 | finds a stored review with that id, and nothing exactly when none has it |
| Storage.ResponseByReview | api/lib/storage.ts:218-221 | finds a stored reply to that review, and nothing exactly when none answers it |
| Storage.BillingOf | api/lib/storage.ts:261-264 | finds a billing row of that organisation, and nothing exactly when it has none |
| Storage.AiTemplateById | api/lib/storage.ts:278-281 | finds a stored template with that id, and nothing exactly when none has it |
| Storage.PermissionFor | api/lib/storage.ts:99-103 | finds a permission row for that user and establishment, and nothing exactly when there is none |
| Storage.EstablishmentsOf | api/lib/storage.ts:143-145 | exactly the establishments of the organisation; their number is the count of such rows |
| Storage.UsersOf | api/lib/storage.ts:65-67 | exactly the users of the organisation, newest first; their number is the count of such rows |
| Storage.AllUsers | api/lib/storage.ts:69-71 | every user once, newest first |
| Storage.AllOrganizations | api/lib/storage.ts:30-32 | every organisation once, newest first |
| Storage.AllEstablishments | api/lib/storage.ts:147-149 | every establishment once, newest first |
| Storage.ViewGrants | api/lib/storage.ts:95-97 | exactly the user's permission rows that grant viewing |
| Storage.EstablishmentIdsForUser | api/lib/storage.ts:125-135 | an id is accessible exactly when (owner or admin) it is an establishment of the caller's organisation, or (manager or viewer) a viewing grant names it |
| Storage.ReviewsByEstablishments | api/lib/storage.ts:181-184 | no ids give no reviews; otherwise exactly the reviews of the listed establishments, each once, newest publication first |
| Storage.ReviewsByEstablishment | api/lib/storage.ts:177-179 | exactly the establishment's reviews, newest publication first |
| Storage.RecentActivityLogs | api/lib/storage.ts:249-251 | at most `limit` entries taken from the log, newest first, none older than an entry left out |
| Storage.RoundedPercent | api/lib/storage.ts:315 | 0 for no reviews, otherwise the percentage rounded half up |
| Storage.RoundedPercentAtMost100 | api/lib/storage.ts:315 | a part of a whole is at most 100 per cent |
| Storage.Stats | api/lib/storage.ts:304-327 | the totals are the table sizes; pending and urgent are the counts of pending and of pending urgent reviews, posted replies the count of posted replies; urgent ≤ pending ≤ total, and the response rate is the rounded percentage |
| Storage.ResponseRateAtMost100 | api/lib/storage.ts:315 | with one reply per review, each answering a stored review, the response rate is at most 100 |
| Storage.UpdateWhere | api/lib/storage.ts:78-81 | an update by key changes exactly the rows with that key, in place |
| Storage.FirstAfterUpdate | api/lib/storage.ts:228-231 | an update that keeps the searched property leaves the first match in its place, updated when it was the target |
| Storage.DeleteCascadeValid | api/lib/storage.ts:161-164 | deleting an establishment with its cascades keeps one permission row per pair, one reply per review, and every reply's review |
| Storage.UpdateReviewsValid | api/lib/storage.ts:191-194 | a status update keeps those table invariants |
| Storage.UpdateResponsesValid | api/lib/storage.ts:228-231 | a reply update keeps those table invariants |
| Storage.Store.CreateOrganization | api/lib/storage.ts:34-37 | the insert succeeds exactly when id and slug are unused, and then appends the defaulted row |
| Storage.Store.CreateBilling | api/lib/storage.ts:266-269 | succeeds exactly when the id is unused, the organisation exists and has no billing row yet |
| Storage.Store.CreateUser | api/lib/storage.ts:73-76 | succeeds exactly when id and address are unused, the organisation exists when one is named, and the role is in the enum |
| Storage.Store.UpdateUser | api/lib/storage.ts:78-81 | fails on an empty column set, a role outside the enum, or an address another user holds when the id names a stored user; an unknown id touches no row and succeeds with nothing; otherwise patches the user with that id and returns it |
| Storage.Store.SetUserPermission | api/lib/storage.ts:105-117 | updates the pair's row in place with its id kept, or inserts one when there is none; one row per pair stays true |
| Storage.Store.DeleteUserPermission | api/lib/storage.ts:119-123 | removes exactly the pair's rows, and reports whether there was one |
| Storage.Store.CreateEstablishment | api/lib/storage.ts:151-154 | succeeds exactly when the id is unused and the organisation exists, and appends the defaulted row |
| Storage.EstablishmentPatchAccepted | api/lib/storage.ts:156-159 | the update is accepted exactly when the column set is non-empty and, for a stored id, the target organisation exists and a new id is unused and referenced by no permission or review; an unknown id is always accepted once the set is non-empty |
| Storage.Store.UpdateEstablishment | api/lib/storage.ts:156-159 | fails on an empty column set; for a stored id, also on an unknown target organisation, and on a new id that is taken or still referenced by permissions or reviews; an unknown id touches no row and succeeds; otherwise patches the establishment with that id, its id and Google columns included |
| Storage.Store.DeleteEstablishment | api/lib/storage.ts:161-164 | removes the establishment and, along the foreign keys, its permission rows, its reviews and their replies |
| Storage.Store.UpdateReviewStatus | api/lib/storage.ts:191-194 | sets the status of the review with that id and returns it |
| Storage.Store.CreateResponse | api/lib/storage.ts:223-226 | succeeds exactly when the id is unused, the review exists and the author (if any) exists |
| Storage.Store.UpdateResponse | api/lib/storage.ts:228-231 | fails exactly when the patch names no column (Drizzle refuses an empty SET), or when it names an unknown author and the id names a stored reply; otherwise patches the reply with that id and returns it |
| Storage.Store.CreateActivityLog | api/lib/storage.ts:244-247 | succeeds exactly when the id is unused and the named organisation and user exist, and appends the row |
| Storage.Store.CreateAiTemplate | api/lib/storage.ts:287-290 | succeeds exactly when the id is unused, and appends the defaulted row |
| AuthLib.NormalizedEntries | api/lib/auth.ts:10 | an entry is listed exactly when it is the trimmed, lower-cased, non-empty form of some piece |
| AuthLib.AdminEmails | api/lib/auth.ts:10 | the allowlist is exactly the trimmed, lower-cased, non-empty pieces of the comma-separated variable |
| AuthLib.AdminEmailsNormalized | api/lib/auth.ts:10 | every allowlist entry is non-empty, lower-case and trimmed |
| AuthLib.AdminEmailCaseInsensitive | api/lib/auth.ts:53-55 | the allowlist test gives the same answer for an address and its lower-case form |
| AuthLib.BearerToken | api/lib/auth.ts:38-43 | a token exactly when the header starts with "Bearer "; header = prefix + token |
| AuthLib.BearerRoundTrip | api/lib/auth.ts:39-43 | the header built from a token gives that token back |
| AuthLib.AuthUser | api/lib/auth.ts:37-51 | nothing exactly when the prefix is missing, the token is rejected or the id is unknown; otherwise the stored user the token names |
| AuthLib.AuthUserOfToken | api/lib/auth.ts:37-51 | a token that verifies to a stored user's id identifies that user |
| AuthLib.RequireAdmin | api/lib/auth.ts:57-67 | the caller passes exactly when authenticated and holding the admin role or an allowlisted address |
| AuthLib.AdminGateIgnoresOwnerAndFlags | api/lib/auth.ts:57-67 | the owner role and the super-admin flag do not open the gate, and deactivation does not close it |
| Establishments.RouteOf | api/establishments.ts:19-95 | the branch chosen for each method and presence of an id |
| Establishments.ListVisible | api/establishments.ts:19-30 | nothing without an organisation; owners and admins get their organisation's establishments; others get only those they may see |
| Establishments.ListForOwnerOrAdmin | api/establishments.ts:24-29 | an owner or admin lists every establishment of their organisation |
| Establishments.GrantOutsideOrganisationReadableNotListed | api/establishments.ts:19-59 | a viewing grant on another organisation's establishment lets it be read but not listed |
| Establishments.Read | api/establishments.ts:49-60 | 404 exactly when missing, then 403 exactly when not accessible, otherwise the row |
| Establishments.MayUpdateIff | api/establishments.ts:63-77 | owners and admins may update in their own organisation; managers and viewers exactly with a managing grant |
| Establishments.ParseCreate | api/establishments.ts:40-43 | the insert always carries the caller's organisation and the body's Google columns, address, phone, signature and active flag; it is refused exactly when the name is missing or the tone is unknown, and the tone is the one named |
| Establishments.RawPatch | api/establishments.ts:78 | every column given in the body is written as given, id, organisation and Google columns included; a body with a `createdAt` text or an unknown tone is refused |
| Establishments.Create | api/establishments.ts:33-46 | 403 for managers and viewers, then 400 without organisation, then 400 for an invalid body, otherwise 201 exactly when the insert succeeds, with the row appended; only 201, 400, 403 or 500 |
| Establishments.Update | api/establishments.ts:63-80 | 404 when missing, 403 unless permitted (nothing changes); 200 exactly when the body is valid and non-empty, the target organisation exists and a rename is to a free id with no dependent rows; then the raw patch is applied |
| Establishments.UpdateCanMoveOrganisation | api/establishments.ts:75-79 | an owner or admin can move their establishment to another organisation, because the organisation is not protected |
| Establishments.Remove | api/establishments.ts:83-93 | 403 for managers and viewers before any lookup, 404 when missing or in another organisation, otherwise 204 with the cascaded delete |
| Establishments.Handle | api/establishments.ts:9-99 | 401 without a caller before anything else; each route answers as its branch states: the list, the read, and the create, update and delete replies with their new tables; 405 otherwise |
| Reviews.RouteOf | api/reviews.ts:22-142 | the branch chosen for each method, id and action |
| Reviews.List | api/reviews.ts:22-38 | 403 exactly for an inaccessible establishment; otherwise that establishment's reviews, or the accessible reviews filtered by status, newest first |
| Reviews.ListOnlyVisible | api/reviews.ts:23-37 | every listed review belongs to an establishment the caller may see |
| Reviews.RespondGrantedIff | api/reviews.ts:54-60 | owners and admins may respond; managers and viewers exactly with a responding grant |
| Reviews.CheckAccess | api/reviews.ts:42-60 | the checks run in order, each stated on its own: review 404, establishment 404, access 403, respond permission 403; access is granted exactly when all pass |
| Reviews.OwnerMayActOnOwnReviews | api/reviews.ts:42-60 | an owner or admin passes the checks for every review of their organisation |
| Reviews.RespondNeedsView | api/reviews.ts:48-60 | a responding grant without a viewing grant is refused |
| Reviews.ToneDescriptionFaithful | api/reviews.ts:62-67 | the three tones have three distinct descriptions, and a missing tone is described as the professional one |
| Reviews.Signature | api/reviews.ts:68 | the establishment's own signature when non-empty, otherwise a signature naming the establishment |
| Reviews.PromptMentions | api/reviews.ts:70-78 | the prompt contains the name, tone, signature, author, rating and content (or the no-comment text) |
| Reviews.ResponseByReviewAfterUpdate | api/reviews.ts:84-86 | after the update the reply found for the review is the updated one |
| Reviews.UpsertFound | api/reviews.ts:84-91 | after the read-then-write the reply found for the review is the row written |
| Reviews.GenerateWrites | api/reviews.ts:84-91 | the draft branch leaves the model text and the caller on the reply, and inserts only when there was none |
| Reviews.PostWrites | api/reviews.ts:119-136 | the post branch leaves the final text, posted flag, time and caller; a new reply also takes the final text as its draft |
| Reviews.Upsert | api/reviews.ts:119-136 | the existing reply is updated, or one is inserted; never a second reply for the review; fails exactly on an unknown author, on an update with an empty patch, or on an insert whose id is taken |
| Reviews.Generate | api/reviews.ts:41-92 | the checks' error, or 500 on a model or database failure, or 200 exactly when the checks pass, the model answers and the upsert succeeds, with the trimmed text and the reply id; review status untouched; nothing written on failure |
| Reviews.Publish | api/reviews.ts:119-137 | the upsert, then the review marked responded |
| Reviews.Respond | api/reviews.ts:95-140 | the checks' error, then 400 without final text, then 200 exactly when the upsert and the status change succeed; no activity log written |
| Reviews.PostedReviewIsResponded | api/reviews.ts:137 | after posting, the review has status responded |
| Reviews.Handle | api/reviews.ts:12-146 | 401 without a caller before anything else; the list, the draft and the post routes answer, and write, exactly as their branches state; 405 otherwise |
| Admin.RemoveDiacritics | api/admin.ts:21 | exactly the combining marks are dropped (the length falls by their count) and no combining mark remains |
| Admin.StripDiacritic | api/admin.ts:21 | characters outside the accented Latin-1 range are kept; an accented letter becomes an a-z letter |
| Admin.RemoveDiacriticsPointwise | api/admin.ts:21 | removing diacritics is keeping the non-mark characters and mapping each to its base letter |
| Admin.RemoveDiacriticsAscii | api/admin.ts:21 | text made only of a-z, digits and hyphens is left unchanged |
| Admin.CollapseRuns | api/admin.ts:22 | only letters, digits and hyphens remain, never two hyphens in a row |
| Admin.CollapseBetween | api/admin.ts:22 | a run of other characters between a letter or digit and what follows becomes exactly one hyphen |
| Admin.CollapseAppend | api/admin.ts:22 | after a letter or digit, collapsing a concatenation collapses each part on its own |
| Admin.CollapseSeparator | api/admin.ts:22 | a leading run of other characters becomes one hyphen |
| Admin.SkipNonSlugRun | api/admin.ts:22 | the whole of a run of other characters is absorbed, up to the next letter or digit |
| Admin.SkipNonSlugAppend | api/admin.ts:22 | skipping a run stops inside its first part when that part holds a letter or digit |
| Admin.NonSlugPrefixAppend | api/admin.ts:22 | the length of the run is decided by the first part when that part holds a letter or digit |
| Admin.SlugBase | api/admin.ts:20-23 | the name part of a slug has only letters, digits and single hyphens, and no hyphen at either end |
| Admin.GenerateSlug | api/admin.ts:19-25 | the slug starts with the name part and ends with the suffix; it starts with a hyphen exactly when the name part is empty; with a suffix of a-z and digits, it has only a-z, digits and single hyphens |
| Admin.SlugShapedJoin | api/admin.ts:19-25 | a name part with no trailing hyphen, a hyphen and an alphanumeric suffix make a slug-shaped text |
| Admin.CollapseKeepsSlugChars | api/admin.ts:22 | collapsing keeps every letter and digit in order |
| Admin.TrimHyphensKeepsSlugChars | api/admin.ts:23 | trimming the edge hyphens keeps every letter and digit |
| Admin.SlugKeepsLettersAndDigits | api/admin.ts:19-23 | the slug keeps every letter and digit of the accent-free, lower-cased name, in order |
| Admin.SlugBaseIdempotent | api/admin.ts:19-23 | the name part of a slug is its own slug |
| Admin.LowerAscii | api/admin.ts:20 | lower-casing leaves letters, digits and hyphens alone |
| Admin.StripLosesOnlyHash | api/admin.ts:91 | removing the hash loses nothing else: adding it back gives the user |
| Admin.StripAll | api/admin.ts:91 | every user appears, in order, without a hash; a newest-first list stays newest first |
| Admin.RouteOf | api/admin.ts:37-214 | the branch chosen for each method, resource and id, in source order, including which requests get 405 |
| Admin.OrganizationSummaries | api/admin.ts:43-57 | every organisation newest first with its user count, establishment count and billing row |
| Admin.OrganizationSummariesArePermutation | api/admin.ts:43-57 | the organisations listed are exactly the stored ones, newest first |
| Admin.OrganizationDetailOf | api/admin.ts:83-95 | 404 exactly when missing; otherwise the organisation with exactly its users (hash removed, newest first), establishments and billing |
| Admin.UserList | api/admin.ts:108-112 | every user, or exactly the organisation's users when one is given, hashes removed, newest first |
| Admin.OrganizationName | api/admin.ts:163 | a stored organisation with a non-empty name answers that name; "Unknown" exactly when the organisation is missing, its name is empty, or its name is "Unknown" |
| Admin.EstablishmentListings | api/admin.ts:156-166 | each listed establishment carries its organisation's name; with an organisation, exactly its establishments, counted; without one, every establishment once, newest first |
| Admin.LogLimit | api/admin.ts:209 | the limit is never 0, and it defaults to 100 |
| Admin.LogLimitDecimal | api/admin.ts:209 | a written number is the limit, except 0, which gives 100 |
| Admin.ActivityLogPage | api/admin.ts:208-212 | 500 exactly for a negative limit; otherwise at most that many entries, newest first |
| Admin.CreatedOrganizationDefaults | api/admin.ts:64-79 | the organisation is active with 5 and 10 as limits unless given; the billing row is a trial ending 14 days after creation |
| Admin.CreateOrganization | api/admin.ts:59-81 | 400 without a name; 201 exactly when both inserts succeed; a failed billing insert leaves the organisation |
| Admin.CreateUser | api/admin.ts:114-130 | 400 unless all four fields are given; the user is active, not a super-admin, viewer unless a role is given, and returned without hash |
| Admin.SelectUserFields | api/admin.ts:139-146 | name, e-mail and role are written exactly when non-empty; the flags exactly when given |
| Admin.UpdateOnlySupplied | api/admin.ts:138-147 | only the supplied fields change; hash, organisation, id and timestamps never do |
| Admin.UpdateUser | api/admin.ts:138-148 | 200 exactly when something is selected, the role is valid and, for a stored user, the address is free; then exactly the patch is applied |
| Admin.CreateTemplate | api/admin.ts:185-190 | 400 without name or prompt; otherwise an active template, category "general" unless given |
| Admin.Handle | api/admin.ts:27-218 | 403 before any read or write unless admin; only the create and user-update routes write, and each of them answers and writes as its branch states; each read route answers its function's result (404 for an unknown user); 405 for the rest |
| AuthHandlers.Login | api/auth.ts:11-30 | 400 exactly for an invalid body; 200 exactly when the address is known and the password checks; otherwise the same 401 |
| AuthHandlers.LoginDoesNotRevealAccounts | api/auth.ts:17-24 | a wrong password gets the same answer as an unknown address |
| AuthHandlers.LoginIgnoresActive | api/auth.ts:17-29 | a deactivated account logs in as the active one would |
| AuthHandlers.ClientIsNotARole | api/auth.ts:44 | "client" is not a role the column accepts |
| AuthHandlers.Register | api/auth.ts:33-50 | as written: 400, 409, or otherwise 500; no account is ever created |
| AuthHandlers.RegisterCorrected | api/auth.ts:33-50 | as intended: 400, 409, otherwise 201 with an active owner account appended and a token |
| AuthHandlers.LoginAfterRegistration | api/auth.ts:11-30 | an account added under a new address logs in with its password |
| AuthHandlers.RegisterTwiceConflicts | api/auth.ts:39-42 | once registered, the address is found, so a second registration is a conflict |
| AuthHandlers.WhoAmI | api/auth.ts:53-70 | 401 exactly when the header does not identify a stored user; otherwise that user's public view |
| AuthHandlers.LoginThenMe | api/auth.ts:25-69 | the token a login hands out identifies the account that logged in |
| AuthHandlers.RouteOf | api/auth.ts:11-72 | login and register on POST, me on GET, by action |
| AuthHandlers.Handle | api/auth.ts:6-77 | as written: login and me answer as their branches state; registration answers 400, 409 or 500 and never writes; 405 for the rest |
| AuthHandlers.HandleCorrected | api/auth.ts:6-77 | as intended: the same dispatch with registration creating the owner account, 201 exactly when the body is valid and the address and id are free |

## Left out

- Admin.Handle: organisation update and delete, user delete, billing update, and template list, update and delete (api/admin.ts:97-105, 150-153, 174-177, 180-183, 197-205) answer a placeholder and change nothing. They write the raw body or cascade over most tables. The template list is ordered by name collation.
- Storage.EstablishmentsOf: does not model the order by name (api/lib/storage.ts:144), because the database's text collation is not modelled.
- Text.Lower and Admin.RemoveDiacritics: cover ASCII and lower-case Latin-1 letters only. Full Unicode case mapping and canonical decomposition are not modelled.
- Storage.RoundedPercent: rounds half up on exact rationals. Floating-point error in `Math.round((a / b) * 100)` is not modelled.
- Text.ParseInt: reads integers of any size. Precision loss past 2^53 is not modelled.
- Admin.CreatedOrganizationDefaults: the trial end is the creation time plus 14 × 24 hours. `setDate` across a daylight-saving change is not modelled.
- Request bodies: a field whose JSON type is not the one the model reads (`null`, a number where text is read, text where a number is read, an array, an object, a repeated query parameter) is modelled as absent, and so is a missing body. The program instead passes such a value on, and the outcome differs:
  - `{"name": 5}` on organisation creation: the number is truthy, `generateSlug` calls `toLowerCase` on it and throws, giving 500 (api/admin.ts:20, 59-65). The model answers 400.
  - `{"name": "A", "maxUsers": "7"}`: the database casts "7" and stores 7 (api/admin.ts:66). The model stores the default 5.
  - `{"finalText": 5}` on posting a reply: the number is truthy, so the reply is written and the answer is 200 (api/reviews.ts:116-121). The model answers 400.
  - `{"googleAccessToken": null}` on updating an establishment: Drizzle keeps a `null` value, so the column is cleared and the answer is 200 with the row (api/establishments.ts:78). The model reads the field as absent, so the patch is empty and the answer is 500.
  - no body at all: the destructuring of `req.body` throws, giving 500 (api/reviews.ts:116; api/admin.ts:59, 114, 186). The model answers 400.
- Establishments.RawPatch: a `createdAt` given as text is refused (the timestamp column cannot encode a string, so the update throws and the handler answers 500); a `createdAt` given as a date value cannot arrive in a JSON body and is not modelled. Fields with a JSON type the column does not take are not modelled.
- The `varchar(36)` length limit on ids is not modelled.
- Zod error details and Drizzle's SQL are not modelled. Nothing is concurrent: each request runs to completion on its own.
- A failed language-model call is a 500, as the code's `catch` makes it. A separate 502 status for this case is not modelled.
- The cryptography (bcrypt, JWT), the model call, the clock, `Math.random` and database-generated ids are parameters.
- Storage functions no endpoint here uses are not modelled: slug lookup, per-organisation activity logs, and review and organisation inserts or updates beyond the ones above.

## Findings

| source | as written | input that shows it | evidently intended | confidence | as-written member | corrected member |
|---|---|---|---|---|---|---|
| api/auth.ts:44 | registration inserts the user with role "client", which the role enum (shared/schema.ts:11) does not contain, so the insert always fails and the handler answers 500 | any valid body with an unused address, e.g. email "a@b.co", password "secret1", name "Al" | the account is created, with a role of the enum (owner, for a self-registered account), and the handler answers 201 with a token | high, not executed | AuthHandlers.Register, AuthHandlers.Handle | AuthHandlers.RegisterCorrected, AuthHandlers.HandleCorrected |
