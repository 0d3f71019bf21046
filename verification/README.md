# Tender lifecycle and role gate of the contract-farming backend

This project models the core of a small backend that matches companies with
farmers over supply tenders. A company posts a tender. A farmer accepts an
open tender. The owning company later marks the accepted tender completed.
In front of every tender route sits a role gate. It turns the `x-auth-token`
header into an identity and rejects requests whose role the route does not
admit.

Modules:

- `Types` (`types.dfy`): user and tender ids, the `Role` enumeration, the
  token's `Identity`, the error categories, `Option` and `Result`.
- `TenderModel` (`tender_model.dfy`): the Tender document, its status
  enumeration, its schema defaults and required fields, and the record
  invariant `WellFormed`.
- `Auth` (`auth.dfy`): the gate's decision as a pure function of the header,
  a token verifier and the route's role list. It also holds the gate as
  written, for the finding below.
- `TenderRoutes` (`tender_routes.dfy`): the five route handlers. Writes are
  transitions on a `map<TenderId, Tender>` and queries are filters on it.
- `Lifecycle` (`lifecycle.dfy`): the route table of admitted roles and
  `Handle`, which runs the gate and then the handler. `Run` applies a
  sequence of requests. The module also holds the lemmas that the record
  invariants survive any run, that status only moves
  open → accepted → completed, and that a completed tender is frozen.

Behaviour of the code that the model keeps:

- A missing or empty required text field makes Mongoose's `save()` throw. The
  post route catches the error and answers with a server error (500). It does
  not answer with a distinct validation error. The model reports
  `ServerError(MissingRequiredField)`.
- Accept and Complete are plain read-check-write sequences. There is no
  conditional update, so the model treats each request as one sequential
  step.
- An empty `x-auth-token` header is rejected like a missing one (`!token`).

## Model

| member | source | states |
|---|---|---|
| TenderModel.NewTender | contract-farming-backend/models/Tender.js:3-28 | a new document succeeds exactly when all four text fields are present and non-empty; it then copies them unchanged, takes status open, farmerId null and the given companyId, and is well formed; otherwise it fails with a validation fault |
| Auth.Resolve | contract-farming-backend/middleware/auth.js:12-20 | a usable identity exists only for a present, non-empty token whose verification yields a payload carrying a user |
| Auth.Authorize | contract-farming-backend/middleware/auth.js:9-31 | a missing token, a rejected token or a payload without a user gives Unauthenticated; an identity whose role is not in a non-empty list gives Forbidden; otherwise the identity is passed on unchanged; Unauthenticated iff no identity, Forbidden iff identity but role not admitted |
| Auth.EmptyListAdmitsAnyIdentity | contract-farming-backend/middleware/auth.js:9-27 | with an empty role list every token that verifies to a user is admitted with that user |
| Auth.AuthorizeAsWritten | contract-farming-backend/middleware/auth.js:17-29 | the gate as written: whatever it passes is the verified payload's user claim, and an absent user passes only with an empty role list; with an empty list every verified payload passes, with or without a user, and every failure is Unauthenticated |
| Auth.AsWrittenAdmitsMissingUser | contract-farming-backend/middleware/auth.js:20-27 | with an empty role list the gate as written admits a token whose payload has no user, where the corrected gate answers Unauthenticated |
| Auth.AsWrittenAgreesForListedRoles | contract-farming-backend/middleware/auth.js:23-29 | with a non-empty role list the gate as written and the corrected gate give the same error or admit the same identity |
| TenderRoutes.PostTender | contract-farming-backend/routes/tenderRoutes.js:9-26 | posting succeeds iff all fields are supplied and the new id is unused; the new tender is open, unassigned, owned by the caller and carries the submitted text; every other tender is kept; validation failure is reported before an id clash |
| TenderRoutes.ListOpen | contract-farming-backend/routes/tenderRoutes.js:32-36 | the listing holds exactly the open tenders, each as stored |
| TenderRoutes.AcceptTender | contract-farming-backend/routes/tenderRoutes.js:46-63 | NotFound for an unknown id, then InvalidTransition for a tender that is not open; success exactly for an open tender, which becomes accepted with the caller as farmer, keeping owner and text; no other tender changes |
| TenderRoutes.ListMine | contract-farming-backend/routes/tenderRoutes.js:77-96 | a company gets exactly its own tenders at any status; a farmer gets exactly the tenders assigned to it that are not open |
| TenderRoutes.CompleteTender | contract-farming-backend/routes/tenderRoutes.js:106-126 | NotFound, then InvalidTransition unless accepted, then Forbidden unless the caller owns it; success exactly when all three pass, and the tender becomes completed with farmer, owner and text kept; no other tender changes |
| Lifecycle.AllowedRoles | contract-farming-backend/routes/tenderRoutes.js:9-106 | the route table of the gate's role lists: every route lists a role; companies are admitted everywhere except the open listing and accept, farmers everywhere except create and complete |
| Lifecycle.Dispatch | contract-farming-backend/routes/tenderRoutes.js:9-132 | an admitted request gets its own route handler's outcome, run as the admitted caller; a successful write becomes the new collection and replies with the saved record as stored under its id; listings reply with the handler's listing and write nothing; failures write nothing |
| Lifecycle.Handle | contract-farming-backend/routes/tenderRoutes.js:9-106 | the gate decides before any handler: no usable token gives Unauthenticated, a role the route does not admit gives Forbidden; an admitted request gets its route handler's outcome with the gate's identity; every failure and every query leaves the collection unchanged |
| Lifecycle.HandleKeepsInvariant | contract-farming-backend/routes/tenderRoutes.js:54-63 | any request keeps every stored tender well formed: text fields non-empty, farmerId null iff status open |
| Lifecycle.HandleAdvances | contract-farming-backend/routes/tenderRoutes.js:54-125 | any request keeps every existing tender and either leaves it alone, assigns an open one to a farmer, or completes an accepted one, never touching owner or text |
| Lifecycle.HandleAddsOnlyOpenTenders | contract-farming-backend/routes/tenderRoutes.js:13-21 | a tender that appears after a request was created by that request: it is open, unassigned and owned by the caller |
| Lifecycle.RunKeepsInvariant | contract-farming-backend/routes/tenderRoutes.js:54-123 | over any sequence of requests every tender stays well formed |
| Lifecycle.RunDescends | contract-farming-backend/routes/tenderRoutes.js:54-125 | over any sequence of requests no tender disappears, owner and text never change, status never regresses and an assigned farmer is never replaced |
| Lifecycle.CompletedIsFrozen | contract-farming-backend/routes/tenderRoutes.js:114-123 | a completed tender is identical after any sequence of requests |
| Lifecycle.OwnerIsPermanent | contract-farming-backend/routes/tenderRoutes.js:54-125 | the owning company of a tender never changes over any sequence of requests |
| Lifecycle.WrongRoleIsForbidden | contract-farming-backend/middleware/auth.js:23-25 | a company calling accept, or a farmer calling create or complete, gets Forbidden and nothing is written, whatever the tender's state |
| Lifecycle.BadTokenIsNeverForbidden | contract-farming-backend/middleware/auth.js:13-25 | a request without a usable token gets Unauthenticated and nothing is written, never Forbidden |
| Lifecycle.OpenMeansUnassigned | contract-farming-backend/routes/tenderRoutes.js:34 | in a well-formed collection the open listing is exactly the tenders without a farmer |
| Lifecycle.FarmerContractsAreAssignments | contract-farming-backend/routes/tenderRoutes.js:86-87 | in a well-formed collection a farmer's contracts are exactly the tenders assigned to that farmer |
| Lifecycle.ReadsAreRepeatable | contract-farming-backend/routes/tenderRoutes.js:32-96 | a listing request writes nothing, so a repeat with nothing in between sees the same collection, and gives the same reply while the token's verdict is unchanged |
| Lifecycle.AcceptClosesOffer | contract-farming-backend/routes/tenderRoutes.js:54-62 | a successful acceptance removes exactly that tender from the open listing |
| Lifecycle.FirstAcceptorWins | contract-farming-backend/routes/tenderRoutes.js:48-62 | of two farmers accepting one open tender in turn, the first is assigned and the second gets InvalidTransition with nothing written |

## Left out

- Concurrency: the read-check-write of accept and complete is not atomic in the route handlers. The model handles requests one at a time, so the two-farmer race is not expressed.
- Token signing and verification, password hashing and login (`routes/authRoutes.js`). Verification is the parameter `verify: string -> Decoded`.
- Server bootstrap, CORS and the database connection (`server.js`).
- The user schema beyond its role enumeration (`models/User.js`). The uniqueness of usernames and e-mails is enforced by the database.
- `.populate` enrichment of listings with company and farmer profiles: it is a database join. Listings return the stored records keyed by id.
- Token expiry and the clock: each request carries the verifier's verdicts at its arrival (`Lifecycle.Arrival`), so a token may verify in one request and be rejected in a later one, but why a verdict changes is not modelled.
- Timestamps, HTTP status codes, message texts and listing order. Listings are maps, so no order is modelled.
- Store failures other than validation and a duplicate id, such as a lost connection.
- The malformed-ObjectId branch of accept (the `err.kind === 'ObjectId'` test), which depends on a Mongo error tag: ids are abstract keys.
- Mongoose's casting of non-string request values to strings: the submitted fields are modelled as optional strings.
- The re-validation that `save()` performs on accept and complete. Every stored tender is well formed (`Lifecycle.RunKeepsInvariant`), so that validation always passes.
- The 403 'Invalid user role' branch of `/mycontracts`: with two roles it cannot be reached.
- The id generated for the new document when it is built is the parameter `Create.newId`. How ids are generated is outside the model, so the duplicate-id branch is kept although generated ids practically never clash.

## Findings

| source | as written | input that shows it | evidently intended | confidence | as-written member | corrected member |
|---|---|---|---|---|---|---|
| contract-farming-backend/middleware/auth.js:20-27 | with an empty role list, `roles.length && ...` short-circuits before `req.user.role` is read, so a verified payload without a `user` claim reaches `next()` with `req.user` undefined | roles `[]`, a token that verifies to a payload without `user` | answer 401, as the non-empty-list path does through its catch | not executed; medium, the path is latent because every route lists at least one role | Auth.AuthorizeAsWritten, Auth.AsWrittenAdmitsMissingUser | Auth.Authorize |
