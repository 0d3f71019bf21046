/**
 The tender lifecycle as the router runs it: each request passes the role
 gate with the route's admitted roles, then the route's handler; a run is a
 sequence of such requests against one tender collection. The lemmas here
 show that the record invariants survive every request and every run, that
 a tender's status only moves open -> accepted -> completed, and that a
 completed tender is frozen.
 */
module Lifecycle {
  import opened Types
  import opened TenderModel
  import opened Auth
  import opened TenderRoutes

  /** The five tender routes. `newId` is the id generated for the new document when it is built. */
  datatype Action =
    | Create(input: TenderInput, newId: TenderId)  // POST /
    | GetOpen                                       // GET /open
    | Accept(id: TenderId)                          // PUT /accept/:id
    | GetMine                                       // GET /mycontracts
    | Complete(id: TenderId)                        // PUT /complete/:id

  datatype Request = Request(token: Option<string>, action: Action)

  /** A successful reply: one saved record, or a listing keyed by id. */
  datatype Reply = Record(tender: Tender) | Records(tenders: Store)

  datatype Outcome = Outcome(store: Store, reply: Result<Reply>)

  /**
   The roles each route's gate admits: every route lists at least one role,
   companies are kept off the farmer routes (open listing, accept) and farmers
   off the company routes (create, complete); both may list their contracts.
   */
  function AllowedRoles(a: Action): (roles: seq<Role>)
    ensures |roles| > 0
    ensures Company in roles <==> !(a.GetOpen? || a.Accept?)
    ensures Farmer in roles <==> !(a.Create? || a.Complete?)
  {
    match a
    case Create(_, _) => [Company]
    case GetOpen => [Farmer]
    case Accept(_) => [Farmer]
    case GetMine => [Farmer, Company]
    case Complete(_) => [Company]
  }

  predicate IsQuery(a: Action)
  {
    a.GetOpen? || a.GetMine?
  }

  /** A handler's write result becomes the next collection and the reply; a failure writes nothing. */
  function Commit(store: Store, w: Result<Written>): Outcome
  {
    match w
    case Err(e) => Outcome(store, Err(e))
    case Ok(Written(s, t)) => Outcome(s, Ok(Record(t)))
  }

  /**
   Runs the route handler of an admitted request as the admitted caller: each
   route's outcome is its handler's result, and the two listings reply with
   the handler's listing and write nothing.
   */
  function Dispatch(store: Store, caller: Identity, a: Action): (o: Outcome)
    ensures IsQuery(a) ==> o.store == store && o.reply.Ok?
    ensures o.reply.Err? ==> o.store == store
    ensures a.Create? ==> o == Commit(store, PostTender(store, caller, a.input, a.newId))
    ensures a.GetOpen? ==> o.reply == Ok(Records(ListOpen(store)))
    ensures a.Accept? ==> o == Commit(store, AcceptTender(store, caller, a.id))
    ensures a.GetMine? ==> o.reply == Ok(Records(ListMine(store, caller)))
    ensures a.Complete? ==> o == Commit(store, CompleteTender(store, caller, a.id))
    ensures a.Create? && o.reply.Ok? ==> a.newId in o.store && o.reply == Ok(Record(o.store[a.newId]))
    ensures (a.Accept? || a.Complete?) && o.reply.Ok? ==> a.id in o.store && o.reply == Ok(Record(o.store[a.id]))
  {
    match a
    case Create(input, newId) => Commit(store, PostTender(store, caller, input, newId))
    case GetOpen => Outcome(store, Ok(Records(ListOpen(store))))
    case Accept(id) => Commit(store, AcceptTender(store, caller, id))
    case GetMine => Outcome(store, Ok(Records(ListMine(store, caller))))
    case Complete(id) => Commit(store, CompleteTender(store, caller, id))
  }

  /**
   One request: the gate decides first, and only an admitted caller reaches
   the handler. Every failure leaves the collection as it was, and the two
   listing routes never change it.
   */
  function Handle(store: Store, verify: string -> Decoded, req: Request): (o: Outcome)
    ensures o.reply.Err? ==> o.store == store
    ensures IsQuery(req.action) ==> o.store == store
    ensures Resolve(req.token, verify).None? ==> o.reply == Err(Unauthenticated)
    ensures (Resolve(req.token, verify).Some? && !Admits(AllowedRoles(req.action), Resolve(req.token, verify).value.role))
      ==> o.reply == Err(Forbidden)
    ensures o.reply.Ok? ==> Resolve(req.token, verify).Some?
    ensures Authorize(req.token, verify, AllowedRoles(req.action)).Ok? ==>
      o == Dispatch(store, Authorize(req.token, verify, AllowedRoles(req.action)).value, req.action)
  {
    match Authorize(req.token, verify, AllowedRoles(req.action))
    case Err(e) => Outcome(store, Err(e))
    case Ok(caller) => Dispatch(store, caller, req.action)
  }

  /**
   A request together with the verdicts the token verifier gives when it
   arrives; a token that has expired since an earlier request verifies
   differently here.
   */
  datatype Arrival = Arrival(verify: string -> Decoded, req: Request)

  /** The collection after a sequence of requests, handled one after another. */
  function Run(store: Store, reqs: seq<Arrival>): Store
    decreases |reqs|
  {
    if |reqs| == 0 then store
    else Run(Handle(store, reqs[0].verify, reqs[0].req).store, reqs[1..])
  }

  // ---------------------------------------------------------------------------
  // The record invariants

  /** Every stored tender is well formed. */
  predicate StoreWellFormed(s: Store)
  {
    forall k :: k in s ==> WellFormed(s[k])
  }

  function Rank(s: Status): nat
  {
    match s
    case Open => 0
    case Accepted => 1
    case Completed => 2
  }

  /**
   What one request may do to a stored tender: nothing, assign an open tender
   to a farmer, or close an accepted one. The owner and the text fields never
   change, and no step skips a status.
   */
  predicate Advances(t: Tender, u: Tender)
  {
    || u == t
    || (t.status == Open && u.status == Accepted && u.farmerId.Some? && SameTerms(t, u))
    || (t.status == Accepted && u == t.(status := Completed))
  }

  /**
   What any number of requests may do to a stored tender: the owner and the
   text fields are kept, the status never regresses, the farmer once set is
   kept, and a completed tender is left exactly as it is.
   */
  predicate Descends(t: Tender, u: Tender)
  {
    && SameTerms(t, u)
    && Rank(t.status) <= Rank(u.status)
    && (t.status != Open ==> u.farmerId == t.farmerId)
    && (t.status == Completed ==> u == t)
  }

  lemma AdvancesDescends(t: Tender, u: Tender)
    requires Advances(t, u)
    ensures Descends(t, u)
  {
  }

  lemma DescendsTransitive(t: Tender, u: Tender, v: Tender)
    requires Descends(t, u) && Descends(u, v)
    ensures Descends(t, v)
  {
  }

  /** Every request keeps each stored tender well formed and adds only well-formed tenders. */
  lemma HandleKeepsInvariant(store: Store, verify: string -> Decoded, req: Request)
    requires StoreWellFormed(store)
    ensures StoreWellFormed(Handle(store, verify, req).store)
  {
  }

  /** Every request keeps every existing tender and moves each by at most one permitted step. */
  lemma HandleAdvances(store: Store, verify: string -> Decoded, req: Request)
    ensures forall k :: k in store ==> k in Handle(store, verify, req).store
    ensures forall k :: k in store ==> Advances(store[k], Handle(store, verify, req).store[k])
  {
  }

  /** A tender a request adds is a fresh open tender posted by the caller. */
  lemma HandleAddsOnlyOpenTenders(store: Store, verify: string -> Decoded, req: Request, k: TenderId)
    requires k in Handle(store, verify, req).store && k !in store
    ensures req.action.Create? && k == req.action.newId
    ensures Handle(store, verify, req).store[k].status == Open
    ensures Handle(store, verify, req).store[k].farmerId == None
    ensures Handle(store, verify, req).store[k].companyId == Resolve(req.token, verify).value.id
  {
  }

  /** Over any run the invariant holds after every request. */
  lemma {:induction false} RunKeepsInvariant(store: Store, reqs: seq<Arrival>)
    requires StoreWellFormed(store)
    ensures StoreWellFormed(Run(store, reqs))
    decreases |reqs|
  {
    if |reqs| > 0 {
      HandleKeepsInvariant(store, reqs[0].verify, reqs[0].req);
      RunKeepsInvariant(Handle(store, reqs[0].verify, reqs[0].req).store, reqs[1..]);
    }
  }

  /** Over any run no tender disappears and each only descends along the lifecycle. */
  lemma {:induction false} RunDescends(store: Store, reqs: seq<Arrival>)
    ensures forall k :: k in store ==> k in Run(store, reqs)
    ensures forall k :: k in store ==> Descends(store[k], Run(store, reqs)[k])
    decreases |reqs|
  {
    if |reqs| > 0 {
      var next := Handle(store, reqs[0].verify, reqs[0].req).store;
      HandleAdvances(store, reqs[0].verify, reqs[0].req);
      RunDescends(next, reqs[1..]);
      forall k | k in store
        ensures Descends(store[k], Run(store, reqs)[k])
      {
        AdvancesDescends(store[k], next[k]);
        DescendsTransitive(store[k], next[k], Run(next, reqs[1..])[k]);
      }
    }
  }

  /** A completed tender is never modified again, whatever requests follow. */
  lemma CompletedIsFrozen(store: Store, reqs: seq<Arrival>, k: TenderId)
    requires k in store && store[k].status == Completed
    ensures k in Run(store, reqs) && Run(store, reqs)[k] == store[k]
  {
    RunDescends(store, reqs);
  }

  /** The owner of a tender never changes, whatever requests follow. */
  lemma OwnerIsPermanent(store: Store, reqs: seq<Arrival>, k: TenderId)
    requires k in store
    ensures k in Run(store, reqs) && Run(store, reqs)[k].companyId == store[k].companyId
  {
    RunDescends(store, reqs);
  }

  // ---------------------------------------------------------------------------
  // The gate in front of the handlers

  /**
   The gate runs before the handler: a company calling accept, or a farmer
   calling create or complete, is Forbidden whatever the tender's state, and
   nothing is written.
   */
  lemma WrongRoleIsForbidden(store: Store, verify: string -> Decoded, req: Request)
    requires Resolve(req.token, verify).Some?
    requires var role := Resolve(req.token, verify).value.role;
      || (role == Company && req.action.Accept?)
      || (role == Farmer && (req.action.Create? || req.action.Complete?))
    ensures Handle(store, verify, req) == Outcome(store, Err(Forbidden))
  {
  }

  /** A request without a usable token is never reported as Forbidden. */
  lemma BadTokenIsNeverForbidden(store: Store, verify: string -> Decoded, req: Request)
    requires Resolve(req.token, verify).None?
    ensures Handle(store, verify, req) == Outcome(store, Err(Unauthenticated))
  {
  }

  // ---------------------------------------------------------------------------
  // Queries under the invariant

  /** In a well-formed collection the open listing is exactly the unassigned tenders. */
  lemma OpenMeansUnassigned(store: Store)
    requires StoreWellFormed(store)
    ensures forall k :: k in ListOpen(store) <==> k in store && store[k].farmerId.None?
  {
  }

  /**
   In a well-formed collection a farmer's contracts are exactly the tenders
   assigned to that farmer: the status filter of the query excludes nothing more.
   */
  lemma FarmerContractsAreAssignments(store: Store, caller: Identity)
    requires StoreWellFormed(store) && caller.role == Farmer
    ensures forall k :: k in ListMine(store, caller) <==> k in store && store[k].farmerId == Some(caller.id)
  {
  }

  /**
   A listing request writes nothing, so repeating it with nothing in between
   sees the same collection; the repeat gives the same reply as long as the
   token's verdict has not changed (say, by expiry) in the meantime.
   */
  lemma ReadsAreRepeatable(store: Store, first: string -> Decoded, again: string -> Decoded, req: Request)
    requires IsQuery(req.action)
    ensures Handle(store, first, req).store == store
    ensures Handle(Handle(store, first, req).store, again, req) == Handle(store, again, req)
    ensures Resolve(req.token, first) == Resolve(req.token, again) ==>
              Handle(store, first, req) == Handle(store, again, req)
  {
  }

  /** A successful acceptance removes exactly the accepted tender from the open listing. */
  lemma AcceptClosesOffer(store: Store, caller: Identity, id: TenderId)
    requires AcceptTender(store, caller, id).Ok?
    ensures ListOpen(AcceptTender(store, caller, id).value.store).Keys == ListOpen(store).Keys - {id}
  {
    var after := AcceptTender(store, caller, id).value.store;
    forall k
      ensures k in ListOpen(after) <==> k in ListOpen(store) - {id}
    {
    }
  }

  /**
   Of two farmers accepting the same open tender one after the other, the
   first is assigned and the second is refused with InvalidTransition, the
   tender keeping the first farmer.
   */
  lemma FirstAcceptorWins(store: Store, first: Arrival, second: Arrival)
    requires first.req.action.Accept? && second.req.action == first.req.action
    requires first.req.action.id in store && store[first.req.action.id].status == Open
    requires Resolve(first.req.token, first.verify).Some? && Resolve(first.req.token, first.verify).value.role == Farmer
    requires Resolve(second.req.token, second.verify).Some? && Resolve(second.req.token, second.verify).value.role == Farmer
    ensures var after := Handle(store, first.verify, first.req).store;
      && after[first.req.action.id].status == Accepted
      && after[first.req.action.id].farmerId == Some(Resolve(first.req.token, first.verify).value.id)
      && Handle(after, second.verify, second.req) == Outcome(after, Err(InvalidTransition))
  {
  }
}
