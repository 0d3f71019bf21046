/**
 The tender route handlers, each run after the role gate has admitted the
 caller: post a tender, list open tenders, accept a tender, list the caller's
 contracts, complete a tender. The tender collection is a map from id to
 record; a write returns the new collection together with the saved record.
 */
module TenderRoutes {
  import opened Types
  import opened TenderModel

  type Store = map<TenderId, Tender>

  /** A successful write: the collection after the save, and the record returned to the caller. */
  datatype Written = Written(store: Store, tender: Tender)

  /** Every key other than `id` is bound to the same record in both collections. */
  predicate OthersUnchanged(before: Store, after: Store, id: TenderId)
  {
    && after.Keys == before.Keys + {id}
    && forall k :: k in before && k != id ==> after[k] == before[k]
  }

  /** Two records agree on their owner and on the four text fields. */
  predicate SameTerms(t: Tender, u: Tender)
  {
    && u.companyId == t.companyId
    && u.cropName == t.cropName
    && u.requiredQuantity == t.requiredQuantity
    && u.contractDuration == t.contractDuration
    && u.unitPrice == t.unitPrice
  }

  /**
   POST /: a company posts a tender. The new document takes the caller's id as
   its owner; a failed validation or an id clash stores nothing.
   */
  function PostTender(store: Store, caller: Identity, input: TenderInput, newId: TenderId): (r: Result<Written>)
    ensures r.Ok? <==> AllSupplied(input) && newId !in store
    ensures !AllSupplied(input) ==> r == Err(ServerError(MissingRequiredField))
    ensures AllSupplied(input) && newId in store ==> r == Err(ServerError(DuplicateKey))
    ensures r.Ok? ==> OthersUnchanged(store, r.value.store, newId) && r.value.store[newId] == r.value.tender
    ensures r.Ok? ==> r.value.tender.status == Open && r.value.tender.farmerId == None
    ensures r.Ok? ==> r.value.tender.companyId == caller.id
    ensures r.Ok? ==>
      && input.cropName == Some(r.value.tender.cropName)
      && input.requiredQuantity == Some(r.value.tender.requiredQuantity)
      && input.contractDuration == Some(r.value.tender.contractDuration)
      && input.unitPrice == Some(r.value.tender.unitPrice)
  {
    match NewTender(input, caller.id)
    case Err(e) => Err(e)
    case Ok(t) =>
      if newId in store then Err(ServerError(DuplicateKey))
      else Ok(Written(store[newId := t], t))
  }

  /** GET /open: every open tender, with its id. */
  function ListOpen(store: Store): (r: Store)
    ensures forall k :: k in r <==> k in store && store[k].status == Open
    ensures forall k :: k in r ==> r[k] == store[k]
  {
    map k | k in store && store[k].status == Open :: store[k]
  }

  /**
   PUT /accept/:id: a farmer takes an open tender. Existence is checked first,
   then the status; only an open tender is assigned, so the first acceptor wins.
   */
  function AcceptTender(store: Store, caller: Identity, id: TenderId): (r: Result<Written>)
    ensures id !in store ==> r == Err(NotFound)
    ensures id in store && store[id].status != Open ==> r == Err(InvalidTransition)
    ensures r.Ok? <==> id in store && store[id].status == Open
    ensures r.Ok? ==> OthersUnchanged(store, r.value.store, id) && r.value.store[id] == r.value.tender
    ensures r.Ok? ==> r.value.tender.status == Accepted && r.value.tender.farmerId == Some(caller.id)
    ensures r.Ok? ==> SameTerms(store[id], r.value.tender)
  {
    if id !in store then Err(NotFound)
    else
      var t := store[id];
      if t.status != Open then Err(InvalidTransition)
      else
        var t' := t.(farmerId := Some(caller.id), status := Accepted);
        Ok(Written(store[id := t'], t'))
  }

  /**
   GET /mycontracts: a company sees every tender it posted, whatever its
   status; a farmer sees the tenders assigned to it that are accepted or
   completed.
   */
  function ListMine(store: Store, caller: Identity): (r: Store)
    ensures caller.role == Company ==> forall k :: k in r <==> k in store && store[k].companyId == caller.id
    ensures caller.role == Farmer ==> forall k :: k in r <==>
      k in store && store[k].farmerId == Some(caller.id) && store[k].status != Open
    ensures forall k :: k in r ==> r[k] == store[k]
  {
    match caller.role
    case Company =>
      map k | k in store && store[k].companyId == caller.id :: store[k]
    case Farmer =>
      map k | k in store && store[k].farmerId == Some(caller.id)
                         && (store[k].status == Accepted || store[k].status == Completed) :: store[k]
  }

  /**
   PUT /complete/:id: the owning company closes an accepted tender. The checks
   run in a fixed order: existence, then status, then ownership, so a
   non-owner asking about a tender that is not accepted learns InvalidTransition.
   */
  function CompleteTender(store: Store, caller: Identity, id: TenderId): (r: Result<Written>)
    ensures id !in store ==> r == Err(NotFound)
    ensures id in store && store[id].status != Accepted ==> r == Err(InvalidTransition)
    ensures id in store && store[id].status == Accepted && store[id].companyId != caller.id ==> r == Err(Forbidden)
    ensures r.Ok? <==> id in store && store[id].status == Accepted && store[id].companyId == caller.id
    ensures r.Ok? ==> OthersUnchanged(store, r.value.store, id) && r.value.store[id] == r.value.tender
    ensures r.Ok? ==> r.value.tender.status == Completed && r.value.tender.farmerId == store[id].farmerId
    ensures r.Ok? ==> SameTerms(store[id], r.value.tender)
  {
    if id !in store then Err(NotFound)
    else
      var t := store[id];
      if t.status != Accepted then Err(InvalidTransition)
      else if t.companyId != caller.id then Err(Forbidden)
      else
        var t' := t.(status := Completed);
        Ok(Written(store[id := t'], t'))
  }
}
