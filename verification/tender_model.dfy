/**
 The Tender document: four required text fields, a status drawn from
 {open, accepted, completed} defaulting to open, a required owning company
 and a farmer reference that defaults to null.
 */
module TenderModel {
  import opened Types

  datatype Status = Open | Accepted | Completed

  datatype Tender = Tender(
    cropName: string,
    requiredQuantity: string,
    contractDuration: string,
    unitPrice: string,
    status: Status,
    companyId: UserId,
    farmerId: Option<UserId>)

  /** The fields a company submits when posting a tender; any of them may be absent. */
  datatype TenderInput = TenderInput(
    cropName: Option<string>,
    requiredQuantity: Option<string>,
    contractDuration: Option<string>,
    unitPrice: Option<string>)

  /** A `required` String path is satisfied by a present, non-empty string. */
  predicate Supplied(f: Option<string>)
  {
    f.Some? && |f.value| > 0
  }

  predicate AllSupplied(input: TenderInput)
  {
    && Supplied(input.cropName)
    && Supplied(input.requiredQuantity)
    && Supplied(input.contractDuration)
    && Supplied(input.unitPrice)
  }

  /** Every required text field of a stored tender is non-empty. */
  predicate HasRequiredFields(t: Tender)
  {
    |t.cropName| > 0 && |t.requiredQuantity| > 0 && |t.contractDuration| > 0 && |t.unitPrice| > 0
  }

  /** The farmer reference is null exactly while the tender is open. */
  predicate AssigneeMatchesStatus(t: Tender)
  {
    t.farmerId.None? <==> t.status == Open
  }

  /** The record invariant every stored tender keeps. */
  predicate WellFormed(t: Tender)
  {
    HasRequiredFields(t) && AssigneeMatchesStatus(t)
  }

  /**
   Builds and validates a new tender document: the schema defaults fill in
   `status` and `farmerId`, and validation rejects a document with a required
   text field missing or empty.
   */
  function NewTender(input: TenderInput, companyId: UserId): (r: Result<Tender>)
    ensures r.Ok? <==> AllSupplied(input)
    ensures r.Err? ==> r.error == ServerError(MissingRequiredField)
    ensures r.Ok? ==> WellFormed(r.value)
    ensures r.Ok? ==> r.value.status == Open && r.value.farmerId == None
    ensures r.Ok? ==> r.value.companyId == companyId
    ensures r.Ok? ==>
      && Some(r.value.cropName) == input.cropName
      && Some(r.value.requiredQuantity) == input.requiredQuantity
      && Some(r.value.contractDuration) == input.contractDuration
      && Some(r.value.unitPrice) == input.unitPrice
  {
    if AllSupplied(input) then
      Ok(Tender(input.cropName.value, input.requiredQuantity.value,
                input.contractDuration.value, input.unitPrice.value,
                Open, companyId, None))
    else
      Err(ServerError(MissingRequiredField))
  }
}
