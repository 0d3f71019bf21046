/**
 The role gate placed in front of every tender route: it turns the
 `x-auth-token` header into an identity, or rejects the request, and then
 checks the identity's role against the route's list of admitted roles
 (an empty list admits every authenticated role).
 */
module Auth {
  import opened Types

  /** What signature verification of a token yields: a rejection, or a payload whose `user` claim may be absent. */
  datatype Decoded = Rejected | Decoded(user: Option<Identity>)

  /** A header counts as a token only when it is present and non-empty (the middleware tests `!token`). */
  predicate Presented(token: Option<string>)
  {
    token.Some? && |token.value| > 0
  }

  /** The identity a presented token verifies to, if any. */
  function Resolve(token: Option<string>, verify: string -> Decoded): (u: Option<Identity>)
    ensures u.Some? ==> Presented(token) && verify(token.value) == Decoded(u)
    ensures Presented(token) && verify(token.value).Decoded? ==> u == verify(token.value).user
  {
    if !Presented(token) then None
    else match verify(token.value)
      case Rejected => None
      case Decoded(user) => user
  }

  /** The role check: an empty list admits any role, otherwise the role must be listed. */
  predicate Admits(roles: seq<Role>, role: Role)
  {
    |roles| == 0 || role in roles
  }

  /**
   The gate's decision. Authentication is settled before the role check, so a
   request without a usable token is reported Unauthenticated and never Forbidden;
   an admitted request carries the token's identity forward unchanged.
   */
  function Authorize(token: Option<string>, verify: string -> Decoded, roles: seq<Role>): (r: Result<Identity>)
    ensures !Presented(token) ==> r == Err(Unauthenticated)
    ensures Presented(token) && verify(token.value) == Rejected ==> r == Err(Unauthenticated)
    ensures Presented(token) && verify(token.value) == Decoded(None) ==> r == Err(Unauthenticated)
    ensures r == Err(Unauthenticated) <==> Resolve(token, verify).None?
    ensures r == Err(Forbidden) <==> Resolve(token, verify).Some? && !Admits(roles, Resolve(token, verify).value.role)
    ensures r.Ok? <==> Resolve(token, verify).Some? && Admits(roles, Resolve(token, verify).value.role)
    ensures r.Ok? ==> Presented(token) && verify(token.value) == Decoded(Some(r.value))
    ensures r.Ok? && |roles| > 0 ==> r.value.role in roles
  {
    if !Presented(token) then Err(Unauthenticated)
    else match verify(token.value)
      case Rejected => Err(Unauthenticated)
      case Decoded(None) => Err(Unauthenticated)
      case Decoded(Some(user)) =>
        if |roles| > 0 && user.role !in roles then Err(Forbidden) else Ok(user)
  }

  /** An empty role list admits every caller whose token verifies to a user. */
  lemma EmptyListAdmitsAnyIdentity(token: Option<string>, verify: string -> Decoded, user: Identity)
    requires Presented(token) && verify(token.value) == Decoded(Some(user))
    ensures Authorize(token, verify, []) == Ok(user)
  {
  }

  /**
   The gate as the middleware writes it. With an empty role list the guard
   `roles.length && ...` short-circuits before `req.user.role` is read, so a
   verified payload without a `user` claim is passed on with `req.user`
   undefined (`Ok(None)`); with a non-empty list the read throws and the catch
   answers 401.
   */
  function AuthorizeAsWritten(token: Option<string>, verify: string -> Decoded, roles: seq<Role>): (r: Result<Option<Identity>>)
    ensures r.Ok? && r.value.None? ==> |roles| == 0
    ensures r.Ok? ==> Presented(token) && verify(token.value) == Decoded(r.value)
    ensures |roles| == 0 ==> (r.Ok? <==> Presented(token) && verify(token.value).Decoded?)
    ensures |roles| == 0 && r.Ok? ==> r.value == verify(token.value).user
    ensures |roles| == 0 && r.Err? ==> r.error == Unauthenticated
  {
    if !Presented(token) then Err(Unauthenticated)
    else match verify(token.value)
      case Rejected => Err(Unauthenticated)
      case Decoded(user) =>
        if |roles| > 0 then
          match user
          case None => Err(Unauthenticated)
          case Some(u) => if u.role !in roles then Err(Forbidden) else Ok(user)
        else Ok(user)
  }

  /** The discrepancy: with no listed roles, a token carrying no user passes the gate as written. */
  lemma AsWrittenAdmitsMissingUser()
    ensures AuthorizeAsWritten(Some("t"), (s: string) => Decoded(None), []) == Ok(None)
    ensures Authorize(Some("t"), (s: string) => Decoded(None), []) == Err(Unauthenticated)
  {
  }

  /**
   Every route of the system lists at least one role, and there the gate as
   written and the corrected gate decide alike.
   */
  lemma AsWrittenAgreesForListedRoles(token: Option<string>, verify: string -> Decoded, roles: seq<Role>)
    requires |roles| > 0
    ensures AuthorizeAsWritten(token, verify, roles).Err? <==> Authorize(token, verify, roles).Err?
    ensures AuthorizeAsWritten(token, verify, roles).Err? ==>
              AuthorizeAsWritten(token, verify, roles).error == Authorize(token, verify, roles).error
    ensures AuthorizeAsWritten(token, verify, roles).Ok? ==>
              AuthorizeAsWritten(token, verify, roles).value == Some(Authorize(token, verify, roles).value)
  {
  }
}
