/**
 Shared vocabulary of the contract-farming backend: user and tender ids,
 the two user roles, the identity a verified token carries, and the error
 categories a request can end in.
 */
module Types {

  /** Opaque user id (a Mongo ObjectId in the system; only compared for equality). */
  type UserId = nat

  /** Opaque tender id (the document's `_id`). */
  type TenderId = nat

  /** The role enumeration of a user account: 'farmer' or 'company'. */
  datatype Role = Farmer | Company

  /** The `user` claim of a signed token: who is calling, and in which role. */
  datatype Identity = Identity(id: UserId, role: Role)

  datatype Option<+T> = None | Some(value: T)

  /** Why a store write was refused; the routes report either as a server error. */
  datatype StoreFault =
    | MissingRequiredField  // schema validation of a `required` path failed
    | DuplicateKey          // the new document's id is already taken

  /** The outcome categories of a request that does not succeed. */
  datatype Error =
    | Unauthenticated           // 401: no token, or a token that does not verify to a user
    | Forbidden                 // 403: role not admitted, or not the tender's owner
    | NotFound                  // 404: no tender with that id
    | InvalidTransition         // 400: the tender's status does not admit the operation
    | ServerError(fault: StoreFault)  // 500: the store refused the write

  datatype Result<+T> = Ok(value: T) | Err(error: Error)
}
