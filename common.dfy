/** Vocabulary shared by every module of the model: identifiers, timestamps,
    optional values and the HTTP-style outcome of a route handler. */
module Common {

  /** A document identifier (a MongoDB ObjectId), abstracted to a number. */
  type Id = nat

  /** A wall-clock instant, abstracted to a number (milliseconds or seconds,
      whichever the caller uses consistently). */
  type Time = nat

  datatype Option<+T> = None | Some(value: T)

  /** The error statuses the route handlers answer with. */
  datatype HttpError =
    | BadRequest    // 400
    | Forbidden     // 403
    | NotFound      // 404
    | Conflict      // 409
    | ServerError   // 500: a thrown exception caught by the handler

  /** What a route handler sends back: a success payload or an error status. */
  datatype Response<+T> = Ok(value: T) | Fail(error: HttpError)

  /** The authenticated caller (`req.user`), as resolved by the session layer. */
  datatype Caller = Caller(id: Id, username: string)
}
