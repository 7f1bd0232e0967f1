/** Small shared vocabulary: an optional value and the outcome of a request handler. */
module Common {

  datatype Option<T> = None | Some(value: T)

  /** The HTTP outcome a route handler answers with. */
  datatype Outcome =
    | Ok           // 200 / 201
    | BadRequest   // 400: a missing field or a refused self-targeted action
    | NotFound     // 404
    | Conflict     // 409: a name or e-mail that is already taken
    | ServerError  // 500: an exception caught by the handler
}
