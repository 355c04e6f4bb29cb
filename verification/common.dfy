/** Shared result types of the model: optional values (JavaScript's
    `undefined`/`null`) and the `{ success, data }` / `status(...).json({ error })`
    replies every route handler sends. */
module Common {

  datatype Option<+T> = None | Some(value: T) {
    function GetOr(default: T): T {
      match this
      case Some(v) => v
      case None => default
    }
  }

  /** What a route handler answers: a 200 reply carrying `data`, or an HTTP
      error status with the `error` message the handler writes. */
  datatype Reply<+T> = Success(data: T) | Failure(status: int, error: string)

  const BadRequest := 400
  const Forbidden := 403
  const NotFound := 404
}
