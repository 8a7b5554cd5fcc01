/** What a route handler answers: a status code, with a payload on success. */
module Http {
  datatype Reply<T> = Success(code: int, payload: T) | Failure(code: int)

  /** The codes the handlers use. */
  const OK := 200
  const CREATED := 201
  const BAD_REQUEST := 400
  const NOT_FOUND := 404
  const CONFLICT := 409
  const SERVER_ERROR := 500
}
