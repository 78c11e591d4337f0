/** What a middleware or a handler answers: let the request through, or stop it with an
    HTTP status. */
module Http {

  const BadRequest: int := 400
  const Unauthorized: int := 401
  const Forbidden: int := 403
  const NotFound: int := 404
  const ServerError: int := 500
  const OkStatus: int := 200
  const Created: int := 201

  /** `next()`, or `res.status(code)` without calling `next()`. */
  datatype Gate = Pass | Reject(status: int)
}
