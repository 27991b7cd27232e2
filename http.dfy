/** An `HTTPException` raised by a route: the status code and the detail
    message the client receives. */
module Http {
  datatype HttpError = HttpError(status: nat, detail: string)

  const BadRequest: nat := 400
  const Unauthorized: nat := 401
  const NotFound: nat := 404
  const Conflict: nat := 409
  const InternalServerError: nat := 500
}
