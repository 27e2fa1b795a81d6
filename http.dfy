/**
 * What every request handler shares: row ids, time stamps, the
 * authenticated user `req.user`, and the error responses.
 */
module Http {
  import opened Wrappers
  import opened Roles

  /**
   * The key of a table row. Keys are written as positive naturals and stand
   * for the database's own keys (UUIDs for machines and users); like those,
   * a present key is truthy.
   */
  type Id = x: nat | x >= 1 witness 1

  /** A point in time, as `NOW()` and the clock read it. */
  type Time = nat

  /**
   * `req.user` as the authentication middleware sets it: the row of the
   * user whose e-mail came in the request header, with the role already
   * normalised; a user accepted without a row has no `id`.
   */
  datatype RequestUser = RequestUser(id: Option<Id>, email: string, name: Option<string>, role: Role)

  /**
   * An error response: the HTTP status code, the `error` field of the body
   * and, for state conflicts, the stored status the body carries as `status`.
   */
  datatype Failure = Failure(code: nat, error: string, status: Option<string>)

  function Fail(code: nat, error: string): Failure {
    Failure(code, error, None)
  }

  /**
   * The 500 answer a handler's `catch` gives when a statement fails in the
   * database; the text of the database's message is not modelled.
   */
  const DatabaseError: Failure := Failure(500, "", None)
}
