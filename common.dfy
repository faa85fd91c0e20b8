/** Values shared by every part of the model: optional values, results,
    record identifiers and the envelope a route handler answers with. */
module Common {

  /** A value that may be absent; `None` stands for a JSON field that is
      missing (or `undefined`) in a request body or a stored document. */
  datatype Option<+T> = None | Some(value: T) {
    function GetOr(default: T): T {
      match this
      case Some(v) => v
      case None => default
    }
  }

  datatype Result<+T, +E> = Ok(value: T) | Err(error: E)

  /** Database identifiers (the ObjectIds of the collections). */
  type Id = nat

  /** Why a route handler answered with `success: false`. */
  datatype Failure =
    | ValidationFailed(paths: set<string>)  // the schema paths whose validators failed
    | NotFound
    | InvalidCredentials
    | MissingSecret                         // the token library refused to sign without a secret
    | DuplicateKey(path: string)            // a unique index refused the insert

  /** The JSON envelope of a route: `success: true` with a payload, or
      `success: false` with a reason, each with its HTTP status code. */
  datatype Reply<+T> = Success(code: nat, payload: T) | Fail(code: nat, reason: Failure) {
    predicate IsSuccess() { Success? }
  }

  /** JavaScript truthiness of an optional string: present and non-empty. */
  predicate Truthy(s: Option<string>) {
    s.Some? && s.value != ""
  }
}
