/** Shared vocabulary of the personal-finance backend: identifiers, optional
    request-body fields, and the outcomes a route handler answers with. */
module Common {

  /** Identifier of a registered user (the `_id` of a User document). The
      authentication middleware hands every protected route one of these. */
  type UserId = nat

  /** Identifier of a stored resource record (the `_id` of its document). */
  type RecordId = nat

  /** A request-body field that may be missing (`undefined` or `null`). */
  datatype Option<T> = None | Some(value: T) {

    /** The carried value, or `default` when the field is missing. */
    function GetOr(default: T): T {
      match this
      case Some(v) => v
      case None => default
    }
  }

  /** Mongoose's `required` test on a String path: present and non-empty. */
  predicate Filled(s: Option<string>) {
    s.Some? && |s.value| > 0
  }

  /** JavaScript truthiness of an optional number: missing, null and 0 are falsy. */
  predicate Truthy(x: Option<real>) {
    x.Some? && x.value != 0.0
  }

  /** JavaScript `a || b` on optional numbers. */
  function Or(a: Option<real>, b: Option<real>): Option<real> {
    if Truthy(a) then a else b
  }

  /** The error answers of the route handlers. */
  datatype Error =
    | NotFound            // 404 "<Resource> not found"
    | NotAuthorized       // 401 "Not authorized"
    | UserExists          // 400 "User already exists"
    | InvalidCredentials  // 400 "Invalid credentials"
    | ServerError         // 500 "Server error" (every caught exception)
  {
    /** The HTTP status the handler sends with this error. */
    function Status(): nat {
      match this
      case NotFound => 404
      case NotAuthorized => 401
      case UserExists => 400
      case InvalidCredentials => 400
      case ServerError => 500
    }
  }

  /** The answer of a handler: a JSON body on success, or an error. */
  datatype Result<T> = Ok(value: T) | Err(error: Error)
}
