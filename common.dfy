/** Values shared by every module: ids, the optional value, the HTTP errors
    the services and guards throw, and JavaScript's truthiness of an optional
    string (an absent value and the empty string are both falsy). */
module Common {

  /** A document id as the services compare it: the string form of an ObjectId. */
  type Id = string

  datatype Option<T> = None | Some(value: T)

  /** The exceptions of the core. `Internal` stands for an uncaught error that
      is not an HttpException (a TypeError on a null reference, say), which
      the framework answers with status 500. */
  datatype HttpError =
    | BadRequest(message: string)
    | NotFound(message: string)
    | Forbidden(message: string)
    | Internal(message: string)
  {
    /** The HTTP status the framework answers with. */
    function Status(): nat
    {
      match this
      case BadRequest(_) => 400
      case NotFound(_) => 404
      case Forbidden(_) => 403
      case Internal(_) => 500
    }
  }

  datatype Result<T> = Ok(value: T) | Err(error: HttpError)

  /** `if (s)` on a value that is a string or undefined. */
  predicate Truthy(s: Option<string>)
  {
    s.Some? && s.value != ""
  }

  /** `a || b` on values that are strings or undefined. */
  function Or(a: Option<string>, b: Option<string>): (r: Option<string>)
    ensures Truthy(a) ==> r == a
    ensures !Truthy(a) ==> r == b
    ensures Truthy(r) <==> Truthy(a) || Truthy(b)
  {
    if Truthy(a) then a else b
  }
}
