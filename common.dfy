/** Shared vocabulary of the route_app model: optional values, results,
    the HTTP failures the route handlers answer with, and timestamps. */
module Common {

  datatype Option<+T> = None | Some(value: T)

  datatype Result<+T, +E> = Ok(value: T) | Err(error: E)

  /** The failures a route handler reports. Every `catch` block of the
      routes answers 500, so Mongoose validation errors land in `ServerError`. */
  datatype HttpError = NotFound | BadRequest | ServerError

  function Code(e: HttpError): (code: int)
    ensures 400 <= code < 600
    ensures code == 404 <==> e == NotFound
    ensures e == BadRequest ==> code == 400
    ensures e == ServerError ==> code == 500
  {
    match e
    case NotFound => 404
    case BadRequest => 400
    case ServerError => 500
  }

  /** What `api.request` resolves to. The fetch itself may fail and
      reject; otherwise the answer is parsed as JSON whatever its HTTP
      status, so an error answer (a 401 from the auth middleware, a 500 from
      a route) resolves as well, as a body without `data`. */
  datatype Reply<+T> = NetworkFailure | ErrorBody | Body(body: T)

  /** Milliseconds since the epoch, as a JavaScript `Date` holds them. */
  type Time = int

  /** Document ids (Mongo ObjectIds), modelled as naturals handed out by a counter. */
  type Id = nat

  /** Ids of users (salespeople). */
  type UserId = nat

  /** JavaScript truthiness of an optional string: present and non-empty. */
  predicate Truthy(s: Option<string>) {
    s.Some? && s.value != ""
  }
}
