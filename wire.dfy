/**
  Values exchanged with the GIB e-Arsiv portal: JSON data as the Python client
  sees it after `response.json()`, the requests the client sends, what the
  session transport yields for one request, and the failures an operation can
  raise.
 */
module Wire {

  datatype Option<+T> = None | Some(value: T)

  /** A decoded JSON value; `Null` stands for Python's `None`. Numbers are reals, not IEEE floats. */
  datatype Value =
    | Null
    | Bool(b: bool)
    | Num(n: real)
    | Str(s: string)
    | Arr(items: seq<Value>)
    | Obj(fields: map<string, Value>)

  /** Python truthiness of a decoded JSON value (`if response.get("data"):`). */
  predicate Truthy(v: Value) {
    match v
    case Null => false
    case Bool(b) => b
    case Num(n) => n != 0.0
    case Str(s) => s != ""
    case Arr(items) => items != []
    case Obj(fields) => fields != map[]
  }

  /** `m.get(key, default)` on a decoded JSON object. */
  function Get(m: map<string, Value>, key: string, default: Value): (v: Value)
    ensures key in m ==> v == m[key]
    ensures key !in m ==> v == default
  {
    if key in m then m[key] else default
  }

  /** An optional string argument takes effect when it is truthy: neither `None` nor `""`. */
  predicate Given(s: Option<string>) {
    s.Some? && s.value != ""
  }

  /** One POST to the portal: the endpoint path and the form payload. */
  datatype Request = Request(endpoint: string, payload: map<string, Value>)

  /**
    What the session transport yields for one request: a failure (network
    error, an HTTP error status, or a body that is not a JSON object), or the
    decoded JSON object of the reply.
   */
  datatype Exchange = Failed | Reply(body: map<string, Value>)

  /** The exceptions an operation can raise. */
  datatype Failure =
    | TransportFailure                    // the transport raised during login
    | AuthenticationFailed(detail: Value) // the login reply had no truthy `userid`
    | InvalidDate(text: string)           // `datetime.strptime(text, "%Y-%m-%d")` raised
    | NotARecord                          // `.get` called on a list element that is not an object
    | NoDraftId                           // create_invoice: the draft came back without an id

  /** The outcome of an operation that may raise. */
  datatype Result<+T> = Ok(value: T) | Raised(failure: Failure)
}
