/** Values the services exchange: JSON documents, inbound request bodies, the
    abstract upstream forwarder and the HTTP responses the views produce. */
module Http {

  datatype Option<+T> = None | Some(value: T)

  datatype Result<+T, +E> = Ok(value: T) | Err(error: E)

  /** A JSON document as Python's json module decodes it. Python's None is
      JNull. JFloat stands for a Python float, as an exact real. */
  datatype Json =
    | JNull
    | JBool(b: bool)
    | JNum(n: int)
    | JFloat(x: real)
    | JStr(str: string)
    | JArray(items: seq<Json>)
    | JObject(fields: map<string, Json>)

  /** `{key: message}` */
  function Message(key: string, message: string): (j: Json)
    ensures j.JObject? && j.fields.Keys == {key} && j.fields[key] == JStr(message)
  {
    JObject(map[key := JStr(message)])
  }

  /** Python truthiness of a decoded JSON value (`if not title`). */
  predicate Truthy(j: Json)
  {
    match j
    case JNull => false
    case JBool(b) => b
    case JNum(n) => n != 0
    case JFloat(x) => x != 0.0
    case JStr(s) => s != ""
    case JArray(xs) => xs != []
    case JObject(m) => m != map[]
  }

  /** The Python type name of a decoded JSON value, as it appears in the
      message of an AttributeError. */
  function TypeName(j: Json): string
  {
    match j
    case JNull => "NoneType"
    case JBool(_) => "bool"
    case JNum(_) => "int"
    case JFloat(_) => "float"
    case JStr(_) => "str"
    case JArray(_) => "list"
    case JObject(_) => "dict"
  }

  /** The raw body of an inbound request: no bytes; bytes `json.loads`
      cannot decode in the encoding it detects (UTF-8 unless a byte-order
      mark or the pattern of null bytes marks UTF-16 or UTF-32), with the
      codec's message; decoded text that is not JSON; or a JSON document. A
      UTF-16 or UTF-32 body that decodes is `Text` or `Malformed` like any
      other. */
  datatype RequestBody = Empty | Undecodable(reason: string) | Malformed | Text(value: Json)

  /** Why `json.loads` on a request body raises: `JSONDecodeError` for text
      that is not a JSON document (an empty body included), or
      `UnicodeDecodeError` for bytes that do not decode in the detected
      encoding, which is not a `JSONDecodeError` and so escapes the handlers
      for that. */
  datatype LoadError = DecodeError | UnicodeError(message: string)

  /** `json.loads(request.body)`. */
  function Loads(body: RequestBody): (r: Result<Json, LoadError>)
    ensures r.Ok? <==> body.Text?
    ensures r.Ok? ==> r.value == body.value
    ensures r == Err(DecodeError) <==> body.Empty? || body.Malformed?
    ensures body.Undecodable? ==> r == Err(UnicodeError(body.reason))
  {
    match body
    case Text(v) => Ok(v)
    case Undecodable(reason) => Err(UnicodeError(reason))
    case _ => Err(DecodeError)
  }

  /** An outbound call the forwarder makes. `params` is the query string
      (requests sends none for both `None` and `{}`); `json` is the JSON body,
      absent when requests is given `json=None`. */
  datatype Outbound = Outbound(verb: string, url: string, params: map<string, string>, json: Option<Json>)

  /** requests' `json=` argument: Python None means no body at all. */
  function JsonArgument(data: Json): (a: Option<Json>)
    ensures a.None? <==> data.JNull?
    ensures a.Some? ==> a.value == data
  {
    if data.JNull? then None else Some(data)
  }

  /** The content of an upstream response: no bytes, a JSON document, or bytes
      that `response.json()` cannot decode. */
  datatype Content = NoContent | JsonContent(value: Json) | NotJson(reason: string)

  /** What one upstream call yields: a response, or a transport failure
      (connection refused, timeout, DNS failure). */
  datatype Reply = Reply(status: int, content: Content) | TransportError(reason: string)

  /** The upstream, abstractly: the reply to the n-th call made by a service,
      given the request. Indexing by call number lets two identical requests
      get different replies. */
  type Network = (nat, Outbound) -> Reply

  /** What a view answers. ServerError is the framework's own 500 page, sent
      when an exception escapes the view. */
  datatype Response =
    | Respond(status: int, body: Option<Json>)
    | ServerError

  function StatusOf(r: Response): (code: int)
    ensures r.ServerError? ==> code == 500
    ensures r.Respond? ==> code == r.status
  {
    match r
    case Respond(s, _) => s
    case ServerError => 500
  }
}
