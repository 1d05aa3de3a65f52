/** The bulkhead gateway: GET requests go to the read database and POST
    requests to the write database, each gated by its own enabled flag in the
    service-status table; a control endpoint flips a flag and a status
    endpoint reports both. */
module Bulkhead {

  import opened Http
  import opened PyText
  import ServiceStatusModel

  /** Defaults of the WRITE_DB_IP and READ_DB_IP environment variables. */
  const DefaultWriteDbIp := "localhost:8001"
  const DefaultReadDbIp := "localhost:8002"

  const InvalidJson := "Invalid JSON data"

  function ReadUrl(readDbIp: string): string
  {
    "http://" + readDbIp + "/database/read/"
  }

  function WriteUrl(writeDbIp: string): string
  {
    "http://" + writeDbIp + "/database/write/"
  }

  /** The flag a lookup reports: a name without a row reads as the flag of
      a newly created row, which is enabled. */
  function Enabled(statuses: map<string, bool>, name: string): bool
  {
    if name in statuses then statuses[name] else ServiceStatusModel.NewServiceStatus(name).isEnabled
  }

  /** The table after `get_service_status(name)`: a missing row is created
      enabled, an existing one is left alone. */
  function AfterLookup(statuses: map<string, bool>, name: string): (m: map<string, bool>)
    ensures m.Keys == statuses.Keys + {name}
    ensures m[name] == Enabled(statuses, name)
    ensures name !in statuses ==> m[name]
    ensures name in statuses ==> m == statuses
    ensures forall k :: k in statuses && k != name ==> m[k] == statuses[k]
  {
    statuses[name := Enabled(statuses, name)]
  }

  /** The table after toggling `name`: its flag, read with a missing row
      counting as enabled, is negated; every other row is unchanged. */
  function AfterToggle(statuses: map<string, bool>, name: string): (m: map<string, bool>)
    ensures m.Keys == statuses.Keys + {name}
    ensures m[name] == !Enabled(statuses, name)
    ensures name !in statuses ==> !m[name]
    ensures forall k :: k in statuses && k != name ==> m[k] == statuses[k]
  {
    statuses[name := !Enabled(statuses, name)]
  }

  /** Toggling twice restores the flag; the table then holds the row a plain
      lookup would have created. */
  lemma ToggleTwiceRestores(statuses: map<string, bool>, name: string)
    ensures Enabled(AfterToggle(AfterToggle(statuses, name), name), name) == Enabled(statuses, name)
    ensures AfterToggle(AfterToggle(statuses, name), name) == AfterLookup(statuses, name)
  {
  }

  /** A lookup changes nothing that a lookup of any name reports. */
  lemma LookupPreservesFlags(statuses: map<string, bool>, name: string, other: string)
    ensures Enabled(AfterLookup(statuses, name), other) == Enabled(statuses, other)
  {
  }

  /** What a handler does after reading its flag: answer at once, or send
      one request upstream and translate the reply using `failure` as the
      error text. */
  datatype Decision = Reject(response: Response) | Forward(request: Outbound, failure: string)

  /** The 503 answer of a disabled handler. */
  function Unavailable(verb: string): (r: Response)
    ensures r.Respond? && r.status == 503 && r.body.Some? && r.body.value.JObject?
    ensures r.body.value.fields.Keys == {"error", "status"}
    ensures r.body.value.fields["status"] == JStr("disabled")
  {
    Respond(503, Some(JObject(map[
      "error" := JStr(verb + " service is currently unavailable"),
      "status" := JStr("disabled")])))
  }

  /** `BulkheadView.get` once its flag is known: a disabled flag answers 503
      and sends nothing; an enabled one sends the query string, unchanged,
      to the read database. */
  function GetDecision(enabled: bool, query: map<string, string>, readDbIp: string): (d: Decision)
    ensures d.Reject? <==> !enabled
    ensures d.Reject? ==> d.response == Unavailable("GET")
    ensures d.Forward? ==> d.request == Outbound("GET", ReadUrl(readDbIp), query, None)
  {
    if !enabled then Reject(Unavailable("GET"))
    else Forward(Outbound("GET", ReadUrl(readDbIp), query, None), "Failed to connect to read database")
  }

  /** `BulkheadView.post` once its flag is known: a disabled flag answers 503
      before the body is looked at; an empty body is sent as `{}`; text that
      is not JSON answers 400; bytes that do not decode in the encoding
      `json.loads` detects make it raise an error no handler of the view catches, so the framework answers
      500; anything else is sent as decoded. */
  function PostDecision(enabled: bool, body: RequestBody, writeDbIp: string): (d: Decision)
    ensures !enabled ==> d == Reject(Unavailable("POST"))
    ensures enabled && body.Malformed? ==> d == Reject(Respond(400, Some(Message("error", InvalidJson))))
    ensures enabled && body.Undecodable? ==> d == Reject(ServerError)
    ensures d.Forward? <==> enabled && (body.Empty? || body.Text?)
    ensures d.Forward? ==> d.request.verb == "POST" && d.request.url == WriteUrl(writeDbIp) && d.request.params == map[]
    ensures d.Forward? && body.Empty? ==> d.request.json == Some(JObject(map[]))
    ensures d.Forward? && body.Text? ==> d.request.json == JsonArgument(body.value)
  {
    if !enabled then Reject(Unavailable("POST"))
    else
      var data: Result<Json, LoadError> := if body.Empty? then Ok(JObject(map[])) else Loads(body);
      match data
      case Err(DecodeError) => Reject(Respond(400, Some(Message("error", InvalidJson))))
      case Err(UnicodeError(_)) => Reject(ServerError)
      case Ok(v) => Forward(Outbound("POST", WriteUrl(writeDbIp), map[], JsonArgument(v)), "Failed to connect to write database")
  }

  /** What `json.loads` reports for empty content. */
  const EmptyDecodeError := "Expecting value: line 1 column 1 (char 0)"

  function FailureBody(failure: string, details: string): Json
  {
    JObject(map["error" := JStr(failure), "details" := JStr(details)])
  }

  /** `JsonResponse(response.json(), status=response.status_code)` inside the
      `except RequestException` guard. A transport failure, and content that
      does not decode (the decode error is a RequestException too), become a
      500 carrying `error` and `details`; a decoded object is passed through
      with the upstream status; any other decoded value makes JsonResponse
      raise, which escapes the view. */
  function Relay(reply: Reply, failure: string): (r: Response)
    ensures reply.TransportError? ==> r == Respond(500, Some(FailureBody(failure, reply.reason)))
    ensures (reply.Reply? && reply.content.JsonContent? && reply.content.value.JObject?) ==>
      r == Respond(reply.status, Some(reply.content.value))
    ensures r.ServerError? <==> reply.Reply? && reply.content.JsonContent? && !reply.content.value.JObject?
    ensures (reply.Reply? && !reply.content.JsonContent?) ==>
      r.Respond? && r.status == 500 && r.body.Some? && r.body.value.JObject?
      && r.body.value.fields.Keys == {"error", "details"}
  {
    match reply
    case TransportError(reason) => Respond(500, Some(FailureBody(failure, reason)))
    case Reply(status, content) =>
      match content
      case NoContent => Respond(500, Some(FailureBody(failure, EmptyDecodeError)))
      case NotJson(reason) => Respond(500, Some(FailureBody(failure, reason)))
      case JsonContent(v) => if v.JObject? then Respond(status, Some(v)) else ServerError
  }

  /** A transport failure never escapes a handler: it is always a 500 whose
      body names the error and its details. */
  lemma TransportFailureIsStructured(reason: string, failure: string)
    ensures var r := Relay(TransportError(reason), failure);
      StatusOf(r) == 500 && r.body.Some? && "error" in r.body.value.fields && "details" in r.body.value.fields
  {
  }

  const ToggleNameError := "Invalid service name. Use GET or POST"

  /** The name `toggle_service` acts on, or the answer it gives instead. The
      body must decode in the encoding `json.loads` detects (500 otherwise)
      and hold JSON (400 otherwise); it must
      be an object with a string `service_name`, defaulting to "" (500
      otherwise, as `.get` or `.upper` raises); the upper-cased name must be
      GET or POST (400 otherwise). */
  function ToggleTarget(body: RequestBody): (r: Result<string, Response>)
    ensures r.Ok? ==> r.value == "GET" || r.value == "POST"
    ensures body.Empty? || body.Malformed? ==> r == Err(Respond(400, Some(Message("error", InvalidJson))))
    ensures body.Undecodable? ==> r == Err(Respond(500, Some(Message("error", body.reason))))
    ensures body.Text? && !body.value.JObject? ==> r.Err? && StatusOf(r.error) == 500
    ensures (body.Text? && body.value.JObject? && "service_name" in body.value.fields
             && !body.value.fields["service_name"].JStr?) ==> r.Err? && StatusOf(r.error) == 500
    ensures (body.Text? && body.value.JObject? && "service_name" !in body.value.fields) ==>
      r == Err(Respond(400, Some(Message("error", ToggleNameError))))
    ensures (body.Text? && body.value.JObject? && "service_name" in body.value.fields
             && body.value.fields["service_name"].JStr?) ==>
      var name := Upper(body.value.fields["service_name"].str);
      if name == "GET" || name == "POST" then r == Ok(name)
      else r == Err(Respond(400, Some(Message("error", ToggleNameError))))
  {
    match Loads(body)
    case Err(DecodeError) => Err(Respond(400, Some(Message("error", InvalidJson))))
    case Err(UnicodeError(message)) => Err(Respond(500, Some(Message("error", message))))
    case Ok(data) =>
      if !data.JObject? then
        Err(Respond(500, Some(Message("error", "'" + TypeName(data) + "' object has no attribute 'get'"))))
      else
        var raw := if "service_name" in data.fields then data.fields["service_name"] else JStr("");
        if !raw.JStr? then
          Err(Respond(500, Some(Message("error", "'" + TypeName(raw) + "' object has no attribute 'upper'"))))
        else
          var name := Upper(raw.str);
          if name == "GET" || name == "POST" then Ok(name)
          else Err(Respond(400, Some(Message("error", ToggleNameError))))
  }

  /** The word a flag is reported by in the toggle and status answers. */
  function FlagWord(enabled: bool): string
  {
    if enabled then "enabled" else "disabled"
  }

  /** The answer of a successful toggle: the service and its new state. */
  function ToggleResponse(name: string, enabled: bool): (r: Response)
    ensures r.Respond? && r.status == 200 && r.body.Some? && r.body.value.JObject?
    ensures r.body.value.fields.Keys == {"service", "status", "message"}
    ensures r.body.value.fields["service"] == JStr(name)
    ensures r.body.value.fields["status"] == JStr(FlagWord(enabled))
  {
    Respond(200, Some(JObject(map[
      "service" := JStr(name),
      "status" := JStr(FlagWord(enabled)),
      "message" := JStr(name + " service is now " + FlagWord(enabled))])))
  }

  /** The answer of the status endpoint. */
  function StatusResponse(getEnabled: bool, postEnabled: bool): (r: Response)
    ensures r.Respond? && r.status == 200 && r.body.Some? && r.body.value.JObject?
    ensures r.body.value.fields.Keys == {"GET", "POST"}
    ensures r.body.value.fields["GET"] == JStr(FlagWord(getEnabled))
    ensures r.body.value.fields["POST"] == JStr(FlagWord(postEnabled))
  {
    Respond(200, Some(JObject(map["GET" := JStr(FlagWord(getEnabled)), "POST" := JStr(FlagWord(postEnabled))])))
  }

  /** The gateway process: its service-status table, whose rows are
      `ServiceStatusModel.Rows(statuses)` (one per name), and the requests it
      has sent upstream, in order. */
  class Gateway {
    const writeDbIp: string
    const readDbIp: string
    var statuses: map<string, bool>
    var sent: seq<Outbound>

    /** Every row's name fits the column. */
    ghost predicate Valid()
      reads this
    {
      forall name :: name in statuses ==> ServiceStatusModel.ValidName(name)
    }

    constructor (writeDbIp: string, readDbIp: string)
      ensures Valid()
      ensures this.writeDbIp == writeDbIp && this.readDbIp == readDbIp
      ensures statuses == map[] && sent == []
    {
      this.writeDbIp := writeDbIp;
      this.readDbIp := readDbIp;
      statuses := map[];
      sent := [];
    }

    /** `get_service_status`: the stored flag, or a new enabled row. */
    method GetServiceStatus(name: string) returns (enabled: bool)
      requires Valid() && ServiceStatusModel.ValidName(name)
      modifies this`statuses
      ensures Valid()
      ensures enabled == Enabled(old(statuses), name)
      ensures statuses == AfterLookup(old(statuses), name)
    {
      if name in statuses {
        enabled := statuses[name];
      } else {
        var row := ServiceStatusModel.NewServiceStatus(name);
        statuses := statuses[row.serviceName := row.isEnabled];
        enabled := row.isEnabled;
      }
    }

    /** Carries out a decision; a rejection sends nothing. */
    method Perform(d: Decision, net: Network) returns (resp: Response)
      modifies this`sent
      ensures d.Reject? ==> resp == d.response && sent == old(sent)
      ensures d.Forward? ==> sent == old(sent) + [d.request] && resp == Relay(net(|old(sent)|, d.request), d.failure)
    {
      match d
      case Reject(r) =>
        resp := r;
      case Forward(request, failure) =>
        var reply := net(|sent|, request);
        sent := sent + [request];
        resp := Relay(reply, failure);
    }

    /** `BulkheadView.get`. */
    method Get(query: map<string, string>, net: Network) returns (resp: Response)
      requires Valid()
      modifies this
      ensures Valid()
      ensures statuses == AfterLookup(old(statuses), "GET")
      ensures var d := GetDecision(Enabled(old(statuses), "GET"), query, readDbIp);
        if d.Reject? then resp == d.response && sent == old(sent)
        else sent == old(sent) + [d.request] && resp == Relay(net(|old(sent)|, d.request), d.failure)
    {
      var enabled := GetServiceStatus("GET");
      resp := Perform(GetDecision(enabled, query, readDbIp), net);
    }

    /** `BulkheadView.post`. */
    method Post(body: RequestBody, net: Network) returns (resp: Response)
      requires Valid()
      modifies this
      ensures Valid()
      ensures statuses == AfterLookup(old(statuses), "POST")
      ensures var d := PostDecision(Enabled(old(statuses), "POST"), body, writeDbIp);
        if d.Reject? then resp == d.response && sent == old(sent)
        else sent == old(sent) + [d.request] && resp == Relay(net(|old(sent)|, d.request), d.failure)
    {
      var enabled := GetServiceStatus("POST");
      resp := Perform(PostDecision(enabled, body, writeDbIp), net);
    }

    /** `toggle_service`: get-or-create the named row, then negate its flag. */
    method ToggleService(body: RequestBody) returns (resp: Response)
      requires Valid()
      modifies this`statuses
      ensures Valid()
      ensures match ToggleTarget(body)
        case Err(r) => resp == r && statuses == old(statuses)
        case Ok(name) =>
          statuses == AfterToggle(old(statuses), name)
          && resp == ToggleResponse(name, !Enabled(old(statuses), name))
    {
      match ToggleTarget(body)
      case Err(r) =>
        resp := r;
      case Ok(name) =>
        if name !in statuses {
          statuses := statuses[name := true];
        }
        var flag := !statuses[name];
        statuses := statuses[name := flag];
        resp := ToggleResponse(name, flag);
    }

    /** `service_status`: looks up GET, then POST, creating missing rows. */
    method CurrentStatus() returns (resp: Response)
      requires Valid()
      modifies this`statuses
      ensures Valid()
      ensures statuses == AfterLookup(AfterLookup(old(statuses), "GET"), "POST")
      ensures resp == StatusResponse(Enabled(old(statuses), "GET"), Enabled(old(statuses), "POST"))
    {
      var getEnabled := GetServiceStatus("GET");
      var postEnabled := GetServiceStatus("POST");
      resp := StatusResponse(getEnabled, postEnabled);
    }
  }

  /** Toggling POST on a fresh gateway (the name in any case) disables it: the
      next POST answers 503 and nothing is sent upstream. */
  method DisabledPostScenario(body: RequestBody, net: Network) returns (toggled: Response, resp: Response, calls: nat)
    ensures toggled == ToggleResponse("POST", false)
    ensures resp == Unavailable("POST") && calls == 0
  {
    var g := new Gateway(DefaultWriteDbIp, DefaultReadDbIp);
    toggled := g.ToggleService(Text(JObject(map["service_name" := JStr("post")])));
    resp := g.Post(body, net);
    calls := |g.sent|;
  }

  /** With GET enabled, a GET forwards the query unchanged to the read
      database and passes an object reply through with its status. */
  method ForwardedGetScenario(query: map<string, string>, reply: Json) returns (resp: Response, calls: seq<Outbound>)
    requires reply.JObject?
    ensures calls == [Outbound("GET", ReadUrl(DefaultReadDbIp), query, None)]
    ensures resp == Respond(200, Some(reply))
  {
    var g := new Gateway(DefaultWriteDbIp, DefaultReadDbIp);
    resp := g.Get(query, (n: nat, req: Outbound) => Reply(200, JsonContent(reply)));
    calls := g.sent;
  }

  /** Toggling POST twice re-enables it: the next POST is forwarded. */
  method ReenabledPostScenario(net: Network) returns (resp: Response, calls: nat)
    ensures calls == 1
    ensures resp == Relay(net(0, Outbound("POST", WriteUrl(DefaultWriteDbIp), map[], Some(JObject(map[])))),
                          "Failed to connect to write database")
  {
    var g := new Gateway(DefaultWriteDbIp, DefaultReadDbIp);
    var toggle := Text(JObject(map["service_name" := JStr("POST")]));
    var first := g.ToggleService(toggle);
    var second := g.ToggleService(toggle);
    resp := g.Post(Empty, net);
    calls := |g.sent|;
  }
}
