/** What the write service (escribir) and the read service (lectura) share:
    the operation log each keeps, how `forward_to_database` turns one upstream
    reply into a body, a status and log rows, and the statistics and health
    answers computed from the log. */
module Forwarding {

  import opened Http

  /** A row of the WriteOperation or ReadOperation table. */
  datatype Operation = Operation(operationType: string, success: bool)

  const ConnectionFailed := "Database connection failed: "

  const ReportsPath := "/reports/"

  /** The path of one report, `/reports/<id>/`. */
  function ReportPath(id: string): string
  {
    ReportsPath + id + "/"
  }

  /** The `operation_type` of a log row: the method, a space, the path. */
  function OperationType(verb: string, path: string): string
  {
    verb + " " + path
  }

  /** The body and status `forward_to_database` returns once its request has
      gone out. Empty content becomes `{}`; content that does not decode and
      a transport failure both land in the `except RequestException` branch,
      which answers 502 with an `error` field. */
  function Relayed(reply: Reply): (r: (Json, int))
    ensures reply.TransportError? ==> r == (Message("error", ConnectionFailed + reply.reason), 502)
    ensures (reply.Reply? && reply.content.NoContent?) ==> r == (JObject(map[]), reply.status)
    ensures (reply.Reply? && reply.content.JsonContent?) ==> r == (reply.content.value, reply.status)
    ensures (reply.Reply? && reply.content.NotJson?) ==> r == (Message("error", ConnectionFailed + reply.content.reason), 502)
  {
    match reply
    case TransportError(reason) => (Message("error", ConnectionFailed + reason), 502)
    case Reply(status, content) =>
      match content
      case NoContent => (JObject(map[]), status)
      case JsonContent(v) => (v, status)
      case NotJson(reason) => (Message("error", ConnectionFailed + reason), 502)
  }

  /** The log rows one upstream call writes: a row whose `success` is
      `status < 400` once a response arrives, and a failed row in the
      exception handler. Content that does not decode raises after the first
      row is written, so that call writes both. */
  function Logged(operationType: string, reply: Reply): (log: seq<Operation>)
    ensures 1 <= |log| <= 2
    ensures |log| == 2 <==> reply.Reply? && reply.content.NotJson?
    ensures forall k :: 0 <= k < |log| ==> log[k].operationType == operationType
    ensures reply.Reply? ==> log[0].success == (reply.status < 400)
    ensures reply.TransportError? ==> !log[0].success
    ensures |log| == 2 ==> !log[1].success
  {
    match reply
    case TransportError(_) => [Operation(operationType, false)]
    case Reply(status, content) =>
      [Operation(operationType, status < 400)] + (if content.NotJson? then [Operation(operationType, false)] else [])
  }

  /** The last row a call logs is a success exactly when the status the call
      returns is below 400; a call whose content decodes logs one row only. */
  lemma LastLoggedMatchesStatus(operationType: string, reply: Reply)
    ensures var log := Logged(operationType, reply);
      log[|log| - 1].success <==> Relayed(reply).1 < 400
  {
  }

  /** Forwarding `request` as a service's next call, after it had sent
      `sent0` and logged `log0`: the request is appended to what was sent,
      the reply's rows to the log, and the view answers the relayed body and
      status. */
  predicate Exchanged(request: Outbound, operationType: string, net: Network,
                      sent0: seq<Outbound>, log0: seq<Operation>,
                      sent: seq<Outbound>, log: seq<Operation>, resp: Response)
    ensures Exchanged(request, operationType, net, sent0, log0, sent, log, resp) ==>
      && |sent| == |sent0| + 1 && sent[|sent0|] == request
      && |log0| < |log| <= |log0| + 2 && log[..|log0|] == log0
      && resp.Respond? && resp.body.Some?
      && (log[|log| - 1].success <==> resp.status < 400)
  {
    LastLoggedMatchesStatus(operationType, net(|sent0|, request));
    var reply := net(|sent0|, request);
    && sent == sent0 + [request]
    && log == log0 + Logged(operationType, reply)
    && resp == Respond(Relayed(reply).1, Some(Relayed(reply).0))
  }

  /** The number of log rows whose `success` is `success`. */
  function CountWhere(log: seq<Operation>, success: bool): (n: nat)
    ensures n <= |log|
    decreases |log|
  {
    if log == [] then 0
    else CountWhere(log[..|log| - 1], success) + (if log[|log| - 1].success == success then 1 else 0)
  }

  /** Every row is either successful or failed. */
  lemma {:induction false} CountsPartition(log: seq<Operation>)
    ensures CountWhere(log, true) + CountWhere(log, false) == |log|
    decreases |log|
  {
    if log != [] {
      CountsPartition(log[..|log| - 1]);
    }
  }

  /** `success_rate`: 0 (an int) for an empty log, otherwise the percentage
      of successful rows. */
  function SuccessRate(successful: nat, total: nat): (j: Json)
    requires successful <= total
    ensures total == 0 ==> j == JNum(0)
    ensures total > 0 ==> j.JFloat? && 0.0 <= j.x <= 100.0
    ensures total > 0 && successful == total ==> j == JFloat(100.0)
    ensures total > 0 && successful == 0 ==> j == JFloat(0.0)
  {
    if total > 0 then
      var fraction := successful as real / total as real;
      assert fraction <= 1.0 by {
        assert successful as real <= total as real;
      }
      JFloat(fraction * 100.0)
    else JNum(0)
  }

  /** `get_write_stats` / `get_read_stats`: counts of all, successful and
      failed rows, and the success rate. */
  function StatsResponse(log: seq<Operation>): (r: Response)
    ensures r.Respond? && r.status == 200 && r.body.Some? && r.body.value.JObject?
    ensures var f := r.body.value.fields;
      f.Keys == {"total_operations", "successful_operations", "failed_operations", "success_rate"}
      && f["total_operations"].JNum? && f["successful_operations"].JNum? && f["failed_operations"].JNum?
      && f["successful_operations"].n + f["failed_operations"].n == f["total_operations"].n == |log|
      && (log == [] ==> f["success_rate"] == JNum(0))
  {
    CountsPartition(log);
    var successful := CountWhere(log, true);
    Respond(200, Some(JObject(map[
      "total_operations" := JNum(|log|),
      "successful_operations" := JNum(successful),
      "failed_operations" := JNum(CountWhere(log, false)),
      "success_rate" := SuccessRate(successful, |log|)])))
  }

  /** The request both services' `health_check` sends through its
      forwarder: a GET of `/health/` with no parameters and no body. */
  function HealthProbe(dbUrl: string): Outbound
  {
    Outbound("GET", dbUrl + "/api" + "/health/", map[], None)
  }

  /** The health answer: the service is up; its database connection is
      reported healthy exactly when the probe returned 200. */
  function HealthResponse(service: string, probeStatus: int, totalOperations: nat): (r: Response)
    ensures r.Respond? && r.status == 200 && r.body.Some? && r.body.value.JObject?
    ensures var f := r.body.value.fields;
      "database_connection" in f && "status" in f && "total_operations" in f
      && f["status"] == JStr("healthy")
      && (f["database_connection"] == JStr("healthy") <==> probeStatus == 200)
      && f["total_operations"] == JNum(totalOperations)
  {
    Respond(200, Some(JObject(map[
      "status" := JStr("healthy"),
      "service" := JStr(service),
      "database_connection" := JStr(if probeStatus == 200 then "healthy" else "unhealthy"),
      "total_operations" := JNum(totalOperations)])))
  }
}
