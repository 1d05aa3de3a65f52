/** The read service (lectura): it forwards report queries to its database
    with GET only, logs every forwarded operation, and shapes the query
    string of the filtering and the by-author, by-category and by-status
    views. */
module Lectura {

  import opened Http
  import opened Forwarding

  /** Default of LECTURA_DB_URL. */
  const DefaultDbUrl := "http://lectura-db-vm:8000"

  /** The request `forward_to_database` sends, or None for any method but
      GET. The URL is the database URL, then "/api", then the path. */
  function ReadRequest(dbUrl: string, verb: string, path: string, params: map<string, string>): (r: Option<Outbound>)
    ensures r.None? <==> verb != "GET"
    ensures r.Some? ==> r.value == Outbound("GET", dbUrl + "/api" + path, params, None)
  {
    if verb == "GET" then Some(Outbound(verb, dbUrl + "/api" + path, params, None)) else None
  }

  /** The query parameters `filter_reports` copies unchanged when present. */
  const BasicFilters: seq<string> := ["title", "author", "category", "status", "priority", "department"]

  /** Every key `filter_reports` can send. */
  const FilterVocabulary: set<string> :=
    {"title", "author", "category", "status", "priority", "department",
     "created_at__gte", "created_at__lte", "page", "page_size"}

  /** `from` of `params` reaches `filter` as `to` exactly when present, with
      its value. */
  predicate CopiedAs(params: map<string, string>, from: string, filter: map<string, string>, to: string)
  {
    && (to in filter <==> from in params)
    && (from in params ==> filter[to] == params[from])
  }

  /** The query string `filter_reports` builds: the six basic fields as they
      are, `created_after` renamed to `created_at__gte`, `created_before`
      renamed to `created_at__lte`, `page` and `page_size` as they are, and
      nothing else. */
  method BuildFilterParams(params: map<string, string>) returns (filter: map<string, string>)
    ensures filter.Keys <= FilterVocabulary
    ensures forall field :: field in BasicFilters ==> CopiedAs(params, field, filter, field)
    ensures CopiedAs(params, "created_after", filter, "created_at__gte")
    ensures CopiedAs(params, "created_before", filter, "created_at__lte")
    ensures CopiedAs(params, "page", filter, "page")
    ensures CopiedAs(params, "page_size", filter, "page_size")
  {
    filter := map[];
    var i := 0;
    while i < |BasicFilters|
      invariant 0 <= i <= |BasicFilters|
      invariant filter.Keys <= set k | k in BasicFilters[..i]
      invariant forall j :: 0 <= j < i ==> CopiedAs(params, BasicFilters[j], filter, BasicFilters[j])
    {
      var field := BasicFilters[i];
      if field in params {
        filter := filter[field := params[field]];
      }
      i := i + 1;
    }
    assert forall field :: field in BasicFilters ==> exists j :: 0 <= j < |BasicFilters| && BasicFilters[j] == field;
    if "created_after" in params {
      filter := filter["created_at__gte" := params["created_after"]];
    }
    if "created_before" in params {
      filter := filter["created_at__lte" := params["created_before"]];
    }
    if "page" in params {
      filter := filter["page" := params["page"]];
    }
    if "page_size" in params {
      filter := filter["page_size" := params["page_size"]];
    }
  }

  /** The query string of a by-author, by-category or by-status view: the
      path value under `key`, overriding any query value, and every other
      query parameter as it was. */
  function WithPathValue(query: map<string, string>, key: string, value: string): (params: map<string, string>)
    ensures params.Keys == query.Keys + {key}
    ensures params[key] == value
    ensures forall k :: k in query && k != key ==> params[k] == query[k]
  {
    query[key := value]
  }

  /** The read service: its database URL, the ReadOperation log and the
      requests sent to the database, in order. */
  class ReadService {
    const dbUrl: string
    var log: seq<Operation>
    var sent: seq<Outbound>

    constructor (dbUrl: string)
      ensures this.dbUrl == dbUrl && log == [] && sent == []
    {
      this.dbUrl := dbUrl;
      log := [];
      sent := [];
    }

    /** `forward_to_database`: any method but GET answers (None, 405) and
        neither sends nor logs; GET sends one request, logs the reply and
        translates it. */
    method ForwardToDatabase(verb: string, path: string, params: map<string, string>, net: Network)
      returns (body: Option<Json>, status: int)
      modifies this
      ensures verb != "GET" ==> body == None && status == 405 && sent == old(sent) && log == old(log)
      ensures verb == "GET" ==>
        Exchanged(Outbound("GET", dbUrl + "/api" + path, params, None), OperationType(verb, path), net,
                  old(sent), old(log), sent, log, Respond(status, body))
    {
      var request := ReadRequest(dbUrl, verb, path, params);
      if request.None? {
        return None, 405;
      }
      var reply := net(|sent|, request.value);
      sent := sent + [request.value];
      log := log + Logged(OperationType(verb, path), reply);
      var result := Relayed(reply);
      body, status := Some(result.0), result.1;
    }

    /** A GET of `path` with `params`, answered with what came back. */
    method Query(path: string, params: map<string, string>, net: Network) returns (resp: Response)
      modifies this
      ensures Exchanged(Outbound("GET", dbUrl + "/api" + path, params, None), OperationType("GET", path), net,
                        old(sent), old(log), sent, log, resp)
    {
      var body, status := ForwardToDatabase("GET", path, params, net);
      resp := Respond(status, body);
    }

    /** `list_reports`: the query string is passed on as it is. */
    method ListReports(query: map<string, string>, net: Network) returns (resp: Response)
      modifies this
      ensures Exchanged(Outbound("GET", dbUrl + "/api" + ReportsPath, query, None), OperationType("GET", ReportsPath), net,
                        old(sent), old(log), sent, log, resp)
    {
      resp := Query(ReportsPath, query, net);
    }

    /** `get_report`: no query string. */
    method GetReport(reportId: string, net: Network) returns (resp: Response)
      modifies this
      ensures Exchanged(Outbound("GET", dbUrl + "/api" + ReportPath(reportId), map[], None),
                        OperationType("GET", ReportPath(reportId)), net, old(sent), old(log), sent, log, resp)
    {
      resp := Query(ReportPath(reportId), map[], net);
    }

    /** `search_reports`: the query string is passed on as it is. */
    method SearchReports(query: map<string, string>, net: Network) returns (resp: Response)
      modifies this
      ensures Exchanged(Outbound("GET", dbUrl + "/api" + "/search/", query, None), OperationType("GET", "/search/"), net,
                        old(sent), old(log), sent, log, resp)
    {
      resp := Query("/search/", query, net);
    }

    /** `get_report_stats`: no query string. */
    method GetReportStats(net: Network) returns (resp: Response)
      modifies this
      ensures Exchanged(Outbound("GET", dbUrl + "/api" + "/stats/", map[], None), OperationType("GET", "/stats/"), net,
                        old(sent), old(log), sent, log, resp)
    {
      resp := Query("/stats/", map[], net);
    }

    /** `filter_reports`: one GET of the reports with the filtered query
        string. */
    method FilterReports(query: map<string, string>, net: Network) returns (resp: Response)
      modifies this
      ensures |sent| == |old(sent)| + 1 && sent[..|old(sent)|] == old(sent)
      ensures var params := sent[|old(sent)|].params;
        && params.Keys <= FilterVocabulary
        && (forall field :: field in BasicFilters ==> CopiedAs(query, field, params, field))
        && CopiedAs(query, "created_after", params, "created_at__gte")
        && CopiedAs(query, "created_before", params, "created_at__lte")
        && CopiedAs(query, "page", params, "page")
        && CopiedAs(query, "page_size", params, "page_size")
      ensures Exchanged(Outbound("GET", dbUrl + "/api" + ReportsPath, sent[|old(sent)|].params, None),
                        OperationType("GET", ReportsPath), net, old(sent), old(log), sent, log, resp)
    {
      var filter := BuildFilterParams(query);
      resp := Query(ReportsPath, filter, net);
    }

    /** `get_reports_by_author`. */
    method ReportsByAuthor(query: map<string, string>, author: string, net: Network) returns (resp: Response)
      modifies this
      ensures Exchanged(Outbound("GET", dbUrl + "/api" + ReportsPath, WithPathValue(query, "author", author), None),
                        OperationType("GET", ReportsPath), net, old(sent), old(log), sent, log, resp)
    {
      resp := Query(ReportsPath, WithPathValue(query, "author", author), net);
    }

    /** `get_reports_by_category`. */
    method ReportsByCategory(query: map<string, string>, category: string, net: Network) returns (resp: Response)
      modifies this
      ensures Exchanged(Outbound("GET", dbUrl + "/api" + ReportsPath, WithPathValue(query, "category", category), None),
                        OperationType("GET", ReportsPath), net, old(sent), old(log), sent, log, resp)
    {
      resp := Query(ReportsPath, WithPathValue(query, "category", category), net);
    }

    /** `get_reports_by_status`. */
    method ReportsByStatus(query: map<string, string>, statusParam: string, net: Network) returns (resp: Response)
      modifies this
      ensures Exchanged(Outbound("GET", dbUrl + "/api" + ReportsPath, WithPathValue(query, "status", statusParam), None),
                        OperationType("GET", ReportsPath), net, old(sent), old(log), sent, log, resp)
    {
      resp := Query(ReportsPath, WithPathValue(query, "status", statusParam), net);
    }

    /** `get_read_stats`: computed from the log, which it leaves alone. */
    method GetReadStats() returns (resp: Response)
      ensures resp.Respond? && resp.status == 200 && resp.body.Some? && resp.body.value.JObject?
      ensures var f := resp.body.value.fields;
        "total_operations" in f && "successful_operations" in f && "failed_operations" in f && "success_rate" in f
        && f["total_operations"] == JNum(|log|)
        && f["successful_operations"] == JNum(CountWhere(log, true))
        && f["failed_operations"] == JNum(CountWhere(log, false))
        && (log == [] ==> f["success_rate"] == JNum(0))
    {
      resp := StatsResponse(log);
    }

    /** `health_check`: probes `/health/` through the logging forwarder, so
        the operation count it reports includes the probe's own rows. */
    method HealthCheck(net: Network) returns (resp: Response)
      modifies this
      ensures sent == old(sent) + [HealthProbe(dbUrl)]
      ensures log == old(log) + Logged(OperationType("GET", "/health/"), net(|old(sent)|, HealthProbe(dbUrl)))
      ensures resp == HealthResponse("lectura", Relayed(net(|old(sent)|, HealthProbe(dbUrl))).1, |log|)
    {
      assert ReadRequest(dbUrl, "GET", "/health/", map[]) == Some(HealthProbe(dbUrl));
      var body, status := ForwardToDatabase("GET", "/health/", map[], net);
      resp := HealthResponse("lectura", status, |log|);
    }
  }
}
