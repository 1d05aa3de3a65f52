/** The write service (escribir): it forwards report writes to its database,
    logs every forwarded operation, and offers bulk create and bulk update
    built from single forwards. */
module Escribir {

  import opened Http
  import opened PyText
  import opened Forwarding

  /** Default of ESCRIBIR_DB_URL. */
  const DefaultDbUrl := "http://escribir-db-vm:8000"

  const NotAListOfReports := "Expected a list of reports"
  const NotAListOfUpdates := "Expected a list of reports with id and update data"
  const MissingIdField := "Missing id field"

  /** The request `forward_to_database` sends for a method, or None for a
      method it does not handle. GET carries the query string, POST, PUT and
      PATCH the JSON body, DELETE neither; the URL is the database URL, then
      "/api", then the path. */
  function WriteRequest(dbUrl: string, verb: string, path: string, data: Json, params: map<string, string>): (r: Option<Outbound>)
    ensures r.None? <==> verb !in {"GET", "POST", "PUT", "PATCH", "DELETE"}
    ensures r.Some? ==> r.value.verb == verb && r.value.url == dbUrl + "/api" + path
    ensures r.Some? ==> r.value.params == (if verb == "GET" then params else map[])
    ensures r.Some? ==> r.value.json == (if verb in {"POST", "PUT", "PATCH"} then JsonArgument(data) else None)
  {
    var url := dbUrl + "/api" + path;
    if verb == "GET" then Some(Outbound(verb, url, params, None))
    else if verb == "POST" || verb == "PUT" || verb == "PATCH" then Some(Outbound(verb, url, map[], JsonArgument(data)))
    else if verb == "DELETE" then Some(Outbound(verb, url, map[], None))
    else None
  }

  /** `str(value)` of a JSON value used as a report id. Containers and floats
      are rendered by a placeholder, not by Python's repr. */
  function PyStr(j: Json): (s: string)
    ensures j.JStr? ==> s == j.str
    ensures j.JNum? ==> ParseInt(s) == Some(j.n)
    ensures j.JNull? ==> s == "None"
  {
    match j
    case JNull => "None"
    case JBool(b) => if b then "True" else "False"
    case JNum(n) => ParseIntOfDecimal(n); IntToDecimal(n)
    case JFloat(_) => "<float>"
    case JStr(s) => s
    case JArray(_) => "[...]"
    case JObject(_) => "{...}"
  }

  /** One entry of `error_details`: the input index, the report id when the
      item had one, the error, and the item as it was forwarded. */
  datatype ItemError = ItemError(index: nat, id: Option<Json>, error: Json, data: Json)

  function ItemErrorJson(e: ItemError): (j: Json)
    ensures j.JObject?
    ensures j.fields.Keys == {"index", "error", "data"} + (if e.id.Some? then {"id"} else {})
    ensures j.fields["index"] == JNum(e.index) && j.fields["error"] == e.error && j.fields["data"] == e.data
    ensures e.id.Some? ==> j.fields["id"] == e.id.value
  {
    var base := map["index" := JNum(e.index), "error" := e.error, "data" := e.data];
    JObject(if e.id.Some? then base["id" := e.id.value] else base)
  }

  /** The state of a bulk loop after some prefix of its items: the bodies of
      the successful forwards, the error entries, the requests sent, the log
      rows written, and whether an exception has escaped the loop. */
  datatype BulkRun = BulkRun(done: seq<Json>, errors: seq<ItemError>, requests: seq<Outbound>,
                             log: seq<Operation>, crashed: bool)

  /** The answer of a bulk view that ran to the end. */
  function BulkResponse(countKey: string, listKey: string, run: BulkRun): (r: Response)
    requires countKey != listKey && countKey !in {"errors", "error_details"} && listKey !in {"errors", "error_details"}
    ensures r.Respond? && r.status == 200 && r.body.Some? && r.body.value.JObject?
    ensures var f := r.body.value.fields;
      && f.Keys == {countKey, "errors", listKey, "error_details"}
      && f[countKey] == JNum(|run.done|) && f["errors"] == JNum(|run.errors|)
      && f[listKey] == JArray(run.done)
      && f["error_details"].JArray? && |f["error_details"].items| == |run.errors|
      && forall k :: 0 <= k < |run.errors| ==> f["error_details"].items[k] == ItemErrorJson(run.errors[k])
  {
    Respond(200, Some(JObject(map[
      countKey := JNum(|run.done|),
      "errors" := JNum(|run.errors|),
      listKey := JArray(run.done),
      "error_details" := JArray(seq(|run.errors|, k requires 0 <= k < |run.errors| => ItemErrorJson(run.errors[k])))])))
  }

  /** The error entries name strictly increasing input indices. */
  predicate InInputOrder(errors: seq<ItemError>)
  {
    forall k, l :: 0 <= k < l < |errors| ==> errors[k].index < errors[l].index
  }

  /** Some error entry names input index `i`. */
  predicate Reported(errors: seq<ItemError>, i: nat)
  {
    exists k :: 0 <= k < |errors| && errors[k].index == i
  }

  // ----- bulk create -----

  function CreateRequest(dbUrl: string, item: Json): Outbound
  {
    Outbound("POST", dbUrl + "/api" + ReportsPath, map[], JsonArgument(item))
  }

  lemma CreateIsWriteRequest(dbUrl: string, item: Json)
    ensures WriteRequest(dbUrl, "POST", ReportsPath, item, map[]) == Some(CreateRequest(dbUrl, item))
  {
  }

  /** Body and status the forward of item `i` returns when the service had
      made `n0` calls before the bulk request. */
  function CreateResult(dbUrl: string, items: seq<Json>, net: Network, n0: nat, i: nat): (Json, int)
    requires i < |items|
  {
    Relayed(net(n0 + i, CreateRequest(dbUrl, items[i])))
  }

  /** One pass of the create loop: item `i` is POSTed as call n0 + i; a status
      below 400 adds the body to the created list, any other status adds an
      error entry with the index, the body and the item. */
  function CreateStep(dbUrl: string, prev: BulkRun, i: nat, item: Json, net: Network, n0: nat): (run: BulkRun)
    ensures run.requests == prev.requests + [CreateRequest(dbUrl, item)]
    ensures !run.crashed
  {
    var request := CreateRequest(dbUrl, item);
    var reply := net(n0 + i, request);
    var result := Relayed(reply);
    if result.1 < 400 then
      BulkRun(prev.done + [result.0], prev.errors, prev.requests + [request],
              prev.log + Logged(OperationType("POST", ReportsPath), reply), false)
    else
      BulkRun(prev.done, prev.errors + [ItemError(i, None, result.0, item)], prev.requests + [request],
              prev.log + Logged(OperationType("POST", ReportsPath), reply), false)
  }

  /** `bulk_create_reports` over `items`, one step per item. */
  function CreateRun(dbUrl: string, items: seq<Json>, net: Network, n0: nat): (run: BulkRun)
    ensures |run.requests| == |items| && !run.crashed
    decreases |items|
  {
    if items == [] then BulkRun([], [], [], [], false)
    else
      var i := |items| - 1;
      CreateStep(dbUrl, CreateRun(dbUrl, items[..i], net, n0), i, items[i], net, n0)
  }

  /** The step over an item whose forward was exchanged: what the loop body
      of `bulk_create_reports` does to its lists and to the service. */
  lemma CreateStepOfExchange(dbUrl: string, prev: BulkRun, i: nat, item: Json, net: Network,
                             sent0: seq<Outbound>, log0: seq<Operation>,
                             sent: seq<Outbound>, log: seq<Operation>, body: Option<Json>, status: int)
    requires Exchanged(CreateRequest(dbUrl, item), OperationType("POST", ReportsPath), net,
                       sent0 + prev.requests, log0 + prev.log, sent, log, Respond(status, body))
    requires |prev.requests| == i
    ensures body.Some?
    ensures CreateStep(dbUrl, prev, i, item, net, |sent0|).done
         == (if status < 400 then prev.done + [body.value] else prev.done)
    ensures CreateStep(dbUrl, prev, i, item, net, |sent0|).errors
         == (if status < 400 then prev.errors else prev.errors + [ItemError(i, None, body.value, item)])
    ensures sent == sent0 + CreateStep(dbUrl, prev, i, item, net, |sent0|).requests
    ensures log == log0 + CreateStep(dbUrl, prev, i, item, net, |sent0|).log
  {
  }

  /** The run over one more item is one more step. */
  lemma CreateRunExtends(dbUrl: string, items: seq<Json>, net: Network, n0: nat, i: nat)
    requires i < |items|
    ensures CreateRun(dbUrl, items[..i + 1], net, n0)
         == CreateStep(dbUrl, CreateRun(dbUrl, items[..i], net, n0), i, items[i], net, n0)
  {
    assert items[..i + 1][..i] == items[..i];
  }

  /** Every item is sent, once, in input order. */
  lemma {:induction false} CreateSendsEveryItem(dbUrl: string, items: seq<Json>, net: Network, n0: nat)
    ensures var run := CreateRun(dbUrl, items, net, n0);
      forall i :: 0 <= i < |items| ==> run.requests[i] == CreateRequest(dbUrl, items[i])
    decreases |items|
  {
    if items != [] {
      var last := |items| - 1;
      var pre := items[..last];
      CreateSendsEveryItem(dbUrl, pre, net, n0);
      var prev := CreateRun(dbUrl, pre, net, n0);
      var run := CreateRun(dbUrl, items, net, n0);
      assert run.requests == prev.requests + [CreateRequest(dbUrl, items[last])];
      forall i | 0 <= i < |items|
        ensures run.requests[i] == CreateRequest(dbUrl, items[i])
      {
        if i < last {
          assert pre[i] == items[i];
        }
      }
    }
  }

  /** Each item ends up either created or reported: `created + errors` is the
      number of items. */
  lemma {:induction false} CreateAccountsForEveryItem(dbUrl: string, items: seq<Json>, net: Network, n0: nat)
    ensures var run := CreateRun(dbUrl, items, net, n0);
      |run.done| + |run.errors| == |items|
    decreases |items|
  {
    if items != [] {
      CreateAccountsForEveryItem(dbUrl, items[..|items| - 1], net, n0);
    }
  }

  /** Entry `e` reports item `e.index` of `items`: that item was forwarded,
      the forward returned a status of 400 or more, and the entry carries the
      item and the body returned. */
  predicate FailedCreate(dbUrl: string, items: seq<Json>, net: Network, n0: nat, e: ItemError)
  {
    && e.index < |items|
    && e.id.None?
    && e.data == items[e.index]
    && CreateResult(dbUrl, items, net, n0, e.index).0 == e.error
    && CreateResult(dbUrl, items, net, n0, e.index).1 >= 400
  }

  /** The error entries are in input order and each one reports a failed
      forward. */
  lemma {:induction false} CreateErrorsAreIndexed(dbUrl: string, items: seq<Json>, net: Network, n0: nat)
    ensures var run := CreateRun(dbUrl, items, net, n0);
      forall k :: 0 <= k < |run.errors| ==> FailedCreate(dbUrl, items, net, n0, run.errors[k])
    ensures InInputOrder(CreateRun(dbUrl, items, net, n0).errors)
    decreases |items|
  {
    if items != [] {
      var i := |items| - 1;
      var pre := items[..i];
      CreateErrorsAreIndexed(dbUrl, pre, net, n0);
      var prev := CreateRun(dbUrl, pre, net, n0);
      assert var run := CreateRun(dbUrl, pre, net, n0);
        forall k :: 0 <= k < |run.errors| ==> FailedCreate(dbUrl, pre, net, n0, run.errors[k]);
      var run := CreateRun(dbUrl, items, net, n0);
      forall k | 0 <= k < |prev.errors|
        ensures FailedCreate(dbUrl, items, net, n0, prev.errors[k]) && prev.errors[k].index < i
      {
        var e := prev.errors[k];
        assert FailedCreate(dbUrl, pre, net, n0, e);
        assert e.index < |pre|;
        assert pre[e.index] == items[e.index];
        assert CreateResult(dbUrl, pre, net, n0, e.index) == CreateResult(dbUrl, items, net, n0, e.index);
      }
      var result := CreateResult(dbUrl, items, net, n0, i);
      assert run == CreateStep(dbUrl, prev, i, items[i], net, n0);
      if result.1 >= 400 {
        var e := ItemError(i, None, result.0, items[i]);
        assert run.errors == prev.errors + [e];
        forall k | 0 <= k < |run.errors|
          ensures FailedCreate(dbUrl, items, net, n0, run.errors[k])
        {
          if k < |prev.errors| {
            assert run.errors[k] == prev.errors[k];
          }
        }
        assert InInputOrder(prev.errors);
      }
    }
  }

  /** Every item whose forward returned 400 or more has an error entry. */
  lemma {:induction false} CreateReportsEveryFailure(dbUrl: string, items: seq<Json>, net: Network, n0: nat, i: nat)
    requires i < |items|
    requires CreateResult(dbUrl, items, net, n0, i).1 >= 400
    ensures Reported(CreateRun(dbUrl, items, net, n0).errors, i)
    decreases |items|
  {
    var last := |items| - 1;
    var run := CreateRun(dbUrl, items, net, n0);
    var pre := items[..last];
    var prev := CreateRun(dbUrl, pre, net, n0);
    if i == last {
      assert run == CreateStep(dbUrl, prev, last, items[last], net, n0);
      assert run.errors == prev.errors + [ItemError(i, None, CreateResult(dbUrl, items, net, n0, i).0, items[i])];
      assert run.errors[|run.errors| - 1].index == i;
    } else {
      assert pre[i] == items[i];
      assert CreateResult(dbUrl, pre, net, n0, i) == CreateResult(dbUrl, items, net, n0, i);
      CreateReportsEveryFailure(dbUrl, pre, net, n0, i);
      var k :| 0 <= k < |prev.errors| && prev.errors[k].index == i;
      assert run == CreateStep(dbUrl, prev, last, items[last], net, n0);
      assert run.errors[k] == prev.errors[k];
    }
  }

  // ----- bulk update -----

  /** What the update loop does with one item. `'id' in item` holds for a
      dict with that key, a list with that element and a string with that
      substring, and raises for anything else; `item.pop('id')` then works
      only on a dict. */
  datatype UpdateAction = MissingId | Patch(id: Json, payload: Json) | Crash

  function ActionFor(item: Json): (a: UpdateAction)
    ensures a.Patch? <==> item.JObject? && "id" in item.fields
    ensures a.Patch? ==> a.id == item.fields["id"] && a.payload == JObject(item.fields - {"id"})
    ensures item.JObject? && "id" !in item.fields ==> a.MissingId?
    ensures a.Crash? <==> match item
      case JObject(_) => false
      case JArray(xs) => JStr("id") in xs
      case JStr(s) => Contains(s, "id")
      case _ => true
  {
    match item
    case JObject(m) => if "id" in m then Patch(m["id"], JObject(m - {"id"})) else MissingId
    case JArray(xs) => if JStr("id") in xs then Crash else MissingId
    case JStr(s) => if Contains(s, "id") then Crash else MissingId
    case _ => Crash
  }

  function PatchRequest(dbUrl: string, id: Json, payload: Json): Outbound
  {
    Outbound("PATCH", dbUrl + "/api" + ReportPath(PyStr(id)), map[], JsonArgument(payload))
  }

  /** One pass of the update loop over item `i`: an item without an id gets
      an error entry and is not sent; an item with one is sent, without its
      id, as a PATCH of `/reports/<id>/`, as the next call; an item on which
      the id test or `pop` raises stops the loop. A stopped run stays put. */
  function UpdateStep(dbUrl: string, prev: BulkRun, i: nat, item: Json, net: Network, n0: nat): (run: BulkRun)
    ensures prev.crashed ==> run == prev
    ensures run.crashed <==> prev.crashed || ActionFor(item).Crash?
    ensures !prev.crashed && ActionFor(item).Patch? ==>
      run.requests == prev.requests + [PatchRequest(dbUrl, ActionFor(item).id, ActionFor(item).payload)]
    ensures !(!prev.crashed && ActionFor(item).Patch?) ==> run.requests == prev.requests
    ensures |run.done| + |run.errors| == |prev.done| + |prev.errors| + (if run.crashed then 0 else 1)
  {
    if prev.crashed then prev
    else
      match ActionFor(item)
      case Crash => prev.(crashed := true)
      case MissingId => prev.(errors := prev.errors + [ItemError(i, None, JStr(MissingIdField), item)])
      case Patch(id, payload) =>
        var request := PatchRequest(dbUrl, id, payload);
        var reply := net(n0 + |prev.requests|, request);
        var result := Relayed(reply);
        if result.1 < 400 then
          BulkRun(prev.done + [result.0], prev.errors, prev.requests + [request],
                  prev.log + Logged(OperationType("PATCH", ReportPath(PyStr(id))), reply), false)
        else
          BulkRun(prev.done, prev.errors + [ItemError(i, Some(id), result.0, payload)], prev.requests + [request],
                  prev.log + Logged(OperationType("PATCH", ReportPath(PyStr(id))), reply), false)
  }

  /** `bulk_update_reports` over `items`, one step per item. */
  function UpdateRun(dbUrl: string, items: seq<Json>, net: Network, n0: nat): (run: BulkRun)
    ensures |run.requests| <= |items|
    decreases |items|
  {
    if items == [] then BulkRun([], [], [], [], false)
    else
      var i := |items| - 1;
      UpdateStep(dbUrl, UpdateRun(dbUrl, items[..i], net, n0), i, items[i], net, n0)
  }

  lemma PatchIsWriteRequest(dbUrl: string, id: Json, payload: Json)
    ensures WriteRequest(dbUrl, "PATCH", ReportPath(PyStr(id)), payload, map[]) == Some(PatchRequest(dbUrl, id, payload))
  {
  }

  /** The step over an item with an id whose forward was exchanged: what the
      loop body of `bulk_update_reports` does to its lists and to the
      service. */
  lemma PatchStepOfExchange(dbUrl: string, prev: BulkRun, i: nat, item: Json, net: Network,
                            sent0: seq<Outbound>, log0: seq<Operation>,
                            sent: seq<Outbound>, log: seq<Operation>, body: Option<Json>, status: int)
    requires !prev.crashed && ActionFor(item).Patch?
    requires var a := ActionFor(item);
      Exchanged(PatchRequest(dbUrl, a.id, a.payload), OperationType("PATCH", ReportPath(PyStr(a.id))), net,
                sent0 + prev.requests, log0 + prev.log, sent, log, Respond(status, body))
    ensures body.Some?
    ensures !UpdateStep(dbUrl, prev, i, item, net, |sent0|).crashed
    ensures UpdateStep(dbUrl, prev, i, item, net, |sent0|).done
         == (if status < 400 then prev.done + [body.value] else prev.done)
    ensures UpdateStep(dbUrl, prev, i, item, net, |sent0|).errors
         == (if status < 400 then prev.errors
             else prev.errors + [ItemError(i, Some(ActionFor(item).id), body.value, ActionFor(item).payload)])
    ensures sent == sent0 + UpdateStep(dbUrl, prev, i, item, net, |sent0|).requests
    ensures log == log0 + UpdateStep(dbUrl, prev, i, item, net, |sent0|).log
  {
  }

  /** The run over one more item is one more step. */
  lemma UpdateRunExtends(dbUrl: string, items: seq<Json>, net: Network, n0: nat, i: nat)
    requires i < |items|
    ensures UpdateRun(dbUrl, items[..i + 1], net, n0)
         == UpdateStep(dbUrl, UpdateRun(dbUrl, items[..i], net, n0), i, items[i], net, n0)
  {
    assert items[..i + 1][..i] == items[..i];
  }

  /** The requests of a bulk update, worked out from the items alone: one
      PATCH per item with an id, up to the first item that raises. */
  datatype Plan = Plan(requests: seq<Outbound>, crashed: bool)

  function UpdatePlan(dbUrl: string, items: seq<Json>): (p: Plan)
    ensures p.crashed <==> exists i :: 0 <= i < |items| && ActionFor(items[i]).Crash?
    ensures |p.requests| <= |items|
    decreases |items|
  {
    if items == [] then Plan([], false)
    else
      var prev := UpdatePlan(dbUrl, items[..|items| - 1]);
      if prev.crashed then prev
      else
        match ActionFor(items[|items| - 1])
        case Crash => Plan(prev.requests, true)
        case MissingId => prev
        case Patch(id, payload) => Plan(prev.requests + [PatchRequest(dbUrl, id, payload)], false)
  }

  /** What a bulk update sends, and whether it fails, does not depend on the
      upstream's replies. */
  lemma {:induction false} UpdateFollowsPlan(dbUrl: string, items: seq<Json>, net: Network, n0: nat)
    ensures UpdateRun(dbUrl, items, net, n0).requests == UpdatePlan(dbUrl, items).requests
    ensures UpdateRun(dbUrl, items, net, n0).crashed == UpdatePlan(dbUrl, items).crashed
    decreases |items|
  {
    if items != [] {
      UpdateFollowsPlan(dbUrl, items[..|items| - 1], net, n0);
    }
  }

  /** A bulk update ends in an exception exactly when one of its items makes
      the id test or `pop` raise, whatever the upstream replies. */
  lemma UpdateCrashesExactlyWhenAnItemRaises(dbUrl: string, items: seq<Json>, net: Network, n0: nat)
    ensures UpdateRun(dbUrl, items, net, n0).crashed <==> exists i :: 0 <= i < |items| && ActionFor(items[i]).Crash?
  {
    UpdateFollowsPlan(dbUrl, items, net, n0);
  }

  /** Every request of a bulk update is a PATCH whose body is an object
      without the `id` key. */
  lemma {:induction false} PlannedPatchesOmitId(dbUrl: string, items: seq<Json>)
    ensures forall r :: r in UpdatePlan(dbUrl, items).requests ==>
      r.verb == "PATCH" && r.json.Some? && r.json.value.JObject? && "id" !in r.json.value.fields
    decreases |items|
  {
    if items != [] {
      PlannedPatchesOmitId(dbUrl, items[..|items| - 1]);
    }
  }

  /** A bulk update that runs to the end accounts for every item, either as
      updated or as an error entry; one that raises does not reach them all. */
  lemma {:induction false} UpdateAccountsForEveryItem(dbUrl: string, items: seq<Json>, net: Network, n0: nat)
    ensures var run := UpdateRun(dbUrl, items, net, n0);
      (|run.done| + |run.errors| == |items| <==> !run.crashed)
      && |run.done| + |run.errors| <= |items|
    decreases |items|
  {
    if items != [] {
      UpdateAccountsForEveryItem(dbUrl, items[..|items| - 1], net, n0);
    }
  }

  /** Body and status the PATCH of item `i` returns: it is the call made
      after those of the items before it. */
  function PatchResult(dbUrl: string, items: seq<Json>, net: Network, n0: nat, i: nat): (Json, int)
    requires i < |items| && ActionFor(items[i]).Patch?
  {
    var a := ActionFor(items[i]);
    Relayed(net(n0 + |UpdateRun(dbUrl, items[..i], net, n0).requests|, PatchRequest(dbUrl, a.id, a.payload)))
  }

  /** Entry `e` reports item `e.index` of `items`: without an id, an item
      that had none, reported with the item itself; with an id, an item
      whose PATCH of that id, with the item minus its id, returned a status
      of 400 or more, reported with the body returned. */
  predicate FailedUpdate(dbUrl: string, items: seq<Json>, net: Network, n0: nat, e: ItemError)
  {
    && e.index < |items|
    && (e.id.None? ==> ActionFor(items[e.index]).MissingId? && e.data == items[e.index] && e.error == JStr(MissingIdField))
    && (e.id.Some? ==>
          && ActionFor(items[e.index]) == Patch(e.id.value, e.data)
          && PatchResult(dbUrl, items, net, n0, e.index).1 >= 400
          && PatchResult(dbUrl, items, net, n0, e.index).0 == e.error)
  }

  /** An entry about a prefix of the items is an entry about the items: the
      PATCH of item `e.index` was the same call in both runs. */
  lemma FailedUpdateOfPrefix(dbUrl: string, items: seq<Json>, net: Network, n0: nat, n: nat, e: ItemError)
    requires n <= |items|
    requires FailedUpdate(dbUrl, items[..n], net, n0, e)
    ensures FailedUpdate(dbUrl, items, net, n0, e) && e.index < n
  {
    assert items[..n][e.index] == items[e.index];
    assert items[..n][..e.index] == items[..e.index];
  }

  /** The PATCH of item `j` is the same call in a run over a longer list. */
  lemma PatchResultOfPrefix(dbUrl: string, items: seq<Json>, net: Network, n0: nat, n: nat, j: nat)
    requires j < n <= |items| && ActionFor(items[j]).Patch?
    ensures items[..n][j] == items[j]
    ensures PatchResult(dbUrl, items[..n], net, n0, j) == PatchResult(dbUrl, items, net, n0, j)
  {
    assert items[..n][..j] == items[..j];
  }

  /** One step of the update loop adds at most one error entry, for its
      item, and adds one exactly when the item has no id or its PATCH
      failed. */
  lemma UpdateStepErrors(dbUrl: string, prev: BulkRun, i: nat, item: Json, net: Network, n0: nat, run: BulkRun)
    requires run == UpdateStep(dbUrl, prev, i, item, net, n0)
    ensures run.errors == prev.errors || run.errors == prev.errors + [run.errors[|run.errors| - 1]]
    ensures !run.crashed ==> !prev.crashed
    ensures run.errors != prev.errors ==>
      && !prev.crashed
      && run.errors[|run.errors| - 1].index == i
      && (run.errors[|run.errors| - 1].id.None? ==>
            ActionFor(item).MissingId? && run.errors[|run.errors| - 1].data == item
            && run.errors[|run.errors| - 1].error == JStr(MissingIdField))
      && (run.errors[|run.errors| - 1].id.Some? ==>
            && ActionFor(item) == Patch(run.errors[|run.errors| - 1].id.value, run.errors[|run.errors| - 1].data)
            && Relayed(net(n0 + |prev.requests|, PatchRequest(dbUrl, ActionFor(item).id, ActionFor(item).payload))).1 >= 400
            && Relayed(net(n0 + |prev.requests|, PatchRequest(dbUrl, ActionFor(item).id, ActionFor(item).payload))).0
               == run.errors[|run.errors| - 1].error)
    ensures !prev.crashed && ActionFor(item).Patch?
            && Relayed(net(n0 + |prev.requests|, PatchRequest(dbUrl, ActionFor(item).id, ActionFor(item).payload))).1 >= 400 ==>
      run.errors != prev.errors && run.errors[|run.errors| - 1].id.Some?
  {
  }

  /** The PATCH of the last item is the call after those of the run over
      the items before it. */
  lemma LastPatchResult(dbUrl: string, items: seq<Json>, net: Network, n0: nat, prev: BulkRun)
    requires items != [] && ActionFor(items[|items| - 1]).Patch?
    requires prev == UpdateRun(dbUrl, items[..|items| - 1], net, n0)
    ensures PatchResult(dbUrl, items, net, n0, |items| - 1)
         == Relayed(net(n0 + |prev.requests|,
                        PatchRequest(dbUrl, ActionFor(items[|items| - 1]).id, ActionFor(items[|items| - 1]).payload)))
  {
  }

  /** The step over the last item adds at most one error entry, for that
      item, and an entry for it exactly when it has no id or its PATCH
      failed. */
  lemma UpdateLastStepErrors(dbUrl: string, items: seq<Json>, net: Network, n0: nat, prev: BulkRun, run: BulkRun)
    requires items != []
    requires prev == UpdateRun(dbUrl, items[..|items| - 1], net, n0)
    requires run == UpdateRun(dbUrl, items, net, n0)
    ensures run.errors == prev.errors || run.errors == prev.errors + [run.errors[|run.errors| - 1]]
    ensures !run.crashed ==> !prev.crashed
    ensures run.errors != prev.errors ==>
      run.errors[|run.errors| - 1].index == |items| - 1 && FailedUpdate(dbUrl, items, net, n0, run.errors[|run.errors| - 1])
    ensures !run.crashed && ActionFor(items[|items| - 1]).Patch? && PatchResult(dbUrl, items, net, n0, |items| - 1).1 >= 400 ==>
      run.errors != prev.errors && run.errors[|run.errors| - 1].id.Some?
  {
    var i := |items| - 1;
    assert run == UpdateStep(dbUrl, prev, i, items[i], net, n0);
    UpdateStepErrors(dbUrl, prev, i, items[i], net, n0, run);
    if ActionFor(items[i]).Patch? {
      LastPatchResult(dbUrl, items, net, n0, prev);
    }
    if run.errors != prev.errors {
      var e := run.errors[|run.errors| - 1];
      assert e.index == i;
      assert FailedUpdate(dbUrl, items, net, n0, e);
    }
  }

  /** The error entries are in input order and each reports its item. */
  lemma {:induction false} UpdateErrorsAreIndexed(dbUrl: string, items: seq<Json>, net: Network, n0: nat)
    ensures var run := UpdateRun(dbUrl, items, net, n0);
      forall k :: 0 <= k < |run.errors| ==> FailedUpdate(dbUrl, items, net, n0, run.errors[k])
    ensures InInputOrder(UpdateRun(dbUrl, items, net, n0).errors)
    decreases |items|
  {
    if items != [] {
      var i := |items| - 1;
      var pre := items[..i];
      UpdateErrorsAreIndexed(dbUrl, pre, net, n0);
      var prev := UpdateRun(dbUrl, pre, net, n0);
      assert var run := UpdateRun(dbUrl, pre, net, n0);
        forall k :: 0 <= k < |run.errors| ==> FailedUpdate(dbUrl, pre, net, n0, run.errors[k]);
      var run := UpdateRun(dbUrl, items, net, n0);
      forall k | 0 <= k < |prev.errors|
        ensures FailedUpdate(dbUrl, items, net, n0, prev.errors[k]) && prev.errors[k].index < i
      {
        FailedUpdateOfPrefix(dbUrl, items, net, n0, i, prev.errors[k]);
      }
      UpdateLastStepErrors(dbUrl, items, net, n0, prev, run);
    }
  }

  /** In a bulk update that runs to the end, every item with an id whose
      PATCH returned a status of 400 or more has an error entry naming it. */
  lemma {:induction false} UpdateReportsEveryFailure(dbUrl: string, items: seq<Json>, net: Network, n0: nat, i: nat)
    requires i < |items|
    requires ActionFor(items[i]).Patch?
    requires PatchResult(dbUrl, items, net, n0, i).1 >= 400
    requires !UpdateRun(dbUrl, items, net, n0).crashed
    ensures var errors := UpdateRun(dbUrl, items, net, n0).errors;
      exists k :: 0 <= k < |errors| && errors[k].index == i && errors[k].id.Some?
    decreases |items|
  {
    var last := |items| - 1;
    var run := UpdateRun(dbUrl, items, net, n0);
    var pre := items[..last];
    var prev := UpdateRun(dbUrl, pre, net, n0);
    UpdateLastStepErrors(dbUrl, items, net, n0, prev, run);
    if i == last {
      assert run.errors[|run.errors| - 1].index == i;
    } else {
      PatchResultOfPrefix(dbUrl, items, net, n0, last, i);
      UpdateReportsEveryFailure(dbUrl, pre, net, n0, i);
      var k :| 0 <= k < |prev.errors| && prev.errors[k].index == i && prev.errors[k].id.Some?;
      assert run.errors[k] == prev.errors[k];
    }
  }

  /** In a bulk update that runs to the end, every item without an id has an
      error entry. */
  lemma {:induction false} UpdateReportsEveryMissingId(dbUrl: string, items: seq<Json>, net: Network, n0: nat, i: nat)
    requires i < |items|
    requires ActionFor(items[i]).MissingId?
    requires !UpdateRun(dbUrl, items, net, n0).crashed
    ensures var errors := UpdateRun(dbUrl, items, net, n0).errors;
      exists k :: 0 <= k < |errors| && errors[k].index == i && errors[k].id.None?
    decreases |items|
  {
    var last := |items| - 1;
    var run := UpdateRun(dbUrl, items, net, n0);
    var pre := items[..last];
    var prev := UpdateRun(dbUrl, pre, net, n0);
    if i == last {
      assert run.errors[|run.errors| - 1].index == i;
    } else {
      assert pre[i] == items[i];
      UpdateReportsEveryMissingId(dbUrl, pre, net, n0, i);
      var k :| 0 <= k < |prev.errors| && prev.errors[k].index == i && prev.errors[k].id.None?;
      assert run.errors[..|prev.errors|] == prev.errors;
      assert run.errors[k] == prev.errors[k];
    }
  }

  /** Once an item raises, later items change nothing. */
  lemma {:induction false} UpdateStopsAtCrash(dbUrl: string, items: seq<Json>, net: Network, n0: nat, i: nat)
    requires i <= |items|
    requires UpdateRun(dbUrl, items[..i], net, n0).crashed
    ensures UpdateRun(dbUrl, items, net, n0) == UpdateRun(dbUrl, items[..i], net, n0)
    decreases |items| - i
  {
    if i < |items| {
      UpdateRunExtends(dbUrl, items, net, n0, i);
      UpdateStopsAtCrash(dbUrl, items, net, n0, i + 1);
    } else {
      assert items[..i] == items;
    }
  }

  /** The write service: its database URL, the WriteOperation log and the
      requests sent to the database, in order. */
  class WriteService {
    const dbUrl: string
    var log: seq<Operation>
    var sent: seq<Outbound>

    constructor (dbUrl: string)
      ensures this.dbUrl == dbUrl && log == [] && sent == []
    {
      this.dbUrl := dbUrl;
      log := [];
      sent := [];
    }

    /** `forward_to_database`: an unknown method answers (None, 405) and
        neither sends nor logs; otherwise one request is sent and the reply
        is logged and translated. */
    method ForwardToDatabase(verb: string, path: string, data: Json, params: map<string, string>, net: Network)
      returns (body: Option<Json>, status: int)
      modifies this
      ensures WriteRequest(dbUrl, verb, path, data, params).None? ==>
        body == None && status == 405 && sent == old(sent) && log == old(log)
      ensures WriteRequest(dbUrl, verb, path, data, params).Some? ==>
        Exchanged(WriteRequest(dbUrl, verb, path, data, params).value, OperationType(verb, path), net,
                  old(sent), old(log), sent, log, Respond(status, body))
    {
      var request := WriteRequest(dbUrl, verb, path, data, params);
      if request.None? {
        return None, 405;
      }
      var reply := net(|sent|, request.value);
      sent := sent + [request.value];
      log := log + Logged(OperationType(verb, path), reply);
      var result := Relayed(reply);
      body, status := Some(result.0), result.1;
    }

    /** `create_report`. */
    method CreateReport(data: Json, net: Network) returns (resp: Response)
      modifies this
      ensures Exchanged(CreateRequest(dbUrl, data), OperationType("POST", ReportsPath), net, old(sent), old(log), sent, log, resp)
    {
      assert WriteRequest(dbUrl, "POST", ReportsPath, data, map[]) == Some(CreateRequest(dbUrl, data));
      var body, status := ForwardToDatabase("POST", ReportsPath, data, map[], net);
      resp := Respond(status, body);
    }

    /** `update_report`: PUT is forwarded as PUT, any other method as PATCH. */
    method UpdateReport(verb: string, reportId: string, data: Json, net: Network) returns (resp: Response)
      modifies this
      ensures var forwarded := if verb == "PUT" then "PUT" else "PATCH";
        Exchanged(Outbound(forwarded, dbUrl + "/api" + ReportPath(reportId), map[], JsonArgument(data)),
                  OperationType(forwarded, ReportPath(reportId)), net, old(sent), old(log), sent, log, resp)
    {
      var forwarded := if verb == "PUT" then "PUT" else "PATCH";
      assert WriteRequest(dbUrl, forwarded, ReportPath(reportId), data, map[])
          == Some(Outbound(forwarded, dbUrl + "/api" + ReportPath(reportId), map[], JsonArgument(data)));
      var body, status := ForwardToDatabase(forwarded, ReportPath(reportId), data, map[], net);
      resp := Respond(status, body);
    }

    /** `delete_report`: a DELETE without a body. */
    method DeleteReport(reportId: string, net: Network) returns (resp: Response)
      modifies this
      ensures Exchanged(Outbound("DELETE", dbUrl + "/api" + ReportPath(reportId), map[], None),
                        OperationType("DELETE", ReportPath(reportId)), net, old(sent), old(log), sent, log, resp)
    {
      assert WriteRequest(dbUrl, "DELETE", ReportPath(reportId), JNull, map[])
          == Some(Outbound("DELETE", dbUrl + "/api" + ReportPath(reportId), map[], None));
      var body, status := ForwardToDatabase("DELETE", ReportPath(reportId), JNull, map[], net);
      resp := Respond(status, body);
    }

    /** `bulk_create_reports`: anything but a list answers 400 and sends
        nothing; a list is worked through by `CreateRun`. */
    method BulkCreateReports(data: Json, net: Network) returns (resp: Response)
      modifies this
      ensures !data.JArray? ==>
        resp == Respond(400, Some(Message("error", NotAListOfReports))) && sent == old(sent) && log == old(log)
      ensures data.JArray? ==>
        && sent == old(sent) + CreateRun(dbUrl, data.items, net, |old(sent)|).requests
        && log == old(log) + CreateRun(dbUrl, data.items, net, |old(sent)|).log
        && resp == BulkResponse("created", "created_reports", CreateRun(dbUrl, data.items, net, |old(sent)|))
    {
      if !data.JArray? {
        return Respond(400, Some(Message("error", NotAListOfReports)));
      }
      var items := data.items;
      ghost var sent0, log0 := sent, log;
      ghost var run := CreateRun(dbUrl, [], net, |sent0|);
      var created: seq<Json> := [];
      var errors: seq<ItemError> := [];
      var i := 0;
      while i < |items|
        invariant 0 <= i <= |items|
        invariant run == CreateRun(dbUrl, items[..i], net, |sent0|)
        invariant created == run.done && errors == run.errors
        invariant sent == sent0 + run.requests && log == log0 + run.log
      {
        CreateRunExtends(dbUrl, items, net, |sent0|, i);
        CreateIsWriteRequest(dbUrl, items[i]);
        var body, status := ForwardToDatabase("POST", ReportsPath, items[i], map[], net);
        CreateStepOfExchange(dbUrl, run, i, items[i], net, sent0, log0, sent, log, body, status);
        if status < 400 {
          created := created + [body.value];
        } else {
          errors := errors + [ItemError(i, None, body.value, items[i])];
        }
        run := CreateStep(dbUrl, run, i, items[i], net, |sent0|);
        i := i + 1;
      }
      assert items[..i] == items;
      resp := BulkResponse("created", "created_reports", BulkRun(created, errors, [], [], false));
    }

    /** `bulk_update_reports`: anything but a list answers 400 and sends
        nothing; a list is worked through by `UpdateRun`. An item on which the
        id test or `pop` raises ends the request with the framework's 500,
        after the earlier items were sent and logged. */
    method BulkUpdateReports(data: Json, net: Network) returns (resp: Response)
      modifies this
      ensures !data.JArray? ==>
        resp == Respond(400, Some(Message("error", NotAListOfUpdates))) && sent == old(sent) && log == old(log)
      ensures data.JArray? ==>
        && sent == old(sent) + UpdateRun(dbUrl, data.items, net, |old(sent)|).requests
        && log == old(log) + UpdateRun(dbUrl, data.items, net, |old(sent)|).log
        && resp == (if UpdateRun(dbUrl, data.items, net, |old(sent)|).crashed then ServerError
                    else BulkResponse("updated", "updated_reports", UpdateRun(dbUrl, data.items, net, |old(sent)|)))
    {
      if !data.JArray? {
        return Respond(400, Some(Message("error", NotAListOfUpdates)));
      }
      var items := data.items;
      ghost var sent0, log0 := sent, log;
      ghost var run := UpdateRun(dbUrl, [], net, |sent0|);
      var updated: seq<Json> := [];
      var errors: seq<ItemError> := [];
      var i := 0;
      while i < |items|
        invariant 0 <= i <= |items|
        invariant run == UpdateRun(dbUrl, items[..i], net, |sent0|)
        invariant !run.crashed
        invariant updated == run.done && errors == run.errors
        invariant sent == sent0 + run.requests && log == log0 + run.log
      {
        UpdateRunExtends(dbUrl, items, net, |sent0|, i);
        var action := ActionFor(items[i]);
        if action.Crash? {
          run := UpdateStep(dbUrl, run, i, items[i], net, |sent0|);
          UpdateStopsAtCrash(dbUrl, items, net, |sent0|, i + 1);
          return ServerError;
        }
        if action.MissingId? {
          errors := errors + [ItemError(i, None, JStr(MissingIdField), items[i])];
        } else {
          var id, payload := action.id, action.payload;
          PatchIsWriteRequest(dbUrl, id, payload);
          var body, status := ForwardToDatabase("PATCH", ReportPath(PyStr(id)), payload, map[], net);
          PatchStepOfExchange(dbUrl, run, i, items[i], net, sent0, log0, sent, log, body, status);
          if status < 400 {
            updated := updated + [body.value];
          } else {
            errors := errors + [ItemError(i, Some(id), body.value, payload)];
          }
        }
        run := UpdateStep(dbUrl, run, i, items[i], net, |sent0|);
        i := i + 1;
      }
      assert items[..i] == items;
      resp := BulkResponse("updated", "updated_reports", BulkRun(updated, errors, [], [], false));
    }

    /** `get_write_stats`: computed from the log, which it leaves alone. */
    method GetWriteStats() returns (resp: Response)
      ensures resp.Respond? && resp.status == 200 && resp.body.Some? && resp.body.value.JObject?
      ensures var f := resp.body.value.fields;
        "total_operations" in f && "successful_operations" in f && "failed_operations" in f && "success_rate" in f
        && f["total_operations"] == JNum(|log|)
        && f["successful_operations"] == JNum(CountWhere(log, true))
        && f["failed_operations"] == JNum(CountWhere(log, false))
        && (log == [] ==> f["success_rate"] == JNum(0))
    {
      resp := StatsResponse(log);
    }

    /** `health_check`: probes `/health/` through the logging forwarder, so
        the operation count it reports includes the probe's own rows. */
    method HealthCheck(net: Network) returns (resp: Response)
      modifies this
      ensures sent == old(sent) + [HealthProbe(dbUrl)]
      ensures log == old(log) + Logged(OperationType("GET", "/health/"), net(|old(sent)|, HealthProbe(dbUrl)))
      ensures resp == HealthResponse("escribir", Relayed(net(|old(sent)|, HealthProbe(dbUrl))).1, |log|)
    {
      assert WriteRequest(dbUrl, "GET", "/health/", JNull, map[]) == Some(HealthProbe(dbUrl));
      var body, status := ForwardToDatabase("GET", "/health/", JNull, map[], net);
      resp := HealthResponse("escribir", status, |log|);
    }
  }
}
