/** The database endpoints: a server configured by SERVER_TYPE accepts
    writes, reads or both; a write validates its JSON body and inserts a row
    into the write table; a read either looks one row of the read table up by
    id or hands over to pagination. */
module Database {

  import opened Http
  import opened PyText

  /** Default of the SERVER_TYPE environment variable. */
  const DefaultServerType := "both"

  /** `SERVER_TYPE in ['write', 'both']` */
  predicate WriteAllowed(serverType: string)
  {
    serverType == "write" || serverType == "both"
  }

  /** `SERVER_TYPE in ['read', 'both']` */
  predicate ReadAllowed(serverType: string)
  {
    serverType == "read" || serverType == "both"
  }

  /** The guard table: "write" and "read" allow one side each, "both" allows
      both, and any other value allows neither. */
  lemma GuardTable(serverType: string)
    ensures WriteAllowed(serverType) && ReadAllowed(serverType) <==> serverType == "both"
    ensures WriteAllowed(serverType) && !ReadAllowed(serverType) <==> serverType == "write"
    ensures !WriteAllowed(serverType) && ReadAllowed(serverType) <==> serverType == "read"
    ensures !WriteAllowed(serverType) && !ReadAllowed(serverType) <==> serverType !in {"write", "read", "both"}
  {
  }

  /** The 403 answer of a disabled side; `operation` is "Write" or "Read". */
  function Forbidden(operation: string, serverType: string): (r: Response)
    ensures r.Respond? && r.status == 403 && r.body.Some? && r.body.value.JObject?
    ensures r.body.value.fields.Keys == {"error", "server_type"}
    ensures r.body.value.fields["server_type"] == JStr(serverType)
  {
    Respond(403, Some(JObject(map[
      "error" := JStr(operation + " operations not available on this server"),
      "server_type" := JStr(serverType)])))
  }

  /** A row of the write or the read table: its title and content as the
      writer gave them. */
  datatype Row = Row(title: Json, content: Json)

  /** `JsonResponse({'error': message}, status=status)` */
  function ErrorResponse(status: int, message: string): Response
  {
    Respond(status, Some(Message("error", message)))
  }

  /** `data.get(key, '')` on a decoded object. */
  function GetOrEmpty(fields: map<string, Json>, key: string): (v: Json)
    ensures key in fields ==> v == fields[key]
    ensures key !in fields ==> v == JStr("")
  {
    if key in fields then fields[key] else JStr("")
  }

  /** The checks `write_data` makes before it inserts: the row to insert, or
      the answer it gives instead. Writes must be allowed (403); the body must
      decode in the encoding `json.loads` detects (500 with the codec's
      message otherwise) and hold JSON (400); it must be an object, as `.get` raises otherwise (500);
      the title must be truthy (400); the content may not be null, as the
      NOT NULL constraint of the column fails (500). */
  function WriteCheck(serverType: string, body: RequestBody): (r: Result<Row, Response>)
    ensures !WriteAllowed(serverType) ==> r == Err(Forbidden("Write", serverType))
    ensures WriteAllowed(serverType) && (body.Empty? || body.Malformed?) ==> r == Err(ErrorResponse(400, "Invalid JSON data"))
    ensures WriteAllowed(serverType) && body.Undecodable? ==> r == Err(ErrorResponse(500, body.reason))
    ensures WriteAllowed(serverType) && body.Text? && !body.value.JObject? ==> r.Err? && r.error.Respond? && r.error.status == 500
    ensures WriteAllowed(serverType) && body.Text? && body.value.JObject? && !Truthy(GetOrEmpty(body.value.fields, "title")) ==>
      r == Err(ErrorResponse(400, "Title is required"))
    ensures WriteAllowed(serverType) && body.Text? && body.value.JObject? && Truthy(GetOrEmpty(body.value.fields, "title"))
            && GetOrEmpty(body.value.fields, "content") == JNull ==>
      r == Err(ErrorResponse(500, "NOT NULL constraint failed: write_data.content"))
    ensures r.Ok? <==> WriteAllowed(serverType) && body.Text? && body.value.JObject?
                       && Truthy(GetOrEmpty(body.value.fields, "title"))
                       && GetOrEmpty(body.value.fields, "content") != JNull
    ensures r.Ok? ==> r.value == Row(body.value.fields["title"], GetOrEmpty(body.value.fields, "content"))
  {
    if !WriteAllowed(serverType) then Err(Forbidden("Write", serverType))
    else
      match Loads(body)
      case Err(DecodeError) => Err(ErrorResponse(400, "Invalid JSON data"))
      case Err(UnicodeError(message)) => Err(ErrorResponse(500, message))
      case Ok(data) =>
        if !data.JObject? then Err(ErrorResponse(500, "'" + TypeName(data) + "' object has no attribute 'get'"))
        else
          var title := GetOrEmpty(data.fields, "title");
          var content := GetOrEmpty(data.fields, "content");
          if !Truthy(title) then Err(ErrorResponse(400, "Title is required"))
          else if content.JNull? then Err(ErrorResponse(500, "NOT NULL constraint failed: write_data.content"))
          else Ok(Row(title, content))
  }

  /** The 201 answer echoing the inserted row. */
  function Created(id: int, row: Row): (r: Response)
    ensures r.Respond? && r.status == 201 && r.body.Some? && r.body.value.JObject?
    ensures var f := r.body.value.fields;
      "id" in f && "title" in f && "content" in f
      && f["id"] == JNum(id) && f["title"] == row.title && f["content"] == row.content
  {
    Respond(201, Some(JObject(map[
      "id" := JNum(id),
      "title" := row.title,
      "content" := row.content,
      "message" := JStr("Data written successfully")])))
  }

  /** A row as `read_data` serialises it. */
  function RowJson(id: int, row: Row): (j: Json)
    ensures j.JObject? && j.fields.Keys == {"id", "title", "content"}
    ensures j.fields["id"] == JNum(id) && j.fields["title"] == row.title && j.fields["content"] == row.content
  {
    JObject(map["id" := JNum(id), "title" := row.title, "content" := row.content])
  }

  /** What `read_data` does: answer at once, or list a page of the read table
      with the given `page` and `page_size`. */
  datatype ReadOutcome = Answer(response: Response) | Paginate(page: string, pageSize: string)

  /** The error Django raises for an id that is not a number. */
  function NotANumber(id: string): string
  {
    "Field 'id' expected a number but got '" + id + "'."
  }

  /** `request.GET.get(key, default)` */
  function Param(query: map<string, string>, key: string, default: string): (v: string)
    ensures key in query ==> v == query[key]
    ensures key !in query ==> v == default
  {
    if key in query then query[key] else default
  }

  /** `read_data` over the read table. Reads must be allowed (403). A
      non-empty `id` is looked up: a number names a row (200) or none (404),
      anything else makes the lookup raise (500). Without one, the request is
      paginated, `page` defaulting to 1 and `page_size` to 10. */
  function ReadData(serverType: string, table: map<int, Row>, query: map<string, string>): (o: ReadOutcome)
    ensures !ReadAllowed(serverType) ==> o == Answer(Forbidden("Read", serverType))
    ensures o.Paginate? <==> ReadAllowed(serverType) && Param(query, "id", "") == ""
    ensures o.Paginate? ==> o.page == Param(query, "page", "1") && o.pageSize == Param(query, "page_size", "10")
    ensures (o.Answer? && StatusOf(o.response) == 200) <==>
      && ReadAllowed(serverType) && Param(query, "id", "") != ""
      && ParseInt(query["id"]).Some? && ParseInt(query["id"]).value in table
    ensures o.Answer? && StatusOf(o.response) == 200 ==>
      o.response.body == Some(RowJson(ParseInt(query["id"]).value, table[ParseInt(query["id"]).value]))
    ensures (o.Answer? && StatusOf(o.response) == 404) <==>
      && ReadAllowed(serverType) && Param(query, "id", "") != ""
      && ParseInt(query["id"]).Some? && ParseInt(query["id"]).value !in table
    ensures ReadAllowed(serverType) && Param(query, "id", "") != "" && ParseInt(query["id"]).None? ==>
      o == Answer(ErrorResponse(500, NotANumber(query["id"])))
  {
    if !ReadAllowed(serverType) then Answer(Forbidden("Read", serverType))
    else if Param(query, "id", "") != "" then
      match ParseInt(query["id"])
      case None => Answer(ErrorResponse(500, NotANumber(query["id"])))
      case Some(n) =>
        if n in table then Answer(Respond(200, Some(RowJson(n, table[n]))))
        else Answer(ErrorResponse(404, "Record not found"))
    else
      Paginate(Param(query, "page", "1"), Param(query, "page_size", "10"))
  }

  /** Every row of the read table is found by its id written in decimal, and
      comes back as stored. */
  lemma {:induction false} RowFoundById(serverType: string, table: map<int, Row>, query: map<string, string>, id: int)
    requires ReadAllowed(serverType)
    requires id in table
    requires "id" in query && query["id"] == IntToDecimal(id)
    ensures ReadData(serverType, table, query) == Answer(Respond(200, Some(RowJson(id, table[id]))))
  {
    ParseIntOfDecimal(id);
  }

  /** An id in decimal that names no row answers 404. */
  lemma {:induction false} MissingRowNotFound(serverType: string, table: map<int, Row>, query: map<string, string>, id: int)
    requires ReadAllowed(serverType)
    requires id !in table
    requires "id" in query && query["id"] == IntToDecimal(id)
    ensures ReadData(serverType, table, query) == Answer(ErrorResponse(404, "Record not found"))
  {
    ParseIntOfDecimal(id);
  }

  /** `health_check`: always 200, naming the server type. */
  function HealthCheck(serverType: string): (r: Response)
    ensures r.Respond? && r.status == 200 && r.body.Some? && r.body.value.JObject?
    ensures r.body.value.fields.Keys == {"status", "server_type"}
    ensures r.body.value.fields["status"] == JStr("healthy") && r.body.value.fields["server_type"] == JStr(serverType)
  {
    Respond(200, Some(JObject(map["status" := JStr("healthy"), "server_type" := JStr(serverType)])))
  }

  /** A database server: its SERVER_TYPE, the write table with the next id
      the auto-incremented key will take, and the read table. */
  class DatabaseServer {
    const serverType: string
    var writeRows: map<int, Row>
    var nextId: int
    var readRows: map<int, Row>

    /** Every id of the write table was handed out before `nextId`. */
    ghost predicate Valid()
      reads this
    {
      nextId >= 1 && forall id :: id in writeRows ==> 1 <= id < nextId
    }

    constructor (serverType: string, readRows: map<int, Row>)
      ensures Valid()
      ensures this.serverType == serverType && this.readRows == readRows
      ensures writeRows == map[] && nextId == 1
    {
      this.serverType := serverType;
      this.readRows := readRows;
      writeRows := map[];
      nextId := 1;
    }

    /** `write_data`: a body that passes the checks becomes a new row under a
        fresh id, echoed with 201; any other answer leaves the table alone. */
    method WriteData(body: RequestBody) returns (resp: Response)
      requires Valid()
      modifies this`writeRows, this`nextId
      ensures Valid()
      ensures match WriteCheck(serverType, body)
        case Err(r) => resp == r && writeRows == old(writeRows) && nextId == old(nextId)
        case Ok(row) =>
          && old(nextId) !in old(writeRows)
          && writeRows == old(writeRows)[old(nextId) := row]
          && nextId == old(nextId) + 1
          && resp == Created(old(nextId), row)
    {
      match WriteCheck(serverType, body)
      case Err(r) =>
        resp := r;
      case Ok(row) =>
        var id := nextId;
        writeRows := writeRows[id := row];
        nextId := nextId + 1;
        resp := Created(id, row);
    }

    /** `read_data` on this server's read table. */
    function Read(query: map<string, string>): (o: ReadOutcome)
      reads this
      ensures o.Answer? && StatusOf(o.response) == 200 ==> ReadAllowed(serverType) && "id" in query && ParseInt(query["id"]).Some? && ParseInt(query["id"]).value in readRows
      ensures o.Paginate? <==> ReadAllowed(serverType) && ("id" !in query || query["id"] == "")
    {
      ReadData(serverType, readRows, query)
    }
  }

  /** On a read-only server a write is refused and inserts nothing, whatever
      the body. */
  method ReadOnlyServerRefusesWrites(body: RequestBody) returns (resp: Response, rows: nat)
    ensures resp == Forbidden("Write", "read") && rows == 0
  {
    var server := new DatabaseServer("read", map[]);
    resp := server.WriteData(body);
    rows := |server.writeRows|;
  }

  /** Two accepted writes on a fresh server get ids 1 and 2. */
  method SuccessiveWritesGetIncreasingIds(title: string) returns (first: Response, second: Response)
    requires title != ""
    ensures first == Created(1, Row(JStr(title), JStr("")))
    ensures second == Created(2, Row(JStr(title), JStr("")))
  {
    var server := new DatabaseServer(DefaultServerType, map[]);
    var body := Text(JObject(map["title" := JStr(title)]));
    first := server.WriteData(body);
    second := server.WriteData(body);
  }
}
