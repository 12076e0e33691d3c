/** Typed responses on the wire: the server's encoder, the error handler's envelope, and the
    client's decoder as their inverse. */
module Responses {
  import opened Results
  import opened GoErrors
  import opened Domain
  import opened JsonTokens
  import opened JsonGrammar
  import opened TokenReader
  import opened MediaTypes
  import opened ResponseCodec
  import opened RequestEncoding

  datatype HttpResponse = HttpResponse(status: nat, contentType: string, body: Raw)

  datatype CreateTaskRes = Created(task: TaskDto) | CreateBadRequest(error: ErrorDto) | CreateServerError(error: ErrorDto)

  datatype GetTaskRes = Found(task: TaskDto) | GetNotFound(error: ErrorDto) | GetServerError(error: ErrorDto)

  const JSON := "application/json"
  const JSON_UTF8 := JSON + ";" + " charset=utf-8"

  predicate StatusOk(s: string) {
    s == "pending" || s == "running" || s == "succeeded" || s == "failed" || s == "cancelled"
  }

  predicate CodeOk(s: string) {
    s == "invalid_request_body" || s == "invalid_parameter" || s == "task_not_found" || s == "internal_error"
  }

  // ----- encoding

  function TaskMembers(f: Formats, t: TaskDto): seq<Member> {
    [Member("id", [Str(f.uuidText(t.id))]), Member("status", [Str(t.status)]),
     Member("created_at", [Str(f.timeText(t.createdAt))])]
  }

  function ErrorMembers(e: ErrorDto): seq<Member> {
    [Member("code", [Str(e.code)]), Member("message", [Str(e.message)])]
  }

  lemma FlattenTwo(a: Member, b: Member)
    ensures Flatten([a, b]) == [Key(a.name)] + a.value + [Key(b.name)] + b.value
  {
    FlattenAppend([], a);
    FlattenAppend([a], b);
    assert [] + [a] == [a] && [a] + [b] == [a, b];
  }

  lemma FlattenThree(a: Member, b: Member, c: Member)
    ensures Flatten([a, b, c]) == Flatten([a, b]) + [Key(c.name)] + c.value
  {
    FlattenAppend([a, b], c);
    assert [a, b] + [c] == [a, b, c];
  }

  /** Task.Encode */
  method EncodeTask(e: Encoder, f: Formats, t: TaskDto)
    modifies e
    ensures e.out == old(e.out) + ObjectTokens(TaskMembers(f, t))
  {
    e.Put(ObjOpen);
    e.Put(Key("id"));
    e.Put(Str(f.uuidText(t.id)));
    e.Put(Key("status"));
    e.Put(Str(t.status));
    e.Put(Key("created_at"));
    e.Put(Str(f.timeText(t.createdAt)));
    e.Put(ObjClose);
    ghost var ms := TaskMembers(f, t);
    FlattenTwo(ms[0], ms[1]);
    FlattenThree(ms[0], ms[1], ms[2]);
  }

  /** Error.Encode, which the four error aliases share. */
  method EncodeError(e: Encoder, err: ErrorDto)
    modifies e
    ensures e.out == old(e.out) + ObjectTokens(ErrorMembers(err))
  {
    e.Put(ObjOpen);
    e.Put(Key("code"));
    e.Put(Str(err.code));
    e.Put(Key("message"));
    e.Put(Str(err.message));
    e.Put(ObjClose);
    FlattenTwo(ErrorMembers(err)[0], ErrorMembers(err)[1]);
  }

  /** What goes over the wire for each variant. */
  function CreateWire(f: Formats, res: CreateTaskRes): HttpResponse {
    match res
    case Created(t) => HttpResponse(201, JSON_UTF8, ObjectTokens(TaskMembers(f, t)))
    case CreateBadRequest(e) => HttpResponse(400, JSON_UTF8, ObjectTokens(ErrorMembers(e)))
    case CreateServerError(e) => HttpResponse(500, JSON_UTF8, ObjectTokens(ErrorMembers(e)))
  }

  function GetWire(f: Formats, res: GetTaskRes): HttpResponse {
    match res
    case Found(t) => HttpResponse(200, JSON_UTF8, ObjectTokens(TaskMembers(f, t)))
    case GetNotFound(e) => HttpResponse(404, JSON_UTF8, ObjectTokens(ErrorMembers(e)))
    case GetServerError(e) => HttpResponse(500, JSON_UTF8, ObjectTokens(ErrorMembers(e)))
  }

  /** encodeCreateTaskResponse */
  method EncodeCreate(f: Formats, res: CreateTaskRes) returns (w: HttpResponse)
    ensures w == CreateWire(f, res)
  {
    var e := new Encoder();
    match res {
      case Created(t) =>
        EncodeTask(e, f, t);
        w := HttpResponse(201, JSON_UTF8, e.out);
      case CreateBadRequest(err) =>
        EncodeError(e, err);
        w := HttpResponse(400, JSON_UTF8, e.out);
      case CreateServerError(err) =>
        EncodeError(e, err);
        w := HttpResponse(500, JSON_UTF8, e.out);
    }
  }

  /** encodeGetTaskResponse */
  method EncodeGet(f: Formats, res: GetTaskRes) returns (w: HttpResponse)
    ensures w == GetWire(f, res)
  {
    var e := new Encoder();
    match res {
      case Found(t) =>
        EncodeTask(e, f, t);
        w := HttpResponse(200, JSON_UTF8, e.out);
      case GetNotFound(err) =>
        EncodeError(e, err);
        w := HttpResponse(404, JSON_UTF8, e.out);
      case GetServerError(err) =>
        EncodeError(e, err);
        w := HttpResponse(500, JSON_UTF8, e.out);
    }
  }

  // ----- the client

  predicate ReadToEnd(body: Raw) {
    ObjectAt(body, 0).Some? && ObjectAt(body, 0).value.end == |body|
  }

  /** What is left to check of a decoded task: nothing behind it, its status in the enum. */
  function CheckedTask(r: Result<TaskDto, DecodeError>, toEnd: bool): Result<TaskDto, DecodeError> {
    if r.Err? then r
    else if !toEnd then Err(TrailingData)
    else if !StatusOk(r.value.status) then Err(Invalid(["status"]))
    else r
  }

  function CheckedError(r: Result<ErrorDto, DecodeError>, toEnd: bool): Result<ErrorDto, DecodeError> {
    if r.Err? then r
    else if !toEnd then Err(TrailingData)
    else if !CodeOk(r.value.code) then Err(Invalid(["code"]))
    else r
  }

  function TaskBody(f: Formats, resp: HttpResponse): Result<TaskDto, DecodeError> {
    if MediaType(resp.contentType) != JSON then Err(ContentType)
    else CheckedTask(TaskAt(f, resp.body, 0), ReadToEnd(resp.body))
  }

  function ErrorBody(resp: HttpResponse): Result<ErrorDto, DecodeError> {
    if MediaType(resp.contentType) != JSON then Err(ContentType)
    else CheckedError(ErrorAt(resp.body, 0), ReadToEnd(resp.body))
  }

  // ----- which answer is owed to which response

  ghost predicate TaskSchemaMember(f: Formats, m: Member) {
    IsJson(m.value) &&
    (m.name == "status" ==> exists text :: m.value == [Str(text)]) &&
    (m.name == "id" ==> exists text :: m.value == [Str(text)] && f.parseUuid(text).Some?) &&
    (m.name == "created_at" ==> exists text :: m.value == [Str(text)] && f.parseTime(text).Some?)
  }

  ghost predicate ErrorSchemaMember(m: Member) {
    IsJson(m.value) && (m.name == "code" || m.name == "message" ==> exists text :: m.value == [Str(text)])
  }

  predicate Sent(ms: seq<Member>, name: string) {
    exists i :: 0 <= i < |ms| && ms[i].name == name
  }

  function Unsent(ms: seq<Member>, name: string): seq<string> {
    if Sent(ms, name) then [] else [name]
  }

  /** The result owed to a body that begins with an object, for a task: of duplicates the last
      counts, and unknown members do not. */
  ghost predicate TaskOwed(f: Formats, ms: seq<Member>, rest: Raw, r: Result<TaskDto, DecodeError>) {
    var missing := Unsent(ms, "id") + Unsent(ms, "status") + Unsent(ms, "created_at");
    if exists i :: 0 <= i < |ms| && !TaskSchemaMember(f, ms[i]) then r == Err(Malformed)
    else if missing != [] then r == Err(MissingFields(missing))
    else if rest != [] then r == Err(TrailingData)
    else if SentText(ms, "status") !in {"pending", "running", "succeeded", "failed", "cancelled"} then
      r == Err(Invalid(["status"]))
    else
      r.Ok? && f.parseUuid(SentText(ms, "id")) == Some(r.value.id) && r.value.status == SentText(ms, "status") &&
      f.parseTime(SentText(ms, "created_at")) == Some(r.value.createdAt)
  }

  ghost predicate ErrorOwed(ms: seq<Member>, rest: Raw, r: Result<ErrorDto, DecodeError>) {
    var missing := Unsent(ms, "code") + Unsent(ms, "message");
    if exists i :: 0 <= i < |ms| && !ErrorSchemaMember(ms[i]) then r == Err(Malformed)
    else if missing != [] then r == Err(MissingFields(missing))
    else if rest != [] then r == Err(TrailingData)
    else if SentText(ms, "code") !in
      {"invalid_request_body", "invalid_parameter", "task_not_found", "internal_error"} then r == Err(Invalid(["code"]))
    else r == Ok(ErrorDto(SentText(ms, "code"), SentText(ms, "message")))
  }

  ghost predicate TaskAnswered(f: Formats, resp: HttpResponse, r: Result<TaskDto, DecodeError>) {
    if MediaType(resp.contentType) != "application/json" then r == Err(ContentType)
    else if exists ms, rest :: Stands(resp.body, ms, rest) then
      forall ms, rest :: Stands(resp.body, ms, rest) ==> TaskOwed(f, ms, rest, r)
    else r == Err(Malformed)
  }

  ghost predicate ErrorAnswered(resp: HttpResponse, r: Result<ErrorDto, DecodeError>) {
    if MediaType(resp.contentType) != "application/json" then r == Err(ContentType)
    else if exists ms, rest :: Stands(resp.body, ms, rest) then
      forall ms, rest :: Stands(resp.body, ms, rest) ==> ErrorOwed(ms, rest, r)
    else r == Err(Malformed)
  }

  lemma TextIsJson(v: Raw)
    requires IsJson(v)
    ensures IsStr(v) <==> exists text :: v == [Str(text)]
  {
    if IsStr(v) {
      assert v == [Str(v[0].text)];
    }
  }

  lemma TaskTypesAreSchema(f: Formats, ms: seq<Member>)
    requires forall i :: 0 <= i < |ms| ==> IsJson(ms[i].value)
    ensures AllOk(ms, TaskOk(f)) <==> forall i :: 0 <= i < |ms| ==> TaskSchemaMember(f, ms[i])
  {
    TaskNames();
    forall i | 0 <= i < |ms| ensures TaskMemberOk(f, ms[i]) <==> TaskSchemaMember(f, ms[i]) {
      TextIsJson(ms[i].value);
    }
  }

  lemma ErrorTypesAreSchema(ms: seq<Member>)
    requires forall i :: 0 <= i < |ms| ==> IsJson(ms[i].value)
    ensures AllOk(ms, ErrorMemberOk) <==> forall i :: 0 <= i < |ms| ==> ErrorSchemaMember(ms[i])
  {
    forall i | 0 <= i < |ms| ensures ErrorMemberOk(ms[i]) <==> ErrorSchemaMember(ms[i]) {
      TextIsJson(ms[i].value);
    }
  }

  lemma AbsentIsUnsent(ms: seq<Member>)
    ensures AbsentFrom(ms, TASK_FIELDS) == Unsent(ms, "id") + Unsent(ms, "status") + Unsent(ms, "created_at")
    ensures AbsentFrom(ms, ERROR_FIELDS) == Unsent(ms, "code") + Unsent(ms, "message")
  {
    AbsentThree(ms, TASK_FIELDS, "id", "status", "created_at");
    AbsentTwo(ms, ERROR_FIELDS, "code", "message");
  }

  lemma AbsentTwo(ms: seq<Member>, names: seq<string>, a: string, b: string)
    requires |names| >= 2 && names[0] == a && names[1] == b
    ensures Absent(ms, names, 2) == Unsent(ms, a) + Unsent(ms, b)
  {
    LastMeans(ms, a);
    LastMeans(ms, b);
    AbsentSteps(ms, names);
    assert Absent(ms, names, 1) == Unsent(ms, a);
  }

  lemma AbsentThree(ms: seq<Member>, names: seq<string>, a: string, b: string, c: string)
    requires |names| >= 3 && names[0] == a && names[1] == b && names[2] == c
    ensures Absent(ms, names, 3) == Unsent(ms, a) + Unsent(ms, b) + Unsent(ms, c)
  {
    AbsentTwo(ms, names, a, b);
    LastMeans(ms, c);
    AbsentSteps(ms, names);
  }

  lemma AbsentSteps(ms: seq<Member>, names: seq<string>)
    ensures Absent(ms, names, 0) == []
    ensures forall k: nat :: 0 < k <= |names| ==>
      Absent(ms, names, k) == Absent(ms, names, k - 1) + if Last(ms, names[k - 1]).None? then [names[k - 1]] else []
  {
  }

  lemma TaskOfMembers(f: Formats, ms: seq<Member>)
    requires forall i :: 0 <= i < |ms| ==> IsJson(ms[i].value)
    ensures
      var missing := Unsent(ms, "id") + Unsent(ms, "status") + Unsent(ms, "created_at");
      if exists i :: 0 <= i < |ms| && !TaskSchemaMember(f, ms[i]) then TaskOf(f, ms) == Err(Malformed)
      else if missing != [] then TaskOf(f, ms) == Err(MissingFields(missing))
      else TaskOf(f, ms) == Ok(TaskFields(f, ms)) && Sent(ms, "id") && Sent(ms, "created_at") && AllOk(ms, TaskOk(f))
  {
    TaskTypesAreSchema(f, ms);
    AbsentIsUnsent(ms);
  }

  lemma CheckedTaskOwed(f: Formats, ms: seq<Member>, rest: Raw)
    requires forall i :: 0 <= i < |ms| ==> IsJson(ms[i].value)
    ensures TaskOwed(f, ms, rest, CheckedTask(TaskOf(f, ms), rest == []))
  {
    TaskOfMembers(f, ms);
    if TaskOf(f, ms).Ok? {
      TaskFieldsSay(f, ms);
    }
  }

  lemma StandingTaskOwed(f: Formats, resp: HttpResponse, ms: seq<Member>, rest: Raw)
    requires Stands(resp.body, ms, rest) && MediaType(resp.contentType) == "application/json"
    ensures TaskOwed(f, ms, rest, TaskBody(f, resp))
  {
    StandsIsParsed(resp.body, ms, rest);
    assert TaskAt(f, resp.body, 0) == TaskOf(f, ms) && (ReadToEnd(resp.body) <==> rest == []);
    CheckedTaskOwed(f, ms, rest);
  }

  /** Every result of reading a task body, from the response alone. */
  lemma TaskBodyAnswered(f: Formats, resp: HttpResponse)
    ensures TaskAnswered(f, resp, TaskBody(f, resp))
  {
    forall ms, rest | Stands(resp.body, ms, rest) && MediaType(resp.contentType) == "application/json"
      ensures TaskOwed(f, ms, rest, TaskBody(f, resp))
    {
      StandingTaskOwed(f, resp, ms, rest);
    }
    if ObjectAt(resp.body, 0).Some? {
      ParsedStands(resp.body);
    }
  }

  lemma TaskFieldsSay(f: Formats, ms: seq<Member>)
    requires AllOk(ms, TaskOk(f)) && Sent(ms, "id") && Sent(ms, "created_at")
    ensures
      var t := TaskFields(f, ms);
      f.parseUuid(SentText(ms, "id")) == Some(t.id) && t.status == SentText(ms, "status") &&
      f.parseTime(SentText(ms, "created_at")) == Some(t.createdAt)
  {
    LastMeans(ms, "id");
    LastMeans(ms, "created_at");
    assert forall i :: 0 <= i < |ms| ==> TaskMemberOk(f, ms[i]);
  }

  lemma ErrorOfMembers(ms: seq<Member>)
    requires forall i :: 0 <= i < |ms| ==> IsJson(ms[i].value)
    ensures
      var missing := Unsent(ms, "code") + Unsent(ms, "message");
      if exists i :: 0 <= i < |ms| && !ErrorSchemaMember(ms[i]) then ErrorOf(ms) == Err(Malformed)
      else if missing != [] then ErrorOf(ms) == Err(MissingFields(missing))
      else ErrorOf(ms) == Ok(ErrorDto(SentText(ms, "code"), SentText(ms, "message")))
  {
    ErrorTypesAreSchema(ms);
    AbsentIsUnsent(ms);
  }

  lemma CheckedErrorOwed(ms: seq<Member>, rest: Raw)
    requires forall i :: 0 <= i < |ms| ==> IsJson(ms[i].value)
    ensures ErrorOwed(ms, rest, CheckedError(ErrorOf(ms), rest == []))
  {
    ErrorOfMembers(ms);
  }

  lemma StandingErrorOwed(resp: HttpResponse, ms: seq<Member>, rest: Raw)
    requires Stands(resp.body, ms, rest) && MediaType(resp.contentType) == "application/json"
    ensures ErrorOwed(ms, rest, ErrorBody(resp))
  {
    StandsIsParsed(resp.body, ms, rest);
    assert ErrorAt(resp.body, 0) == ErrorOf(ms) && (ReadToEnd(resp.body) <==> rest == []);
    CheckedErrorOwed(ms, rest);
  }

  lemma ErrorBodyAnswered(resp: HttpResponse)
    ensures ErrorAnswered(resp, ErrorBody(resp))
  {
    forall ms, rest | Stands(resp.body, ms, rest) && MediaType(resp.contentType) == "application/json"
      ensures ErrorOwed(ms, rest, ErrorBody(resp))
    {
      StandingErrorOwed(resp, ms, rest);
    }
    if ObjectAt(resp.body, 0).Some? {
      ParsedStands(resp.body);
    }
  }

  method ReadTaskBody(f: Formats, resp: HttpResponse) returns (r: Result<TaskDto, DecodeError>)
    ensures r == TaskBody(f, resp)
  {
    var ct := MediaType(resp.contentType);
    if ct != JSON {
      return Err(ContentType);
    }
    var d := new Decoder(resp.body);
    var response := DecodeTask(d, f);
    if response.Err? {
      return response;
    }
    if d.pos != |d.input| {
      return Err(TrailingData);
    }
    if !StatusOk(response.value.status) {
      return Err(Invalid(["status"]));
    }
    return response;
  }

  method ReadErrorBody(resp: HttpResponse) returns (r: Result<ErrorDto, DecodeError>)
    ensures r == ErrorBody(resp)
  {
    var ct := MediaType(resp.contentType);
    if ct != JSON {
      return Err(ContentType);
    }
    var d := new Decoder(resp.body);
    var response := DecodeErrorBody(d);
    if response.Err? {
      return response;
    }
    if d.pos != |d.input| {
      return Err(TrailingData);
    }
    if !CodeOk(response.value.code) {
      return Err(Invalid(["code"]));
    }
    return response;
  }

  function Tagged<T, U>(r: Result<T, DecodeError>, tag: T -> U): Result<U, DecodeError> {
    match r
    case Ok(v) => Ok(tag(v))
    case Err(e) => Err(e)
  }

  /** What a response means to the client of createTask. */
  function CreateMeaning(f: Formats, resp: HttpResponse): Result<CreateTaskRes, DecodeError> {
    if resp.status == 201 then Tagged(TaskBody(f, resp), t => Created(t))
    else if resp.status == 400 then Tagged(ErrorBody(resp), e => CreateBadRequest(e))
    else if resp.status == 500 then Tagged(ErrorBody(resp), e => CreateServerError(e))
    else Err(UnexpectedStatus(resp.status))
  }

  /** What a response means to the client of getTask. */
  function GetMeaning(f: Formats, resp: HttpResponse): Result<GetTaskRes, DecodeError> {
    if resp.status == 200 then Tagged(TaskBody(f, resp), t => Found(t))
    else if resp.status == 404 then Tagged(ErrorBody(resp), e => GetNotFound(e))
    else if resp.status == 500 then Tagged(ErrorBody(resp), e => GetServerError(e))
    else Err(UnexpectedStatus(resp.status))
  }

  /** decodeCreateTaskResponse */
  method DecodeCreate(f: Formats, resp: HttpResponse) returns (r: Result<CreateTaskRes, DecodeError>)
    ensures r == CreateMeaning(f, resp)
    ensures resp.status == 201 ==>
      exists t :: TaskAnswered(f, resp, t) && r == if t.Ok? then Ok(Created(t.value)) else Err(t.error)
    ensures resp.status == 400 ==>
      exists e :: ErrorAnswered(resp, e) && r == if e.Ok? then Ok(CreateBadRequest(e.value)) else Err(e.error)
    ensures resp.status == 500 ==>
      exists e :: ErrorAnswered(resp, e) && r == if e.Ok? then Ok(CreateServerError(e.value)) else Err(e.error)
    ensures resp.status !in {201, 400, 500} ==> r == Err(UnexpectedStatus(resp.status))
  {
    TaskBodyAnswered(f, resp);
    ErrorBodyAnswered(resp);
    if resp.status == 201 {
      var task := ReadTaskBody(f, resp);
      return if task.Ok? then Ok(Created(task.value)) else Err(task.error);
    }
    if resp.status == 400 || resp.status == 500 {
      var err := ReadErrorBody(resp);
      if err.Err? {
        return Err(err.error);
      }
      return Ok(if resp.status == 400 then CreateBadRequest(err.value) else CreateServerError(err.value));
    }
    return Err(UnexpectedStatus(resp.status));
  }

  /** decodeGetTaskResponse */
  method DecodeGet(f: Formats, resp: HttpResponse) returns (r: Result<GetTaskRes, DecodeError>)
    ensures r == GetMeaning(f, resp)
    ensures resp.status == 200 ==>
      exists t :: TaskAnswered(f, resp, t) && r == if t.Ok? then Ok(Found(t.value)) else Err(t.error)
    ensures resp.status == 404 ==>
      exists e :: ErrorAnswered(resp, e) && r == if e.Ok? then Ok(GetNotFound(e.value)) else Err(e.error)
    ensures resp.status == 500 ==>
      exists e :: ErrorAnswered(resp, e) && r == if e.Ok? then Ok(GetServerError(e.value)) else Err(e.error)
    ensures resp.status !in {200, 404, 500} ==> r == Err(UnexpectedStatus(resp.status))
  {
    TaskBodyAnswered(f, resp);
    ErrorBodyAnswered(resp);
    if resp.status == 200 {
      var task := ReadTaskBody(f, resp);
      return if task.Ok? then Ok(Found(task.value)) else Err(task.error);
    }
    if resp.status == 404 || resp.status == 500 {
      var err := ReadErrorBody(resp);
      if err.Err? {
        return Err(err.error);
      }
      return Ok(if resp.status == 404 then GetNotFound(err.value) else GetServerError(err.value));
    }
    return Err(UnexpectedStatus(resp.status));
  }

  /** Each variant under its own status, as the API declares it. */
  lemma StatusesAsDeclared(f: Formats, posted: CreateTaskRes, got: GetTaskRes)
    ensures CreateWire(f, posted).status ==
      if posted.Created? then 201 else if posted.CreateBadRequest? then 400 else 500
    ensures GetWire(f, got).status == if got.Found? then 200 else if got.GetNotFound? then 404 else 500
    ensures CreateWire(f, posted).contentType == "application/json; charset=utf-8" == GetWire(f, got).contentType
    ensures posted.Created? ==> CreateWire(f, posted).body == ObjectTokens([
      Member("id", [Str(f.uuidText(posted.task.id))]), Member("status", [Str(posted.task.status)]),
      Member("created_at", [Str(f.timeText(posted.task.createdAt))])])
    ensures !posted.Created? ==> CreateWire(f, posted).body == ObjectTokens([
      Member("code", [Str(posted.error.code)]), Member("message", [Str(posted.error.message)])])
  {
    assert JSON_UTF8 == "application/json; charset=utf-8";
  }

  // ----- round trip

  /** The helpers read back what they wrote for these values, and the status is in the enum. */
  predicate TaskSurvives(f: Formats, t: TaskDto) {
    f.parseUuid(f.uuidText(t.id)) == Some(t.id) && f.parseTime(f.timeText(t.createdAt)) == Some(t.createdAt) &&
    StatusOk(t.status)
  }

  lemma JsonBodiesAreJson()
    ensures MediaType(JSON_UTF8) == JSON
  {
    MediaTypeOf("", JSON, "", ";" + " charset=utf-8");
    assert "" + JSON + "" + (";" + " charset=utf-8") == JSON_UTF8;
    assert Folded(JSON) == JSON;
  }

  lemma LastOfTwo(a: Member, b: Member, name: string)
    requires a.name != b.name
    ensures Last([a, b], name) ==
      if name == b.name then Some(b.value) else if name == a.name then Some(a.value) else None
  {
    LastAppend([a], b, name);
    LastAppend([], a, name);
    assert [] + [a] == [a] && [a] + [b] == [a, b];
  }

  lemma LastOfThree(a: Member, b: Member, c: Member, name: string)
    requires a.name != b.name && c.name != a.name && c.name != b.name
    ensures Last([a, b, c], name) == if name == c.name then Some(c.value) else Last([a, b], name)
  {
    LastAppend([a, b], c, name);
    assert [a, b] + [c] == [a, b, c];
  }

  lemma TaskNames()
    ensures "id" != "status" && "id" != "created_at" && "status" != "created_at"
  {
    assert "id"[0] != "status"[0] && "id"[0] != "created_at"[0] && "status"[0] != "created_at"[0];
  }

  lemma TaskMembersMean(f: Formats, t: TaskDto, name: string)
    ensures
      var ms := TaskMembers(f, t);
      Last(ms, "id") == Some([Str(f.uuidText(t.id))]) && Last(ms, "status") == Some([Str(t.status)]) &&
      Last(ms, "created_at") == Some([Str(f.timeText(t.createdAt))])
  {
    TaskNames();
    var ms := TaskMembers(f, t);
    forall n | n in {"id", "status", "created_at"}
      ensures Last(ms, n) == if n == ms[2].name then Some(ms[2].value) else Last([ms[0], ms[1]], n)
      ensures n != "created_at" ==>
        Last([ms[0], ms[1]], n) == if n == "status" then Some(ms[1].value) else Some(ms[0].value)
    {
      LastOfThree(ms[0], ms[1], ms[2], n);
      LastOfTwo(ms[0], ms[1], n);
    }
  }

  /** A task's encoding decodes to it exactly when its id, instant and status survive. */
  lemma TaskBodyRoundTrip(f: Formats, t: TaskDto, resp: HttpResponse)
    requires resp.contentType == JSON_UTF8 && resp.body == ObjectTokens(TaskMembers(f, t))
    ensures TaskBody(f, resp) == Ok(t) <==> TaskSurvives(f, t)
  {
    JsonBodiesAreJson();
    var ms := TaskMembers(f, t);
    ObjectRoundTrip(ms);
    TaskMembersMean(f, t, "id");
    TaskNames();
    TaskTyped(f, t);
    assert TASK_FIELDS[0] == "id" && TASK_FIELDS[1] == "status" && TASK_FIELDS[2] == "created_at";
    assert Absent(ms, TASK_FIELDS, 0) == [];
    assert Absent(ms, TASK_FIELDS, 1) == [];
    assert Absent(ms, TASK_FIELDS, 2) == [];
    assert Absent(ms, TASK_FIELDS, 3) == [];
  }

  lemma TaskTyped(f: Formats, t: TaskDto)
    ensures AllOk(TaskMembers(f, t), TaskOk(f)) <==>
      f.parseUuid(f.uuidText(t.id)).Some? && f.parseTime(f.timeText(t.createdAt)).Some?
  {
    TaskNames();
    var ms := TaskMembers(f, t);
    assert TaskMemberOk(f, ms[1]);
    assert TaskMemberOk(f, ms[0]) <==> f.parseUuid(f.uuidText(t.id)).Some?;
    assert TaskMemberOk(f, ms[2]) <==> f.parseTime(f.timeText(t.createdAt)).Some?;
  }

  /** An error's encoding decodes to it exactly when its code is in the enum. */
  lemma ErrorBodyRoundTrip(e: ErrorDto, resp: HttpResponse)
    requires resp.contentType == JSON_UTF8 && resp.body == ObjectTokens(ErrorMembers(e))
    ensures ErrorBody(resp) == Ok(e) <==> CodeOk(e.code)
  {
    JsonBodiesAreJson();
    var ms := ErrorMembers(e);
    ObjectRoundTrip(ms);
    assert "code"[0] != "message"[0];
    LastOfTwo(ms[0], ms[1], "code");
    LastOfTwo(ms[0], ms[1], "message");
    assert AllOk(ms, ErrorMemberOk);
    assert ERROR_FIELDS[0] == "code" && ERROR_FIELDS[1] == "message";
    assert Absent(ms, ERROR_FIELDS, 0) == [];
    assert Absent(ms, ERROR_FIELDS, 1) == [];
    assert Absent(ms, ERROR_FIELDS, 2) == [];
  }

  predicate CreateValid(f: Formats, res: CreateTaskRes) {
    if res.Created? then TaskSurvives(f, res.task) else CodeOk(res.error.code)
  }

  predicate GetValid(f: Formats, res: GetTaskRes) {
    if res.Found? then TaskSurvives(f, res.task) else CodeOk(res.error.code)
  }

  /** Response round trip: the client gets back the variant and the value the server encoded,
      for exactly the responses that validate. */
  lemma CreateRoundTrip(f: Formats, res: CreateTaskRes)
    ensures CreateMeaning(f, CreateWire(f, res)) == Ok(res) <==> CreateValid(f, res)
  {
    if res.Created? {
      TaskBodyRoundTrip(f, res.task, CreateWire(f, res));
    } else {
      ErrorBodyRoundTrip(res.error, CreateWire(f, res));
    }
  }

  lemma GetRoundTrip(f: Formats, res: GetTaskRes)
    ensures GetMeaning(f, GetWire(f, res)) == Ok(res) <==> GetValid(f, res)
  {
    if res.Found? {
      TaskBodyRoundTrip(f, res.task, GetWire(f, res));
    } else {
      ErrorBodyRoundTrip(res.error, GetWire(f, res));
    }
  }

  // ----- the error handler

  const OPAQUE_MESSAGE := "internal server error"

  function EnvelopeStatus(err: Error): nat {
    if HasDecodeRequest(err) || HasDecodeParams(err) then 400 else 500
  }

  /** `render` is err.Error(), the text of an error. */
  function EnvelopeError(render: Error -> string, err: Error): ErrorDto {
    if HasDecodeRequest(err) then ErrorDto("invalid_request_body", render(err))
    else if HasDecodeParams(err) then ErrorDto("invalid_parameter", render(err))
    else ErrorDto("internal_error", OPAQUE_MESSAGE)
  }

  /** api.ErrorHandler: the caller's own faults in detail, every other one opaque. */
  function Envelope(render: Error -> string, err: Error): HttpResponse {
    HttpResponse(EnvelopeStatus(err), JSON_UTF8, ObjectTokens(ErrorMembers(EnvelopeError(render, err))))
  }

  /** Which fault is told how, by the errors in its tree: a body that cannot be decoded before a
      parameter, these two in detail, and nothing else. */
  lemma EnvelopeByClass(render: Error -> string, err: Error)
    ensures
      var w := Envelope(render, err);
      var body, params := SomeDecodeRequest(Nodes(err)), SomeDecodeParams(Nodes(err));
      w.status == (if body || params then 400 else 500) &&
      w.contentType == "application/json; charset=utf-8" &&
      w.body == ObjectTokens([
        Member("code", [Str(if body then "invalid_request_body" else if params then "invalid_parameter" else "internal_error")]),
        Member("message", [Str(if body || params then render(err) else "internal server error")])])
  {
    DecodeErrorsAreNodes(err);
    assert JSON_UTF8 == "application/json; charset=utf-8";
  }

  /** The codes of the enum are those that are sent, each for its class of fault. */
  lemma CodesAreSent(render: Error -> string, code: string)
    ensures CodeOk(code) <==> code == "task_not_found" || exists err :: EnvelopeError(render, err).code == code
  {
    assert EnvelopeError(render, DecodeRequest(NotFound)).code == "invalid_request_body";
    assert EnvelopeError(render, DecodeParams(NotFound)).code == "invalid_parameter";
    assert EnvelopeError(render, NotFound).code == "internal_error";
  }

  /** A valid error body, under a status both operations or only createTask declare. */
  lemma ErrorStatusParsed(f: Formats, resp: HttpResponse, e: ErrorDto)
    requires resp.contentType == JSON_UTF8 && resp.body == ObjectTokens(ErrorMembers(e)) && CodeOk(e.code)
    requires resp.status == 400 || resp.status == 500
    ensures CreateMeaning(f, resp) == Ok(if resp.status == 400 then CreateBadRequest(e) else CreateServerError(e))
    ensures GetMeaning(f, resp) == if resp.status == 400 then Err(UnexpectedStatus(400)) else Ok(GetServerError(e))
  {
    ErrorBodyRoundTrip(e, resp);
  }

  /** A createTask client can parse every envelope; a getTask client exactly those that are not
      a 400, a status its decoder has no case for. */
  lemma EnvelopeParsed(f: Formats, render: Error -> string, err: Error)
    ensures CreateMeaning(f, Envelope(render, err)) ==
      Ok(if EnvelopeStatus(err) == 400 then CreateBadRequest(EnvelopeError(render, err)) else CreateServerError(EnvelopeError(render, err)))
    ensures GetMeaning(f, Envelope(render, err)) ==
      if HasDecodeRequest(err) || HasDecodeParams(err) then Err(UnexpectedStatus(400))
      else Ok(GetServerError(EnvelopeError(render, err)))
  {
    ErrorStatusParsed(f, Envelope(render, err), EnvelopeError(render, err));
  }
}
