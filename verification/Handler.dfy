/** The HTTP handler: requests become commands, tasks become response bodies, and errors keep
    their class through every layer of wrapping. */
module Handler {
  import opened Results
  import opened GoErrors
  import opened Domain
  import opened TaskTable
  import opened SubmitProtocol
  import opened SubmitSafety
  import opened SubmitRuns
  import opened CallRuns
  import opened FirstCalls
  import opened JsonTokens
  import opened JsonGrammar
  import opened TokenReader
  import opened RequestCodec
  import opened RequestEncoding
  import opened RequestBodies
  import opened ResponseCodec
  import opened Responses
  import opened TaskService

  // ----- mapping

  function ToOasStatus(s: Status): Option<string> {
    if s == STATUS_PENDING then Some("pending")
    else if s == STATUS_RUNNING then Some("running")
    else if s == STATUS_COMPLETE then Some("succeeded")
    else if s == STATUS_FAILED then Some("failed")
    else if s == STATUS_CANCELED then Some("cancelled")
    else None
  }

  /** Domain words never reach the wire: the five domain statuses are mapped one to one onto the
      wire's five, and nothing else is mapped or accepted. */
  lemma StatusesMapOneToOne(s: Status, u: Status)
    ensures ToOasStatus(s) ==
      if s == "pending" then Some("pending")
      else if s == "running" then Some("running")
      else if s == "complete" then Some("succeeded")
      else if s == "failed" then Some("failed")
      else if s == "canceled" then Some("cancelled")
      else None
    ensures ToOasStatus(s).Some? && ToOasStatus(s) == ToOasStatus(u) ==> s == u
    ensures StatusOk(u) <==> exists d :: ToOasStatus(d) == Some(u)
  {
    var p, r, c, f, x := "pending", "running", "succeeded", "failed", "cancelled";
    assert p[0] != r[0] && p[0] != c[0] && p[0] != f[0] && p[0] != x[0] && r[0] != c[0];
    assert r[0] != f[0] && r[0] != x[0] && c[0] != f[0] && c[0] != x[0] && f[0] != x[0];
    assert ToOasStatus(STATUS_PENDING) == Some(p) && ToOasStatus(STATUS_RUNNING) == Some(r);
    assert "complete"[0] == 'c' && "canceled"[1] != "complete"[1] && "failed"[0] == 'f';
    assert ToOasStatus(STATUS_COMPLETE) == Some(c) && ToOasStatus(STATUS_FAILED) == Some(f);
    assert ToOasStatus(STATUS_CANCELED) == Some(x);
  }

  function ToOasTask(t: Task): Result<TaskDto, Error> {
    match ToOasStatus(t.status)
    case None => Err(Opaque("unmapped task status " + t.status))
    case Some(status) => Ok(TaskDto(t.id, status, t.createdAt))
  }

  function ToOasTaskView(v: TaskView): Result<TaskDto, Error> {
    match ToOasStatus(v.status)
    case None => Err(Opaque("unmapped task status " + v.status))
    case Some(status) => Ok(TaskDto(v.id, status, v.createdAt))
  }

  // ----- requests

  /** json.Marshal of the payload map, which fails on a member that is not one JSON value. */
  function MarshalPayload(p: Opt<GoMap>): Option<Payload> {
    if !p.isSet then Some(map[])
    else if forall k :: k in Entries(p.value) ==> WellFormed(Entries(p.value)[k]) then Some(Entries(p.value))
    else None
  }

  /** OptString.Get: "" when absent. */
  function KeyOrEmpty(key: Opt<string>): string {
    if key.isSet then key.value else ""
  }

  /** The command carries exactly what the request supplied. */
  predicate Carries(req: CreateTaskRequest, command: SubmitCommand) {
    command.handler == req.handler &&
    command.payload == (if req.payload.isSet then Entries(req.payload.value) else map[]) &&
    command.idempotencyKey == (if req.key.isSet then req.key.value else "")
  }

  /** Every payload member of the request is one JSON value. */
  ghost predicate PayloadIsJson(req: CreateTaskRequest) {
    req.payload.isSet ==> forall k :: k in Entries(req.payload.value) ==> IsJson(Entries(req.payload.value)[k])
  }

  /** The key column of a request: NULL for a key that is absent or empty. */
  function KeySent(req: CreateTaskRequest): Option<string> {
    if req.key.isSet && req.key.value != "" then Some(req.key.value) else None
  }

  /** Key fidelity. For every accepted body the key column is NULL exactly when the member was
      absent and otherwise the last occurrence sent, so writing "" for absent loses nothing; and
      the payload of an accepted body always marshals. */
  lemma KeyReachesInsert(contentType: string, body: Raw)
    requires BodyMeaning(contentType, body).Ok?
    ensures
      var req := BodyMeaning(contentType, body).value;
      var sent := Last(ObjectAt(body, 0).value.members, "idempotency_key");
      KeyColumn(KeyOrEmpty(req.key)) == (if sent.None? then None else Some(TextOf(sent))) &&
      MarshalPayload(req.payload) == Some(if req.payload.isSet then Entries(req.payload.value) else map[])
  {
    DecodedIsRepresentable(ObjectAt(body, 0).value.members);
    FailuresNamed(BodyMeaning(contentType, body).value);
  }

  /** For a request that skipped validation the translation is lossless exactly when the key is
      not set to the empty string. */
  lemma EmptyKeyIsLost(req: CreateTaskRequest)
    ensures KeyColumn(KeyOrEmpty(req.key)) == (if req.key.isSet then Some(req.key.value) else None) <==>
      !(req.key.isSet && req.key.value == "")
  {
  }

  lemma PayloadMarshals(req: CreateTaskRequest)
    ensures PayloadIsJson(req) <==>
      !(req.payload.isSet && exists k :: k in Entries(req.payload.value) && !WellFormed(Entries(req.payload.value)[k]))
  {
    forall k | k in Entries(req.payload.value)
      ensures WellFormed(Entries(req.payload.value)[k]) <==> IsJson(Entries(req.payload.value)[k])
    {
      WellFormedIsJson(Entries(req.payload.value)[k]);
    }
  }

  lemma AnswerIsPending(runner: Runner, run: Run, p: Pid, t: Task)
    requires AnsweredOk(runner, run, p, t)
    ensures t.status == STATUS_PENDING && ToOasTask(t).Ok?
  {
    ReadAfterWrite(runner, run, run, p, t);
  }

  const TASK_NOT_FOUND := ErrorDto("task_not_found", "task ID not found")

  /** The answer to GET /v1/tasks/{id}, from the table and the fault the read meets. */
  function GetReply(rows: Table, id: Uuid, fault: Option<Error>): Result<GetTaskRes, Error> {
    var err :=
      if fault.Some? then Some(Wrap("get task", Translate(fault.value)))
      else if id in rows then None
      else Some(Wrap("get task", GoErrors.NotFound));
    if err.Some? then
      if Is(err.value, GoErrors.NotFound) then Ok(GetNotFound(TASK_NOT_FOUND)) else Err(Wrap("get task", err.value))
    else
      match ToOasStatus(rows[id].status)
      case None => Err(Opaque("unmapped task status " + rows[id].status))
      case Some(status) => Ok(Found(TaskDto(rows[id].id, status, rows[id].createdAt)))
  }

  class Handler {
    const cmd: Commander
    const q: Querier

    constructor (cmd: Commander, q: Querier)
      ensures this.cmd == cmd && this.q == q
    {
      this.cmd, this.q := cmd, q;
    }

    /** CreateTask, after any run: the command carries what the request supplied, the answer is
        that of the command's call as it goes on with the run, and every failure comes back as
        an error. */
    method CreateTask(req: CreateTaskRequest, env: Env, ghost run: Run, ghost p: Pid)
      returns (r: Result<CreateTaskRes, Error>, ghost command: SubmitCommand, ghost reply: Result<Task, Error>,
               ghost steps: Run)
      requires cmd.tasks.db == cmd.outbox.db == cmd.tx.db && Plausible(env) && cmd.Follows(run, p)
      modifies cmd.tx, cmd.tasks.db
      ensures !PayloadIsJson(req) ==>
        r.Err? && cmd.tasks.db.rows == old(cmd.tasks.db.rows) && cmd.tasks.db.events == old(cmd.tasks.db.events)
      ensures PayloadIsJson(req) ==>
        var later := Graft(run, p, command, steps);
        Carries(req, command) && ObeysAll(env, cmd.tx.runner, steps) && Continues(run, later) &&
        Exec(cmd.tx.runner, later) ==
          Some(State(cmd.tasks.db.rows, cmd.tasks.db.events,
            Exec(cmd.tx.runner, run).value.procs[p := Proc(command, Done(reply))]))
      ensures PayloadIsJson(req) && KeyTaken(old(cmd.tasks.db.rows), KeySent(req)) ==>
        cmd.tasks.db.rows == old(cmd.tasks.db.rows) && cmd.tasks.db.events == old(cmd.tasks.db.events) &&
        (reply.Ok? ==> IsStoredUnder(cmd.tasks.db.rows, KeyOrEmpty(req.key), reply.value))
      ensures PayloadIsJson(req) && !KeyTaken(old(cmd.tasks.db.rows), KeySent(req)) ==>
        AnswersFirst(old(cmd.tasks.db.rows), old(cmd.tasks.db.events), command, env,
          cmd.tasks.db.rows, cmd.tasks.db.events, reply)
      ensures PayloadIsJson(req) ==> (r.Ok? <==> reply.Ok?)
      ensures PayloadIsJson(req) && reply.Err? ==> r == Err(Wrap("submit task", reply.error))
      ensures r.Ok? ==>
        r.value.Created? && r.value.task == TaskDto(reply.value.id, "pending", reply.value.createdAt)
      ensures r.Ok? && !KeyTaken(old(cmd.tasks.db.rows), KeySent(req)) ==>
        var rows, id := cmd.tasks.db.rows, r.value.task.id;
        env.newID == Ok(id) && id in rows && rows[id].handler == req.handler && rows[id].key == KeySent(req) &&
        rows[id].payload == (if req.payload.isSet then Entries(req.payload.value) else map[]) &&
        rows[id].status == "pending" && rows[id].createdAt == env.dbNow
    {
      PayloadMarshals(req);
      var payload: Payload := map[];
      if req.payload.isSet {
        if exists k :: k in Entries(req.payload.value) && !WellFormed(Entries(req.payload.value)[k]) {
          command, reply, steps := SubmitCommand("", map[], ""), Err(Opaque("")), Begin;
          return Err(Wrap("marshal payload", Opaque("invalid JSON"))), command, reply, steps;
        }
        payload := Entries(req.payload.value);
      }
      var key := if req.key.isSet then req.key.value else "";
      command := SubmitCommand(req.handler, payload, key);
      var task;
      task, steps := cmd.Submit(SubmitCommand(req.handler, payload, key), env, run, p);
      reply := task;
      if task.Err? {
        return Err(Wrap("submit task", task.error)), command, reply, steps;
      }
      AnswerIsPending(cmd.tx.runner, Graft(run, p, command, steps), p, task.value);
      var dto := ToOasTask(task.value);
      if dto.Err? {
        return Err(dto.error), command, reply, steps;
      }
      return Ok(Created(dto.value)), command, reply, steps;
    }

    /** GetTask: a missing row is a 404, every other failure an error. */
    method GetTask(id: Uuid, fault: Option<Error>) returns (r: Result<GetTaskRes, Error>)
      ensures r == GetReply(q.tasks.db.rows, id, fault)
    {
      var view := q.Get(id, fault);
      if view.Err? {
        if Is(view.error, GoErrors.NotFound) {
          return Ok(GetNotFound(TASK_NOT_FOUND));
        }
        return Err(Wrap("get task", view.error));
      }
      var dto := ToOasTaskView(view.value);
      if dto.Err? {
        return Err(dto.error);
      }
      return Ok(Found(dto.value));
    }
  }

  // ----- what the caller sees

  /** Error classes survive any depth of wrapping and joining: the answer is not-found exactly
      when the read found no row; every other driver fault is kept, leaf by leaf, in the error,
      and rendered as one and the same opaque envelope. */
  lemma GetErrorsKeepTheirClass(rows: Table, id: Uuid, fault: Option<Error>, render: Error -> string)
    requires TableOk(rows) && (fault.Some? ==> FromDriver(fault.value))
    ensures
      var reply := GetReply(rows, id, fault);
      (reply == Ok(GetNotFound(TASK_NOT_FOUND)) <==>
         if fault.None? then id !in rows else NoRows in Leaves(fault.value)) &&
      (reply.Err? <==> fault.Some? && NoRows !in Leaves(fault.value)) &&
      (reply.Err? ==> Leaves(reply.error) == Leaves(fault.value)) &&
      (reply.Err? ==> Envelope(render, reply.error) == Envelope(render, Opaque("")))
  {
    if fault.Some? {
      DriverErrorsCarryNoDomain(fault.value);
      IsMeansLeaf(fault.value, NoRows);
      var e := Wrap("get task", fault.value);
      assert !HasDecodeRequest(e) && !HasDecodeParams(e);
      assert !HasDecodeRequest(Wrap("get task", e)) && !HasDecodeParams(Wrap("get task", e));
    } else if id in rows {
      StatusesMapOneToOne(rows[id].status, rows[id].status);
    }
  }

  /** What GET answers, in the words of the API: the stored row's id, status and creation time,
      or the declared not-found code; and the client reads every such answer back, a task's if
      the text forms of its id and instant read back. */
  lemma GetAnswersAreDeclared(f: Formats, rows: Table, id: Uuid, fault: Option<Error>)
    requires TableOk(rows) && GetReply(rows, id, fault).Ok?
    ensures
      var reply := GetReply(rows, id, fault).value;
      if reply.Found? then
        fault.None? && id in rows && reply.task == TaskDto(id, "pending", rows[id].createdAt) &&
        (f.parseUuid(f.uuidText(id)) == Some(id) && f.parseTime(f.timeText(rows[id].createdAt)) == Some(rows[id].createdAt) ==>
           GetMeaning(f, GetWire(f, reply)) == Ok(reply))
      else
        reply == GetNotFound(ErrorDto("task_not_found", "task ID not found")) && GetMeaning(f, GetWire(f, reply)) == Ok(reply)
  {
    GetRoundTrip(f, GetReply(rows, id, fault).value);
  }

  /** Read after write over the API: from a successful POST on, every GET of the answered id in
      any continuation finds it, with the same id and status. */
  lemma PostThenGet(runner: Runner, run: Run, later: Run, p: Pid, t: Task)
    requires Continues(run, later) && AnsweredOk(runner, run, p, t) && Exec(runner, later).Some?
    ensures
      var rows := Exec(runner, later).value.rows;
      var posted, got := ToOasTask(t), GetReply(rows, t.id, None);
      posted.Ok? && got.Ok? && got.value.Found? && posted.value.status == "pending" &&
      got.value.task == posted.value.(createdAt := rows[t.id].createdAt)
  {
    ReadAfterWrite(runner, run, later, p, t);
    OneRowPerKey(runner, later, t.id, t.id);
  }

  /** When the POST was answered by a replay, the two bodies are equal, creation time included. */
  lemma ReplayedPostEqualsGet(runner: Runner, prev: Run, later: Run, p: Pid, t: Task)
    requires Continues(Then(prev, ReplayRead(p)), later) && Exec(runner, later).Some?
    requires AnsweredOk(runner, Then(prev, ReplayRead(p)), p, t)
    ensures
      var posted, got := ToOasTask(t), GetReply(Exec(runner, later).value.rows, t.id, None);
      posted.Ok? && got == Ok(Found(posted.value))
  {
    ReplayAnswersTheRow(runner, prev, later, p, t);
    PostThenGet(runner, Then(prev, ReplayRead(p)), later, p, t);
  }
}
