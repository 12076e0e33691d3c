/** The program from request to response: what the promises about runs come to for a caller who
    posts a request, posts it again and asks for the task. */
module EndToEnd {
  import opened Results
  import opened GoErrors
  import opened Domain
  import opened TaskTable
  import opened SubmitProtocol
  import opened SubmitSafety
  import opened SubmitRuns
  import opened CallRuns
  import opened TaskService
  import opened RequestCodec
  import opened ResponseCodec
  import opened Responses
  import opened Handler

  /** A task answered by the last of a run, under a key: its row is the one the key has. */
  lemma AnswerHasRow(runner: Runner, run: Run, p: Pid, t: Task, k: string)
    requires AnsweredOk(runner, run, p, t) && k != ""
    requires Exec(runner, run).value.procs[p].cmd.idempotencyKey == k
    ensures
      var rows := Exec(runner, run).value.rows;
      TableOk(rows) && KeyTaken(rows, Some(k)) && t.id in rows && FindByKey(rows, k) == Some(rows[t.id]) &&
      rows[t.id].id == t.id && rows[t.id].status == STATUS_PENDING && t.status == STATUS_PENDING
  {
    RunKeepsInv(runner, run);
    ReadAfterWrite(runner, run, run, p, t);
    FindByKeyIs(Exec(runner, run).value.rows, t.id, k);
  }

  /** The run has answered the call p, and not yet made the call q, and left this database. */
  ghost predicate AnsweredOnly(runner: Runner, run: Run, p: Pid, q: Pid, body: TaskDto, db: Database)
    reads db
  {
    Exec(runner, run).Some? &&
    var s := Exec(runner, run).value;
    p in s.procs && s.procs[p].phase.Done? && s.procs[p].phase.reply.Ok? &&
    ToOasTask(s.procs[p].phase.reply.value) == Ok(body) && q !in s.procs && s.rows == db.rows && s.events == db.events
  }

  /** Idempotency of the program itself, after any run and whatever goes wrong in either call:
      once a keyed POST has been answered with a task, posting the request again leaves the
      table and the outbox as the first one left them, and an answer it gets is the body that a
      GET of the first answer's id gets, creation time included. */
  method PostTwiceThenGet(
    h: Handler, req: CreateTaskRequest, env1: Env, env2: Env, ghost run: Run, ghost p: Pid, ghost q: Pid)
    returns (a: Result<CreateTaskRes, Error>, b: Result<CreateTaskRes, Error>, got: Result<GetTaskRes, Error>,
             ghost first: Run)
    requires h.cmd.tasks.db == h.cmd.outbox.db == h.cmd.tx.db == h.q.tasks.db && h.cmd.Follows(run, p)
    requires Plausible(env1) && Plausible(env2) && KeyOrEmpty(req.key) != ""
    requires q != p && q !in Exec(h.cmd.tx.runner, run).value.procs
    modifies h.cmd.tx, h.cmd.tasks.db
    ensures a.Ok? ==>
      a.value.Created? && Continues(run, first) &&
      AnsweredOnly(h.cmd.tx.runner, first, p, q, a.value.task, h.cmd.tasks.db)
    ensures a.Ok? ==>
      got.Ok? && got.value.Found? && got.value.task.id == a.value.task.id && got.value.task.status == "pending"
    ensures a.Ok? && b.Ok? ==> b.value.Created? && got.Ok? && got.value == Found(b.value.task)
  {
    ghost var command, reply, steps;
    a, command, reply, steps := h.CreateTask(req, env1, run, p);
    got, b, first := Err(Opaque("")), Err(Opaque("")), run;
    if a.Err? {
      return;
    }
    first := Graft(run, p, command, steps);
    AnswerHasRow(h.cmd.tx.runner, first, p, reply.value, KeyOrEmpty(req.key));
    ghost var again, reply2, steps2;
    b, again, reply2, steps2 := h.CreateTask(req, env2, first, q);
    got := h.GetTask(a.value.task.id, None);
  }
}
