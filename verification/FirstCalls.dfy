/** What one call makes of a key that is not stored yet: which row, which event and which answer,
    field by field, from its command and what it meets. */
module FirstCalls {
  import opened Results
  import opened GoErrors
  import opened Domain
  import opened TaskTable
  import opened SubmitProtocol
  import opened SubmitSafety
  import opened SubmitRuns
  import opened CallRuns

  /** The task the call makes, if it mints an id. */
  function MadeTask(cmd: SubmitCommand, env: Env): Task
    requires env.newID.Ok?
  {
    Task(env.newID.value, "pending", cmd.handler, cmd.payload, env.now)
  }

  /** The row it stores: its command's handler, payload and key, NULL for none, pending, under
      the database clock. */
  function MadeRow(cmd: SubmitCommand, env: Env): Row
    requires env.newID.Ok?
  {
    var key := if cmd.idempotencyKey == "" then None else Some(cmd.idempotencyKey);
    Row(env.newID.value, key, cmd.payload, "pending", env.dbNow, cmd.handler)
  }

  function MadeEvent(cmd: SubmitCommand, env: Env): Event
    requires env.newID.Ok?
  {
    Submitted(env.newID.value, cmd.handler, env.now)
  }

  /** Nothing fails. */
  predicate Smooth(env: Env) {
    env.newID.Ok? && env.insertFault.None? && env.appendFault.None? && env.commitFault.None? && env.replayFault.None?
  }

  /** What the call may leave: nothing, or its own row; nothing, or its own event. A task it is
      answered with is the one it made, its row is there, and its creation time is the
      application's, or the database's if it had to read it back. */
  ghost predicate LeavesBehind(
    rows: Table, events: seq<Event>, cmd: SubmitCommand, env: Env, rows': Table, events': seq<Event>)
  {
    (rows' == rows || (env.newID.Ok? && rows' == rows[env.newID.value := MadeRow(cmd, env)])) &&
    (events' == events || (env.newID.Ok? && events' == events + [MadeEvent(cmd, env)]))
  }

  ghost predicate AnswersFirst(
    rows: Table, events: seq<Event>, cmd: SubmitCommand, env: Env, rows': Table, events': seq<Event>,
    reply: Result<Task, Error>)
  {
    LeavesBehind(rows, events, cmd, env, rows', events') &&
    (reply.Ok? ==>
       env.newID.Ok? && rows' == rows[env.newID.value := MadeRow(cmd, env)] &&
       reply.value == MadeTask(cmd, env).(createdAt := reply.value.createdAt) &&
       reply.value.createdAt in {env.now, env.dbNow}) &&
    (Smooth(env) && env.newID.value !in rows ==>
       reply == Ok(MadeTask(cmd, env)) && events' == events + [MadeEvent(cmd, env)])
  }

  // ----- along the steps of the call

  ghost predicate PhaseFirst(runner: Runner, m: State, rows: Table, cmd: SubmitCommand, env: Env, ph: Phase) {
    (!ph.Entered? && !ph.Crashed? && !(ph.Done? && ph.reply.Err?) ==> env.newID.Ok?) &&
    match ph
    case Entered => m.rows == rows
    case Minted(t) => t == MadeTask(cmd, env) && m.rows == rows
    case Inserted(t, row) => t == MadeTask(cmd, env) && row == MadeRow(cmd, env) && HoldsRow(runner, m, rows, cmd, env)
    case Appended(t, row) => t == MadeTask(cmd, env) && row == MadeRow(cmd, env) && HoldsRow(runner, m, rows, cmd, env)
    case Committed(t) => t == MadeTask(cmd, env) && m.rows == rows[env.newID.value := MadeRow(cmd, env)]
    case Done(reply) =>
      reply.Ok? ==>
        m.rows == rows[env.newID.value := MadeRow(cmd, env)] &&
        reply.value == MadeTask(cmd, env).(createdAt := reply.value.createdAt) &&
        reply.value.createdAt in {env.now, env.dbNow}
    case _ => true
  }

  ghost predicate HoldsRow(runner: Runner, m: State, rows: Table, cmd: SubmitCommand, env: Env)
    requires env.newID.Ok?
  {
    if runner.Atomic? then m.rows == rows else m.rows == rows[env.newID.value := MadeRow(cmd, env)]
  }

  /** No event before Append; exactly the call's own once it is committed. */
  ghost predicate EventsFirst(runner: Runner, m: State, events: seq<Event>, cmd: SubmitCommand, env: Env, ph: Phase) {
    (ph.Entered? || ph.Minted? || ph.Inserted? || (ph.Appended? && runner.Atomic?) ==> m.events == events) &&
    (ph.Committed? || (ph.Appended? && runner.PassThrough?) ==>
       env.newID.Ok? && m.events == events + [MadeEvent(cmd, env)])
  }

  /** When nothing fails and the id is unused, the call goes straight to its own task. */
  ghost predicate Straight(m: State, rows: Table, events: seq<Event>, cmd: SubmitCommand, env: Env, ph: Phase) {
    Smooth(env) && env.newID.value !in rows ==>
      !ph.TxFailed? && !ph.Replaying? && !ph.Crashed? &&
      (ph.Done? ==> ph.reply == Ok(MadeTask(cmd, env)) && m.events == events + [MadeEvent(cmd, env)])
  }

  ghost predicate First(
    runner: Runner, m: State, rows: Table, events: seq<Event>, cmd: SubmitCommand, env: Env)
  {
    m.procs.Keys == {0} && m.procs[0].cmd == cmd && LeavesBehind(rows, events, cmd, env, m.rows, m.events) &&
    var ph := m.procs[0].phase;
    PhaseFirst(runner, m, rows, cmd, env, ph) && EventsFirst(runner, m, events, cmd, env, ph) &&
    Straight(m, rows, events, cmd, env, ph)
  }

  /** What one step needs to know of a call that obeys its environment. */
  ghost predicate Goes(runner: Runner, m: State, env: Env, a: Action) {
    Obeys(env, a) && Plausible(env) && (a.Commit? && runner.Atomic? ==> env.commitFault.None?) &&
    Step(runner, m, a).Some?
  }

  lemma MintFirst(runner: Runner, m: State, rows: Table, events: seq<Event>, cmd: SubmitCommand, env: Env, a: Action)
    requires First(runner, m, rows, events, cmd, env) && Goes(runner, m, env, a) && (a.Mint? || a.MintFails?)
    ensures First(runner, Step(runner, m, a).value, rows, events, cmd, env)
  {
  }

  lemma InsertFirst(runner: Runner, m: State, rows: Table, events: seq<Event>, cmd: SubmitCommand, env: Env, a: Action)
    requires First(runner, m, rows, events, cmd, env) && Goes(runner, m, env, a)
    requires a.InsertOk? || a.InsertCollides? || a.InsertFaults?
    requires !KeyTaken(rows, KeyOf(cmd))
    ensures First(runner, Step(runner, m, a).value, rows, events, cmd, env)
  {
    assert PendingRow(m.procs[0].phase.task, cmd, env.dbNow) == MadeRow(cmd, env);
  }

  lemma AppendFirst(runner: Runner, m: State, rows: Table, events: seq<Event>, cmd: SubmitCommand, env: Env, a: Action)
    requires First(runner, m, rows, events, cmd, env) && Goes(runner, m, env, a) && (a.AppendOk? || a.AppendFaults?)
    ensures First(runner, Step(runner, m, a).value, rows, events, cmd, env)
  {
    assert EventOf(MadeTask(cmd, env)) == MadeEvent(cmd, env);
  }

  lemma CommitFirst(runner: Runner, m: State, rows: Table, events: seq<Event>, cmd: SubmitCommand, env: Env, a: Action)
    requires First(runner, m, rows, events, cmd, env) && Goes(runner, m, env, a) && (a.Commit? || a.CommitFaults?)
    ensures First(runner, Step(runner, m, a).value, rows, events, cmd, env)
  {
    assert EventOf(MadeTask(cmd, env)) == MadeEvent(cmd, env);
  }

  lemma ReturnFirst(runner: Runner, m: State, rows: Table, events: seq<Event>, cmd: SubmitCommand, env: Env, a: Action)
    requires First(runner, m, rows, events, cmd, env) && Goes(runner, m, env, a)
    requires a.Return? || a.ReplayFaults?
    ensures First(runner, Step(runner, m, a).value, rows, events, cmd, env)
  {
  }

  /** A key that only the call's own row can have. */
  lemma OwnRowFound(rows: Table, cmd: SubmitCommand, env: Env, rows': Table)
    requires env.newID.Ok? && !KeyTaken(rows, KeyOf(cmd)) && cmd.idempotencyKey != ""
    requires rows' == rows || rows' == rows[env.newID.value := MadeRow(cmd, env)]
    ensures
      var found := FindByKey(rows', cmd.idempotencyKey);
      found.Some? ==> found.value == MadeRow(cmd, env) && rows' == rows[env.newID.value := MadeRow(cmd, env)]
  {
    var found := FindByKey(rows', cmd.idempotencyKey);
    if found.Some? {
      var id :| id in rows' && rows'[id] == found.value && rows'[id].key == Some(cmd.idempotencyKey);
      assert KeyOf(cmd) == Some(cmd.idempotencyKey);
      assert id in rows && rows'[id] == rows[id] ==> KeyTaken(rows, KeyOf(cmd));
    }
  }

  lemma ReadFirst(runner: Runner, m: State, rows: Table, events: seq<Event>, cmd: SubmitCommand, env: Env, a: Action)
    requires First(runner, m, rows, events, cmd, env) && Goes(runner, m, env, a) && a.ReplayRead?
    requires !KeyTaken(rows, KeyOf(cmd)) && cmd.idempotencyKey != ""
    ensures First(runner, Step(runner, m, a).value, rows, events, cmd, env)
  {
    OwnRowFound(rows, cmd, env, m.rows);
  }

  lemma StepFirst(runner: Runner, m: State, rows: Table, events: seq<Event>, cmd: SubmitCommand, env: Env, a: Action)
    requires First(runner, m, rows, events, cmd, env) && Goes(runner, m, env, a)
    requires !KeyTaken(rows, KeyOf(cmd)) && Inv(runner, m)
    ensures First(runner, Step(runner, m, a).value, rows, events, cmd, env)
  {
    if a.Mint? || a.MintFails? {
      MintFirst(runner, m, rows, events, cmd, env, a);
    } else if a.InsertOk? || a.InsertCollides? || a.InsertFaults? {
      InsertFirst(runner, m, rows, events, cmd, env, a);
    } else if a.AppendOk? || a.AppendFaults? {
      AppendFirst(runner, m, rows, events, cmd, env, a);
    } else if a.Commit? || a.CommitFaults? {
      CommitFirst(runner, m, rows, events, cmd, env, a);
    } else if a.ReplayRead? {
      assert ProcOk(runner, m.rows, m.procs[0]);
      ReadFirst(runner, m, rows, events, cmd, env, a);
    } else {
      ReturnFirst(runner, m, rows, events, cmd, env, a);
    }
  }

  lemma {:induction false} StepsFirst(
    runner: Runner, rows: Table, events: seq<Event>, cmd: SubmitCommand, env: Env, steps: Run, m: State)
    requires TableOk(rows) && !KeyTaken(rows, KeyOf(cmd)) && Plausible(env) && ObeysAll(env, runner, steps)
    requires ExecFrom(runner, Alone(rows, events, cmd), steps) == Some(m)
    ensures Inv(runner, m) && First(runner, m, rows, events, cmd, env)
  {
    if steps.Then? {
      var prev := ExecFrom(runner, Alone(rows, events, cmd), steps.prev).value;
      StepsFirst(runner, rows, events, cmd, env, steps.prev, prev);
      StepKeepsInv(runner, prev, steps.act);
      StepFirst(runner, prev, rows, events, cmd, env, steps.act);
    }
  }

  /** A call whose key is new, by itself: what it leaves, what it answers, and that without faults
      and with an unused id it succeeds. */
  lemma FirstCallAnswers(
    runner: Runner, rows: Table, events: seq<Event>, cmd: SubmitCommand, env: Env, steps: Run, m: State,
    reply: Result<Task, Error>)
    requires TableOk(rows) && !KeyTaken(rows, KeyOf(cmd)) && Plausible(env) && ObeysAll(env, runner, steps)
    requires ExecFrom(runner, Alone(rows, events, cmd), steps) == Some(m) && At(m, cmd, Done(reply))
    ensures AnswersFirst(rows, events, cmd, env, m.rows, m.events, reply)
  {
    StepsFirst(runner, rows, events, cmd, env, steps, m);
  }
}
