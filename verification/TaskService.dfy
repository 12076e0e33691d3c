/** The write and read side as the program runs them: one call of Submit, statement by
    statement over a database it changes in place, proved to be a run of the protocol. */
module TaskService {
  import opened Results
  import opened GoErrors
  import opened Domain
  import opened TaskTable
  import opened SubmitProtocol
  import opened SubmitSafety
  import opened SubmitRuns
  import opened CallRuns
  import opened FirstCalls

  /** The three statements of tasks.sql and the outbox table. */
  class Database {
    var rows: Table
    var events: seq<Event>

    constructor ()
      ensures rows == map[] && events == []
    {
      rows, events := map[], [];
    }

    method CreateTask(arg: CreateTaskParams, dbNow: Time, fault: Option<Fault>) returns (r: Result<Row, Error>)
      modifies this`rows
      ensures r ==
        if fault.Some? then Err(fault.value.error)
        else if Collides(old(rows), arg.id, arg.key) then Err(Pg(UNIQUE_VIOLATION))
        else Ok(Defaulted(arg, dbNow))
      ensures rows ==
        if Collides(old(rows), arg.id, arg.key) || (fault.Some? && !fault.value.applied) then old(rows)
        else old(rows)[arg.id := Defaulted(arg, dbNow)]
    {
      var stored := Defaulted(arg, dbNow);
      var collides := Collides(rows, arg.id, arg.key);
      if !collides && (fault.None? || fault.value.applied) {
        rows := rows[arg.id := stored];
      }
      if fault.Some? {
        return Err(fault.value.error);
      }
      r := if collides then Err(Pg(UNIQUE_VIOLATION)) else Ok(stored);
    }

    method GetTaskByID(id: Uuid, fault: Option<Error>) returns (r: Result<Row, Error>)
      ensures r ==
        if fault.Some? then Err(fault.value) else if id in rows then Ok(rows[id]) else Err(NoRows)
    {
      if fault.Some? {
        return Err(fault.value);
      }
      r := if id in rows then Ok(rows[id]) else Err(NoRows);
    }

    /** A scan for the key; a NULL argument equals no column value. */
    method GetTaskByIdempotencyKey(key: Option<string>, fault: Option<Error>) returns (r: Result<Row, Error>)
      requires UniqueKeys(rows)
      ensures fault.Some? ==> r == Err(fault.value)
      ensures fault.None? && key.None? ==> r == Err(NoRows)
      ensures fault.None? && key.Some? ==>
        r == if FindByKey(rows, key.value).Some? then Ok(FindByKey(rows, key.value).value) else Err(NoRows)
    {
      if fault.Some? {
        return Err(fault.value);
      }
      var ids := rows.Keys;
      while ids != {}
        invariant ids <= rows.Keys
        invariant forall id :: id in rows && id !in ids ==> key.None? || rows[id].key != key
        decreases ids
      {
        var id :| id in ids;
        if key.Some? && rows[id].key == key {
          FindByKeyIs(rows, id, key.value);
          return Ok(rows[id]);
        }
        ids := ids - {id};
      }
      r := Err(NoRows);
    }
  }

  /** The task repository: driver errors leave it as domain sentinels. */
  class Repo {
    const db: Database

    constructor (db: Database)
      ensures this.db == db
    {
      this.db := db;
    }

    method Insert(t: Task, key: Option<string>, dbNow: Time, fault: Option<Fault>) returns (err: Option<Error>)
      modifies db`rows
      ensures err ==
        if fault.Some? then Some(InsertError(fault.value.error))
        else if Collides(old(db.rows), t.id, key) then Some(Wrap("insert task", Conflict))
        else None
      ensures db.rows ==
        if Collides(old(db.rows), t.id, key) || (fault.Some? && !fault.value.applied) then old(db.rows)
        else old(db.rows)[t.id := Defaulted(ToRow(t, key), dbNow)]
    {
      var r := db.CreateTask(ToRow(t, key), dbNow, fault);
      if r.Err? {
        if IsUniqueViolation(r.error) {
          return Some(Wrap("insert task", Conflict));
        }
        return Some(Wrap("insert task", r.error));
      }
      err := None;
    }

    method Get(id: Uuid, fault: Option<Error>) returns (r: Result<Task, Error>)
      ensures r ==
        if fault.Some? then Err(Wrap("get task", Translate(fault.value)))
        else if id in db.rows then Ok(ToDomain(db.rows[id]))
        else Err(Wrap("get task", NotFound))
    {
      var row := db.GetTaskByID(id, fault);
      if row.Err? {
        return Err(Wrap("get task", Translate(row.error)));
      }
      r := Ok(ToDomain(row.value));
    }

    method GetByIdempotencyKey(key: string, fault: Option<Error>) returns (r: Result<Task, Error>)
      requires UniqueKeys(db.rows)
      ensures r ==
        if fault.Some? then Err(Wrap("get task by idempotency key", Translate(fault.value)))
        else if FindByKey(db.rows, key).Some? then Ok(ToDomain(FindByKey(db.rows, key).value))
        else Err(Wrap("get task by idempotency key", NotFound))
    {
      var row := db.GetTaskByIdempotencyKey(Some(key), fault);
      if row.Err? {
        return Err(Wrap("get task by idempotency key", Translate(row.error)));
      }
      r := Ok(ToDomain(row.value));
    }
  }

  /** The outbox port, recording what it is given. */
  class Outbox {
    const db: Database

    constructor (db: Database)
      ensures this.db == db
    {
      this.db := db;
    }

    /** All the events of one call, or none. */
    method Append(es: seq<Event>, fault: Option<Fault>) returns (err: Option<Error>)
      modifies db`events
      ensures err == if fault.Some? then Some(fault.value.error) else None
      ensures db.events == if fault.Some? && !fault.value.applied then old(db.events) else old(db.events) + es
    {
      if fault.None? || fault.value.applied {
        db.events := db.events + es;
      }
      err := if fault.Some? then Some(fault.value.error) else None;
    }
  }

  /** Both transaction runners. Begin and End bracket the closure given to WithinTx. */
  class TxManager {
    const db: Database
    const runner: Runner
    var savedRows: Table
    var savedEvents: seq<Event>

    constructor (db: Database, runner: Runner)
      ensures this.db == db && this.runner == runner
    {
      this.db, this.runner := db, runner;
      savedRows, savedEvents := map[], [];
    }

    method Begin()
      modifies this
      ensures savedRows == db.rows && savedEvents == db.events
    {
      savedRows, savedEvents := db.rows, db.events;
    }

    /** The pass-through hands the closure's error on; the atomic runner commits or rolls back. */
    method End(err: Option<Error>, commitFault: Option<Fault>) returns (r: Option<Error>)
      modifies db
      ensures r == if runner.Atomic? && err.None? && commitFault.Some? then Some(commitFault.value.error) else err
      ensures
        var back := runner.Atomic? && (err.Some? || (commitFault.Some? && !commitFault.value.applied));
        db.rows == (if back then savedRows else old(db.rows)) &&
        db.events == (if back then savedEvents else old(db.events))
    {
      r := err;
      if runner.Atomic? {
        if err.None? && commitFault.Some? {
          r := Some(commitFault.value.error);
        }
        if err.Some? || (commitFault.Some? && !commitFault.value.applied) {
          db.rows, db.events := savedRows, savedEvents;
        }
      }
    }
  }

  // ----- a call as a run of the protocol

  function InsertAnswer(env: Env, collides: bool): Action {
    if env.insertFault.Some?
    then InsertFaults(0, env.insertFault.value.error, env.insertFault.value.applied && !collides, env.dbNow)
    else if collides then InsertCollides(0)
    else InsertOk(0, env.dbNow)
  }

  lemma InsertFails(runner: Runner, s0: State, steps: Run, s: State, cmd: SubmitCommand, t: Task, env: Env)
    returns (s': State)
    requires ExecFrom(runner, s0, steps) == Some(s)
    requires At(s, cmd, Minted(t)) && Plausible(env)
    requires env.insertFault.Some? || Collides(s.rows, t.id, KeyOf(cmd))
    ensures
      var collides := Collides(s.rows, t.id, KeyOf(cmd));
      var a := InsertAnswer(env, collides);
      var stored := env.insertFault.Some? && env.insertFault.value.applied && !collides && runner.PassThrough?;
      Obeys(env, a) && ExecFrom(runner, s0, Then(steps, a)) == Some(s') &&
      At(s', cmd, TxFailed(t,
        if env.insertFault.Some? then InsertError(env.insertFault.value.error) else Wrap("insert task", Conflict))) &&
      s'.events == s.events &&
      s'.rows == if stored then s.rows[t.id := PendingRow(t, cmd, env.dbNow)] else s.rows
  {
    s' := Step(runner, s, InsertAnswer(env, Collides(s.rows, t.id, KeyOf(cmd)))).value;
  }

  lemma InsertSucceeds(runner: Runner, s0: State, steps: Run, s: State, cmd: SubmitCommand, t: Task, env: Env)
    returns (s': State)
    requires ExecFrom(runner, s0, steps) == Some(s)
    requires At(s, cmd, Minted(t)) && env.insertFault.None? && !Collides(s.rows, t.id, KeyOf(cmd))
    ensures
      var a, row := InsertAnswer(env, false), PendingRow(t, cmd, env.dbNow);
      Obeys(env, a) && ExecFrom(runner, s0, Then(steps, a)) == Some(s') &&
      At(s', cmd, Inserted(t, row)) && s'.events == s.events &&
      s'.rows == if runner.PassThrough? then s.rows[t.id := row] else s.rows
  {
    s' := Step(runner, s, InsertAnswer(env, false)).value;
  }

  function AppendAnswer(env: Env): Action {
    if env.appendFault.Some? then AppendFaults(0, env.appendFault.value.error, env.appendFault.value.applied)
    else AppendOk(0)
  }

  lemma AppendAnswers(runner: Runner, s0: State, steps: Run, s: State, cmd: SubmitCommand, t: Task, row: Row, env: Env)
    returns (s': State)
    requires ExecFrom(runner, s0, steps) == Some(s)
    requires At(s, cmd, Inserted(t, row))
    ensures
      var a := AppendAnswer(env);
      var told := runner.PassThrough? && (env.appendFault.None? || env.appendFault.value.applied);
      Obeys(env, a) && ExecFrom(runner, s0, Then(steps, a)) == Some(s') && s'.rows == s.rows &&
      At(s', cmd,
        if env.appendFault.Some? then TxFailed(t, env.appendFault.value.error) else Appended(t, row)) &&
      s'.events == if told then s.events + [NewSubmitted(t, t.createdAt)] else s.events
  {
    s' := Step(runner, s, AppendAnswer(env)).value;
  }

  function CommitAnswer(runner: Runner, env: Env): Action {
    if runner.Atomic? && env.commitFault.Some?
    then CommitFaults(0, env.commitFault.value.error, env.commitFault.value.applied)
    else Commit(0)
  }

  lemma CommitAnswers(runner: Runner, s0: State, steps: Run, s: State, cmd: SubmitCommand, t: Task, row: Row, env: Env)
    returns (s': State)
    requires ExecFrom(runner, s0, steps) == Some(s)
    requires At(s, cmd, Appended(t, row))
    ensures
      var a := CommitAnswer(runner, env);
      var fails := runner.Atomic? && env.commitFault.Some?;
      var stored := runner.Atomic? && (env.commitFault.None? || env.commitFault.value.applied);
      Obeys(env, a) && ExecFrom(runner, s0, Then(steps, a)) == Some(s') &&
      At(s', cmd, if fails then TxFailed(t, env.commitFault.value.error) else Committed(t)) &&
      s'.rows == (if stored then s.rows[row.id := row] else s.rows) &&
      s'.events ==
        if stored then s.events + [NewSubmitted(t, t.createdAt)] else s.events
  {
    s' := Step(runner, s, CommitAnswer(runner, env)).value;
  }

  lemma CallReturns(runner: Runner, s0: State, steps: Run, s: State, cmd: SubmitCommand, ph: Phase, env: Env)
    returns (s': State)
    requires ExecFrom(runner, s0, steps) == Some(s)
    requires At(s, cmd, ph) && (ph.Committed? || ph.TxFailed?)
    ensures Obeys(env, Return(0)) && ExecFrom(runner, s0, Then(steps, Return(0))) == Some(s')
    ensures s'.rows == s.rows && s'.events == s.events
    ensures At(s', cmd,
      if ph.Committed? then Done(Ok(ph.task)) else AfterFailure(cmd, ph.task, ph.error))
  {
    s' := Step(runner, s, Return(0)).value;
  }

  function ReadAnswer(env: Env): Action {
    if env.replayFault.Some? then ReplayFaults(0, env.replayFault.value) else ReplayRead(0)
  }

  lemma ReplayAnswers(runner: Runner, s0: State, steps: Run, s: State, cmd: SubmitCommand, t: Task, e: Error, env: Env)
    returns (s': State)
    requires ExecFrom(runner, s0, steps) == Some(s)
    requires At(s, cmd, Replaying(t, e)) && Plausible(env)
    ensures
      var a, found := ReadAnswer(env), FindByKey(s.rows, cmd.idempotencyKey);
      Obeys(env, a) && ExecFrom(runner, s0, Then(steps, a)) == Some(s') &&
      s'.rows == s.rows && s'.events == s.events &&
      At(s', cmd, Done(
        if env.replayFault.Some? then Err(ReplayError(env.replayFault.value))
        else if found.Some? then Ok(ToDomain(found.value))
        else Err(ReplayError(NoRows))))
  {
    s' := Step(runner, s, ReadAnswer(env)).value;
  }

  class Commander {
    const tasks: Repo
    const outbox: Outbox
    const tx: TxManager

    constructor (db: Database, runner: Runner)
      ensures tasks.db == outbox.db == tx.db == db && tx.runner == runner
      ensures fresh(tasks) && fresh(outbox) && fresh(tx)
    {
      tasks := new Repo(db);
      outbox := new Outbox(db);
      tx := new TxManager(db, runner);
    }

    /** The database is what this run leaves, no transaction is open, and p has not called yet. */
    ghost predicate Follows(run: Run, p: Pid)
      reads tasks.db
    {
      Exec(tx.runner, run).Some? &&
      var s := Exec(tx.runner, run).value;
      s.rows == tasks.db.rows && s.events == tasks.db.events && Quiet(tx.runner, s) && p !in s.procs
    }

    /** One call, after any run: it goes on with that run, by steps that mint, insert, append,
        commit and replay as env dictates, to its answer; nothing changes but what they change. */
    method Submit(cmd: SubmitCommand, env: Env, ghost run: Run, ghost p: Pid)
      returns (reply: Result<Task, Error>, ghost steps: Run)
      requires tasks.db == outbox.db == tx.db && Plausible(env) && Follows(run, p)
      modifies tx, tasks.db
      ensures ObeysAll(env, tx.runner, steps) && Continues(run, Graft(run, p, cmd, steps))
      ensures Exec(tx.runner, Graft(run, p, cmd, steps)) ==
        Some(State(tasks.db.rows, tasks.db.events,
          Exec(tx.runner, run).value.procs[p := Proc(cmd, Done(reply))]))
      ensures KeyTaken(old(tasks.db.rows), KeyOf(cmd)) ==>
        tasks.db.rows == old(tasks.db.rows) && tasks.db.events == old(tasks.db.events) &&
        (reply.Ok? ==> IsStoredUnder(tasks.db.rows, cmd.idempotencyKey, reply.value))
      ensures !KeyTaken(old(tasks.db.rows), KeyOf(cmd)) ==>
        AnswersFirst(old(tasks.db.rows), old(tasks.db.events), cmd, env, tasks.db.rows, tasks.db.events, reply)
    {
      ghost var before := Exec(tx.runner, run).value;
      RunKeepsInv(tx.runner, run);
      ghost var last: State;
      reply, steps, last := SubmitAlone(cmd, env);
      ZeroOnly(env, tx.runner, steps);
      JoinsRun(tx.runner, run, before, p, cmd, steps, last);
      GraftContinues(run, p, cmd, steps);
      if KeyTaken(before.rows, KeyOf(cmd)) {
        RepeatChangesNothing(tx.runner, before.rows, before.events, cmd, steps, last);
      } else {
        FirstCallAnswers(tx.runner, before.rows, before.events, cmd, env, steps, last, reply);
      }
    }

    /** The call by itself. */
    method SubmitAlone(cmd: SubmitCommand, env: Env)
      returns (reply: Result<Task, Error>, ghost steps: Run, ghost last: State)
      requires tasks.db == outbox.db == tx.db && Plausible(env) && TableOk(tasks.db.rows)
      modifies tx, tasks.db
      ensures ObeysAll(env, tx.runner, steps)
      ensures ExecFrom(tx.runner, Alone(old(tasks.db.rows), old(tasks.db.events), cmd), steps) == Some(last)
      ensures last.rows == tasks.db.rows && last.events == tasks.db.events && At(last, cmd, Done(reply))
    {
      ghost var s0 := Alone(tasks.db.rows, tasks.db.events, cmd);
      if env.newID.Err? {
        steps := Then(Begin, MintFails(0, env.newID.error));
        ghost var failed := Done(Err(Wrap("new id", env.newID.error)));
        assert ExecFrom(tx.runner, s0, steps) == Some(Apply(s0, 0, cmd, Outcome(failed, None, None)));
        return Err(Wrap("new id", env.newID.error)), steps, Apply(s0, 0, cmd, Outcome(failed, None, None));
      }
      var t := Domain.Submit(env.newID.value, cmd.handler, cmd.payload, env.now);
      steps := Then(Begin, Mint(0, t.id, env.now));
      ghost var s := Apply(s0, 0, cmd, Outcome(Minted(t), None, None));
      assert ExecFrom(tx.runner, s0, steps) == Some(s) && Obeys(env, Mint(0, t.id, env.now));
      var key: Option<string> := None;
      if cmd.idempotencyKey != "" {
        key := Some(cmd.idempotencyKey);
      }

      var err: Option<Error>;
      err, s, steps := WithinTx(cmd, t, key, env, s0, s, steps);

      reply, steps := Conclude(cmd, t, err, env, s0, s, steps);
      last := ExecFrom(tx.runner, s0, steps).value;
    }

    /** The switch on what WithinTx returned; the replay read is outside the transaction. */
    method Conclude(
      cmd: SubmitCommand, t: Task, err: Option<Error>, env: Env, ghost s0: State, ghost s1: State, ghost before: Run)
      returns (reply: Result<Task, Error>, ghost steps: Run)
      requires Plausible(env) && UniqueKeys(tasks.db.rows)
      requires At(s1, cmd, if err.None? then Committed(t) else TxFailed(t, err.value))
      requires s1.rows == tasks.db.rows && s1.events == tasks.db.events
      requires ExecFrom(tx.runner, s0, before) == Some(s1) && ObeysAll(env, tx.runner, before)
      ensures ObeysAll(env, tx.runner, steps)
      ensures
        var last := ExecFrom(tx.runner, s0, steps);
        last.Some? && last.value.rows == tasks.db.rows && last.value.events == tasks.db.events &&
        At(last.value, cmd, Done(reply))
    {
      ghost var s := CallReturns(tx.runner, s0, before, s1, cmd, s1.procs[0].phase, env);
      steps := Then(before, Return(0));
      if err.None? {
        return Ok(t), steps;
      }
      if !Is(err.value, Conflict) {
        return Err(Wrap("submit task", err.value)), steps;
      }
      if cmd.idempotencyKey == "" {
        return Err(Wrap("idempotency conflict without a key", err.value)), steps;
      }
      s := ReplayAnswers(tx.runner, s0, steps, s, cmd, t, err.value, env);
      steps := Then(steps, ReadAnswer(env));
      var existing := tasks.GetByIdempotencyKey(cmd.idempotencyKey, env.replayFault);
      if existing.Err? {
        return Err(Wrap("replay idempotent task", existing.error)), steps;
      }
      return Ok(existing.value), steps;
    }

    /** The transaction around Insert and Append, in that order. */
    method WithinTx(
      cmd: SubmitCommand, t: Task, key: Option<string>, env: Env, ghost s0: State, ghost s1: State, ghost before: Run)
      returns (err: Option<Error>, ghost s: State, ghost steps: Run)
      requires tasks.db == outbox.db == tx.db && Plausible(env) && TableOk(tasks.db.rows)
      requires key == KeyOf(cmd) && t.createdAt == env.now && At(s1, cmd, Minted(t))
      requires s1.rows == tasks.db.rows && s1.events == tasks.db.events
      requires ExecFrom(tx.runner, s0, before) == Some(s1) && ObeysAll(env, tx.runner, before)
      modifies tx, tasks.db
      ensures TableOk(tasks.db.rows) && ObeysAll(env, tx.runner, steps)
      ensures ExecFrom(tx.runner, s0, steps) == Some(s) && s.rows == tasks.db.rows && s.events == tasks.db.events
      ensures At(s, cmd, if err.None? then Committed(t) else TxFailed(t, err.value))
    {
      ghost var row := PendingRow(t, cmd, env.dbNow);
      ghost var rows := tasks.db.rows;
      ghost var collides := Collides(rows, t.id, key);
      tx.Begin();
      err := tasks.Insert(t, key, env.dbNow, env.insertFault);
      steps := Then(before, InsertAnswer(env, collides));
      if err.Some? {
        s := InsertFails(tx.runner, s0, before, s1, cmd, t, env);
      } else {
        s := InsertSucceeds(tx.runner, s0, before, s1, cmd, t, env);
        err := outbox.Append([NewSubmitted(t, env.now)], env.appendFault);
        s := AppendAnswers(tx.runner, s0, steps, s, cmd, t, row, env);
        steps := Then(steps, AppendAnswer(env));
        if err.None? {
          s := CommitAnswers(tx.runner, s0, steps, s, cmd, t, row, env);
          steps := Then(steps, CommitAnswer(tx.runner, env));
        }
      }
      err := tx.End(err, env.commitFault);
      if tasks.db.rows != rows {
        InsertKeepsTable(rows, row);
      }
    }
  }

  /** The read projection of one task. */
  datatype TaskView = TaskView(id: Uuid, status: string, handler: string, createdAt: Time)

  class Querier {
    const tasks: Repo

    constructor (tasks: Repo)
      ensures this.tasks == tasks
    {
      this.tasks := tasks;
    }

    method Get(id: Uuid, fault: Option<Error>) returns (r: Result<TaskView, Error>)
      ensures r ==
        if fault.Some? then Err(Wrap("get task", Translate(fault.value)))
        else if id in tasks.db.rows then
          var row := tasks.db.rows[id];
          Ok(TaskView(row.id, row.status, row.handler, row.createdAt))
        else Err(Wrap("get task", NotFound))
    {
      var task := tasks.Get(id, fault);
      if task.Err? {
        return Err(task.error);
      }
      r := Ok(TaskView(task.value.id, task.value.status, task.value.handler, task.value.createdAt));
    }
  }
}
