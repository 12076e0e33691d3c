/** Commander.Submit run by any number of callers at once, one atomic step at a time.
    All nondeterminism (clocks, minted ids, faults, lost acknowledgements, crashes) is in the
    action, so a step is a partial function of the state and the action. */
module SubmitProtocol {
  import opened Results
  import opened GoErrors
  import opened Domain
  import opened TaskTable

  type Pid = nat

  /** The port's contract, and the pass-through that ships: each statement autocommits. */
  datatype Runner = Atomic | PassThrough

  datatype Phase =
    | Entered
    | Minted(task: Task)
    | Inserted(task: Task, row: Row)           // in WithinTx, INSERT answered
    | Appended(task: Task, row: Row)           // in WithinTx, Append answered
    | Committed(task: Task)                    // WithinTx returned nil
    | TxFailed(task: Task, error: Error)       // WithinTx returned an error
    | Replaying(task: Task, error: Error)      // about to read by key, outside the transaction
    | Done(reply: Result<Task, Error>)
    | Crashed

  datatype Proc = Proc(cmd: SubmitCommand, phase: Phase)

  /** Committed rows, recorded events, and every call of Submit so far. */
  datatype State = State(rows: Table, events: seq<Event>, procs: map<Pid, Proc>)

  const INITIAL := State(map[], [], map[])

  datatype Action =
    | Call(p: Pid, cmd: SubmitCommand)
    | Mint(p: Pid, id: Uuid, now: Time)
    | MintFails(p: Pid, error: Error)
    | InsertOk(p: Pid, dbNow: Time)
    | InsertCollides(p: Pid)                                            // 23505
    | InsertFaults(p: Pid, error: Error, applied: bool, dbNow: Time)    // any other driver error
    | AppendOk(p: Pid)
    | AppendFaults(p: Pid, error: Error, applied: bool)
    | Commit(p: Pid)
    | CommitFaults(p: Pid, error: Error, applied: bool)
    | Return(p: Pid)
    | ReplayRead(p: Pid)
    | ReplayFaults(p: Pid, error: Error)
    | Crash(p: Pid)

  function InsertError(e: Error): Error {
    Wrap("insert task", if IsUniqueViolation(e) then Conflict else e)
  }

  function ReplayError(e: Error): Error {
    Wrap("replay idempotent task", Wrap("get task by idempotency key", Translate(e)))
  }

  /** What Submit does with the error WithinTx returned. */
  function AfterFailure(cmd: SubmitCommand, t: Task, e: Error): Phase {
    if !Is(e, Conflict) then Done(Err(Wrap("submit task", e)))
    else if cmd.idempotencyKey == "" then Done(Err(Wrap("idempotency conflict without a key", e)))
    else Replaying(t, e)
  }

  function PendingRow(t: Task, cmd: SubmitCommand, dbNow: Time): Row {
    Defaulted(ToRow(t, KeyColumn(cmd.idempotencyKey)), dbNow)
  }

  predicate InTx(ph: Phase) {
    ph.Inserted? || ph.Appended?
  }

  /** A unique check waits while another open transaction holds a clashing row. */
  predicate Blocked(runner: Runner, s: State, p: Pid, id: Uuid, key: Option<string>) {
    runner.Atomic? &&
    exists q :: q in s.procs && q != p && InTx(s.procs[q].phase) && Clash(id, key, s.procs[q].phase.row)
  }

  /** What one step does: the acting call's next phase, the row it makes visible to everyone,
      and the event it records. */
  datatype Outcome = Outcome(phase: Phase, stores: Option<Row>, tells: Option<Event>)

  function Goes(ph: Phase): Option<Outcome> {
    Some(Outcome(ph, None, None))
  }

  function EventOf(t: Task): Event {
    NewSubmitted(t, t.createdAt)
  }

  /** What the action a does for a call of cmd in phase ph, or None when it is not possible. */
  ghost function Next(runner: Runner, s: State, a: Action, cmd: SubmitCommand, ph: Phase): Option<Outcome> {
    match a
    case Call(_, _) => None
    case Mint(_, id, now) =>
      if !ph.Entered? then None
      else Goes(Minted(Domain.Submit(id, cmd.handler, cmd.payload, now)))
    case MintFails(_, e) =>
      if !ph.Entered? then None else Goes(Done(Err(Wrap("new id", e))))
    case InsertOk(p, dbNow) =>
      if !ph.Minted? then None
      else
        var row := PendingRow(ph.task, cmd, dbNow);
        if Collides(s.rows, row.id, row.key) || Blocked(runner, s, p, row.id, row.key) then None
        else Some(Outcome(Inserted(ph.task, row), if runner.PassThrough? then Some(row) else None, None))
    case InsertCollides(_) =>
      if !ph.Minted? || !Collides(s.rows, ph.task.id, KeyColumn(cmd.idempotencyKey)) then None
      else Goes(TxFailed(ph.task, InsertError(Pg(UNIQUE_VIOLATION))))
    case InsertFaults(_, e, applied, dbNow) =>
      if !ph.Minted? || !FromDriver(e) || IsUniqueViolation(e) then None
      else
        var row := PendingRow(ph.task, cmd, dbNow);
        if applied && Collides(s.rows, row.id, row.key) then None
        else
          Some(Outcome(TxFailed(ph.task, InsertError(e)),
            if applied && runner.PassThrough? then Some(row) else None, None))
    case AppendOk(_) =>
      if !ph.Inserted? then None
      else
        Some(Outcome(Appended(ph.task, ph.row), None, if runner.PassThrough? then Some(EventOf(ph.task)) else None))
    case AppendFaults(_, e, applied) =>
      if !ph.Inserted? then None
      else
        Some(Outcome(TxFailed(ph.task, e), None,
          if applied && runner.PassThrough? then Some(EventOf(ph.task)) else None))
    case Commit(_) =>
      if !ph.Appended? then None
      else if runner.PassThrough? then Goes(Committed(ph.task))
      else Some(Outcome(Committed(ph.task), Some(ph.row), Some(EventOf(ph.task))))
    case CommitFaults(_, e, applied) =>
      if !ph.Appended? || runner.PassThrough? then None
      else if !applied then Goes(TxFailed(ph.task, e))
      else Some(Outcome(TxFailed(ph.task, e), Some(ph.row), Some(EventOf(ph.task))))
    case Return(_) =>
      if ph.Committed? then Goes(Done(Ok(ph.task)))
      else if ph.TxFailed? then Goes(AfterFailure(cmd, ph.task, ph.error))
      else None
    case ReplayRead(_) =>
      if !ph.Replaying? then None
      else
        var found := FindByKey(s.rows, cmd.idempotencyKey);
        Goes(Done(if found.Some? then Ok(ToDomain(found.value)) else Err(ReplayError(NoRows))))
    case ReplayFaults(_, e) =>
      if !ph.Replaying? || !FromDriver(e) || Is(e, NoRows) then None else Goes(Done(Err(ReplayError(e))))
    case Crash(_) =>
      if ph.Done? || ph.Crashed? then None else Goes(Crashed)
  }

  function Apply(s: State, p: Pid, cmd: SubmitCommand, o: Outcome): State {
    State(
      if o.stores.Some? then s.rows[o.stores.value.id := o.stores.value] else s.rows,
      if o.tells.Some? then s.events + [o.tells.value] else s.events,
      s.procs[p := Proc(cmd, o.phase)])
  }

  /** One step, or None when the action is not possible in s. */
  ghost function Step(runner: Runner, s: State, a: Action): Option<State> {
    if a.Call? then
      if a.p in s.procs then None else Some(Apply(s, a.p, a.cmd, Outcome(Entered, None, None)))
    else if a.p !in s.procs then None
    else
      var pr := s.procs[a.p];
      var o := Next(runner, s, a, pr.cmd, pr.phase);
      if o.None? then None else Some(Apply(s, a.p, pr.cmd, o.value))
  }

  /** A run is the list of its actions, latest last. */
  datatype Run = Begin | Then(prev: Run, act: Action)

  /** The state a run ends in, or None when one of its actions was not possible. */
  ghost function Exec(runner: Runner, run: Run): Option<State> {
    match run
    case Begin => Some(INITIAL)
    case Then(prev, a) =>
      match Exec(runner, prev)
      case None => None
      case Some(s) => Step(runner, s, a)
  }
}
