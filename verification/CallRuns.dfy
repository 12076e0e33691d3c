/** Runs of one call by itself, and how they become part of any other run: a call made while no
    transaction is open does what it would do alone, and all that holds of runs holds of it. */
module CallRuns {
  import opened Results
  import opened GoErrors
  import opened Domain
  import opened TaskTable
  import opened SubmitProtocol
  import opened SubmitSafety
  import opened SubmitRuns

  /** A statement that failed, and whether it took effect all the same. */
  datatype Fault = Fault(error: Error, applied: bool)

  /** What one call meets: the minted id, the two clocks, and the faults of each effect. */
  datatype Env = Env(
    newID: Result<Uuid, Error>, now: Time, dbNow: Time,
    insertFault: Option<Fault>, appendFault: Option<Fault>, commitFault: Option<Fault>,
    replayFault: Option<Error>)

  /** Driver faults are driver errors, and only a collision answers 23505 or "no rows". */
  predicate Plausible(env: Env) {
    (env.insertFault.Some? ==>
       FromDriver(env.insertFault.value.error) && !IsUniqueViolation(env.insertFault.value.error)) &&
    (env.replayFault.Some? ==> FromDriver(env.replayFault.value) && !Is(env.replayFault.value, NoRows))
  }

  /** A run from any state. */
  ghost function ExecFrom(runner: Runner, s: State, steps: Run): Option<State> {
    match steps
    case Begin => Some(s)
    case Then(prev, a) =>
      match ExecFrom(runner, s, prev)
      case None => None
      case Some(m) => Step(runner, m, a)
  }

  /** The call has been made and nothing else is going on. */
  function Alone(rows: Table, events: seq<Event>, cmd: SubmitCommand): State {
    State(rows, events, map[0 := Proc(cmd, Entered)])
  }

  /** s is the state of a call that nothing else interferes with. */
  ghost predicate At(s: State, cmd: SubmitCommand, ph: Phase) {
    s.procs.Keys == {0} && s.procs[0] == Proc(cmd, ph)
  }

  /** The action uses this environment's ids, clocks and faults, and faults only where it does. */
  predicate Obeys(env: Env, a: Action) {
    a.p == 0 &&
    match a
    case Mint(_, id, now) => env.newID == Ok(id) && env.now == now
    case MintFails(_, e) => env.newID == Err(e)
    case InsertOk(_, dbNow) => env.insertFault.None? && env.dbNow == dbNow
    case InsertCollides(_) => env.insertFault.None?
    case InsertFaults(_, e, applied, dbNow) =>
      env.insertFault.Some? && env.insertFault.value.error == e && env.dbNow == dbNow &&
      (applied ==> env.insertFault.value.applied)
    case AppendOk(_) => env.appendFault.None?
    case AppendFaults(_, e, applied) => env.appendFault == Some(Fault(e, applied))
    case Commit(_) => true
    case CommitFaults(_, e, applied) => env.commitFault == Some(Fault(e, applied))
    case Return(_) => true
    case ReplayRead(_) => env.replayFault.None?
    case ReplayFaults(_, e) => env.replayFault == Some(e)
    case _ => false
  }

  predicate ObeysAll(env: Env, runner: Runner, steps: Run) {
    steps.Then? ==>
      ObeysAll(env, runner, steps.prev) && Obeys(env, steps.act) &&
      (steps.act.Commit? && runner.Atomic? ==> env.commitFault.None?)
  }

  lemma {:induction false} ZeroOnly(env: Env, runner: Runner, steps: Run)
    requires ObeysAll(env, runner, steps)
    ensures OfCallZero(steps)
  {
    if steps.Then? {
      ZeroOnly(env, runner, steps.prev);
    }
  }

  // ----- joining a run

  /** No transaction is open that an insert could have to wait for. */
  ghost predicate Quiet(runner: Runner, s: State) {
    runner.Atomic? ==> forall q :: q in s.procs ==> !InTx(s.procs[q].phase)
  }

  function Relabelled(a: Action, p: Pid): Action {
    a.(p := p)
  }

  /** The call p of cmd and its steps, behind a run. */
  function Graft(run: Run, p: Pid, cmd: SubmitCommand, steps: Run): Run {
    match steps
    case Begin => Then(run, Call(p, cmd))
    case Then(prev, a) => Then(Graft(run, p, cmd, prev), Relabelled(a, p))
  }

  /** The state m of the call by itself, put into s as the call p. */
  function Placed(s: State, p: Pid, m: State): State
    requires 0 in m.procs
  {
    State(m.rows, m.events, s.procs[p := m.procs[0]])
  }

  lemma {:induction false} GraftContinues(run: Run, p: Pid, cmd: SubmitCommand, steps: Run)
    ensures Continues(run, Graft(run, p, cmd, steps))
  {
    if steps.Then? {
      GraftContinues(run, p, cmd, steps.prev);
    } else {
      assert Continues(run, run);
    }
  }

  lemma SameNext(runner: Runner, s: State, p: Pid, m: State, a: Action, cmd: SubmitCommand, ph: Phase)
    requires Quiet(runner, s) && m.procs.Keys == {0} && a.p == 0
    ensures Next(runner, Placed(s, p, m), Relabelled(a, p), cmd, ph) == Next(runner, m, a, cmd, ph)
  {
  }

  lemma SameApply(s: State, p: Pid, m: State, cmd: SubmitCommand, o: Outcome)
    requires 0 in m.procs
    ensures Apply(Placed(s, p, m), p, cmd, o) == Placed(s, p, Apply(m, 0, cmd, o))
  {
  }

  lemma SameStep(runner: Runner, s: State, p: Pid, m: State, a: Action)
    requires Quiet(runner, s) && m.procs.Keys == {0} && a.p == 0 && Step(runner, m, a).Some?
    ensures Step(runner, m, a).value.procs.Keys == {0}
    ensures Step(runner, Placed(s, p, m), Relabelled(a, p)) == Some(Placed(s, p, Step(runner, m, a).value))
  {
    var pr := m.procs[0];
    SameNext(runner, s, p, m, a, pr.cmd, pr.phase);
    SameApply(s, p, m, pr.cmd, Next(runner, m, a, pr.cmd, pr.phase).value);
  }

  predicate OfCallZero(steps: Run) {
    steps.Then? ==> OfCallZero(steps.prev) && steps.act.p == 0
  }

  /** Joined to a run behind which no transaction is open, the call's steps are possible, and
      end in the table, the events, the phase and the answer that they end in by themselves. */
  lemma {:induction false} JoinsRun(
    runner: Runner, run: Run, s: State, p: Pid, cmd: SubmitCommand, steps: Run, m: State)
    requires Exec(runner, run) == Some(s) && p !in s.procs && Quiet(runner, s) && OfCallZero(steps)
    requires ExecFrom(runner, Alone(s.rows, s.events, cmd), steps) == Some(m)
    ensures m.procs.Keys == {0} && Exec(runner, Graft(run, p, cmd, steps)) == Some(Placed(s, p, m))
  {
    if steps.Then? {
      var prev := ExecFrom(runner, Alone(s.rows, s.events, cmd), steps.prev).value;
      JoinsRun(runner, run, s, p, cmd, steps.prev, prev);
      SameStep(runner, s, p, prev, steps.act);
    } else {
      var called := Apply(s, p, cmd, Outcome(Entered, None, None));
      assert called == Placed(s, p, m);
    }
  }

  // ----- a key already stored

  /** The task is the row stored under this key, creation time included. */
  ghost predicate IsStoredUnder(rows: Table, k: string, t: Task) {
    FindByKey(rows, k).Some? && t == ToDomain(FindByKey(rows, k).value)
  }

  /** What a call by itself can be in when its key was stored before it was made. */
  ghost predicate Repeating(s: State, rows: Table, events: seq<Event>, cmd: SubmitCommand) {
    s.rows == rows && s.events == events && s.procs.Keys == {0} && s.procs[0].cmd == cmd &&
    !InTx(s.procs[0].phase) && !s.procs[0].phase.Committed? &&
    (s.procs[0].phase.Done? && s.procs[0].phase.reply.Ok? ==>
       IsStoredUnder(rows, cmd.idempotencyKey, s.procs[0].phase.reply.value))
  }

  lemma NextRepeats(runner: Runner, s: State, a: Action, cmd: SubmitCommand, ph: Phase)
    requires KeyTaken(s.rows, KeyOf(cmd)) && !InTx(ph) && !ph.Committed? && !ph.Done?
    requires Next(runner, s, a, cmd, ph).Some?
    ensures
      var o := Next(runner, s, a, cmd, ph).value;
      o.stores.None? && o.tells.None? && !InTx(o.phase) && !o.phase.Committed? &&
      (o.phase.Done? && o.phase.reply.Ok? ==> IsStoredUnder(s.rows, cmd.idempotencyKey, o.phase.reply.value))
  {
    assert KeyOf(cmd) == Some(cmd.idempotencyKey);
  }

  /** A repeated key stores nothing and tells nothing; a task it is answered with is the stored
      row of its key. */
  lemma {:induction false} RepeatChangesNothing(
    runner: Runner, rows: Table, events: seq<Event>, cmd: SubmitCommand, steps: Run, m: State)
    requires KeyTaken(rows, KeyOf(cmd)) && OfCallZero(steps)
    requires ExecFrom(runner, Alone(rows, events, cmd), steps) == Some(m)
    ensures Repeating(m, rows, events, cmd)
  {
    if steps.Then? {
      var prev := ExecFrom(runner, Alone(rows, events, cmd), steps.prev).value;
      RepeatChangesNothing(runner, rows, events, cmd, steps.prev, prev);
      var ph := prev.procs[0].phase;
      DoneIsFinal(runner, prev, steps.act, cmd, ph);
      NextRepeats(runner, prev, steps.act, cmd, ph);
    }
  }
}
