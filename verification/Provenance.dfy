/** Where rows, events and answers come from: every one of them goes back to the call that made
    it and says what that call's command says, under the clocks that call met. */
module Provenance {
  import opened Results
  import opened GoErrors
  import opened Domain
  import opened TaskTable
  import opened SubmitProtocol
  import opened SubmitSafety
  import opened SubmitRuns

  predicate Did(run: Run, a: Action) {
    run.Then? && (run.act == a || Did(run.prev, a))
  }

  /** The call p ran its INSERT while the database clock showed dbNow. */
  predicate InsertedAt(run: Run, p: Pid, dbNow: Time) {
    run.Then? &&
    ((run.act.InsertOk? && run.act.p == p && run.act.dbNow == dbNow) ||
     (run.act.InsertFaults? && run.act.applied && run.act.p == p && run.act.dbNow == dbNow) ||
     InsertedAt(run.prev, p, dbNow))
  }

  /** A row stored for the call p: the command's handler, payload and key, NULL for no key, the
      column defaults, and an id that p minted. */
  ghost predicate RowOf(run: Run, p: Pid, cmd: SubmitCommand, row: Row) {
    row.handler == cmd.handler && row.payload == cmd.payload && row.status == "pending" &&
    row.key == (if cmd.idempotencyKey == "" then None else Some(cmd.idempotencyKey)) &&
    InsertedAt(run, p, row.createdAt) && exists now :: Did(run, Mint(p, row.id, now))
  }

  /** A task made for the call p: the command's handler and payload, minted by p at this time. */
  ghost predicate TaskOf(run: Run, p: Pid, cmd: SubmitCommand, t: Task) {
    t.handler == cmd.handler && t.payload == cmd.payload && t.status == "pending" &&
    Did(run, Mint(p, t.id, t.createdAt))
  }

  /** An event told for the call p. */
  ghost predicate EventFrom(run: Run, p: Pid, cmd: SubmitCommand, e: Event) {
    e.handler == cmd.handler && Did(run, Mint(p, e.taskID, e.occurredAt))
  }

  /** The task is, field by field, a stored row. */
  ghost predicate IsRow(rows: Table, t: Task) {
    t.id in rows && t.handler == rows[t.id].handler && t.payload == rows[t.id].payload &&
    t.status == rows[t.id].status && t.createdAt == rows[t.id].createdAt
  }

  predicate HasMadeTask(ph: Phase) {
    ph.Minted? || InTx(ph) || ph.Committed? || ph.TxFailed? || ph.Replaying?
  }

  ghost predicate PhaseFrom(run: Run, rows: Table, p: Pid, cmd: SubmitCommand, ph: Phase) {
    (HasMadeTask(ph) ==> TaskOf(run, p, cmd, ph.task)) &&
    (InTx(ph) ==> RowOf(run, p, cmd, ph.row) && ph.row.id == ph.task.id) &&
    (ph.Done? && ph.reply.Ok? ==> TaskOf(run, p, cmd, ph.reply.value) || IsRow(rows, ph.reply.value))
  }

  ghost predicate RowFrom(run: Run, procs: map<Pid, Proc>, row: Row) {
    exists p :: p in procs && RowOf(run, p, procs[p].cmd, row)
  }

  ghost predicate RowsFrom(run: Run, rows: Table, procs: map<Pid, Proc>) {
    forall id :: id in rows ==> RowFrom(run, procs, rows[id])
  }

  ghost predicate EventOfSome(run: Run, procs: map<Pid, Proc>, e: Event) {
    exists p :: p in procs && EventFrom(run, p, procs[p].cmd, e)
  }

  ghost predicate EventsFrom(run: Run, events: seq<Event>, procs: map<Pid, Proc>) {
    forall i :: 0 <= i < |events| ==> EventOfSome(run, procs, events[i])
  }

  ghost predicate PhasesFrom(run: Run, rows: Table, procs: map<Pid, Proc>) {
    forall p :: p in procs ==> PhaseFrom(run, rows, p, procs[p].cmd, procs[p].phase)
  }

  ghost predicate AllFrom(run: Run, s: State) {
    RowsFrom(run, s.rows, s.procs) && EventsFrom(run, s.events, s.procs) && PhasesFrom(run, s.rows, s.procs)
  }

  // ----- what was done stays done

  lemma RowStays(run: Run, a: Action, p: Pid, cmd: SubmitCommand, row: Row)
    requires RowOf(run, p, cmd, row)
    ensures RowOf(Then(run, a), p, cmd, row)
  {
    var now :| Did(run, Mint(p, row.id, now));
    assert Did(Then(run, a), Mint(p, row.id, now));
  }

  lemma PhaseStays(run: Run, a: Action, rows: Table, later: Table, p: Pid, cmd: SubmitCommand, ph: Phase)
    requires PhaseFrom(run, rows, p, cmd, ph) && Extends(rows, later)
    ensures PhaseFrom(Then(run, a), later, p, cmd, ph)
  {
    if InTx(ph) {
      RowStays(run, a, p, cmd, ph.row);
    }
  }

  // ----- one step

  /** The acting call's new phase, the row it stores and the event it tells are its command's. */
  ghost predicate OutcomeFrom(run: Run, rows: Table, p: Pid, cmd: SubmitCommand, o: Outcome) {
    PhaseFrom(run, rows, p, cmd, o.phase) &&
    (o.stores.Some? ==> RowOf(run, p, cmd, o.stores.value)) &&
    (o.tells.Some? ==> EventFrom(run, p, cmd, o.tells.value))
  }

  lemma MintFrom(run: Run, p: Pid, cmd: SubmitCommand, id: Uuid, now: Time)
    ensures TaskOf(Then(run, Mint(p, id, now)), p, cmd, Domain.Submit(id, cmd.handler, cmd.payload, now))
  {
  }

  lemma InsertFrom(run: Run, a: Action, cmd: SubmitCommand, t: Task)
    requires a.InsertOk? || (a.InsertFaults? && a.applied)
    requires TaskOf(run, a.p, cmd, t)
    ensures RowOf(Then(run, a), a.p, cmd, PendingRow(t, cmd, a.dbNow))
  {
    assert Did(Then(run, a), Mint(a.p, t.id, t.createdAt));
  }

  lemma InsertNextFrom(runner: Runner, run: Run, s: State, a: Action, cmd: SubmitCommand, ph: Phase)
    requires PhaseFrom(run, s.rows, a.p, cmd, ph) && Next(runner, s, a, cmd, ph).Some?
    requires a.InsertOk? || a.InsertFaults?
    ensures OutcomeFrom(Then(run, a), s.rows, a.p, cmd, Next(runner, s, a, cmd, ph).value)
  {
    if a.InsertOk? || a.applied {
      InsertFrom(run, a, cmd, ph.task);
    }
  }

  lemma TxNextFrom(runner: Runner, run: Run, s: State, a: Action, cmd: SubmitCommand, ph: Phase)
    requires PhaseFrom(run, s.rows, a.p, cmd, ph) && Next(runner, s, a, cmd, ph).Some?
    requires a.AppendOk? || a.AppendFaults? || a.Commit? || a.CommitFaults?
    ensures OutcomeFrom(Then(run, a), s.rows, a.p, cmd, Next(runner, s, a, cmd, ph).value)
  {
    RowStays(run, a, a.p, cmd, ph.row);
    assert Did(Then(run, a), Mint(a.p, ph.task.id, ph.task.createdAt));
  }

  /** Steps that end a call or only pass on what it holds. */
  lemma EndNextFrom(runner: Runner, run: Run, s: State, a: Action, cmd: SubmitCommand, ph: Phase)
    requires PhaseFrom(run, s.rows, a.p, cmd, ph) && Next(runner, s, a, cmd, ph).Some?
    requires a.MintFails? || a.InsertCollides? || a.Return? || a.ReplayFaults? || a.Crash?
    ensures OutcomeFrom(Then(run, a), s.rows, a.p, cmd, Next(runner, s, a, cmd, ph).value)
  {
    if HasMadeTask(ph) {
      assert Did(Then(run, a), Mint(a.p, ph.task.id, ph.task.createdAt));
    }
  }

  lemma ReadNextFrom(runner: Runner, run: Run, s: State, a: Action, cmd: SubmitCommand, ph: Phase)
    requires TableOk(s.rows) && a.ReplayRead? && Next(runner, s, a, cmd, ph).Some?
    ensures OutcomeFrom(Then(run, a), s.rows, a.p, cmd, Next(runner, s, a, cmd, ph).value)
  {
    var found := FindByKey(s.rows, cmd.idempotencyKey);
    if found.Some? {
      assert IsRow(s.rows, ToDomain(found.value));
    }
  }

  lemma NextFrom(runner: Runner, run: Run, s: State, a: Action, cmd: SubmitCommand, ph: Phase)
    requires TableOk(s.rows) && PhaseFrom(run, s.rows, a.p, cmd, ph) && Next(runner, s, a, cmd, ph).Some?
    ensures OutcomeFrom(Then(run, a), s.rows, a.p, cmd, Next(runner, s, a, cmd, ph).value)
  {
    if a.Mint? {
      MintFrom(run, a.p, cmd, a.id, a.now);
    } else if a.InsertOk? || a.InsertFaults? {
      InsertNextFrom(runner, run, s, a, cmd, ph);
    } else if a.AppendOk? || a.AppendFaults? || a.Commit? || a.CommitFaults? {
      TxNextFrom(runner, run, s, a, cmd, ph);
    } else if a.ReplayRead? {
      ReadNextFrom(runner, run, s, a, cmd, ph);
    } else {
      EndNextFrom(runner, run, s, a, cmd, ph);
    }
  }

  /** The calls of procs are still there, with their commands. */
  ghost predicate KeepsCalls(procs: map<Pid, Proc>, later: map<Pid, Proc>) {
    forall q :: q in procs ==> q in later && later[q].cmd == procs[q].cmd
  }

  lemma RowsStayFrom(run: Run, a: Action, rows: Table, procs: map<Pid, Proc>, later: map<Pid, Proc>)
    requires RowsFrom(run, rows, procs) && KeepsCalls(procs, later)
    ensures RowsFrom(Then(run, a), rows, later)
  {
    forall id | id in rows ensures RowFrom(Then(run, a), later, rows[id]) {
      assert RowFrom(run, procs, rows[id]);
      var q :| q in procs && RowOf(run, q, procs[q].cmd, rows[id]);
      RowStays(run, a, q, procs[q].cmd, rows[id]);
      assert q in later && RowOf(Then(run, a), q, later[q].cmd, rows[id]);
    }
  }

  lemma EventsStayFrom(run: Run, a: Action, events: seq<Event>, procs: map<Pid, Proc>, later: map<Pid, Proc>)
    requires EventsFrom(run, events, procs) && KeepsCalls(procs, later)
    ensures EventsFrom(Then(run, a), events, later)
  {
    forall i | 0 <= i < |events| ensures EventOfSome(Then(run, a), later, events[i]) {
      assert EventOfSome(run, procs, events[i]);
      var q :| q in procs && EventFrom(run, q, procs[q].cmd, events[i]);
      assert q in later && EventFrom(Then(run, a), q, later[q].cmd, events[i]);
    }
  }

  lemma PhasesStayFrom(run: Run, a: Action, rows: Table, later: Table, procs: map<Pid, Proc>, p: Pid, pr: Proc)
    requires PhasesFrom(run, rows, procs) && Extends(rows, later)
    requires PhaseFrom(Then(run, a), rows, p, pr.cmd, pr.phase)
    ensures PhasesFrom(Then(run, a), later, procs[p := pr])
  {
    forall q | q in procs && q != p ensures PhaseFrom(Then(run, a), later, q, procs[q].cmd, procs[q].phase) {
      PhaseStays(run, a, rows, later, q, procs[q].cmd, procs[q].phase);
    }
  }

  lemma StoringFrom(run: Run, rows: Table, procs: map<Pid, Proc>, p: Pid, o: Outcome)
    requires RowsFrom(run, rows, procs) && p in procs
    requires o.stores.Some? ==> RowOf(run, p, procs[p].cmd, o.stores.value)
    ensures RowsFrom(run, if o.stores.Some? then rows[o.stores.value.id := o.stores.value] else rows, procs)
  {
    if o.stores.Some? {
      assert RowFrom(run, procs, o.stores.value);
    }
  }

  lemma TellingFrom(run: Run, events: seq<Event>, procs: map<Pid, Proc>, p: Pid, o: Outcome)
    requires EventsFrom(run, events, procs) && p in procs
    requires o.tells.Some? ==> EventFrom(run, p, procs[p].cmd, o.tells.value)
    ensures EventsFrom(run, if o.tells.Some? then events + [o.tells.value] else events, procs)
  {
    if o.tells.Some? {
      assert EventOfSome(run, procs, o.tells.value);
    }
  }

  lemma ApplyFrom(run: Run, a: Action, s: State, p: Pid, cmd: SubmitCommand, o: Outcome)
    requires AllFrom(run, s) && OutcomeFrom(Then(run, a), s.rows, p, cmd, o)
    requires p in s.procs ==> s.procs[p].cmd == cmd
    requires Extends(s.rows, Apply(s, p, cmd, o).rows)
    ensures AllFrom(Then(run, a), Apply(s, p, cmd, o))
  {
    var s' := Apply(s, p, cmd, o);
    RowsStayFrom(run, a, s.rows, s.procs, s'.procs);
    StoringFrom(Then(run, a), s.rows, s'.procs, p, o);
    EventsStayFrom(run, a, s.events, s.procs, s'.procs);
    TellingFrom(Then(run, a), s.events, s'.procs, p, o);
    PhasesStayFrom(run, a, s.rows, s'.rows, s.procs, p, Proc(cmd, o.phase));
  }

  lemma {:induction false} RunFrom(runner: Runner, run: Run)
    requires Exec(runner, run).Some?
    ensures AllFrom(run, Exec(runner, run).value)
  {
    if run.Then? {
      RunFrom(runner, run.prev);
      RunKeepsInv(runner, run.prev);
      StepFrom(runner, run.prev, Exec(runner, run.prev).value, run.act);
    }
  }

  lemma StepFrom(runner: Runner, run: Run, s: State, a: Action)
    requires Inv(runner, s) && AllFrom(run, s) && Step(runner, s, a).Some?
    ensures AllFrom(Then(run, a), Step(runner, s, a).value)
  {
    OneStepIsStable(runner, s, a);
    if a.Call? {
      ApplyFrom(run, a, s, a.p, a.cmd, Outcome(Entered, None, None));
    } else {
      var pr := s.procs[a.p];
      NextFrom(runner, run, s, a, pr.cmd, pr.phase);
      ApplyFrom(run, a, s, a.p, pr.cmd, Next(runner, s, a, pr.cmd, pr.phase).value);
    }
  }

  // ----- what follows for whole runs

  /** Every stored row says what some call's command says, with that call's id and clock. */
  lemma RowsComeFromCalls(runner: Runner, run: Run, id: Uuid) returns (p: Pid)
    requires Exec(runner, run).Some? && id in Exec(runner, run).value.rows
    ensures
      var s := Exec(runner, run).value;
      p in s.procs && s.rows[id].id == id && s.rows[id].handler == s.procs[p].cmd.handler &&
      s.rows[id].payload == s.procs[p].cmd.payload && s.rows[id].status == "pending" &&
      s.rows[id].key == (if s.procs[p].cmd.idempotencyKey == "" then None else Some(s.procs[p].cmd.idempotencyKey)) &&
      InsertedAt(run, p, s.rows[id].createdAt) && exists now :: Did(run, Mint(p, id, now))
  {
    RunFrom(runner, run);
    RunKeepsInv(runner, run);
    var s := Exec(runner, run).value;
    assert RowFrom(run, s.procs, s.rows[id]);
    p :| p in s.procs && RowOf(run, p, s.procs[p].cmd, s.rows[id]);
  }

  /** Every recorded event tells of an id, at the time and with the handler, of some call. */
  lemma EventsComeFromCalls(runner: Runner, run: Run, i: nat) returns (p: Pid)
    requires Exec(runner, run).Some? && i < |Exec(runner, run).value.events|
    ensures
      var s := Exec(runner, run).value;
      p in s.procs && s.events[i].handler == s.procs[p].cmd.handler &&
      Did(run, Mint(p, s.events[i].taskID, s.events[i].occurredAt))
  {
    RunFrom(runner, run);
    var s := Exec(runner, run).value;
    assert EventOfSome(run, s.procs, s.events[i]);
    p :| p in s.procs && EventFrom(run, p, s.procs[p].cmd, s.events[i]);
  }

  lemma {:induction false} MintedOnce(run: Run, p: Pid, q: Pid, id: Uuid, now: Time, again: Time)
    requires FreshIds(run) && Did(run, Mint(p, id, now)) && Did(run, Mint(q, id, again))
    ensures p == q
  {
    if run.act != Mint(p, id, now) && run.act != Mint(q, id, again) {
      MintedOnce(run.prev, p, q, id, now, again);
    } else if run.act == Mint(p, id, now) && Did(run.prev, Mint(q, id, again)) {
      WasMinted(run.prev, q, id, again);
    } else if run.act == Mint(q, id, again) && Did(run.prev, Mint(p, id, now)) {
      WasMinted(run.prev, p, id, now);
    }
  }

  lemma {:induction false} WasMinted(run: Run, p: Pid, id: Uuid, now: Time)
    requires Did(run, Mint(p, id, now))
    ensures id in MintedIds(run)
  {
    if run.act != Mint(p, id, now) {
      WasMinted(run.prev, p, id, now);
    }
  }

  /** An answer is the task the call itself made, of its own command, at the time it was minted,
      or it is a stored row, field by field; and when ids are fresh, an answered id that the call
      minted itself stands for its own handler and payload either way. */
  lemma AnswersComeFromCommands(runner: Runner, run: Run, p: Pid, t: Task)
    requires AnsweredOk(runner, run, p, t)
    ensures
      var s := Exec(runner, run).value;
      var cmd := s.procs[p].cmd;
      var made := t.handler == cmd.handler && t.payload == cmd.payload && t.status == "pending";
      ((made && Did(run, Mint(p, t.id, t.createdAt))) || IsRow(s.rows, t)) &&
      (FreshIds(run) && (exists now :: Did(run, Mint(p, t.id, now))) ==> made)
  {
    RunFrom(runner, run);
    var s := Exec(runner, run).value;
    if FreshIds(run) && IsRow(s.rows, t) {
      if now :| Did(run, Mint(p, t.id, now)) {
        var q := RowsComeFromCalls(runner, run, t.id);
        var again :| Did(run, Mint(q, t.id, again));
        MintedOnce(run, p, q, t.id, now, again);
      }
    }
  }
}
