/** What every step of the submit protocol keeps, under either runner, and what follows for
    whole runs: agreement on a key's task, insert-only rows, replay reads that do not miss. */
module SubmitSafety {
  import opened Results
  import opened GoErrors
  import opened Domain
  import opened TaskTable
  import opened SubmitProtocol

  function KeyOf(cmd: SubmitCommand): Option<string> {
    KeyColumn(cmd.idempotencyKey)
  }

  /** The table holds the task under this key. Creation times are left out: a fresh reply
      carries the application clock, the row carries the database clock. */
  ghost predicate Stored(rows: Table, t: Task, key: Option<string>) {
    t.id in rows && rows[t.id].key == key && rows[t.id].handler == t.handler &&
    rows[t.id].payload == t.payload && rows[t.id].status == t.status
  }

  predicate Requested(t: Task, cmd: SubmitCommand) {
    t == Domain.Submit(t.id, cmd.handler, cmd.payload, t.createdAt)
  }

  ghost predicate ProcOk(runner: Runner, rows: Table, pr: Proc) {
    var key := KeyOf(pr.cmd);
    match pr.phase
    case Entered => true
    case Minted(t) => Requested(t, pr.cmd)
    case Inserted(t, row) => Requested(t, pr.cmd) && RowHeld(runner, rows, pr)
    case Appended(t, row) => Requested(t, pr.cmd) && RowHeld(runner, rows, pr)
    case Committed(t) => Requested(t, pr.cmd) && Stored(rows, t, key)
    case TxFailed(t, _) => Requested(t, pr.cmd)
    case Replaying(t, e) => Requested(t, pr.cmd) && key.Some? && Is(e, Conflict)
    case Done(reply) => reply.Ok? ==> Stored(rows, reply.value, key) && reply.value.status == STATUS_PENDING
    case Crashed => true
  }

  /** Inside WithinTx the row is already in the table, or still private and unopposed. */
  ghost predicate RowHeld(runner: Runner, rows: Table, pr: Proc)
    requires InTx(pr.phase)
  {
    var row := pr.phase.row;
    row == PendingRow(pr.phase.task, pr.cmd, row.createdAt) &&
    if runner.Atomic? then !Collides(rows, row.id, row.key) else row.id in rows && rows[row.id] == row
  }

  ghost predicate ProcsOk(runner: Runner, rows: Table, procs: map<Pid, Proc>) {
    forall p :: p in procs ==> ProcOk(runner, rows, procs[p])
  }

  /** No two open transactions hold rows that one unique index would refuse. */
  ghost predicate NoOpenClash(runner: Runner, procs: map<Pid, Proc>) {
    runner.Atomic? ==>
      forall p, q :: p in procs && q in procs && p != q && InTx(procs[p].phase) && InTx(procs[q].phase) ==>
        !Clash(procs[p].phase.row.id, procs[p].phase.row.key, procs[q].phase.row)
  }

  ghost predicate Inv(runner: Runner, s: State) {
    TableOk(s.rows) && ProcsOk(runner, s.rows, s.procs) && NoOpenClash(runner, s.procs)
  }

  /** A process other than the one that commits keeps its own invariant. */
  lemma RowsGrow(runner: Runner, rows: Table, row: Row, pr: Proc)
    requires ProcOk(runner, rows, pr) && !Collides(rows, row.id, row.key)
    requires runner.Atomic? && InTx(pr.phase) ==> !Clash(pr.phase.row.id, pr.phase.row.key, row)
    ensures ProcOk(runner, rows[row.id := row], pr)
  {
    if runner.Atomic? && InTx(pr.phase) {
      var later := rows[row.id := row];
      forall id | id in later && pr.phase.row.key.Some?
        ensures later[id].key != pr.phase.row.key
      {
        assert id != row.id ==> id in rows;
      }
    }
  }

  /** What a step owes the invariant: the acting call's new phase, and a row it stores, which is
      its own, collides with nothing and was held by it if the runner is atomic. */
  ghost predicate OutcomeOk(runner: Runner, s: State, p: Pid, cmd: SubmitCommand, ph: Phase, o: Outcome) {
    match o.stores
    case None =>
      ProcOk(runner, s.rows, Proc(cmd, o.phase)) &&
      (InTx(o.phase) ==>
         (InTx(ph) && o.phase.row == ph.row) || !Blocked(runner, s, p, o.phase.row.id, o.phase.row.key))
    case Some(row) =>
      OwnRow(cmd, ph, row) && !Collides(s.rows, row.id, row.key) &&
      (runner.Atomic? ==> InTx(ph) && ph.row == row && !InTx(o.phase)) &&
      ProcOk(runner, s.rows[row.id := row], Proc(cmd, o.phase))
  }

  predicate OwnRow(cmd: SubmitCommand, ph: Phase, row: Row) {
    (ph.Minted? || InTx(ph)) && row == PendingRow(ph.task, cmd, row.createdAt)
  }

  lemma NextOk(runner: Runner, s: State, a: Action, cmd: SubmitCommand, ph: Phase)
    requires Inv(runner, s) && a.p in s.procs && s.procs[a.p] == Proc(cmd, ph)
    requires Next(runner, s, a, cmd, ph).Some?
    ensures OutcomeOk(runner, s, a.p, cmd, ph, Next(runner, s, a, cmd, ph).value)
  {
    assert ProcOk(runner, s.rows, Proc(cmd, ph));
    if a.ReplayRead? {
      if id :| id in s.rows && s.rows[id].key == Some(cmd.idempotencyKey) {
        FindByKeyIs(s.rows, id, cmd.idempotencyKey);
      }
    } else if a.CommitFaults? || a.Commit? {
      assert InTx(ph);
    }
  }

  /** No transaction is opened in the way of another. */
  lemma NoOpenClashAfter(runner: Runner, s: State, p: Pid, cmd: SubmitCommand, ph: Phase)
    requires Inv(runner, s) && (p in s.procs ==> s.procs[p].cmd == cmd)
    requires InTx(ph) ==>
      (p in s.procs && InTx(s.procs[p].phase) && ph.row == s.procs[p].phase.row) ||
      !Blocked(runner, s, p, ph.row.id, ph.row.key)
    ensures NoOpenClash(runner, s.procs[p := Proc(cmd, ph)])
  {
    var procs := s.procs[p := Proc(cmd, ph)];
    if runner.Atomic? {
      forall q, r | q in procs && r in procs && q != r && InTx(procs[q].phase) && InTx(procs[r].phase)
        ensures !Clash(procs[q].phase.row.id, procs[q].phase.row.key, procs[r].phase.row)
      {
        assert q != p ==> procs[q] == s.procs[q];
        assert r != p ==> procs[r] == s.procs[r];
      }
    }
  }

  lemma ApplyKeepsInv(runner: Runner, s: State, p: Pid, cmd: SubmitCommand, ph: Phase, o: Outcome)
    requires Inv(runner, s) && p in s.procs && s.procs[p] == Proc(cmd, ph)
    requires OutcomeOk(runner, s, p, cmd, ph, o)
    ensures Inv(runner, Apply(s, p, cmd, o))
  {
    var s' := Apply(s, p, cmd, o);
    NoOpenClashAfter(runner, s, p, cmd, o.phase);
    if o.stores.Some? {
      InsertKeepsTable(s.rows, o.stores.value);
      forall q | q in s.procs && q != p ensures ProcOk(runner, s'.rows, s.procs[q]) {
        RowsGrow(runner, s.rows, o.stores.value, s.procs[q]);
      }
    }
  }

  /** Every action, under either runner, keeps the invariant. */
  lemma StepKeepsInv(runner: Runner, s: State, a: Action)
    requires Inv(runner, s) && Step(runner, s, a).Some?
    ensures Inv(runner, Step(runner, s, a).value)
  {
    if a.Call? {
      NoOpenClashAfter(runner, s, a.p, a.cmd, Entered);
    } else {
      var pr := s.procs[a.p];
      NextOk(runner, s, a, pr.cmd, pr.phase);
      ApplyKeepsInv(runner, s, a.p, pr.cmd, pr.phase, Next(runner, s, a, pr.cmd, pr.phase).value);
    }
  }
}
