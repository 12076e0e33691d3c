/** Concurrent submits are linearizable: every run is explained by one sequential order of an
    atomic get-or-create on a registry from idempotency keys to task ids. */
module Linearization {
  import opened Results
  import opened GoErrors
  import opened Domain
  import opened TaskTable
  import opened SubmitProtocol
  import opened SubmitSafety
  import opened SubmitRuns

  // ----- the sequential object

  /** The ids in use, and the one id registered under each key. */
  datatype Registry = Registry(ids: set<Uuid>, keys: map<string, Uuid>)

  datatype Op = Op(p: Pid, key: Option<string>, minted: Uuid, result: Uuid)

  predicate Known(g: Registry, key: Option<string>) {
    key.Some? && key.value in g.keys
  }

  /** Get-or-create: a known key answers with its id; otherwise the minted id, which must be
      new, is registered. Without a key a new task is always created. */
  predicate Allowed(g: Registry, op: Op) {
    if Known(g, op.key) then op.result == g.keys[op.key.value]
    else op.result == op.minted && op.minted !in g.ids
  }

  function Perform(g: Registry, op: Op): Registry {
    if Known(g, op.key) then g
    else Registry(
      g.ids + {op.minted},
      if op.key.Some? then g.keys[op.key.value := op.minted] else g.keys)
  }

  function Replay(ops: seq<Op>): Registry {
    if ops == [] then Registry({}, map[])
    else Perform(Replay(ops[..|ops| - 1]), ops[|ops| - 1])
  }

  predicate Legal(ops: seq<Op>) {
    ops == [] || (Legal(ops[..|ops| - 1]) && Allowed(Replay(ops[..|ops| - 1]), ops[|ops| - 1]))
  }

  lemma OneMore(ops: seq<Op>, op: Op)
    requires Legal(ops) && Allowed(Replay(ops), op)
    ensures Legal(ops + [op]) && Replay(ops + [op]) == Perform(Replay(ops), op)
  {
    assert (ops + [op])[..|ops|] == ops;
  }

  // ----- the linearization points of a run

  predicate HasOp(ops: seq<Op>, p: Pid) {
    exists i :: 0 <= i < |ops| && ops[i].p == p
  }

  /** A call takes effect when its row becomes visible, or when its replay read finds the row
      of another call. */
  ghost function Effect(s: State, a: Action, s': State, ops: seq<Op>): seq<Op> {
    if a.p !in s.procs || a.p !in s'.procs then []
    else
      var cmd, ph, ph' := s.procs[a.p].cmd, s.procs[a.p].phase, s'.procs[a.p].phase;
      if s'.rows != s.rows && HasTask(ph) then [Op(a.p, KeyOf(cmd), ph.task.id, ph.task.id)]
      else if ph.Replaying? && ph'.Done? && ph'.reply.Ok? && !HasOp(ops, a.p) then
        [Op(a.p, KeyOf(cmd), ph.task.id, ph'.reply.value.id)]
      else []
  }

  predicate HasTask(ph: Phase) {
    HoldsId(ph) || ph.Committed? || ph.TxFailed? || ph.Replaying?
  }

  ghost function Effects(runner: Runner, run: Run): seq<Op>
    requires Exec(runner, run).Some?
  {
    if run.Begin? then []
    else
      var ops := Effects(runner, run.prev);
      ops + Effect(Exec(runner, run.prev).value, run.act, Exec(runner, run).value, ops)
  }

  /** The registry agrees with the table. */
  ghost predicate Mirrors(g: Registry, rows: Table) {
    g.ids == rows.Keys &&
    (forall k :: k in g.keys ==> g.keys[k] in rows && rows[g.keys[k]].key == Some(k)) &&
    (forall i :: i in rows && rows[i].key.Some? ==> rows[i].key.value in g.keys)
  }

  /** A call that can still store its row has not taken effect. */
  predicate NotYet(ph: Phase, runner: Runner) {
    ph.Entered? || ph.Minted? || (runner.Atomic? && InTx(ph))
  }

  ghost predicate OpsFit(runner: Runner, s: State, ops: seq<Op>) {
    (forall i :: 0 <= i < |ops| ==>
       ops[i].p in s.procs && !NotYet(s.procs[ops[i].p].phase, runner) && ops[i].key == KeyOf(s.procs[ops[i].p].cmd)) &&
    (forall i, j :: 0 <= i < |ops| && 0 <= j < |ops| && ops[i].p == ops[j].p ==> i == j)
  }

  /** Who has been, or is bound to be, answered with a task has taken effect with that id. */
  ghost predicate Answered(runner: Runner, p: Pid, ph: Phase, ops: seq<Op>) {
    (ph.Committed? || (runner.PassThrough? && InTx(ph)) ==>
       exists i :: 0 <= i < |ops| && ops[i].p == p && ops[i].result == ph.task.id) &&
    (ph.Done? && ph.reply.Ok? ==>
       exists i :: 0 <= i < |ops| && ops[i].p == p && ops[i].result == ph.reply.value.id)
  }

  ghost predicate AllAnswered(runner: Runner, s: State, ops: seq<Op>) {
    forall p :: p in s.procs ==> Answered(runner, p, s.procs[p].phase, ops)
  }

  /** The results of the operations are stored under their keys. */
  ghost predicate ResultsStored(rows: Table, ops: seq<Op>) {
    forall i :: 0 <= i < |ops| ==> ops[i].result in rows && rows[ops[i].result].key == ops[i].key
  }

  ghost predicate LinInv(runner: Runner, s: State, ops: seq<Op>) {
    Legal(ops) && Mirrors(Replay(ops), s.rows) && OpsFit(runner, s, ops) &&
    AllAnswered(runner, s, ops) && ResultsStored(s.rows, ops)
  }

  lemma MirrorsAfterRow(g: Registry, rows: Table, row: Row, op: Op)
    requires Mirrors(g, rows) && !Collides(rows, row.id, row.key)
    requires op.key == row.key && op.minted == row.id && op.result == row.id
    ensures Allowed(g, op) && Mirrors(Perform(g, op), rows[row.id := row])
  {
    assert forall k :: k in g.keys ==> KeyTaken(rows, Some(k)) by {
      forall k | k in g.keys ensures KeyTaken(rows, Some(k)) {
        assert rows[g.keys[k]].key == Some(k);
      }
    }
  }

  lemma MirrorsAfterRead(g: Registry, rows: Table, op: Op)
    requires Mirrors(g, rows) && UniqueKeys(rows) && op.key.Some?
    requires op.result in rows && rows[op.result].key == op.key
    ensures Allowed(g, op) && Perform(g, op) == g
  {
    assert rows[g.keys[op.key.value]].key == op.key;
  }

  // ----- what one step looks like from outside

  /** Only the acting process moves, and it never moves back before its effect. */
  ghost predicate Moves(runner: Runner, s: State, p: Pid, s': State) {
    (forall q :: q in s'.procs && q != p ==> q in s.procs && s'.procs[q] == s.procs[q]) &&
    (forall q :: q in s.procs ==> q in s'.procs && s'.procs[q].cmd == s.procs[q].cmd) &&
    (p in s.procs && p in s'.procs && NotYet(s'.procs[p].phase, runner) ==> NotYet(s.procs[p].phase, runner))
  }

  /** The acting process makes its own row visible. */
  ghost predicate Stores(runner: Runner, s: State, p: Pid, s': State, row: Row) {
    p in s.procs && p in s'.procs && NotYet(s.procs[p].phase, runner) && !NotYet(s'.procs[p].phase, runner) &&
    HasTask(s.procs[p].phase) && HasTask(s'.procs[p].phase) &&
    row.id == s.procs[p].phase.task.id == s'.procs[p].phase.task.id &&
    row.key == KeyOf(s.procs[p].cmd) && !Collides(s.rows, row.id, row.key) && s'.rows == s.rows[row.id := row]
  }

  /** The acting process answers with the row its key has. */
  ghost predicate Reads(s: State, p: Pid, s': State) {
    p in s.procs && p in s'.procs && s.procs[p].phase.Replaying? && s'.rows == s.rows &&
    (s'.procs[p].phase.Done? || s'.procs[p].phase.Crashed?) &&
    (s'.procs[p].phase.Done? && s'.procs[p].phase.reply.Ok? ==>
       KeyOf(s.procs[p].cmd).Some? && s'.procs[p].phase.reply.value.id in s.rows &&
       s.rows[s'.procs[p].phase.reply.value.id].key == KeyOf(s.procs[p].cmd))
  }

  /** The acting process owes no more than before. */
  ghost predicate Waits(runner: Runner, s: State, p: Pid, s': State) {
    s'.rows == s.rows && p in s'.procs && (p in s.procs ==> !s.procs[p].phase.Replaying?) &&
    forall ops :: (p in s.procs ==> Answered(runner, p, s.procs[p].phase, ops)) ==>
      Answered(runner, p, s'.procs[p].phase, ops)
  }

  lemma StepMoves(runner: Runner, s: State, a: Action)
    requires Step(runner, s, a).Some?
    ensures Moves(runner, s, a.p, Step(runner, s, a).value)
  {
  }

  lemma StepStores(runner: Runner, s: State, a: Action) returns (row: Row)
    requires Inv(runner, s) && Step(runner, s, a).Some? && Step(runner, s, a).value.rows != s.rows
    ensures Stores(runner, s, a.p, Step(runner, s, a).value, row)
  {
    var pr := s.procs[a.p];
    NextOk(runner, s, a, pr.cmd, pr.phase);
    row := Next(runner, s, a, pr.cmd, pr.phase).value.stores.value;
  }

  lemma StepWaits(runner: Runner, s: State, a: Action)
    requires Inv(runner, s) && Step(runner, s, a).Some? && Step(runner, s, a).value.rows == s.rows
    requires a.p in s.procs ==> !s.procs[a.p].phase.Replaying?
    ensures Waits(runner, s, a.p, Step(runner, s, a).value)
  {
  }

  lemma StepReads(runner: Runner, s: State, a: Action)
    requires Inv(runner, s) && Step(runner, s, a).Some?
    requires a.p in s.procs && s.procs[a.p].phase.Replaying?
    ensures Reads(s, a.p, Step(runner, s, a).value)
  {
  }

  // ----- each kind of step keeps the invariant

  lemma LinAfterStore(runner: Runner, s: State, p: Pid, s': State, ops: seq<Op>, row: Row, op: Op)
    requires LinInv(runner, s, ops) && Moves(runner, s, p, s') && Stores(runner, s, p, s', row)
    requires op == Op(p, KeyOf(s.procs[p].cmd), row.id, row.id)
    ensures LinInv(runner, s', ops + [op])
  {
    RegistryAfterStore(ops, s.rows, row, op);
    CallsAfterStore(runner, s, p, s', ops, row, op);
  }

  lemma RegistryAfterStore(ops: seq<Op>, rows: Table, row: Row, op: Op)
    requires Legal(ops) && Mirrors(Replay(ops), rows) && ResultsStored(rows, ops)
    requires !Collides(rows, row.id, row.key) && op.key == row.key && op.minted == row.id && op.result == row.id
    ensures Legal(ops + [op]) && Mirrors(Replay(ops + [op]), rows[row.id := row])
    ensures ResultsStored(rows[row.id := row], ops + [op])
  {
    MirrorsAfterRow(Replay(ops), rows, row, op);
    OneMore(ops, op);
    ResultsAfterStore(rows, row, ops, op);
  }

  lemma CallsAfterStore(runner: Runner, s: State, p: Pid, s': State, ops: seq<Op>, row: Row, op: Op)
    requires OpsFit(runner, s, ops) && AllAnswered(runner, s, ops)
    requires Moves(runner, s, p, s') && Stores(runner, s, p, s', row)
    requires op == Op(p, KeyOf(s.procs[p].cmd), row.id, row.id)
    ensures OpsFit(runner, s', ops + [op]) && AllAnswered(runner, s', ops + [op])
  {
    NoOpYet(runner, s, p, ops);
    FitAfterOp(runner, s, p, s', ops, op);
    AnsweredAfterOp(runner, s, p, s', ops, op);
  }

  lemma ResultsAfterStore(rows: Table, row: Row, ops: seq<Op>, op: Op)
    requires ResultsStored(rows, ops) && !Collides(rows, row.id, row.key)
    requires op.result == row.id && op.key == row.key
    ensures ResultsStored(rows[row.id := row], ops + [op])
  {
  }

  lemma FitAfterOp(runner: Runner, s: State, p: Pid, s': State, ops: seq<Op>, op: Op)
    requires OpsFit(runner, s, ops) && Moves(runner, s, p, s')
    requires p in s.procs && p in s'.procs && !NotYet(s'.procs[p].phase, runner) && !HasOp(ops, p)
    requires op.p == p && op.key == KeyOf(s.procs[p].cmd)
    ensures OpsFit(runner, s', ops + [op])
  {
  }

  lemma NoOpYet(runner: Runner, s: State, p: Pid, ops: seq<Op>)
    requires OpsFit(runner, s, ops) && p in s.procs && NotYet(s.procs[p].phase, runner)
    ensures !HasOp(ops, p)
  {
  }

  /** A replay read by a call that has not taken effect yet: it does now. */
  lemma LinAfterFirstRead(runner: Runner, s: State, p: Pid, s': State, ops: seq<Op>, op: Op)
    requires LinInv(runner, s, ops) && UniqueKeys(s.rows) && Moves(runner, s, p, s') && Reads(s, p, s')
    requires s'.procs[p].phase.Done? && s'.procs[p].phase.reply.Ok? && !HasOp(ops, p)
    requires op == Op(p, KeyOf(s.procs[p].cmd), s.procs[p].phase.task.id, s'.procs[p].phase.reply.value.id)
    ensures LinInv(runner, s', ops + [op])
  {
    MirrorsAfterRead(Replay(ops), s.rows, op);
    OneMore(ops, op);
    FitAfterOp(runner, s, p, s', ops, op);
    AnsweredAfterOp(runner, s, p, s', ops, op);
  }

  /** A read that finds nothing or fails, or one by a call whose row was stored before. */
  lemma LinAfterOtherRead(runner: Runner, s: State, p: Pid, s': State, ops: seq<Op>)
    requires LinInv(runner, s, ops) && UniqueKeys(s.rows) && Moves(runner, s, p, s') && Reads(s, p, s')
    requires s'.procs[p].phase.Done? && s'.procs[p].phase.reply.Ok? ==> HasOp(ops, p)
    ensures LinInv(runner, s', ops)
  {
    var ph' := s'.procs[p].phase;
    forall q | q in s'.procs ensures Answered(runner, q, s'.procs[q].phase, ops) {
      if q == p && ph'.Done? && ph'.reply.Ok? {
        var i :| 0 <= i < |ops| && ops[i].p == p;
        assert ops[i].result == ph'.reply.value.id;
      }
    }
  }

  lemma AnsweredAfterOp(runner: Runner, s: State, p: Pid, s': State, ops: seq<Op>, op: Op)
    requires AllAnswered(runner, s, ops) && Moves(runner, s, p, s') && p in s'.procs && op.p == p
    requires var ph := s'.procs[p].phase;
      (ph.Committed? || InTx(ph) ==> op.result == ph.task.id) &&
      (ph.Done? && ph.reply.Ok? ==> op.result == ph.reply.value.id)
    ensures AllAnswered(runner, s', ops + [op])
  {
    assert (ops + [op])[|ops|] == op;
    forall q | q in s'.procs && q != p ensures Answered(runner, q, s'.procs[q].phase, ops + [op]) {
      assert forall i :: 0 <= i < |ops| ==> (ops + [op])[i] == ops[i];
    }
  }

  lemma LinAfterWait(runner: Runner, s: State, a: Action, s': State, ops: seq<Op>)
    requires LinInv(runner, s, ops) && Moves(runner, s, a.p, s') && Waits(runner, s, a.p, s')
    ensures LinInv(runner, s', ops + Effect(s, a, s', ops))
  {
    assert ops + Effect(s, a, s', ops) == ops;
  }

  lemma StepKeepsLin(runner: Runner, s: State, a: Action, ops: seq<Op>)
    requires Inv(runner, s) && Step(runner, s, a).Some? && LinInv(runner, s, ops)
    ensures LinInv(runner, Step(runner, s, a).value, ops + Effect(s, a, Step(runner, s, a).value, ops))
  {
    var s' := Step(runner, s, a).value;
    StepMoves(runner, s, a);
    if s'.rows != s.rows {
      var row := StepStores(runner, s, a);
      LinAfterStore(runner, s, a.p, s', ops, row, Effect(s, a, s', ops)[0]);
    } else if a.p in s.procs && s.procs[a.p].phase.Replaying? {
      StepReads(runner, s, a);
      var effect := Effect(s, a, s', ops);
      if effect == [] {
        LinAfterOtherRead(runner, s, a.p, s', ops);
        assert ops + effect == ops;
      } else {
        LinAfterFirstRead(runner, s, a.p, s', ops, effect[0]);
      }
    } else {
      StepWaits(runner, s, a);
      LinAfterWait(runner, s, a, s', ops);
    }
  }

  lemma {:induction false} RunKeepsLin(runner: Runner, run: Run)
    requires Exec(runner, run).Some?
    ensures LinInv(runner, Exec(runner, run).value, Effects(runner, run))
  {
    if run.Then? {
      RunKeepsLin(runner, run.prev);
      RunKeepsInv(runner, run.prev);
      StepKeepsLin(runner, Exec(runner, run.prev).value, run.act, Effects(runner, run.prev));
    }
  }

  /** Linearizability. The effects of any run, in order, are a legal history of the sequential
      get-or-create whose final registry is the table; a call takes effect at most once, an
      answered task is the result of its call's effect, and an answered error stands for an
      effect that happened once or not at all. */
  lemma {:induction false} Linearizable(runner: Runner, run: Run)
    requires Exec(runner, run).Some?
    ensures
      var s, ops := Exec(runner, run).value, Effects(runner, run);
      Legal(ops) && Mirrors(Replay(ops), s.rows) &&
      (forall i :: 0 <= i < |ops| ==> ops[i].p in s.procs && ops[i].key == KeyOf(s.procs[ops[i].p].cmd)) &&
      (forall i, j :: 0 <= i < j < |ops| ==> ops[i].p != ops[j].p) &&
      (forall p :: p in s.procs && s.procs[p].phase.Done? && s.procs[p].phase.reply.Ok? ==>
         exists i :: 0 <= i < |ops| && ops[i].p == p && ops[i].result == s.procs[p].phase.reply.value.id)
  {
    RunKeepsLin(runner, run);
  }

  lemma {:induction false} EffectsGrow(runner: Runner, run: Run, later: Run)
    requires Exec(runner, later).Some? && Continues(run, later)
    ensures Exec(runner, run).Some? && Effects(runner, run) <= Effects(runner, later)
  {
    if run != later {
      EffectsGrow(runner, run, later.prev);
    }
  }

  lemma {:induction false} OpsOfCalls(runner: Runner, run: Run)
    requires Exec(runner, run).Some?
    ensures OpsFit(runner, Exec(runner, run).value, Effects(runner, run))
  {
    RunKeepsLin(runner, run);
  }

  predicate Ended(ph: Phase) {
    ph.Done? || ph.Crashed?
  }

  /** A call that has ended, well or badly, stays ended and takes effect no more. */
  lemma {:induction false} SilentAfterEnd(runner: Runner, run: Run, later: Run, p: Pid)
    requires Continues(run, later) && Exec(runner, later).Some? && Exec(runner, run).Some?
    requires p in Exec(runner, run).value.procs && Ended(Exec(runner, run).value.procs[p].phase)
    ensures p in Exec(runner, later).value.procs && Ended(Exec(runner, later).value.procs[p].phase)
    ensures
      var before, after := Effects(runner, run), Effects(runner, later);
      before <= after && forall i :: |before| <= i < |after| ==> after[i].p != p
  {
    EffectsGrow(runner, run, later);
    if run != later {
      PrefixExecutes(runner, later.prev, later);
      SilentAfterEnd(runner, run, later.prev, p);
      EndedStays(runner, Exec(runner, later.prev).value, later.act, p);
    }
  }

  lemma EndedStays(runner: Runner, s: State, a: Action, p: Pid)
    requires Step(runner, s, a).Some? && p in s.procs && Ended(s.procs[p].phase)
    ensures a.p != p && p in Step(runner, s, a).value.procs && Step(runner, s, a).value.procs[p] == s.procs[p]
  {
  }

  /** The order respects real time: a call that ends before another is made takes effect, if it
      does at all, before it. */
  lemma {:induction false} RealTimeOrder(runner: Runner, run: Run, later: Run, p: Pid, i: nat, j: nat)
    requires Continues(run, later) && Exec(runner, later).Some? && Exec(runner, run).Some?
    requires p in Exec(runner, run).value.procs && Ended(Exec(runner, run).value.procs[p].phase)
    requires i < |Effects(runner, later)| && j < |Effects(runner, later)|
    requires Effects(runner, later)[i].p == p
    requires Effects(runner, later)[j].p !in Exec(runner, run).value.procs
    ensures i < j
  {
    SilentAfterEnd(runner, run, later, p);
    OpsOfCalls(runner, run);
    var before, after := Effects(runner, run), Effects(runner, later);
    assert forall n :: 0 <= n < |before| ==> after[n] == before[n];
  }
}
