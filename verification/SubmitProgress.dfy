/** No call of Submit is ever stuck: steps are bounded, waiting cannot deadlock, and every active
    call can be brought to its answer without a fault. */
module SubmitProgress {
  import opened Results
  import opened GoErrors
  import opened Domain
  import opened TaskTable
  import opened SubmitProtocol
  import opened SubmitSafety
  import opened SubmitRuns

  predicate Active(ph: Phase) {
    !ph.Done? && !ph.Crashed?
  }

  /** An action that is neither a fault nor a crash. */
  predicate Ordinary(a: Action) {
    a.Mint? || a.InsertOk? || a.InsertCollides? || a.AppendOk? || a.Commit? || a.Return? || a.ReplayRead?
  }

  /** How many steps a call can still take before it is answered or has crashed. */
  function StepsLeft(ph: Phase): nat {
    match ph
    case Entered => 7
    case Minted(_) => 6
    case Inserted(_, _) => 5
    case Appended(_, _) => 4
    case Committed(_) => 3
    case TxFailed(_, _) => 2
    case Replaying(_, _) => 1
    case _ => 0
  }

  /** Every call is answered within seven of its own steps, faults included. */
  lemma EveryStepMakesProgress(runner: Runner, s: State, a: Action)
    requires Step(runner, s, a).Some? && !a.Call?
    ensures StepsLeft(Step(runner, s, a).value.procs[a.p].phase) < StepsLeft(s.procs[a.p].phase)
  {
  }

  /** The ordinary action of p, minting id when it is about to mint. */
  function OwnAction(s: State, p: Pid, id: Uuid): Action
    requires p in s.procs
  {
    var ph := s.procs[p].phase;
    match ph
    case Entered => Mint(p, id, 0)
    case Minted(t) => if Collides(s.rows, t.id, KeyOf(s.procs[p].cmd)) then InsertCollides(p) else InsertOk(p, 0)
    case Inserted(_, _) => AppendOk(p)
    case Appended(_, _) => Commit(p)
    case Replaying(_, _) => ReplayRead(p)
    case _ => Return(p)
  }

  /** The unique check of p waits for the open transaction of q. */
  ghost predicate WaitsFor(s: State, p: Pid, q: Pid) {
    p in s.procs && q in s.procs && q != p && s.procs[p].phase.Minted? && InTx(s.procs[q].phase) &&
    Clash(s.procs[p].phase.task.id, KeyOf(s.procs[p].cmd), s.procs[q].phase.row)
  }

  ghost predicate Waits(runner: Runner, s: State, p: Pid)
    requires p in s.procs && Active(s.procs[p].phase)
  {
    runner.Atomic? && s.procs[p].phase.Minted? &&
    !Collides(s.rows, s.procs[p].phase.task.id, KeyOf(s.procs[p].cmd)) && exists q :: WaitsFor(s, p, q)
  }

  // ----- calls bound to succeed

  /** No stored row and no open transaction has this id. */
  ghost predicate Unused(s: State, id: Uuid) {
    id !in s.rows && forall q :: q in s.procs && InTx(s.procs[q].phase) ==> s.procs[q].phase.row.id != id
  }

  /** Without a fault the call will be answered with a task: its id is unused, or its key is
      taken by the row it will find. */
  ghost predicate BoundIn(s: State, cmd: SubmitCommand, ph: Phase, id: Uuid) {
    match ph
    case Entered => Unused(s, id)
    case Minted(t) => Unused(s, t.id)
    case Inserted(_, _) => true
    case Appended(_, _) => true
    case Committed(_) => true
    case TxFailed(_, e) => Is(e, Conflict) && KeyTaken(s.rows, KeyOf(cmd))
    case Replaying(_, _) => KeyTaken(s.rows, KeyOf(cmd))
    case Done(reply) => reply.Ok?
    case Crashed => false
  }

  ghost predicate Bound(s: State, p: Pid, id: Uuid)
    requires p in s.procs
  {
    BoundIn(s, s.procs[p].cmd, s.procs[p].phase, id)
  }

  /** A call that does not wait has an ordinary step of its own. */
  lemma OwnStep(runner: Runner, s: State, p: Pid, id: Uuid)
    requires p in s.procs && Active(s.procs[p].phase) && !Waits(runner, s, p)
    ensures
      var a := OwnAction(s, p, id);
      var s' := Step(runner, s, a);
      Ordinary(a) && s'.Some? && p in s'.value.procs && !s'.value.procs[p].phase.Crashed? &&
      StepsLeft(s'.value.procs[p].phase) < StepsLeft(s.procs[p].phase) &&
      (a.InsertCollides? ==> s'.value.procs[p].phase.TxFailed?)
  {
    var ph := s.procs[p].phase;
    if ph.Minted? && Blocked(runner, s, p, ph.task.id, KeyOf(s.procs[p].cmd)) {
      var q :| q in s.procs && q != p && InTx(s.procs[q].phase) &&
        Clash(ph.task.id, KeyOf(s.procs[p].cmd), s.procs[q].phase.row);
      assert WaitsFor(s, p, q);
    }
  }

  lemma OwnNextBound(runner: Runner, s: State, p: Pid, cmd: SubmitCommand, ph: Phase, id: Uuid)
    requires p in s.procs && s.procs[p] == Proc(cmd, ph) && BoundIn(s, cmd, ph, id)
    requires Next(runner, s, OwnAction(s, p, id), cmd, ph).Some?
    ensures
      var o := Next(runner, s, OwnAction(s, p, id), cmd, ph).value;
      BoundIn(s, cmd, o.phase, id) && (o.stores.Some? ==> InTx(o.phase) || o.phase.Committed?)
  {
    if ph.Replaying? {
      assert Some(cmd.idempotencyKey) == KeyOf(cmd);
    }
  }

  lemma ApplyStaysBound(s: State, p: Pid, cmd: SubmitCommand, o: Outcome, id: Uuid)
    requires BoundIn(s, cmd, o.phase, id) && (o.stores.Some? ==> InTx(o.phase) || o.phase.Committed?)
    ensures BoundIn(Apply(s, p, cmd, o), cmd, o.phase, id)
  {
  }

  /** By its own ordinary step a call bound to succeed stays so. */
  lemma OwnStepStaysBound(runner: Runner, s: State, p: Pid, id: Uuid)
    requires p in s.procs && Step(runner, s, OwnAction(s, p, id)).Some? && Bound(s, p, id)
    ensures
      var s' := Step(runner, s, OwnAction(s, p, id)).value;
      p in s'.procs && Bound(s', p, id)
  {
    var pr, a := s.procs[p], OwnAction(s, p, id);
    OwnNextBound(runner, s, p, pr.cmd, pr.phase, id);
    ApplyStaysBound(s, p, pr.cmd, Next(runner, s, a, pr.cmd, pr.phase).value, id);
  }

  /** A step of another call's transaction leaves the waiting call alone. */
  lemma HolderStep(s: State, p: Pid, q: Pid)
    requires WaitsFor(s, p, q)
    ensures
      var a := OwnAction(s, q, 0);
      var s' := Step(Atomic, s, a);
      Ordinary(a) && s'.Some? && p in s'.value.procs && s'.value.procs[p] == s.procs[p] &&
      (s.procs[q].phase.Inserted? ==> WaitsFor(s'.value, p, q) && s'.value.procs[q].phase.Appended?) &&
      (s.procs[q].phase.Appended? ==>
         Collides(s'.value.rows, s.procs[p].phase.task.id, KeyOf(s.procs[p].cmd)))
  {
    if s.procs[q].phase.Appended? {
      var row := s.procs[q].phase.row;
      var rows := Step(Atomic, s, OwnAction(s, q, 0)).value.rows;
      assert row.id in rows && rows[row.id] == row;
    }
  }

  lemma HolderKeepsUnused(s: State, p: Pid, q: Pid, id: Uuid)
    requires WaitsFor(s, p, q) && Unused(s, id)
    ensures Unused(Step(Atomic, s, OwnAction(s, q, 0)).value, id)
  {
    HolderStep(s, p, q);
  }

  /** The waiting of unique checks on open transactions cannot deadlock: while some call is
      active, an ordinary step is possible, for that call or for one it waits on. */
  lemma NeverStuck(runner: Runner, s: State, p: Pid)
    requires p in s.procs && Active(s.procs[p].phase)
    ensures
      (Ordinary(OwnAction(s, p, 0)) && Step(runner, s, OwnAction(s, p, 0)).Some?) ||
      exists q :: WaitsFor(s, p, q) && Step(runner, s, OwnAction(s, q, 0)).Some?
  {
    if Waits(runner, s, p) {
      var q :| WaitsFor(s, p, q);
      HolderStep(s, p, q);
    } else {
      OwnStep(runner, s, p, 0);
    }
  }

  // ----- whole runs

  /** `later` is `run` followed by n ordinary actions. */
  predicate Onward(run: Run, later: Run, n: nat) {
    if n == 0 then run == later else later.Then? && Ordinary(later.act) && Onward(run, later.prev, n - 1)
  }

  lemma {:induction false} OnwardFrom(run: Run, a: Action, later: Run, n: nat)
    requires Ordinary(a) && Onward(Then(run, a), later, n)
    ensures Onward(run, later, n + 1)
  {
    if n > 0 {
      OnwardFrom(run, a, later.prev, n - 1);
    } else {
      assert Onward(run, later.prev, 0);
    }
  }

  lemma {:induction false} OnwardJoin(run: Run, mid: Run, later: Run, m: nat, n: nat)
    requires Onward(run, mid, m) && Onward(mid, later, n)
    ensures Onward(run, later, m + n)
  {
    if n > 0 {
      OnwardJoin(run, mid, later.prev, m, n - 1);
    }
  }

  lemma OneOnward(run: Run, a: Action)
    requires Ordinary(a)
    ensures Onward(run, Then(run, a), 1)
  {
    assert Onward(run, run, 0);
  }

  lemma CollideStep(s: State, p: Pid, id: Uuid)
    requires p in s.procs && s.procs[p].phase.Minted?
    requires Collides(s.rows, s.procs[p].phase.task.id, KeyOf(s.procs[p].cmd))
    ensures OwnAction(s, p, id) == InsertCollides(p)
    ensures
      var s' := Step(Atomic, s, InsertCollides(p));
      s'.Some? && p in s'.value.procs && s'.value.procs[p].phase.TxFailed? &&
      (Bound(s, p, id) ==> Bound(s'.value, p, id))
  {
    if Bound(s, p, id) {
      OwnStepStaysBound(Atomic, s, p, id);
    }
  }

  /** The transaction that p waits on commits, and p's insert collides. */
  lemma CommitAndCollide(s: State, p: Pid, q: Pid, id: Uuid) returns (t: State, s': State)
    requires WaitsFor(s, p, q) && s.procs[q].phase.Appended?
    ensures Step(Atomic, s, Commit(q)) == Some(t) && Step(Atomic, t, InsertCollides(p)) == Some(s')
    ensures p in s'.procs && s'.procs[p].phase.TxFailed? && (Bound(s, p, id) ==> Bound(s', p, id))
  {
    HolderStep(s, p, q);
    if Bound(s, p, id) {
      HolderKeepsUnused(s, p, q, s.procs[p].phase.task.id);
    }
    t := Step(Atomic, s, Commit(q)).value;
    CollideStep(t, p, id);
    s' := Step(Atomic, t, InsertCollides(p)).value;
  }

  lemma HolderAppends(s: State, p: Pid, q: Pid, id: Uuid) returns (t: State)
    requires WaitsFor(s, p, q) && s.procs[q].phase.Inserted?
    ensures Step(Atomic, s, AppendOk(q)) == Some(t) && WaitsFor(t, p, q) && t.procs[q].phase.Appended?
    ensures p in t.procs && t.procs[p] == s.procs[p] && (Bound(s, p, id) ==> Bound(t, p, id))
  {
    HolderStep(s, p, q);
    if Bound(s, p, id) {
      HolderKeepsUnused(s, p, q, s.procs[p].phase.task.id);
    }
    t := Step(Atomic, s, AppendOk(q)).value;
  }

  lemma HolderDone(run: Run, s: State, p: Pid, q: Pid, id: Uuid) returns (next: Run, s': State)
    requires Exec(Atomic, run) == Some(s) && WaitsFor(s, p, q) && s.procs[q].phase.Appended?
    ensures Onward(run, next, 2) && Exec(Atomic, next) == Some(s')
    ensures p in s'.procs && s'.procs[p].phase.TxFailed? && (Bound(s, p, id) ==> Bound(s', p, id))
  {
    var t;
    t, s' := CommitAndCollide(s, p, q, id);
    OneOnward(run, Commit(q));
    next := Then(Then(run, Commit(q)), InsertCollides(p));
    assert Exec(Atomic, next.prev) == Some(t);
  }

  /** When p waits, the holder goes first, and p's insert collides after that. */
  lemma WaitOut(run: Run, s: State, p: Pid, q: Pid, id: Uuid) returns (next: Run, s': State, n: nat)
    requires Exec(Atomic, run) == Some(s) && WaitsFor(s, p, q)
    ensures 0 < n <= 3 && Onward(run, next, n) && Exec(Atomic, next) == Some(s')
    ensures p in s'.procs && s'.procs[p].phase.TxFailed? && (Bound(s, p, id) ==> Bound(s', p, id))
  {
    if s.procs[q].phase.Appended? {
      next, s' := HolderDone(run, s, p, q, id);
      n := 2;
    } else {
      var t := HolderAppends(s, p, q, id);
      next, s' := HolderDone(Then(run, AppendOk(q)), t, p, q, id);
      OnwardFrom(run, AppendOk(q), next, 2);
      n := 3;
    }
  }

  /** The way to p's next own step, that step included. */
  lemma Turn(runner: Runner, run: Run, s: State, p: Pid, id: Uuid) returns (next: Run, s': State, n: nat)
    requires Exec(runner, run) == Some(s) && p in s.procs && Active(s.procs[p].phase)
    ensures Onward(run, next, n) && Exec(runner, next) == Some(s')
    ensures p in s'.procs && !s'.procs[p].phase.Crashed? && (Bound(s, p, id) ==> Bound(s', p, id))
    ensures n > 0 && StepsLeft(s'.procs[p].phase) + n <= StepsLeft(s.procs[p].phase)
  {
    if Waits(runner, s, p) {
      var q :| WaitsFor(s, p, q);
      next, s', n := WaitOut(run, s, p, q, id);
    } else {
      var a := OwnAction(s, p, id);
      OwnStep(runner, s, p, id);
      if Bound(s, p, id) {
        OwnStepStaysBound(runner, s, p, id);
      }
      OneOnward(run, a);
      next, s', n := Then(run, a), Step(runner, s, a).value, 1;
    }
  }

  lemma TurnFrom(runner: Runner, start: Run, k: nat, run: Run, s: State, p: Pid, id: Uuid)
    returns (next: Run, s': State, m: nat)
    requires Onward(start, run, k) && Exec(runner, run) == Some(s)
    requires p in s.procs && Active(s.procs[p].phase)
    ensures Onward(start, next, m) && Exec(runner, next) == Some(s')
    ensures p in s'.procs && !s'.procs[p].phase.Crashed? && (Bound(s, p, id) ==> Bound(s', p, id))
    ensures m > k && StepsLeft(s'.procs[p].phase) + m <= StepsLeft(s.procs[p].phase) + k
  {
    var n;
    next, s', n := Turn(runner, run, s, p, id);
    OnwardJoin(start, run, next, k, n);
    m := k + n;
  }

  lemma {:induction false} FinishFrom(runner: Runner, start: Run, k: nat, run: Run, s: State, p: Pid, id: Uuid)
    returns (later: Run, s': State, n: nat)
    requires Onward(start, run, k) && Exec(runner, run) == Some(s)
    requires p in s.procs && !s.procs[p].phase.Crashed?
    ensures Onward(start, later, n) && n <= StepsLeft(s.procs[p].phase) + k
    ensures Exec(runner, later) == Some(s') && p in s'.procs && s'.procs[p].phase.Done?
    ensures Bound(s, p, id) ==> s'.procs[p].phase.reply.Ok?
    decreases StepsLeft(s.procs[p].phase)
  {
    later, s', n := run, s, k;
    if Active(s.procs[p].phase) {
      var next, t, m := TurnFrom(runner, start, k, run, s, p, id);
      later, s', n := FinishFrom(runner, start, m, next, t, p, id);
    }
  }

  /** From every reachable state an active call can be brought to its answer without a fault,
      within as many steps as it has left, waiting included; and the answer is a task if the
      call is bound to succeed. */
  lemma CanFinish(runner: Runner, run: Run, p: Pid, id: Uuid) returns (later: Run, n: nat)
    requires Exec(runner, run).Some? && p in Exec(runner, run).value.procs
    requires !Exec(runner, run).value.procs[p].phase.Crashed?
    ensures Onward(run, later, n) && n <= StepsLeft(Exec(runner, run).value.procs[p].phase) <= 7
    ensures Exec(runner, later).Some? && p in Exec(runner, later).value.procs
    ensures Exec(runner, later).value.procs[p].phase.Done?
    ensures Bound(Exec(runner, run).value, p, id) ==> Exec(runner, later).value.procs[p].phase.reply.Ok?
  {
    var s';
    later, s', n := FinishFrom(runner, run, 0, run, Exec(runner, run).value, p, id);
  }
}
