/** Whole runs of the submit protocol: what a reader of the table and a caller of Submit can
    rely on however the steps of any number of callers interleave, fail and crash. */
module SubmitRuns {
  import opened Results
  import opened GoErrors
  import opened Domain
  import opened TaskTable
  import opened SubmitProtocol
  import opened SubmitSafety

  /** `later` is `run` followed by zero or more actions. */
  predicate Continues(run: Run, later: Run) {
    run == later || (later.Then? && Continues(run, later.prev))
  }

  lemma {:induction false} RunKeepsInv(runner: Runner, run: Run)
    requires Exec(runner, run).Some?
    ensures Inv(runner, Exec(runner, run).value)
  {
    if run.Then? {
      RunKeepsInv(runner, run.prev);
      StepKeepsInv(runner, Exec(runner, run.prev).value, run.act);
    }
  }

  lemma {:induction false} PrefixExecutes(runner: Runner, run: Run, later: Run)
    requires Exec(runner, later).Some? && Continues(run, later)
    ensures Exec(runner, run).Some?
  {
    if run != later {
      PrefixExecutes(runner, run, later.prev);
    }
  }

  /** The table is insert-only over whole runs, and an answer once given never changes. */
  lemma {:induction false} HistoryIsStable(runner: Runner, run: Run, later: Run)
    requires Exec(runner, later).Some? && Continues(run, later)
    ensures Exec(runner, run).Some?
    ensures Extends(Exec(runner, run).value.rows, Exec(runner, later).value.rows)
    ensures Exec(runner, run).value.events <= Exec(runner, later).value.events
    ensures forall p :: p in Exec(runner, run).value.procs ==>
      p in Exec(runner, later).value.procs &&
      Exec(runner, later).value.procs[p].cmd == Exec(runner, run).value.procs[p].cmd &&
      (Exec(runner, run).value.procs[p].phase.Done? ==>
         Exec(runner, later).value.procs[p] == Exec(runner, run).value.procs[p])
  {
    if run != later {
      HistoryIsStable(runner, run, later.prev);
      RunKeepsInv(runner, later.prev);
      OneStepIsStable(runner, Exec(runner, later.prev).value, later.act);
    }
  }

  lemma OneStepIsStable(runner: Runner, s: State, a: Action)
    requires Inv(runner, s) && Step(runner, s, a).Some?
    ensures Extends(s.rows, Step(runner, s, a).value.rows)
    ensures s.events <= Step(runner, s, a).value.events
    ensures forall p :: p in s.procs ==>
      p in Step(runner, s, a).value.procs && Step(runner, s, a).value.procs[p].cmd == s.procs[p].cmd &&
      (s.procs[p].phase.Done? ==> Step(runner, s, a).value.procs[p] == s.procs[p])
  {
    if !a.Call? {
      var pr := s.procs[a.p];
      NextOk(runner, s, a, pr.cmd, pr.phase);
      DoneIsFinal(runner, s, a, pr.cmd, pr.phase);
      ApplyIsStable(s, a.p, pr.cmd, pr.phase, Next(runner, s, a, pr.cmd, pr.phase).value);
    }
  }

  lemma DoneIsFinal(runner: Runner, s: State, a: Action, cmd: SubmitCommand, ph: Phase)
    requires Next(runner, s, a, cmd, ph).Some?
    ensures !ph.Done? && !ph.Crashed?
  {
  }

  lemma ApplyIsStable(s: State, p: Pid, cmd: SubmitCommand, ph: Phase, o: Outcome)
    requires p in s.procs && s.procs[p] == Proc(cmd, ph) && !ph.Done?
    requires o.stores.Some? ==> o.stores.value.id !in s.rows
    ensures Extends(s.rows, Apply(s, p, cmd, o).rows) && s.events <= Apply(s, p, cmd, o).events
    ensures forall q :: q in s.procs ==>
      q in Apply(s, p, cmd, o).procs && Apply(s, p, cmd, o).procs[q].cmd == s.procs[q].cmd &&
      (s.procs[q].phase.Done? ==> Apply(s, p, cmd, o).procs[q] == s.procs[q])
  {
  }

  ghost predicate AnsweredOk(runner: Runner, run: Run, p: Pid, t: Task) {
    Exec(runner, run).Some? && p in Exec(runner, run).value.procs &&
    Exec(runner, run).value.procs[p].phase == Done(Ok(t))
  }

  ghost function CommandOf(runner: Runner, run: Run, p: Pid): SubmitCommand
    requires Exec(runner, run).Some? && p in Exec(runner, run).value.procs
  {
    Exec(runner, run).value.procs[p].cmd
  }

  /** Idempotency over whole runs: two successful answers for one non-empty key carry the same
      task id, whatever lies between them; two successful keyless answers to different calls,
      or answers under different keys, never do. */
  lemma AgreementOnKeys(runner: Runner, run: Run, later: Run, p: Pid, t: Task, q: Pid, u: Task)
    requires Continues(run, later) && AnsweredOk(runner, run, p, t) && AnsweredOk(runner, later, q, u)
    ensures
      var k := CommandOf(runner, run, p).idempotencyKey;
      var l := CommandOf(runner, later, q).idempotencyKey;
      (k != "" && k == l ==> t.id == u.id) && (t.id == u.id ==> k == l)
  {
    HistoryIsStable(runner, run, later);
    RunKeepsInv(runner, later);
    var s := Exec(runner, later).value;
    assert Stored(s.rows, t, KeyOf(s.procs[p].cmd)) && Stored(s.rows, u, KeyOf(s.procs[q].cmd));
  }

  /** The table never holds two rows for one non-NULL key, nor a row that is not pending. */
  lemma OneRowPerKey(runner: Runner, run: Run, i: Uuid, j: Uuid)
    requires Exec(runner, run).Some?
    requires i in Exec(runner, run).value.rows && j in Exec(runner, run).value.rows
    ensures
      var rows := Exec(runner, run).value.rows;
      (rows[i].key.Some? && rows[i].key == rows[j].key ==> i == j) &&
      rows[i].id == i && rows[i].status == STATUS_PENDING
  {
    RunKeepsInv(runner, run);
  }

  /** Read after write: from the moment a submit succeeds, a lookup by the answered id finds a
      pending row with the answered handler and payload, stored under the caller's key. */
  lemma ReadAfterWrite(runner: Runner, run: Run, later: Run, p: Pid, t: Task)
    requires Continues(run, later) && AnsweredOk(runner, run, p, t) && Exec(runner, later).Some?
    ensures
      var rows := Exec(runner, later).value.rows;
      t.id in rows && ToDomain(rows[t.id]) == t.(createdAt := rows[t.id].createdAt) &&
      rows[t.id].key == KeyOf(CommandOf(runner, run, p)) && t.status == STATUS_PENDING
  {
    RunKeepsInv(runner, run);
    HistoryIsStable(runner, run, later);
    RunKeepsInv(runner, later);
  }

  /** What a replay read answers, and from which row. */
  lemma ReplayAnswer(runner: Runner, s: State, p: Pid)
    requires Inv(runner, s) && p in s.procs && s.procs[p].phase.Replaying?
    ensures
      var key := KeyOf(s.procs[p].cmd);
      var found := FindByKey(s.rows, s.procs[p].cmd.idempotencyKey);
      var step := Step(runner, s, ReplayRead(p));
      (found.Some? <==> KeyTaken(s.rows, key)) && step.Some? &&
      step.value.procs[p].phase == Done(if found.Some? then Ok(ToDomain(found.value)) else Err(ReplayError(NoRows))) &&
      (found.Some? ==> found.value.id in s.rows && s.rows[found.value.id].key == key)
  {
    assert Some(s.procs[p].cmd.idempotencyKey) == KeyOf(s.procs[p].cmd);
  }

  /** A replayed answer is the stored row itself, creation time included, now and ever after. */
  lemma ReplayAnswersTheRow(runner: Runner, prev: Run, later: Run, p: Pid, t: Task)
    requires Continues(Then(prev, ReplayRead(p)), later) && Exec(runner, later).Some?
    requires AnsweredOk(runner, Then(prev, ReplayRead(p)), p, t)
    ensures t.id in Exec(runner, later).value.rows
    ensures t == ToDomain(Exec(runner, later).value.rows[t.id])
  {
    var run := Then(prev, ReplayRead(p));
    RunKeepsInv(runner, prev);
    ReplayAnswer(runner, Exec(runner, prev).value, p);
    HistoryIsStable(runner, run, later);
  }

  /** No fault is swallowed: an error that a step ends in, or holds on to, has the leaves of the
      fault it met; a collision is a conflict, a replay read without a row is a not-found, and no
      other error is put in the place of one. */
  lemma FaultsSurvive(runner: Runner, s: State, a: Action)
    requires Step(runner, s, a).Some? && !a.Call?
    ensures
      var was, now := s.procs[a.p].phase, Step(runner, s, a).value.procs[a.p].phase;
      (a.MintFails? || a.ReplayFaults? ==> now.Done? && now.reply.Err? && Leaves(now.reply.error) == Leaves(a.error)) &&
      (a.InsertFaults? || a.AppendFaults? || a.CommitFaults? ==> now.TxFailed? && Leaves(now.error) == Leaves(a.error)) &&
      (a.InsertCollides? ==> now.TxFailed? && Leaves(now.error) == [Conflict]) &&
      (was.TxFailed? && now.Replaying? ==> now.error == was.error) &&
      (was.TxFailed? && now.Done? ==> now.reply.Err? && Leaves(now.reply.error) == Leaves(was.error)) &&
      (a.ReplayRead? && now.Done? && now.reply.Err? ==> Leaves(now.reply.error) == [NotFound])
  {
  }

  // ----- the replay read

  /** The action is an outbox or commit fault that passes for an idempotency conflict. */
  predicate PosesAsConflict(a: Action) {
    (a.AppendFaults? || a.CommitFaults?) && Is(a.error, Conflict)
  }

  /** The calls whose outbox or commit answered with an error that wraps ErrConflict. */
  function Misled(run: Run): set<Pid> {
    match run
    case Begin => {}
    case Then(prev, a) => Misled(prev) + if PosesAsConflict(a) then {a.p} else {}
  }

  function MintedIds(run: Run): set<Uuid> {
    match run
    case Begin => {}
    case Then(prev, a) => MintedIds(prev) + if a.Mint? then {a.id} else {}
  }

  /** No id is minted twice (section 5.7 of RFC 9562). */
  predicate FreshIds(run: Run) {
    run.Then? ==> FreshIds(run.prev) && (run.act.Mint? ==> run.act.id !in MintedIds(run.prev))
  }

  /** Unless it is a fault in disguise, a conflict was caused by a row that is still there. */
  ghost predicate CauseStored(rows: Table, pr: Proc, noReuse: bool, misled: bool) {
    (pr.phase.TxFailed? || pr.phase.Replaying?) && Is(pr.phase.error, Conflict) && !misled ==>
      KeyTaken(rows, KeyOf(pr.cmd)) || (!noReuse && pr.phase.task.id in rows)
  }

  ghost predicate CausesStored(s: State, noReuse: bool, misled: set<Pid>) {
    forall p :: p in s.procs ==> CauseStored(s.rows, s.procs[p], noReuse, p in misled)
  }

  predicate HoldsId(ph: Phase) {
    ph.Minted? || InTx(ph)
  }

  ghost predicate IdsMinted(s: State, minted: set<Uuid>) {
    (forall i :: i in s.rows ==> i in minted) &&
    (forall p :: p in s.procs && HoldsId(s.procs[p].phase) ==> s.procs[p].phase.task.id in minted)
  }

  ghost predicate NotYetStored(s: State) {
    forall p :: p in s.procs && s.procs[p].phase.Minted? ==> s.procs[p].phase.task.id !in s.rows
  }

  ghost predicate DistinctHolders(procs: map<Pid, Proc>) {
    forall p, q :: p in procs && q in procs && p != q && HoldsId(procs[p].phase) && HoldsId(procs[q].phase) ==>
      procs[p].phase.task.id != procs[q].phase.task.id
  }

  /** Every id in use was minted, and only one process may still store it. */
  ghost predicate IdsOwned(s: State, minted: set<Uuid>) {
    IdsMinted(s, minted) && NotYetStored(s) && DistinctHolders(s.procs)
  }

  lemma KeysStayTaken(rows: Table, later: Table, key: Option<string>)
    requires Extends(rows, later) && KeyTaken(rows, key)
    ensures KeyTaken(later, key)
  {
    var id :| id in rows && rows[id].key == key;
    assert later[id].key == key;
  }

  lemma NextHasCause(runner: Runner, s: State, a: Action, noReuse: bool, misled: bool)
    requires Step(runner, s, a).Some? && !a.Call?
    requires CauseStored(s.rows, s.procs[a.p], noReuse, misled)
    requires noReuse && a.InsertCollides? ==> s.procs[a.p].phase.task.id !in s.rows
    ensures CauseStored(s.rows,
      Proc(s.procs[a.p].cmd, Step(runner, s, a).value.procs[a.p].phase), noReuse, misled || PosesAsConflict(a))
  {
    if a.InsertFaults? {
      DriverErrorsCarryNoDomain(a.error);
      assert !Is(InsertError(a.error), Conflict);
    }
  }

  lemma CauseStays(rows: Table, later: Table, pr: Proc, noReuse: bool, misled: bool)
    requires CauseStored(rows, pr, noReuse, misled) && Extends(rows, later)
    ensures CauseStored(later, pr, noReuse, misled)
  {
    if KeyTaken(rows, KeyOf(pr.cmd)) {
      KeysStayTaken(rows, later, KeyOf(pr.cmd));
    }
  }

  lemma StepKeepsCauses(runner: Runner, s: State, a: Action, noReuse: bool, misled: set<Pid>)
    requires Inv(runner, s) && Step(runner, s, a).Some? && CausesStored(s, noReuse, misled)
    requires noReuse && a.InsertCollides? ==> s.procs[a.p].phase.task.id !in s.rows
    ensures CausesStored(
      Step(runner, s, a).value, noReuse, misled + if PosesAsConflict(a) then {a.p} else {})
  {
    var s' := Step(runner, s, a).value;
    var misled' := misled + if PosesAsConflict(a) then {a.p} else {};
    OneStepIsStable(runner, s, a);
    if !a.Call? {
      NextHasCause(runner, s, a, noReuse, a.p in misled);
    }
    forall p | p in s'.procs ensures CauseStored(s'.rows, s'.procs[p], noReuse, p in misled') {
      assert s'.procs[p] == if p == a.p then s'.procs[a.p] else s.procs[p];
      CauseStays(s.rows, s'.rows, s'.procs[p], noReuse, p in misled');
    }
  }

  /** Apart from a mint, no step gives a process an id it did not hold. */
  lemma StepKeepsHolders(runner: Runner, s: State, a: Action)
    requires Step(runner, s, a).Some?
    ensures forall p :: p in Step(runner, s, a).value.procs && HoldsId(Step(runner, s, a).value.procs[p].phase) ==>
      p in s.procs &&
      ((HoldsId(s.procs[p].phase) && Step(runner, s, a).value.procs[p].phase.task == s.procs[p].phase.task) ||
       (a.Mint? && p == a.p && Step(runner, s, a).value.procs[p].phase.task.id == a.id))
  {
  }

  /** A step stores at most the row of the process that takes it. */
  lemma StepStoresOwnRow(runner: Runner, s: State, a: Action)
    requires Inv(runner, s) && Step(runner, s, a).Some?
    ensures forall i :: i in Step(runner, s, a).value.rows && i !in s.rows ==>
      !a.Call? && HoldsId(s.procs[a.p].phase) && i == s.procs[a.p].phase.task.id &&
      !Step(runner, s, a).value.procs[a.p].phase.Minted?
  {
    if !a.Call? {
      var pr := s.procs[a.p];
      NextOk(runner, s, a, pr.cmd, pr.phase);
      MintStoresNothing(runner, s, a, pr.cmd, pr.phase);
    }
  }

  lemma MintStoresNothing(runner: Runner, s: State, a: Action, cmd: SubmitCommand, ph: Phase)
    requires Next(runner, s, a, cmd, ph).Some?
    ensures Next(runner, s, a, cmd, ph).value.phase.Minted? ==> Next(runner, s, a, cmd, ph).value.stores.None?
  {
  }

  lemma StepKeepsIds(runner: Runner, s: State, a: Action, minted: set<Uuid>)
    requires Inv(runner, s) && Step(runner, s, a).Some? && IdsOwned(s, minted)
    requires a.Mint? ==> a.id !in minted
    ensures IdsOwned(Step(runner, s, a).value, minted + if a.Mint? then {a.id} else {})
  {
    StepKeepsHolders(runner, s, a);
    StepStoresOwnRow(runner, s, a);
    var s' := Step(runner, s, a).value;
    forall p | p in s'.procs && s'.procs[p].phase.Minted? ensures s'.procs[p].phase.task.id !in s'.rows {
      assert HoldsId(s'.procs[p].phase);
      if !a.Mint? || p != a.p {
        MintedBefore(runner, s, a, p);
      }
    }
  }

  lemma MintedBefore(runner: Runner, s: State, a: Action, p: Pid)
    requires Step(runner, s, a).Some? && p in Step(runner, s, a).value.procs
    requires Step(runner, s, a).value.procs[p].phase.Minted? && (!a.Mint? || p != a.p)
    ensures p in s.procs && s.procs[p].phase.Minted?
  {
  }

  lemma {:induction false} RunKeepsCauses(runner: Runner, run: Run)
    requires Exec(runner, run).Some?
    ensures CausesStored(Exec(runner, run).value, false, Misled(run))
    ensures FreshIds(run) ==> CausesStored(Exec(runner, run).value, true, Misled(run))
    ensures FreshIds(run) ==> IdsOwned(Exec(runner, run).value, MintedIds(run))
  {
    if run.Then? {
      RunKeepsCauses(runner, run.prev);
      RunKeepsInv(runner, run.prev);
      var s := Exec(runner, run.prev).value;
      StepKeepsCauses(runner, s, run.act, false, Misled(run.prev));
      if FreshIds(run) {
        StepKeepsIds(runner, s, run.act, MintedIds(run.prev));
        StepKeepsCauses(runner, s, run.act, true, Misled(run.prev));
      }
    }
  }

  lemma ConflictCause(runner: Runner, run: Run, p: Pid)
    requires Exec(runner, run).Some?
    requires p in Exec(runner, run).value.procs && Exec(runner, run).value.procs[p].phase.Replaying?
    ensures
      var s := Exec(runner, run).value;
      KeyTaken(s.rows, KeyOf(s.procs[p].cmd)) || p in Misled(run) ||
      (!FreshIds(run) && s.procs[p].phase.task.id in s.rows)
  {
    RunKeepsCauses(runner, run);
    RunKeepsInv(runner, run);
    var s := Exec(runner, run).value;
    assert ProcOk(runner, s.rows, s.procs[p]);
    assert CauseStored(s.rows, s.procs[p], FreshIds(run), p in Misled(run));
  }

  /** The replay read, over every run. It finds a row exactly when the caller's key has one, and
      answers with that row. It can miss in two ways only: the freshly minted id is the primary
      key of a row under another key, which fresh ids rule out, or the caller's own outbox or
      commit failed with an error that wraps ErrConflict. Then the caller gets an error that is
      a not-found underneath, never a task. */
  lemma {:induction false} ReplayReadFinds(runner: Runner, run: Run, p: Pid)
    requires Exec(runner, run).Some?
    requires p in Exec(runner, run).value.procs && Exec(runner, run).value.procs[p].phase.Replaying?
    ensures
      var s := Exec(runner, run).value;
      var key := KeyOf(s.procs[p].cmd);
      var id := s.procs[p].phase.task.id;
      var reply := Step(runner, s, ReplayRead(p)).value.procs[p].phase.reply;
      (KeyTaken(s.rows, key) <==> reply.Ok?) &&
      (reply.Ok? ==> reply.value.id in s.rows && s.rows[reply.value.id].key == key) &&
      (reply.Err? ==>
         Is(reply.error, NotFound) &&
         (p in Misled(run) || (!FreshIds(run) && id in s.rows && s.rows[id].key != key)))
  {
    RunKeepsInv(runner, run);
    ConflictCause(runner, run, p);
    ReplayAnswer(runner, Exec(runner, run).value, p);
  }

  function MintedState(s: State, p: Pid, cmd: SubmitCommand, id: Uuid): State {
    var called := Apply(s, p, cmd, Outcome(Entered, None, None));
    Apply(called, p, cmd, Outcome(Minted(Domain.Submit(id, cmd.handler, cmd.payload, 0)), None, None))
  }

  lemma CallThenMint(runner: Runner, run: Run, p: Pid, cmd: SubmitCommand, id: Uuid)
    requires Exec(runner, run).Some? && p !in Exec(runner, run).value.procs
    ensures Exec(runner, Then(Then(run, Call(p, cmd)), Mint(p, id, 0))) ==
      Some(MintedState(Exec(runner, run).value, p, cmd, id))
  {
    var called := Apply(Exec(runner, run).value, p, cmd, Outcome(Entered, None, None));
    assert Exec(runner, Then(run, Call(p, cmd))) == Some(called);
  }

  /** A keyed call that failed with a conflict while no row has its key: the replay read misses. */
  lemma ConflictWithoutRowMisses(runner: Runner, run: Run, p: Pid, cmd: SubmitCommand, t: Task, e: Error)
    requires Exec(runner, run).Some? && p in Exec(runner, run).value.procs
    requires Exec(runner, run).value.procs[p] == Proc(cmd, TxFailed(t, e)) && Is(e, Conflict)
    requires cmd.idempotencyKey != "" && !KeyTaken(Exec(runner, run).value.rows, KeyOf(cmd))
    ensures
      var last := Exec(runner, Then(Then(run, Return(p)), ReplayRead(p)));
      last.Some? && p in last.value.procs && last.value.procs[p].phase == Done(Err(ReplayError(NoRows)))
  {
    var s := Exec(runner, run).value;
    assert Exec(runner, Then(run, Return(p))) == Some(Apply(s, p, cmd, Outcome(Replaying(t, e), None, None)));
  }

  /** A call that mints an id already in use, under a key not in use: it collides on the
      primary key, is sent down the replay path because it has a key, and finds nothing. */
  function CollidingCall(run: Run, p: Pid, cmd: SubmitCommand, id: Uuid): Run {
    Then(Then(Then(Then(Then(run, Call(p, cmd)), Mint(p, id, 0)), InsertCollides(p)), Return(p)), ReplayRead(p))
  }

  lemma ReusedIdMakesReplayMiss(runner: Runner, run: Run, p: Pid, cmd: SubmitCommand, id: Uuid)
    requires Exec(runner, run).Some? && p !in Exec(runner, run).value.procs
    requires id in Exec(runner, run).value.rows
    requires cmd.idempotencyKey != "" && !KeyTaken(Exec(runner, run).value.rows, KeyOf(cmd))
    ensures
      var last := Exec(runner, CollidingCall(run, p, cmd, id));
      last.Some? && p in last.value.procs && last.value.procs[p].phase == Done(Err(ReplayError(NoRows)))
  {
    CallThenMint(runner, run, p, cmd, id);
    var t, e := Domain.Submit(id, cmd.handler, cmd.payload, 0), InsertError(Pg(UNIQUE_VIOLATION));
    var r2 := Then(Then(run, Call(p, cmd)), Mint(p, id, 0));
    var s2 := MintedState(Exec(runner, run).value, p, cmd, id);
    assert Exec(runner, Then(r2, InsertCollides(p))) == Some(Apply(s2, p, cmd, Outcome(TxFailed(t, e), None, None)));
    ConflictWithoutRowMisses(runner, Then(r2, InsertCollides(p)), p, cmd, t, e);
  }

  /** A keyed call that collides with nothing, in a transaction whose Append answers with e. */
  function FailingAppend(run: Run, p: Pid, cmd: SubmitCommand, id: Uuid, e: Error): Run {
    Then(Then(Then(Then(Then(Then(run, Call(p, cmd)), Mint(p, id, 0)), InsertOk(p, 0)),
      AppendFaults(p, e, false)), Return(p)), ReplayRead(p))
  }

  /** The second way does happen: when that error wraps ErrConflict the transaction is rolled
      back, the call is taken for an idempotency conflict all the same, and finds nothing. */
  lemma ConflictFromAppendMakesReplayMiss(run: Run, p: Pid, cmd: SubmitCommand, id: Uuid, e: Error)
    requires Exec(Atomic, run).Some? && p !in Exec(Atomic, run).value.procs && cmd.idempotencyKey != ""
    requires !Collides(Exec(Atomic, run).value.rows, id, KeyOf(cmd))
    requires !Blocked(Atomic, Exec(Atomic, run).value, p, id, KeyOf(cmd))
    requires Is(e, Conflict)
    ensures
      var last := Exec(Atomic, FailingAppend(run, p, cmd, id, e));
      last.Some? && p in last.value.procs && last.value.procs[p].phase == Done(Err(ReplayError(NoRows)))
  {
    CallThenMint(Atomic, run, p, cmd, id);
    var t := Domain.Submit(id, cmd.handler, cmd.payload, 0);
    var r2 := Then(Then(run, Call(p, cmd)), Mint(p, id, 0));
    var s2 := MintedState(Exec(Atomic, run).value, p, cmd, id);
    InsertThenAppendFails(r2, s2, p, cmd, t, e);
    ConflictWithoutRowMisses(Atomic, Then(Then(r2, InsertOk(p, 0)), AppendFaults(p, e, false)), p, cmd, t, e);
  }

  lemma InsertThenAppendFails(run: Run, s: State, p: Pid, cmd: SubmitCommand, t: Task, e: Error)
    requires Exec(Atomic, run) == Some(s) && p in s.procs && s.procs[p] == Proc(cmd, Minted(t))
    requires !Collides(s.rows, t.id, KeyOf(cmd)) && !Blocked(Atomic, s, p, t.id, KeyOf(cmd))
    ensures
      var last := Exec(Atomic, Then(Then(run, InsertOk(p, 0)), AppendFaults(p, e, false)));
      last.Some? && last.value.rows == s.rows && p in last.value.procs &&
      last.value.procs[p] == Proc(cmd, TxFailed(t, e))
  {
    var inserted := Apply(s, p, cmd, Outcome(Inserted(t, PendingRow(t, cmd, 0)), None, None));
    assert Exec(Atomic, Then(run, InsertOk(p, 0))) == Some(inserted);
  }
}
