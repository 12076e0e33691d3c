/** The pass-through runner refines the atomic one as long as nothing goes wrong between Insert
    and Append: each such run is simulated, answer for answer, by an atomic run. */
module RunnerRefinement {
  import opened Results
  import opened Domain
  import opened TaskTable
  import opened SubmitProtocol
  import opened SubmitSafety
  import opened SubmitRuns
  import opened RunnerAccounting

  /** Nothing stopped or failed while a row was stored and its event was still due. */
  ghost predicate CleanStep(s: State, a: Action) {
    !a.AppendFaults? && !(a.InsertFaults? && a.applied) &&
    (a.Crash? && a.p in s.procs ==> !s.procs[a.p].phase.Inserted?)
  }

  ghost predicate Clean(run: Run) {
    run.Then? ==>
      Clean(run.prev) && (Exec(PassThrough, run.prev).Some? ==> CleanStep(Exec(PassThrough, run.prev).value, run.act))
  }

  /** The atomic run does the whole transaction where the pass-through run inserts. */
  function Atomize(run: Run): Run {
    match run
    case Begin => Begin
    case Then(prev, a) =>
      var r := Atomize(prev);
      match a
      case InsertOk(p, dbNow) => Then(Then(Then(r, InsertOk(p, dbNow)), AppendOk(p)), Commit(p))
      case AppendOk(_) => r
      case Commit(_) => r
      case _ => Then(r, a)
  }

  /** What the atomic run's caller is in when the pass-through run's is in ph. */
  function AtomicPhase(ph: Phase): Phase {
    if InTx(ph) then Committed(ph.task) else ph
  }

  /** Same rows, same calls and answers; the events differ by those still due. */
  ghost predicate Simulates(s: State, t: State) {
    t.rows == s.rows && t.procs.Keys == s.procs.Keys &&
    (forall p :: p in s.procs ==> t.procs[p] == Proc(s.procs[p].cmd, AtomicPhase(s.procs[p].phase))) &&
    EventIds(t.events) == EventIds(s.events) + PendingIds(s.procs)
  }

  /** A step that leaves WithinTx alone does the same under both runners, and nothing to the
      table or the outbox. */
  lemma SameNext(s: State, t: State, a: Action, cmd: SubmitCommand, ph: Phase)
    requires t.rows == s.rows && !a.AppendFaults? && !(a.InsertFaults? && a.applied)
    requires !a.InsertOk? && !a.AppendOk? && !a.Commit? && (a.Crash? ==> !ph.Inserted?)
    requires Next(PassThrough, s, a, cmd, ph).Some?
    ensures
      var o := Next(PassThrough, s, a, cmd, ph);
      Next(Atomic, t, a, cmd, AtomicPhase(ph)) == o && o == Goes(o.value.phase) && !InTx(o.value.phase) && !ph.Inserted?
  {
  }

  lemma SameStepSimulates(s: State, t: State, a: Action)
    requires Simulates(s, t) && Step(PassThrough, s, a).Some? && CleanStep(s, a)
    requires !a.InsertOk? && !a.AppendOk? && !a.Commit? && OneInserter(s.procs)
    ensures Step(Atomic, t, a).Some?
    ensures Simulates(Step(PassThrough, s, a).value, Step(Atomic, t, a).value)
  {
    if a.Call? {
      MoveSimulates(s, t, a.p, a.cmd, Entered);
    } else {
      var pr := s.procs[a.p];
      SameNext(s, t, a, pr.cmd, pr.phase);
      MoveSimulates(s, t, a.p, pr.cmd, Next(PassThrough, s, a, pr.cmd, pr.phase).value.phase);
    }
  }

  lemma MoveSimulates(s: State, t: State, p: Pid, cmd: SubmitCommand, ph: Phase)
    requires Simulates(s, t) && !InTx(ph) && OneInserter(s.procs)
    requires p in s.procs ==> !s.procs[p].phase.Inserted?
    ensures Simulates(Apply(s, p, cmd, Outcome(ph, None, None)), Apply(t, p, cmd, Outcome(ph, None, None)))
  {
    PendingStays(s.procs, s.procs[p := Proc(cmd, ph)], p);
  }

  /** Insert, Append and Commit in one go: nothing can block them, since no atomic transaction
      is open in between. */
  function InsertedState(t: State, p: Pid, cmd: SubmitCommand, task: Task, row: Row): State {
    Apply(t, p, cmd, Outcome(Inserted(task, row), None, None))
  }

  function AppendedState(t: State, p: Pid, cmd: SubmitCommand, task: Task, row: Row): State {
    Apply(InsertedState(t, p, cmd, task, row), p, cmd, Outcome(Appended(task, row), None, None))
  }

  function CommittedState(t: State, p: Pid, cmd: SubmitCommand, task: Task, row: Row): State {
    Apply(AppendedState(t, p, cmd, task, row), p, cmd, Outcome(Committed(task), Some(row), Some(EventOf(task))))
  }

  lemma WholeTransaction(s: State, t: State, p: Pid, dbNow: Time)
    requires Simulates(s, t) && Step(PassThrough, s, InsertOk(p, dbNow)).Some?
    ensures
      var task, cmd := s.procs[p].phase.task, s.procs[p].cmd;
      var row := PendingRow(task, cmd, dbNow);
      Step(Atomic, t, InsertOk(p, dbNow)) == Some(InsertedState(t, p, cmd, task, row)) &&
      Step(Atomic, InsertedState(t, p, cmd, task, row), AppendOk(p)) == Some(AppendedState(t, p, cmd, task, row)) &&
      Step(Atomic, AppendedState(t, p, cmd, task, row), Commit(p)) == Some(CommittedState(t, p, cmd, task, row))
  {
  }

  lemma InsertSimulates(s: State, t: State, p: Pid, dbNow: Time)
    requires Simulates(s, t) && Step(PassThrough, s, InsertOk(p, dbNow)).Some?
    requires OneInserter(s.procs) && PendingIds(s.procs) <= s.rows.Keys
    ensures
      var task, cmd := s.procs[p].phase.task, s.procs[p].cmd;
      Simulates(
        Step(PassThrough, s, InsertOk(p, dbNow)).value, CommittedState(t, p, cmd, task, PendingRow(task, cmd, dbNow)))
  {
    var s' := Step(PassThrough, s, InsertOk(p, dbNow)).value;
    var task := s.procs[p].phase.task;
    PendingEnters(s.procs, s'.procs, p);
    EventIdsAppend(t.events, NewSubmitted(task, task.createdAt));
  }

  lemma AppendSimulates(s: State, t: State, p: Pid)
    requires Simulates(s, t) && Step(PassThrough, s, AppendOk(p)).Some? && OneInserter(s.procs)
    ensures Simulates(Step(PassThrough, s, AppendOk(p)).value, t)
  {
    var s' := Step(PassThrough, s, AppendOk(p)).value;
    PendingLeaves(s.procs, s'.procs, p);
    EventIdsAppend(s.events, NewSubmitted(s.procs[p].phase.task, s.procs[p].phase.task.createdAt));
  }

  lemma CommitSimulates(s: State, t: State, p: Pid)
    requires Simulates(s, t) && Step(PassThrough, s, Commit(p)).Some? && OneInserter(s.procs)
    ensures Simulates(Step(PassThrough, s, Commit(p)).value, t)
  {
    PendingStays(s.procs, Step(PassThrough, s, Commit(p)).value.procs, p);
  }

  /** Refinement. A clean pass-through run is simulated by an atomic run: same table, same
      answer to every call, and the same tasks told to the outbox but for the events that are
      still due; once none is due the two event logs tell of exactly the same tasks. */
  lemma {:induction false} PassThroughRefinesAtomic(run: Run)
    requires Exec(PassThrough, run).Some? && Clean(run)
    ensures Exec(Atomic, Atomize(run)).Some?
    ensures Simulates(Exec(PassThrough, run).value, Exec(Atomic, Atomize(run)).value)
  {
    if run.Then? {
      PassThroughRefinesAtomic(run.prev);
      RunKeepsInv(PassThrough, run.prev);
      PassThroughAccounting(run.prev);
      var s, t := Exec(PassThrough, run.prev).value, Exec(Atomic, Atomize(run.prev)).value;
      var a := run.act;
      if a.InsertOk? {
        WholeTransaction(s, t, a.p, a.dbNow);
        var r := Then(Atomize(run.prev), a);
        var task, cmd := s.procs[a.p].phase.task, s.procs[a.p].cmd;
        var row := PendingRow(task, cmd, a.dbNow);
        assert Exec(Atomic, r) == Some(InsertedState(t, a.p, cmd, task, row));
        assert Exec(Atomic, Then(r, AppendOk(a.p))) == Some(AppendedState(t, a.p, cmd, task, row));
        InsertSimulates(s, t, a.p, a.dbNow);
      } else if a.AppendOk? {
        AppendSimulates(s, t, a.p);
      } else if a.Commit? {
        CommitSimulates(s, t, a.p);
      } else {
        SameStepSimulates(s, t, a);
      }
    }
  }

  /** Clean runs lose nothing: with no event due, rows and events correspond one to one under
      the pass-through runner too. */
  lemma {:induction false} CleanRunsLoseNothing(run: Run)
    requires Exec(PassThrough, run).Some? && Clean(run)
    ensures Orphans(run) == {}
    ensures PendingIds(Exec(PassThrough, run).value.procs) == {} ==> Bijection(Exec(PassThrough, run).value)
  {
    if run.Then? {
      CleanRunsLoseNothing(run.prev);
    }
    PassThroughAccounting(run);
  }
}
