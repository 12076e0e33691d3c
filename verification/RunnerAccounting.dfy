/** Rows against Submitted events, in every reachable state of either transaction runner. The
    atomic runner keeps them one to one; the pass-through runner keeps every event paired with
    its row, and every row without an event is accounted for. */
module RunnerAccounting {
  import opened Results
  import opened Domain
  import opened TaskTable
  import opened SubmitProtocol
  import opened SubmitSafety
  import opened SubmitRuns

  ghost function EventIds(events: seq<Event>): set<Uuid> {
    set i | 0 <= i < |events| :: events[i].taskID
  }

  /** At most one event for a task, and each for a stored row with the same handler. */
  ghost predicate EventsSound(rows: Table, events: seq<Event>) {
    (forall i, j :: 0 <= i < j < |events| ==> events[i].taskID != events[j].taskID) &&
    (forall i :: 0 <= i < |events| ==>
       events[i].taskID in rows && rows[events[i].taskID].handler == events[i].handler)
  }

  lemma EventIdsAppend(events: seq<Event>, e: Event)
    ensures EventIds(events + [e]) == EventIds(events) + {e.taskID}
  {
    var later := events + [e];
    assert later[|events|] == e;
    forall id | id in EventIds(events) ensures id in EventIds(later) {
      var i :| 0 <= i < |events| && events[i].taskID == id;
      assert later[i].taskID == id;
    }
  }

  lemma EventsSoundAppend(rows: Table, later: Table, events: seq<Event>, e: Event)
    requires EventsSound(rows, events) && Extends(rows, later)
    requires e.taskID !in EventIds(events) && e.taskID in later && later[e.taskID].handler == e.handler
    ensures EventsSound(later, events + [e])
  {
    forall i | 0 <= i < |events| ensures events[i].taskID != e.taskID {
      assert events[i].taskID in EventIds(events);
    }
  }

  // ----- the atomic runner

  ghost predicate Bijection(s: State) {
    EventsSound(s.rows, s.events) && s.rows.Keys == EventIds(s.events)
  }

  /** An atomic step stores a row and its event together, or neither. */
  lemma AtomicStepTogether(s: State, a: Action)
    requires Inv(Atomic, s) && Step(Atomic, s, a).Some?
    ensures
      var s' := Step(Atomic, s, a).value;
      (s'.rows == s.rows && s'.events == s.events) ||
      (a.p in s.procs && s.procs[a.p].phase.Appended? &&
       var t, row := s.procs[a.p].phase.task, s.procs[a.p].phase.row;
       row.id == t.id && row.handler == t.handler && !Collides(s.rows, row.id, row.key) &&
       s'.rows == s.rows[row.id := row] && s'.events == s.events + [NewSubmitted(t, t.createdAt)])
  {
  }

  lemma AtomicStepKeepsBijection(s: State, a: Action)
    requires Inv(Atomic, s) && Step(Atomic, s, a).Some? && Bijection(s)
    ensures Bijection(Step(Atomic, s, a).value)
  {
    AtomicStepTogether(s, a);
    var s' := Step(Atomic, s, a).value;
    if s'.events != s.events {
      var t := s.procs[a.p].phase.task;
      EventIdsAppend(s.events, NewSubmitted(t, t.createdAt));
      EventsSoundAppend(s.rows, s'.rows, s.events, NewSubmitted(t, t.createdAt));
    }
  }

  /** Under the port's contract, committed rows and Submitted events correspond one to one,
      with equal id and handler, whatever crashed, failed or was rolled back. */
  lemma {:induction false} AtomicBijection(run: Run)
    requires Exec(Atomic, run).Some?
    ensures Bijection(Exec(Atomic, run).value)
    ensures |Exec(Atomic, run).value.events| == |Exec(Atomic, run).value.rows|
  {
    if run.Then? {
      AtomicBijection(run.prev);
      RunKeepsInv(Atomic, run.prev);
      AtomicStepKeepsBijection(Exec(Atomic, run.prev).value, run.act);
    }
    EventCount(Exec(Atomic, run).value.rows, Exec(Atomic, run).value.events);
    assert Exec(Atomic, run).value.rows.Keys == EventIds(Exec(Atomic, run).value.events);
  }

  lemma {:induction false} EventCount(rows: Table, events: seq<Event>)
    requires EventsSound(rows, events)
    ensures |EventIds(events)| == |events|
  {
    if events != [] {
      var front, e := events[..|events| - 1], events[|events| - 1];
      assert events == front + [e];
      EventCount(rows, front);
      EventIdsAppend(front, e);
      assert forall i :: 0 <= i < |front| ==> front[i].taskID == events[i].taskID != e.taskID;
    }
  }

  // ----- the pass-through runner

  /** Ids whose row is stored and whose event is still due. */
  ghost function PendingIds(procs: map<Pid, Proc>): set<Uuid> {
    set p | p in procs && procs[p].phase.Inserted? :: procs[p].phase.task.id
  }

  /** The rows a step leaves without an event for good: the INSERT took effect but its answer
      was lost, Append failed without effect, or the submitter crashed in between. */
  ghost function Orphaned(s: State, a: Action): set<Uuid> {
    if a.Call? || a.p !in s.procs then {}
    else
      var ph := s.procs[a.p].phase;
      if a.InsertFaults? && a.applied && ph.Minted? then {ph.task.id}
      else if ((a.AppendFaults? && !a.applied) || a.Crash?) && ph.Inserted? then {ph.task.id}
      else {}
  }

  ghost function Orphans(run: Run): set<Uuid> {
    if run.Begin? || Exec(PassThrough, run.prev).None? then {}
    else Orphans(run.prev) + Orphaned(Exec(PassThrough, run.prev).value, run.act)
  }

  ghost predicate OneInserter(procs: map<Pid, Proc>) {
    forall p, q :: p in procs && q in procs && p != q && procs[p].phase.Inserted? && procs[q].phase.Inserted? ==>
      procs[p].phase.task.id != procs[q].phase.task.id
  }

  /** Every row has its event, is waiting for it, or has lost it; exactly one of the three. */
  ghost predicate Accounted(s: State, orphans: set<Uuid>) {
    var told, pending := EventIds(s.events), PendingIds(s.procs);
    EventsSound(s.rows, s.events) && s.rows.Keys == told + pending + orphans &&
    told !! pending && told !! orphans && pending !! orphans && OneInserter(s.procs)
  }

  /** How one pass-through step moves the acting call's row between the three classes. */
  datatype Shift = Quiet | Inserts | Loses | Tells | Drops

  ghost predicate Shifts(s: State, a: Action, s': State, sh: Shift) {
    (forall q :: q in s'.procs && q != a.p ==> q in s.procs && s'.procs[q] == s.procs[q]) &&
    (forall q :: q in s.procs ==> q in s'.procs) &&
    var was := a.p in s.procs && s.procs[a.p].phase.Inserted?;
    var now := a.p in s'.procs && s'.procs[a.p].phase.Inserted?;
    match sh
    case Quiet => s'.rows == s.rows && s'.events == s.events && !was && !now && Orphaned(s, a) == {}
    case Inserts =>
      now && !was && s'.events == s.events && Orphaned(s, a) == {} &&
      var t := s'.procs[a.p].phase.task;
      t.id !in s.rows && s'.rows.Keys == s.rows.Keys + {t.id} && Extends(s.rows, s'.rows)
    case Loses =>
      !now && !was && a.p in s.procs && s.procs[a.p].phase.Minted? && s'.events == s.events &&
      var t := s.procs[a.p].phase.task;
      t.id !in s.rows && s'.rows.Keys == s.rows.Keys + {t.id} && Extends(s.rows, s'.rows) && Orphaned(s, a) == {t.id}
    case Tells =>
      was && !now && s'.rows == s.rows && Orphaned(s, a) == {} &&
      var t := s.procs[a.p].phase.task;
      t.id in s.rows && s.rows[t.id].handler == t.handler && s'.events == s.events + [NewSubmitted(t, t.createdAt)]
    case Drops =>
      was && !now && s'.rows == s.rows && s'.events == s.events && Orphaned(s, a) == {s.procs[a.p].phase.task.id}
  }

  ghost function ShiftOf(s: State, a: Action): Shift {
    match a
    case InsertOk(_, _) => Inserts
    case InsertFaults(_, _, applied, _) => if applied then Loses else Quiet
    case AppendOk(_) => Tells
    case AppendFaults(_, _, applied) => if applied then Tells else Drops
    case Crash(p) => if p in s.procs && s.procs[p].phase.Inserted? then Drops else Quiet
    case _ => Quiet
  }

  /** What the action does to the acting call's row and event. */
  ghost predicate OutcomeShifts(s: State, a: Action, ph: Phase, o: Outcome) {
    match ShiftOf(s, a)
    case Quiet => o.stores.None? && o.tells.None? && !ph.Inserted? && !o.phase.Inserted? && Orphaned(s, a) == {}
    case Inserts =>
      ph.Minted? && o.phase.Inserted? && o.stores == Some(o.phase.row) && o.tells.None? &&
      o.phase.row.id == o.phase.task.id && o.phase.task.id !in s.rows
    case Loses =>
      ph.Minted? && !o.phase.Inserted? && o.stores.Some? && o.tells.None? &&
      o.stores.value.id == ph.task.id && ph.task.id !in s.rows
    case Tells => ph.Inserted? && !o.phase.Inserted? && o.stores.None? && o.tells == Some(EventOf(ph.task))
    case Drops => ph.Inserted? && !o.phase.Inserted? && o.stores.None? && o.tells.None?
  }

  lemma NextShifts(s: State, a: Action, cmd: SubmitCommand, ph: Phase)
    requires Inv(PassThrough, s) && a.p in s.procs && s.procs[a.p] == Proc(cmd, ph)
    requires Next(PassThrough, s, a, cmd, ph).Some?
    ensures OutcomeShifts(s, a, ph, Next(PassThrough, s, a, cmd, ph).value)
  {
  }

  lemma StepShifts(s: State, a: Action)
    requires Inv(PassThrough, s) && Step(PassThrough, s, a).Some?
    ensures Shifts(s, a, Step(PassThrough, s, a).value, ShiftOf(s, a))
  {
    if !a.Call? {
      var pr := s.procs[a.p];
      NextShifts(s, a, pr.cmd, pr.phase);
      AppliedShifts(s, a, pr.cmd, pr.phase, Next(PassThrough, s, a, pr.cmd, pr.phase).value);
    }
  }

  lemma AppliedShifts(s: State, a: Action, cmd: SubmitCommand, ph: Phase, o: Outcome)
    requires Inv(PassThrough, s) && a.p in s.procs && s.procs[a.p] == Proc(cmd, ph) && !a.Call?
    requires OutcomeShifts(s, a, ph, o)
    ensures Shifts(s, a, Apply(s, a.p, cmd, o), ShiftOf(s, a))
  {
    match ShiftOf(s, a)
    case Tells => assert ProcOk(PassThrough, s.rows, s.procs[a.p]);
    case _ =>
  }

  lemma PendingLeaves(procs: map<Pid, Proc>, later: map<Pid, Proc>, p: Pid)
    requires OneInserter(procs) && p in procs && procs[p].phase.Inserted?
    requires p in later && !later[p].phase.Inserted?
    requires forall q :: q in later && q != p ==> q in procs && later[q] == procs[q]
    requires forall q :: q in procs ==> q in later
    ensures PendingIds(later) == PendingIds(procs) - {procs[p].phase.task.id} && OneInserter(later)
    ensures procs[p].phase.task.id in PendingIds(procs)
  {
    forall id | id in PendingIds(procs) && id != procs[p].phase.task.id ensures id in PendingIds(later) {
      var q :| q in procs && procs[q].phase.Inserted? && procs[q].phase.task.id == id;
      assert later[q] == procs[q];
    }
  }

  lemma PendingEnters(procs: map<Pid, Proc>, later: map<Pid, Proc>, p: Pid)
    requires OneInserter(procs) && p in later && later[p].phase.Inserted?
    requires p in procs ==> !procs[p].phase.Inserted?
    requires later[p].phase.task.id !in PendingIds(procs)
    requires forall q :: q in later && q != p ==> q in procs && later[q] == procs[q]
    requires forall q :: q in procs ==> q in later
    ensures PendingIds(later) == PendingIds(procs) + {later[p].phase.task.id} && OneInserter(later)
  {
    forall id | id in PendingIds(procs) ensures id in PendingIds(later) {
      var q :| q in procs && procs[q].phase.Inserted? && procs[q].phase.task.id == id;
      assert later[q] == procs[q];
    }
    forall q | q in procs && procs[q].phase.Inserted? ensures procs[q].phase.task.id in PendingIds(procs) {
    }
  }

  lemma PendingStays(procs: map<Pid, Proc>, later: map<Pid, Proc>, p: Pid)
    requires OneInserter(procs)
    requires p in procs ==> !procs[p].phase.Inserted?
    requires p in later ==> !later[p].phase.Inserted?
    requires forall q :: q in later && q != p ==> q in procs && later[q] == procs[q]
    requires forall q :: q in procs ==> q in later
    ensures PendingIds(later) == PendingIds(procs) && OneInserter(later)
  {
    forall id | id in PendingIds(procs) ensures id in PendingIds(later) {
      var q :| q in procs && procs[q].phase.Inserted? && procs[q].phase.task.id == id;
      assert later[q] == procs[q];
    }
  }

  lemma ShiftKeepsAccounts(s: State, a: Action, s': State, sh: Shift, orphans: set<Uuid>)
    requires Accounted(s, orphans) && Shifts(s, a, s', sh)
    ensures Accounted(s', orphans + Orphaned(s, a))
  {
    match sh
    case Quiet => PendingStays(s.procs, s'.procs, a.p);
    case Inserts => InsertingKeepsAccounts(s, a, s', orphans);
    case Loses => PendingStays(s.procs, s'.procs, a.p);
    case Tells => TellingKeepsAccounts(s, a, s', orphans);
    case Drops => PendingLeaves(s.procs, s'.procs, a.p);
  }

  lemma InsertingKeepsAccounts(s: State, a: Action, s': State, orphans: set<Uuid>)
    requires Accounted(s, orphans) && Shifts(s, a, s', Inserts)
    ensures Accounted(s', orphans)
  {
    PendingEnters(s.procs, s'.procs, a.p);
  }

  lemma TellingKeepsAccounts(s: State, a: Action, s': State, orphans: set<Uuid>)
    requires Accounted(s, orphans) && Shifts(s, a, s', Tells)
    ensures Accounted(s', orphans)
  {
    PendingLeaves(s.procs, s'.procs, a.p);
    var t := s.procs[a.p].phase.task;
    EventIdsAppend(s.events, NewSubmitted(t, t.createdAt));
    EventsSoundAppend(s.rows, s'.rows, s.events, NewSubmitted(t, t.createdAt));
  }

  /** Under the shipped pass-through, in every reachable state: events are at most one per row
      and never without one, and the rows without an event are exactly those whose submitter is
      still between Insert and Append, or stopped there. */
  lemma {:induction false} PassThroughAccounting(run: Run)
    requires Exec(PassThrough, run).Some?
    ensures Accounted(Exec(PassThrough, run).value, Orphans(run))
  {
    if run.Then? {
      PassThroughAccounting(run.prev);
      RunKeepsInv(PassThrough, run.prev);
      var s := Exec(PassThrough, run.prev).value;
      StepShifts(s, run.act);
      ShiftKeepsAccounts(s, run.act, Exec(PassThrough, run).value, ShiftOf(s, run.act), Orphans(run.prev));
    }
  }

  /** A lost event is never made up for, and no run of the atomic runner looks like it. */
  lemma LostEventsShow(run: Run, atomic: Run)
    requires Exec(PassThrough, run).Some? && Exec(Atomic, atomic).Some?
    requires Exec(Atomic, atomic).value.rows == Exec(PassThrough, run).value.rows
    requires EventIds(Exec(Atomic, atomic).value.events) == EventIds(Exec(PassThrough, run).value.events)
    ensures Orphans(run) == {} && PendingIds(Exec(PassThrough, run).value.procs) == {}
  {
    PassThroughAccounting(run);
    AtomicBijection(atomic);
  }
}
