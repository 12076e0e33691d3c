/** The producer against the submit protocol, over a transport that may lose any request or
    reply, with any other callers interleaved. */
module ProducerCheck {
  import opened Results
  import opened Domain
  import opened TaskTable
  import opened SubmitProtocol
  import opened SubmitSafety
  import opened SubmitRuns
  import opened Producer

  /** Each answer the producer received is the id its own call, with its own key, was answered
      with in the state s; a call without an answer may have come to anything. */
  ghost predicate Delivered(s: State, runID: string, calls: seq<Pid>, replies: seq<Reply>, idText: Uuid -> string) {
    |calls| == |replies| &&
    forall j :: 0 <= j < |replies| && replies[j].Some? ==> DeliveredOne(s, runID, calls[j], j / 2, replies[j].value, idText)
  }

  ghost predicate DeliveredOne(s: State, runID: string, p: Pid, pair: nat, text: string, idText: Uuid -> string) {
    p in s.procs && s.procs[p].cmd.idempotencyKey == KeyFor(runID, pair) &&
    s.procs[p].phase.Done? && s.procs[p].phase.reply.Ok? && text == idText(s.procs[p].phase.reply.value.id)
  }

  /** An answer received stays true of every later state, so all may be judged at the end. */
  lemma DeliveredStays(
    runner: Runner, run: Run, later: Run, runID: string, calls: seq<Pid>, replies: seq<Reply>, idText: Uuid -> string)
    requires Continues(run, later) && Exec(runner, later).Some? && Exec(runner, run).Some?
    requires Delivered(Exec(runner, run).value, runID, calls, replies, idText)
    ensures Delivered(Exec(runner, later).value, runID, calls, replies, idText)
  {
    HistoryIsStable(runner, run, later);
  }

  /** The rows stored under the keys of the first m pairs. */
  ghost function RowsOfRun(rows: Table, runID: string, m: nat): set<Uuid> {
    set id | id in rows && exists k: nat :: k < m && rows[id].key == Some(KeyFor(runID, k))
  }

  /** The pairs with an answer among the first n submits. */
  ghost function AnsweredPairs(replies: seq<Reply>, n: nat): set<nat>
    requires n <= |replies|
  {
    set j: nat | j < n && replies[j].Some? :: j / 2
  }

  lemma {:induction false} InjectionBounds<A, B>(f: map<A, B>, range: set<B>)
    requires forall a :: a in f ==> f[a] in range
    requires forall a, b :: a in f && b in f && f[a] == f[b] ==> a == b
    ensures |f| <= |range|
  {
    if f.Keys != {} {
      var a :| a in f;
      var rest := f - {a};
      assert rest.Keys == f.Keys - {a};
      InjectionBounds(rest, range - {f[a]});
      assert |rest.Keys| == |f.Keys| - 1;
    }
  }

  lemma DeliveredStored(runner: Runner, run: Run, p: Pid, runID: string, pair: nat, text: string, idText: Uuid -> string)
    requires Exec(runner, run).Some? && DeliveredOne(Exec(runner, run).value, runID, p, pair, text, idText)
    ensures
      var s := Exec(runner, run).value;
      var id := s.procs[p].phase.reply.value.id;
      id in s.rows && s.rows[id].key == Some(KeyFor(runID, pair)) && text == idText(id)
  {
    RunKeepsInv(runner, run);
    assert KeyFor(runID, pair) != "";
  }

  /** Both answers of a pair are the same: the missing-replay branch is never reached. */
  lemma NoReplayMissed(
    runner: Runner, run: Run, runID: string, calls: seq<Pid>, replies: seq<Reply>, idText: Uuid -> string)
    requires Exec(runner, run).Some? && Delivered(Exec(runner, run).value, runID, calls, replies, idText)
    ensures MismatchedPairs(replies, |replies|) == {}
    ensures forall k: nat :: Compared(replies, k) ==> Matched(replies, k)
  {
    forall k: nat | 2 * k + 1 < |replies| && replies[2 * k].Some? && replies[2 * k + 1].Some?
      ensures replies[2 * k] == replies[2 * k + 1]
    {
      var i, j := 2 * k, 2 * k + 1;
      assert i / 2 == k && j / 2 == k;
      DeliveredStored(runner, run, calls[i], runID, k, replies[i].value, idText);
      DeliveredStored(runner, run, calls[j], runID, k, replies[j].value, idText);
      var s := Exec(runner, run).value;
      OneRowPerKey(runner, run, s.procs[calls[i]].phase.reply.value.id, s.procs[calls[j]].phase.reply.value.id);
    }
  }

  lemma OneMoreAnswered(replies: seq<Reply>, n: nat)
    requires n < |replies|
    ensures AnsweredPairs(replies, n + 1) == AnsweredPairs(replies, n) + (if replies[n].Some? then {n / 2} else {})
    ensures n / 2 in AnsweredPairs(replies, n) <==> n % 2 == 1 && replies[n - 1].Some?
  {
    if n / 2 in AnsweredPairs(replies, n) {
      var j: nat :| j < n && replies[j].Some? && j / 2 == n / 2;
      assert j == n - 1;
    }
    if n % 2 == 1 && replies[n - 1].Some? {
      assert (n - 1) / 2 == n / 2;
    }
  }

  /** No replay goes missing and no answer is empty. */
  ghost predicate Smooth(replies: seq<Reply>) {
    (forall j :: 0 <= j < |replies| && replies[j].Some? ==> replies[j].value != "") &&
    (forall k: nat :: Compared(replies, k) ==> Matched(replies, k))
  }

  /** An answer is counted as a replay, or it is the first of its pair. */
  lemma AnswerCountedOnce(replies: seq<Reply>, n: nat)
    requires Smooth(replies) && n < |replies|
    ensures One(replies[n].Some?) ==
      One(n % 2 == 1 && Matched(replies, n / 2)) +
      One(replies[n].Some? && !(n % 2 == 1 && replies[n - 1].Some?))
  {
    if n % 2 == 1 {
      assert 2 * (n / 2) == n - 1 && 2 * (n / 2) + 1 == n;
    }
  }

  lemma AnsweredCounted(replies: seq<Reply>, n: nat)
    requires n < |replies|
    ensures |AnsweredPairs(replies, n + 1)| ==
      |AnsweredPairs(replies, n)| + One(replies[n].Some? && !(n % 2 == 1 && replies[n - 1].Some?))
  {
    OneMoreAnswered(replies, n);
    var pairs := AnsweredPairs(replies, n);
    if n / 2 in pairs {
      assert pairs + {n / 2} == pairs;
    } else {
      assert |pairs + {n / 2}| == |pairs| + 1;
    }
  }

  /** Then every pair with an answer is counted as created exactly once. */
  lemma {:induction false} CreatedIsAnsweredPairs(replies: seq<Reply>, n: nat)
    requires Smooth(replies) && n <= |replies|
    ensures |Answers(replies, n)| == |MatchedPairs(replies, n)| + |AnsweredPairs(replies, n)|
  {
    if n > 0 {
      CreatedIsAnsweredPairs(replies, n - 1);
      OneMoreCounted(replies, n - 1);
      AnsweredCounted(replies, n - 1);
      AnswerCountedOnce(replies, n - 1);
    } else {
      assert Answers(replies, 0) == {} && MatchedPairs(replies, 0) == {} && AnsweredPairs(replies, 0) == {};
    }
  }

  ghost function Below(m: nat): (ks: set<nat>)
    ensures |ks| == m && forall k: nat :: k in ks <==> k < m
  {
    if m == 0 then {} else Below(m - 1) + {m - 1}
  }

  lemma RowsAtMostPairs(runner: Runner, run: Run, runID: string, m: nat)
    requires Exec(runner, run).Some?
    ensures |RowsOfRun(Exec(runner, run).value.rows, runID, m)| <= m
  {
    RunKeepsInv(runner, run);
    var rows := Exec(runner, run).value.rows;
    var ids := RowsOfRun(rows, runID, m);
    ghost var f := map id | id in ids :: PairOf(rows, runID, m, id);
    assert f.Keys == ids;
    InjectionBounds(f, Below(m));
  }

  ghost function PairOf(rows: Table, runID: string, m: nat, id: Uuid): (k: nat)
    requires id in RowsOfRun(rows, runID, m)
    ensures k < m && rows[id].key == Some(KeyFor(runID, k))
  {
    var k: nat :| k < m && rows[id].key == Some(KeyFor(runID, k));
    k
  }

  lemma AnsweredAtMostRows(
    runner: Runner, run: Run, runID: string, calls: seq<Pid>, replies: seq<Reply>, idText: Uuid -> string)
    requires Exec(runner, run).Some? && Delivered(Exec(runner, run).value, runID, calls, replies, idText)
    ensures |AnsweredPairs(replies, |replies|)| <=
      |RowsOfRun(Exec(runner, run).value.rows, runID, (|replies| + 1) / 2)|
  {
    var s := Exec(runner, run).value;
    var pairs, m := AnsweredPairs(replies, |replies|), (|replies| + 1) / 2;
    forall k | k in pairs
      ensures exists id :: id in RowsOfRun(s.rows, runID, m) && s.rows[id].key == Some(KeyFor(runID, k))
    {
      var j: nat :| j < |replies| && replies[j].Some? && j / 2 == k;
      DeliveredStored(runner, run, calls[j], runID, k, replies[j].value, idText);
      assert s.procs[calls[j]].phase.reply.value.id in RowsOfRun(s.rows, runID, m);
    }
    ghost var f := map k | k in pairs :: RowOf(s.rows, runID, m, k);
    assert f.Keys == pairs;
    forall j, k | j in f && k in f && f[j] == f[k] ensures j == k {
      KeyForInjective(runID, j, k);
    }
    InjectionBounds(f, RowsOfRun(s.rows, runID, m));
  }

  ghost function RowOf(rows: Table, runID: string, m: nat, k: nat): (id: Uuid)
    requires exists id :: id in RowsOfRun(rows, runID, m) && rows[id].key == Some(KeyFor(runID, k))
    ensures id in RowsOfRun(rows, runID, m) && rows[id].key == Some(KeyFor(runID, k))
  {
    var id :| id in RowsOfRun(rows, runID, m) && rows[id].key == Some(KeyFor(runID, k));
    id
  }

  /** End to end: whatever is lost on the way and whoever else submits, the producer never sees
      a missing replay, and created (answers that were not counted as replays) is at most the
      number of rows under this run's keys, which is at most one for every two submits. */
  lemma {:induction false} ProducerSeesReplays(
    runner: Runner, run: Run, runID: string, calls: seq<Pid>, replies: seq<Reply>, idText: Uuid -> string)
    requires Exec(runner, run).Some? && Delivered(Exec(runner, run).value, runID, calls, replies, idText)
    requires forall u :: idText(u) != ""
    ensures
      var n := |replies|;
      var rows := RowsOfRun(Exec(runner, run).value.rows, runID, (n + 1) / 2);
      |MismatchedPairs(replies, n)| == 0 &&
      |Answers(replies, n)| - |MatchedPairs(replies, n)| <= |rows| <= (n + 1) / 2
  {
    NoReplayMissed(runner, run, runID, calls, replies, idText);
    assert Smooth(replies);
    CreatedIsAnsweredPairs(replies, |replies|);
    AnsweredAtMostRows(runner, run, runID, calls, replies, idText);
    RowsAtMostPairs(runner, run, runID, (|replies| + 1) / 2);
  }

  /** The loop itself, given the replies of such a server: no replay is reported missing, and its
      created counter never exceeds the rows stored under its keys. */
  method RunAgainstServer(
    ghost runner: Runner, ghost run: Run, runID: string, ghost calls: seq<Pid>, replies: seq<Reply>,
    ghost idText: Uuid -> string)
    returns (created: nat, replayed: nat, failed: nat, missed: nat)
    requires Exec(runner, run).Some? && Delivered(Exec(runner, run).value, runID, calls, replies, idText)
    requires forall u :: idText(u) != ""
    ensures missed == 0 && created + replayed + failed == |replies|
    ensures
      var rows := RowsOfRun(Exec(runner, run).value.rows, runID, (|replies| + 1) / 2);
      created <= |rows| <= (|replies| + 1) / 2
    ensures failed == |replies| - |Answers(replies, |replies|)| && replayed == |MatchedPairs(replies, |replies|)|
  {
    var keys;
    keys, created, replayed, failed, missed := Producer.Run(runID, replies);
    ProducerSeesReplays(runner, run, runID, calls, replies, idText);
  }
}
