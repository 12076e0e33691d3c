/** The reference producer: every key is submitted twice, and the second answer is compared
    with the first. */
module Producer {
  import opened Results
  import opened Decimal

  /** The task id a submit was answered with, or None for any error. */
  type Reply = Option<string>

  function KeyFor(runID: string, pair: nat): string {
    runID + "-" + Itoa(pair)
  }

  /** A key is the run's id, a dash and the pair's number in decimal. */
  lemma KeyForReads(runID: string, pair: nat)
    ensures
      var key, n := KeyFor(runID, pair), |runID|;
      |key| > n + 1 && key[..n] == runID && key[n] == '-' && AllDigits(key[n + 1..]) && ValueOf(key[n + 1..]) == pair
  {
    ItoaReads(pair);
    assert KeyFor(runID, pair)[|runID| + 1..] == Itoa(pair);
  }

  lemma KeyForInjective(runID: string, j: nat, k: nat)
    requires KeyFor(runID, j) == KeyFor(runID, k)
    ensures j == k
  {
    KeyForReads(runID, j);
    KeyForReads(runID, k);
  }

  /** Both halves of the pair were answered, the first one with an id. */
  predicate Compared(replies: seq<Reply>, k: nat) {
    2 * k + 1 < |replies| && replies[2 * k].Some? && replies[2 * k + 1].Some? && replies[2 * k].value != ""
  }

  predicate Matched(replies: seq<Reply>, k: nat) {
    Compared(replies, k) && replies[2 * k] == replies[2 * k + 1]
  }

  ghost function MatchedPairs(replies: seq<Reply>, n: nat): set<nat> {
    set k: nat | k < n && 2 * k + 1 < n && Matched(replies, k)
  }

  ghost function MismatchedPairs(replies: seq<Reply>, n: nat): set<nat> {
    set k: nat | k < n && 2 * k + 1 < n && Compared(replies, k) && !Matched(replies, k)
  }

  ghost function Answers(replies: seq<Reply>, n: nat): set<nat>
    requires n <= |replies|
  {
    set j: nat | j < n && replies[j].Some?
  }

  lemma OneMoreReply(replies: seq<Reply>, n: nat)
    requires n < |replies|
    ensures Answers(replies, n + 1) == Answers(replies, n) + (if replies[n].Some? then {n} else {})
    ensures MatchedPairs(replies, n + 1) ==
      MatchedPairs(replies, n) + (if n % 2 == 1 && Matched(replies, n / 2) then {n / 2} else {})
    ensures MismatchedPairs(replies, n + 1) ==
      MismatchedPairs(replies, n) +
      (if n % 2 == 1 && Compared(replies, n / 2) && !Matched(replies, n / 2) then {n / 2} else {})
  {
    forall k: nat | 2 * k + 1 < n + 1 && 2 * k + 1 >= n ensures n % 2 == 1 && k == n / 2 {
    }
  }

  function One(b: bool): nat {
    if b then 1 else 0
  }

  lemma OneMoreCounted(replies: seq<Reply>, n: nat)
    requires n < |replies|
    ensures |Answers(replies, n + 1)| == |Answers(replies, n)| + One(replies[n].Some?)
    ensures |MatchedPairs(replies, n + 1)| ==
      |MatchedPairs(replies, n)| + One(n % 2 == 1 && Matched(replies, n / 2))
    ensures |MismatchedPairs(replies, n + 1)| ==
      |MismatchedPairs(replies, n)| + One(n % 2 == 1 && Compared(replies, n / 2) && !Matched(replies, n / 2))
  {
    OneMoreReply(replies, n);
    assert n / 2 !in MatchedPairs(replies, n) && n / 2 !in MismatchedPairs(replies, n);
  }

  /** The loop, given the reply each submit happens to get. Against any server at all: replayed
      counts exactly the pairs whose two answers are the same non-empty id, a replay is reported
      missing exactly for the pairs answered with two different ids, no answer is ever compared
      with one of another pair, and every submit is counted once. */
  method Run(runID: string, replies: seq<Reply>)
    returns (keys: seq<string>, created: nat, replayed: nat, failed: nat, missed: nat)
    ensures |keys| == |replies| && forall j :: 0 <= j < |keys| ==> keys[j] == KeyFor(runID, j / 2)
    ensures created + replayed + failed == |replies|
    ensures failed == |replies| - |Answers(replies, |replies|)|
    ensures replayed == |MatchedPairs(replies, |replies|)|
    ensures missed == |MismatchedPairs(replies, |replies|)|
  {
    keys, created, replayed, failed, missed := [], 0, 0, 0, 0;
    var n, lastID := 0, "";
    while n < |replies|
      invariant 0 <= n <= |replies| && |keys| == n
      invariant forall j :: 0 <= j < n ==> keys[j] == KeyFor(runID, j / 2)
      invariant created + replayed + failed == n
      invariant failed == n - |Answers(replies, n)|
      invariant replayed == |MatchedPairs(replies, n)|
      invariant missed == |MismatchedPairs(replies, n)|
      invariant n % 2 == 1 ==> lastID == if replies[n - 1].Some? then replies[n - 1].value else ""
    {
      OneMoreCounted(replies, n);
      var firstOfPair := n % 2 == 0;
      keys := keys + [KeyFor(runID, n / 2)];
      var reply := replies[n];
      n := n + 1;
      if reply.None? {
        failed := failed + 1;
        lastID := "";
      } else if firstOfPair {
        created := created + 1;
        lastID := reply.value;
      } else if lastID == "" {
        created := created + 1;
      } else if reply.value == lastID {
        replayed := replayed + 1;
      } else {
        missed := missed + 1;
        created := created + 1;
        lastID := reply.value;
      }
    }
  }
}
