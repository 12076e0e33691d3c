/** Go error values as trees: sentinels and typed errors at the leaves, `%w` wrapping and
    `errors.Join` above them, with the library's two searches over such a tree. */
module GoErrors {
  import opened Results

  datatype Error =
    | NotFound                       // domaintasks.ErrNotFound
    | Conflict                       // domaintasks.ErrConflict
    | NoRows                         // pgx.ErrNoRows
    | Pg(code: string)               // *pgconn.PgError
    | Opaque(text: string)           // anything else
    | DecodeRequest(inner: Error)    // *ogenerrors.DecodeRequestError
    | DecodeParams(inner: Error)     // *ogenerrors.DecodeParamsError
    | Wrap(text: string, inner: Error)
    | Join(parts: seq<Error>)

  const UNIQUE_VIOLATION := "23505"

  /** `errors.Is`: some node of the tree is the target. */
  predicate Is(e: Error, target: Error) {
    e == target ||
    match e
    case Wrap(_, inner) => Is(inner, target)
    case DecodeRequest(inner) => Is(inner, target)
    case DecodeParams(inner) => Is(inner, target)
    case Join(parts) => exists i :: 0 <= i < |parts| && Is(parts[i], target)
    case _ => false
  }

  /** `errors.As` for *pgconn.PgError: the code of the first such error met in a
      depth-first, left-to-right walk. */
  function FirstPg(e: Error): Option<string> {
    match e
    case Pg(code) => Some(code)
    case Wrap(_, inner) => FirstPg(inner)
    case DecodeRequest(inner) => FirstPg(inner)
    case DecodeParams(inner) => FirstPg(inner)
    case Join(parts) => FirstPgIn(parts)
    case _ => None
  }

  function FirstPgIn(parts: seq<Error>): Option<string> {
    if parts == [] then None
    else match FirstPg(parts[0])
      case Some(code) => Some(code)
      case None => FirstPgIn(parts[1..])
  }

  /** `errors.As` for the two ogen decode errors. */
  predicate HasDecodeRequest(e: Error) {
    match e
    case DecodeRequest(_) => true
    case Wrap(_, inner) => HasDecodeRequest(inner)
    case DecodeParams(inner) => HasDecodeRequest(inner)
    case Join(parts) => exists i :: 0 <= i < |parts| && HasDecodeRequest(parts[i])
    case _ => false
  }

  predicate HasDecodeParams(e: Error) {
    match e
    case DecodeParams(_) => true
    case Wrap(_, inner) => HasDecodeParams(inner)
    case DecodeRequest(inner) => HasDecodeParams(inner)
    case Join(parts) => exists i :: 0 <= i < |parts| && HasDecodeParams(parts[i])
    case _ => false
  }

  /** The only part of a PgError that is looked at is its code, never the constraint name. */
  predicate IsUniqueViolation(e: Error) {
    FirstPg(e) == Some(UNIQUE_VIOLATION)
  }

  /** Driver errors become domain sentinels; everything else passes through. */
  function Translate(e: Error): Error {
    if Is(e, NoRows) then NotFound else e
  }

  // ----- an independent reading: the leaves of the tree, left to right

  function Leaves(e: Error): seq<Error> {
    match e
    case Wrap(_, inner) => Leaves(inner)
    case DecodeRequest(inner) => Leaves(inner)
    case DecodeParams(inner) => Leaves(inner)
    case Join(parts) => LeavesOf(parts)
    case _ => [e]
  }

  function LeavesOf(parts: seq<Error>): seq<Error> {
    if parts == [] then [] else Leaves(parts[0]) + LeavesOf(parts[1..])
  }

  predicate IsSentinel(e: Error) {
    e.NotFound? || e.Conflict? || e.NoRows?
  }

  /** The code of the first PgError in a list of leaves. */
  function FirstCode(leaves: seq<Error>): Option<string> {
    if leaves == [] then None
    else if leaves[0].Pg? then Some(leaves[0].code)
    else FirstCode(leaves[1..])
  }

  lemma {:induction false} LeavesOfContains(parts: seq<Error>, target: Error)
    ensures target in LeavesOf(parts) <==> exists i :: 0 <= i < |parts| && target in Leaves(parts[i])
  {
    if parts != [] {
      LeavesOfContains(parts[1..], target);
      if i :| 0 <= i < |parts[1..]| && target in Leaves(parts[1..][i]) {
        assert parts[i + 1] == parts[1..][i];
      }
      if i :| 0 <= i < |parts| && target in Leaves(parts[i]) {
        assert i > 0 ==> parts[i] == parts[1..][i - 1];
      }
    }
  }

  /** `errors.Is` finds a sentinel at any depth of wrapping and joining, and only there. */
  lemma {:induction false} IsMeansLeaf(e: Error, target: Error)
    requires IsSentinel(target)
    ensures Is(e, target) <==> target in Leaves(e)
    decreases e
  {
    match e
    case Wrap(_, inner) => IsMeansLeaf(inner, target);
    case DecodeRequest(inner) => IsMeansLeaf(inner, target);
    case DecodeParams(inner) => IsMeansLeaf(inner, target);
    case Join(parts) =>
      LeavesOfContains(parts, target);
      forall i | 0 <= i < |parts| ensures Is(parts[i], target) <==> target in Leaves(parts[i]) {
        IsMeansLeaf(parts[i], target);
      }
    case _ =>
  }

  lemma {:induction false} FirstCodeConcat(a: seq<Error>, b: seq<Error>)
    ensures FirstCode(a + b) == if FirstCode(a).Some? then FirstCode(a) else FirstCode(b)
  {
    if a == [] {
      assert a + b == b;
    } else {
      assert (a + b)[1..] == a[1..] + b;
      FirstCodeConcat(a[1..], b);
    }
  }

  /** A unique violation is recognised exactly when the first PgError among the leaves, in
      order, carries SQLSTATE 23505; a second PgError behind it is never looked at. */
  lemma {:induction false} UniqueViolationIsFirstLeaf(e: Error)
    ensures FirstPg(e) == FirstCode(Leaves(e))
    ensures IsUniqueViolation(e) <==> FirstCode(Leaves(e)) == Some("23505")
    decreases e, 0
  {
    match e
    case Wrap(_, inner) => UniqueViolationIsFirstLeaf(inner);
    case DecodeRequest(inner) => UniqueViolationIsFirstLeaf(inner);
    case DecodeParams(inner) => UniqueViolationIsFirstLeaf(inner);
    case Join(parts) => FirstPgInLeaves(parts);
    case _ =>
  }

  lemma {:induction false} FirstPgInLeaves(parts: seq<Error>)
    ensures FirstPgIn(parts) == FirstCode(LeavesOf(parts))
    decreases parts, 0
  {
    if parts != [] {
      UniqueViolationIsFirstLeaf(parts[0]);
      FirstPgInLeaves(parts[1..]);
      FirstCodeConcat(Leaves(parts[0]), LeavesOf(parts[1..]));
    }
  }

  // ----- a second independent reading: all nodes, in the order errors.As visits them

  function Nodes(e: Error): seq<Error> {
    [e] +
    match e
    case Wrap(_, inner) => Nodes(inner)
    case DecodeRequest(inner) => Nodes(inner)
    case DecodeParams(inner) => Nodes(inner)
    case Join(parts) => NodesOf(parts)
    case _ => []
  }

  function NodesOf(parts: seq<Error>): seq<Error> {
    if parts == [] then [] else Nodes(parts[0]) + NodesOf(parts[1..])
  }

  lemma {:induction false} NodesOfContains(parts: seq<Error>, n: Error)
    ensures n in NodesOf(parts) <==> exists i :: 0 <= i < |parts| && n in Nodes(parts[i])
  {
    if parts != [] {
      NodesOfContains(parts[1..], n);
      if i :| 0 <= i < |parts[1..]| && n in Nodes(parts[1..][i]) {
        assert parts[i + 1] == parts[1..][i];
      }
      if i :| 0 <= i < |parts| && n in Nodes(parts[i]) {
        assert i > 0 ==> parts[i] == parts[1..][i - 1];
      }
    }
  }

  /** errors.Is finds exactly the errors that are a node of the tree. */
  lemma {:induction false} IsMeansNode(e: Error, target: Error)
    ensures Is(e, target) <==> target in Nodes(e)
    decreases e
  {
    match e
    case Wrap(_, inner) => IsMeansNode(inner, target);
    case DecodeRequest(inner) => IsMeansNode(inner, target);
    case DecodeParams(inner) => IsMeansNode(inner, target);
    case Join(parts) =>
      NodesOfContains(parts, target);
      forall i | 0 <= i < |parts| ensures Is(parts[i], target) <==> target in Nodes(parts[i]) {
        IsMeansNode(parts[i], target);
      }
    case _ =>
  }

  ghost predicate SomeDecodeRequest(nodes: seq<Error>) {
    exists i :: 0 <= i < |nodes| && nodes[i].DecodeRequest?
  }

  ghost predicate SomeDecodeParams(nodes: seq<Error>) {
    exists i :: 0 <= i < |nodes| && nodes[i].DecodeParams?
  }

  /** errors.As succeeds for a class of errors exactly when a node of the tree is of that class. */
  lemma {:induction false} DecodeErrorsAreNodes(e: Error)
    ensures HasDecodeRequest(e) <==> SomeDecodeRequest(Nodes(e))
    ensures HasDecodeParams(e) <==> SomeDecodeParams(Nodes(e))
    decreases e, 0
  {
    match e
    case Wrap(_, inner) => DecodeErrorsAreNodes(inner); OneMoreNode(e, Nodes(inner));
    case DecodeRequest(inner) => DecodeErrorsAreNodes(inner); OneMoreNode(e, Nodes(inner));
    case DecodeParams(inner) => DecodeErrorsAreNodes(inner); OneMoreNode(e, Nodes(inner));
    case Join(parts) => DecodeErrorsInNodes(parts); OneMoreNode(e, NodesOf(parts));
    case _ => OneMoreNode(e, []);
  }

  lemma OneMoreNode(e: Error, nodes: seq<Error>)
    ensures SomeDecodeRequest([e] + nodes) <==> e.DecodeRequest? || SomeDecodeRequest(nodes)
    ensures SomeDecodeParams([e] + nodes) <==> e.DecodeParams? || SomeDecodeParams(nodes)
  {
    NodesJoined([e], nodes);
    assert [e][0] == e;
  }

  lemma NodesJoined(a: seq<Error>, b: seq<Error>)
    ensures SomeDecodeRequest(a + b) <==> SomeDecodeRequest(a) || SomeDecodeRequest(b)
    ensures SomeDecodeParams(a + b) <==> SomeDecodeParams(a) || SomeDecodeParams(b)
  {
    assert forall i :: 0 <= i < |a| ==> (a + b)[i] == a[i];
    assert forall i :: 0 <= i < |b| ==> (a + b)[|a| + i] == b[i];
  }

  lemma {:induction false} DecodeErrorsInNodes(parts: seq<Error>)
    ensures (exists i :: 0 <= i < |parts| && HasDecodeRequest(parts[i])) <==> SomeDecodeRequest(NodesOf(parts))
    ensures (exists i :: 0 <= i < |parts| && HasDecodeParams(parts[i])) <==> SomeDecodeParams(NodesOf(parts))
    decreases parts, 0
  {
    if parts != [] {
      DecodeErrorsAreNodes(parts[0]);
      DecodeErrorsInNodes(parts[1..]);
      NodesJoined(Nodes(parts[0]), NodesOf(parts[1..]));
      assert forall i :: 0 <= i < |parts[1..]| ==> parts[1..][i] == parts[i + 1];
      assert forall i :: 1 <= i < |parts| ==> parts[i] == parts[1..][i - 1];
    }
  }

  /** An error tree that can come out of the database driver: no node of it belongs to the
      domain or to the generated HTTP layer. */
  predicate FromDriver(e: Error) {
    match e
    case NotFound => false
    case Conflict => false
    case DecodeRequest(_) => false
    case DecodeParams(_) => false
    case Wrap(_, inner) => FromDriver(inner)
    case Join(parts) => forall i :: 0 <= i < |parts| ==> FromDriver(parts[i])
    case _ => true
  }

  lemma {:induction false} DriverErrorsCarryNoDomain(e: Error)
    requires FromDriver(e)
    ensures !Is(e, NotFound) && !Is(e, Conflict) && !HasDecodeRequest(e) && !HasDecodeParams(e)
  {
    match e
    case Wrap(_, inner) => DriverErrorsCarryNoDomain(inner);
    case Join(parts) =>
      forall i | 0 <= i < |parts|
        ensures !Is(parts[i], NotFound) && !Is(parts[i], Conflict)
        ensures !HasDecodeRequest(parts[i]) && !HasDecodeParams(parts[i])
      {
        DriverErrorsCarryNoDomain(parts[i]);
      }
    case _ =>
  }
}
