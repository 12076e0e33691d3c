/** The two generated path searches: the one that serves a request and the one that only finds
    its route, over paths that need no unescaping. */
module Router {
  import opened Results

  const TASKS := "/v1/tasks"

  datatype Operation = CreateTask | GetTask(id: string)

  /** What ServeHTTP does with a request. */
  datatype Dispatch = Handle(op: Operation) | NotAllowed(allow: string) | NotFound

  // ----- the path grammar

  predicate SlashFree(s: string) {
    '/' !in s
  }

  /** The collection: the prefix followed by /v1/tasks. */
  predicate IsCollection(prefix: string, path: string) {
    path == prefix + "/v1/tasks"
  }

  /** One task: the prefix followed by /v1/tasks/ and one slash-free segment, perhaps empty. */
  predicate IsItem(prefix: string, path: string, segment: string) {
    path == prefix + "/v1/tasks" + "/" + segment && SlashFree(segment)
  }

  /** The operation of a method on a path. */
  ghost predicate Routes(prefix: string, httpMethod: string, path: string, op: Operation) {
    match op
    case CreateTask => httpMethod == "POST" && IsCollection(prefix, path)
    case GetTask(id) => httpMethod == "GET" && IsItem(prefix, path, id)
  }

  // ----- the searches

  predicate HasPrefix(s: string, prefix: string) {
    |s| >= |prefix| && s[..|prefix|] == prefix
  }

  /** strings.IndexByte, or the length when the byte is not there. */
  function IndexOf(s: string, c: char): (i: nat)
    ensures i <= |s| && c !in s[..i] && (i < |s| ==> s[i] == c)
  {
    if s == [] || s[0] == c then 0
    else
      var i := IndexOf(s[1..], c);
      assert s[..i + 1] == [s[0]] + s[1..][..i];
      i + 1
  }

  method CutPrefix(prefix: string, path: string) returns (elem: string, ok: bool)
    ensures ok <==> HasPrefix(path, prefix)
    ensures ok ==> path == prefix + elem
  {
    if prefix == "" {
      return path, true;
    }
    if !HasPrefix(path, prefix) {
      return "", false;
    }
    return path[|prefix|..], true;
  }

  lemma RestOfPath(prefix: string, path: string, elem: string)
    requires path == prefix + elem
    ensures IsCollection(prefix, path) <==> elem == TASKS
    ensures forall id :: IsItem(prefix, path, id) <==> elem == TASKS + "/" + id && SlashFree(id)
  {
    assert IsCollection(prefix, path) ==> (prefix + TASKS)[|prefix|..] == TASKS && path[|prefix|..] == elem;
    forall id ensures IsItem(prefix, path, id) <==> elem == TASKS + "/" + id && SlashFree(id) {
      assert prefix + TASKS + "/" + id == prefix + (TASKS + "/" + id);
      assert (prefix + (TASKS + "/" + id))[|prefix|..] == TASKS + "/" + id && path[|prefix|..] == elem;
    }
  }

  lemma NoPrefixNoRoute(prefix: string, path: string)
    requires !HasPrefix(path, prefix)
    ensures !IsCollection(prefix, path) && forall id :: !IsItem(prefix, path, id)
  {
    assert (prefix + TASKS)[..|prefix|] == prefix;
    forall id ensures !IsItem(prefix, path, id) {
      assert (prefix + TASKS + "/" + id)[..|prefix|] == prefix;
    }
  }

  /** What is left of the path after /v1/tasks decides. */
  lemma AfterTasks(elem: string, rest: string)
    requires elem == TASKS + rest
    ensures elem == TASKS <==> rest == ""
    ensures forall id :: elem == TASKS + "/" + id <==> rest == "/" + id
  {
    forall id ensures elem == TASKS + "/" + id <==> rest == "/" + id {
      assert TASKS + "/" + id == TASKS + ("/" + id);
      assert (TASKS + ("/" + id))[|TASKS|..] == "/" + id && elem[|TASKS|..] == rest;
    }
  }

  lemma NotUnderTasks(elem: string)
    requires !HasPrefix(elem, TASKS)
    ensures elem != TASKS && forall id :: elem != TASKS + "/" + id
  {
    forall id ensures elem != TASKS + "/" + id {
      assert (TASKS + "/" + id)[..|TASKS|] == TASKS;
    }
  }

  /** ServeHTTP: it dispatches exactly the routes of the grammar, refuses other methods on a
      path of the grammar, and finds nothing elsewhere. */
  method ServeHTTP(prefix: string, httpMethod: string, path: string) returns (r: Dispatch)
    ensures forall op :: r == Handle(op) <==> Routes(prefix, httpMethod, path, op)
    ensures r == NotAllowed("POST") <==> IsCollection(prefix, path) && httpMethod != "POST"
    ensures r == NotAllowed("GET") <==> (exists id :: IsItem(prefix, path, id)) && httpMethod != "GET"
    ensures r == NotFound <==> !IsCollection(prefix, path) && forall id :: !IsItem(prefix, path, id)
  {
    var elem, ok := CutPrefix(prefix, path);
    if !ok || |elem| == 0 {
      if ok {
        RestOfPath(prefix, path, elem);
      } else {
        NoPrefixNoRoute(prefix, path);
      }
      return NotFound;
    }
    RestOfPath(prefix, path, elem);
    if elem[0] == '/' && HasPrefix(elem, TASKS) {
      ghost var whole := elem;
      elem := elem[|TASKS|..];
      AfterTasks(whole, elem);
      if |elem| == 0 {
        return if httpMethod == "POST" then Handle(CreateTask) else NotAllowed("POST");
      }
      if elem[0] == '/' {
        elem := elem[1..];
        assert whole == TASKS + "/" + elem;
        var idx := IndexOf(elem, '/');
        if idx == |elem| {
          assert elem[..idx] == elem;
          assert IsItem(prefix, path, elem);
          return if httpMethod == "GET" then Handle(GetTask(elem)) else NotAllowed("GET");
        }
        assert elem[idx] in elem;
      }
    } else {
      NotUnderTasks(elem);
    }
    return NotFound;
  }

  datatype Route = Route(operationID: string, pathPattern: string, count: nat, args: seq<string>)

  /** FindPath: it succeeds exactly for the routes of the grammar; the collection is found as
      createTask without an argument, one task as getTask with its segment. */
  method FindPath(prefix: string, httpMethod: string, path: string) returns (r: Route, found: bool)
    ensures |r.args| == 1
    ensures found <==>
      (httpMethod == "POST" && IsCollection(prefix, path)) ||
      (httpMethod == "GET" && exists id :: IsItem(prefix, path, id))
    ensures httpMethod == "POST" && IsCollection(prefix, path) ==>
      r.operationID == "createTask" && r.pathPattern == "/v1/tasks" && r.count == 0
    ensures forall id :: httpMethod == "GET" && IsItem(prefix, path, id) ==>
      r.operationID == "getTask" && r.pathPattern == "/v1/tasks/{id}" && r.count == 1 && r.args[..1] == [id]
  {
    r := Route("", "", 0, [""]);
    var args := r.args;
    var elem, ok := CutPrefix(prefix, path);
    if !ok {
      NoPrefixNoRoute(prefix, path);
      return r, false;
    }
    RestOfPath(prefix, path, elem);
    if |elem| == 0 {
      return r, false;
    }
    if elem[0] == '/' && HasPrefix(elem, TASKS) {
      ghost var whole := elem;
      elem := elem[|TASKS|..];
      AfterTasks(whole, elem);
      if |elem| == 0 {
        if httpMethod == "POST" {
          r := Route("createTask", "/v1/tasks", 0, args);
          return r, true;
        }
        return r, false;
      }
      if elem[0] == '/' {
        elem := elem[1..];
        assert whole == TASKS + "/" + elem;
        var idx := IndexOf(elem, '/');
        if idx == |elem| {
          assert elem[..idx] == elem;
          args := args[0 := elem];
          assert IsItem(prefix, path, elem);
          if httpMethod == "GET" {
            r := Route("getTask", "/v1/tasks/{id}", 1, args);
            return r, true;
          }
          return r, false;
        }
        assert elem[idx] in elem;
      }
    } else {
      NotUnderTasks(elem);
    }
    return r, false;
  }

  /** A path has at most one reading: the grammar is unambiguous, so both searches, which agree
      with it, agree with each other in operation and argument. */
  lemma RoutesUnique(prefix: string, httpMethod: string, path: string, a: Operation, b: Operation)
    requires Routes(prefix, httpMethod, path, a) && Routes(prefix, httpMethod, path, b)
    ensures a == b
  {
    if a.GetTask? && b.GetTask? {
      var head := prefix + TASKS + "/";
      assert path == head + a.id && path == head + b.id;
      assert path[|head|..] == a.id && path[|head|..] == b.id;
    } else {
      assert "POST"[0] != "GET"[0];
    }
  }

  /** Running both searches on one request: one finds exactly what the other dispatches. */
  method BothSearches(prefix: string, httpMethod: string, path: string)
    returns (served: Dispatch, route: Route, found: bool)
    ensures found <==> served.Handle?
    ensures served == Handle(CreateTask) ==>
      route.operationID == "createTask" && route.pathPattern == "/v1/tasks" && route.count == 0
    ensures forall id :: served == Handle(GetTask(id)) ==>
      route.operationID == "getTask" && route.pathPattern == "/v1/tasks/{id}" && route.count == 1 &&
      |route.args| == 1 && route.args[..1] == [id]
  {
    served := ServeHTTP(prefix, httpMethod, path);
    route, found := FindPath(prefix, httpMethod, path);
    if served.Handle? {
      assert Routes(prefix, httpMethod, path, served.op);
    }
    if httpMethod == "POST" && IsCollection(prefix, path) {
      assert Routes(prefix, httpMethod, path, CreateTask);
    }
    if id :| httpMethod == "GET" && IsItem(prefix, path, id) {
      assert Routes(prefix, httpMethod, path, GetTask(id));
    }
  }
}
