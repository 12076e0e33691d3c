/** JSON text as tokens (section 4 of RFC 8259): skipping one value, and objects as lists of
    members in the order sent, duplicates and all. */
module JsonTokens {
  import opened Results
  import opened Domain

  datatype Member = Member(name: string, value: Raw)

  datatype Parsed = Parsed(members: seq<Member>, end: nat)

  // ----- skipping: the position after one value, or None when there is no well-formed value

  function SkipValue(ts: Raw, i: nat): (r: Option<nat>)
    requires i <= |ts|
    ensures r.Some? ==> i < r.value <= |ts|
    decreases |ts| - i, 0
  {
    if i == |ts| then None
    else match ts[i]
      case Str(_) => Some(i + 1)
      case Atom(_) => Some(i + 1)
      case ObjOpen => SkipMembers(ts, i + 1)
      case ArrOpen => SkipItems(ts, i + 1)
      case _ => None
  }

  /** From inside an object to behind its closing brace. */
  function SkipMembers(ts: Raw, i: nat): (r: Option<nat>)
    requires i <= |ts|
    ensures r.Some? ==> i < r.value <= |ts|
    decreases |ts| - i, 1
  {
    if i == |ts| then None
    else if ts[i].ObjClose? then Some(i + 1)
    else if !ts[i].Key? then None
    else match SkipValue(ts, i + 1)
      case None => None
      case Some(j) => SkipMembers(ts, j)
  }

  function SkipItems(ts: Raw, i: nat): (r: Option<nat>)
    requires i <= |ts|
    ensures r.Some? ==> i < r.value <= |ts|
    decreases |ts| - i, 1
  {
    if i == |ts| then None
    else if ts[i].ArrClose? then Some(i + 1)
    else match SkipValue(ts, i)
      case None => None
      case Some(j) => SkipItems(ts, j)
  }

  /** Exactly one value and nothing else. */
  predicate WellFormed(v: Raw) {
    SkipValue(v, 0) == Some(|v|)
  }

  /** The two token lists agree from i and from m on, for n tokens. */
  predicate Agree(ts: Raw, i: nat, us: Raw, m: nat, n: nat) {
    i + n <= |ts| && m + n <= |us| && forall k :: i <= k < i + n ==> ts[k] == us[k - i + m]
  }

  /** Skipping looks at nothing outside the value it skips. */
  lemma {:induction false} SkipValueLocal(ts: Raw, i: nat, us: Raw, m: nat, n: nat)
    requires i <= |ts| && m <= |us| && SkipValue(ts, i) == Some(i + n) && Agree(ts, i, us, m, n)
    ensures SkipValue(us, m) == Some(m + n)
    decreases n, 0
  {
    if ts[i].ObjOpen? {
      SkipMembersLocal(ts, i + 1, us, m + 1, n - 1);
    } else if ts[i].ArrOpen? {
      SkipItemsLocal(ts, i + 1, us, m + 1, n - 1);
    }
  }

  lemma {:induction false} SkipMembersLocal(ts: Raw, i: nat, us: Raw, m: nat, n: nat)
    requires i <= |ts| && m <= |us| && SkipMembers(ts, i) == Some(i + n) && Agree(ts, i, us, m, n)
    ensures SkipMembers(us, m) == Some(m + n)
    decreases n, 1
  {
    if !ts[i].ObjClose? {
      var d := SkipValue(ts, i + 1).value - (i + 1);
      SkipValueLocal(ts, i + 1, us, m + 1, d);
      SkipMembersLocal(ts, i + 1 + d, us, m + 1 + d, n - 1 - d);
    }
  }

  lemma {:induction false} SkipItemsLocal(ts: Raw, i: nat, us: Raw, m: nat, n: nat)
    requires i <= |ts| && m <= |us| && SkipItems(ts, i) == Some(i + n) && Agree(ts, i, us, m, n)
    ensures SkipItems(us, m) == Some(m + n)
    decreases n, 1
  {
    if !ts[i].ArrClose? {
      var d := SkipValue(ts, i).value - i;
      SkipValueLocal(ts, i, us, m, d);
      SkipItemsLocal(ts, i + d, us, m + d, n - d);
    }
  }

  /** A slice skipped as one value is one, and one value is skipped as such wherever it stands. */
  lemma SliceIsValue(ts: Raw, i: nat, j: nat)
    requires i < j <= |ts|
    ensures SkipValue(ts, i) == Some(j) <==> WellFormed(ts[i..j])
  {
    var v := ts[i..j];
    if SkipValue(ts, i) == Some(j) {
      SkipValueLocal(ts, i, v, 0, j - i);
    }
    if WellFormed(v) {
      SkipValueLocal(v, 0, ts, i, j - i);
    }
  }

  // ----- objects

  /** The members from inside an object to behind its closing brace. */
  function Members(ts: Raw, i: nat): (r: Option<Parsed>)
    requires i <= |ts|
    ensures r.Some? ==> i < r.value.end <= |ts|
    decreases |ts| - i
  {
    if i == |ts| then None
    else if ts[i].ObjClose? then Some(Parsed([], i + 1))
    else if !ts[i].Key? then None
    else match SkipValue(ts, i + 1)
      case None => None
      case Some(j) =>
        match Members(ts, j)
        case None => None
        case Some(rest) => Some(Parsed([Member(ts[i].name, ts[i + 1..j])] + rest.members, rest.end))
  }

  /** One member, and the members behind it. */
  lemma OneMember(ts: Raw, i: nat, j: nat, p: Parsed)
    requires i < |ts| && ts[i].Key? && SkipValue(ts, i + 1) == Some(j) && Members(ts, j) == Some(p)
    ensures Members(ts, i) == Some(Parsed([Member(ts[i].name, ts[i + 1..j])] + p.members, p.end))
  {
  }

  /** The object that stands at i, if one does. */
  function ObjectAt(ts: Raw, i: nat): Option<Parsed> {
    if i < |ts| && ts[i].ObjOpen? then Members(ts, i + 1) else None
  }

  function Flatten(ms: seq<Member>): Raw {
    if ms == [] then [] else [Key(ms[0].name)] + ms[0].value + Flatten(ms[1..])
  }

  function ObjectTokens(ms: seq<Member>): Raw {
    [ObjOpen] + Flatten(ms) + [ObjClose]
  }

  predicate ValuesWellFormed(ms: seq<Member>) {
    forall k :: 0 <= k < |ms| ==> WellFormed(ms[k].value)
  }

  lemma {:induction false} MembersSkip(ts: Raw, i: nat)
    requires i <= |ts|
    ensures Members(ts, i).Some? <==> SkipMembers(ts, i).Some?
    ensures Members(ts, i).Some? ==> Some(Members(ts, i).value.end) == SkipMembers(ts, i)
    ensures Members(ts, i).Some? ==> ValuesWellFormed(Members(ts, i).value.members)
    decreases |ts| - i
  {
    if i < |ts| && ts[i].Key? && SkipValue(ts, i + 1).Some? {
      var j := SkipValue(ts, i + 1).value;
      MembersSkip(ts, j);
      SliceIsValue(ts, i + 1, j);
    }
  }

  lemma FlattenMore(m: Member, rest: seq<Member>)
    ensures Flatten([m] + rest) == [Key(m.name)] + m.value + Flatten(rest)
  {
    assert ([m] + rest)[1..] == rest;
  }

  lemma TextSplits(pre: Raw, m: Member, rest: seq<Member>, tail: Raw, ts: Raw)
    requires ts == pre + Flatten([m] + rest) + tail && tail != []
    ensures
      var next := pre + [Key(m.name)] + m.value;
      ts == next + Flatten(rest) + tail && |next| <= |ts| &&
      ts[|pre|] == Key(m.name) && ts[|pre| + 1..|next|] == m.value
  {
    FlattenMore(m, rest);
  }

  lemma NoMembers(ts: Raw, i: nat)
    requires i < |ts| && ts[i].ObjClose?
    ensures Members(ts, i) == Some(Parsed([], i + 1))
  {
  }

  /** Printing and parsing an object are inverse, whatever stands before its members and behind
      its closing brace. */
  lemma {:induction false} MembersOfFlatten(pre: Raw, ms: seq<Member>, tail: Raw, ts: Raw)
    requires ts == pre + Flatten(ms) + tail && ValuesWellFormed(ms) && tail != [] && tail[0].ObjClose?
    ensures Members(ts, |pre|) == Some(Parsed(ms, |ts| - |tail| + 1))
    decreases |ms|
  {
    if ms == [] {
      assert ts == pre + tail;
      NoMembers(ts, |pre|);
    } else {
      var m, rest := ms[0], ms[1..];
      assert ms == [m] + rest && WellFormed(m.value);
      var next := pre + [Key(m.name)] + m.value;
      TextSplits(pre, m, rest, tail, ts);
      SliceIsValue(ts, |pre| + 1, |next|);
      MembersOfFlatten(next, rest, tail, ts);
      OneMember(ts, |pre|, |next|, Parsed(rest, |ts| - |tail| + 1));
    }
  }

  /** Whatever follows an object, it is parsed up to its end. */
  lemma ObjectParses(ms: seq<Member>, rest: Raw)
    requires ValuesWellFormed(ms)
    ensures ObjectAt(ObjectTokens(ms) + rest, 0) == Some(Parsed(ms, |ObjectTokens(ms)|))
  {
    assert ObjectTokens(ms) + rest == [ObjOpen] + Flatten(ms) + ([ObjClose] + rest);
    MembersOfFlatten([ObjOpen], ms, [ObjClose] + rest, ObjectTokens(ms) + rest);
  }

  lemma ObjectRoundTrip(ms: seq<Member>)
    requires ValuesWellFormed(ms)
    ensures ObjectAt(ObjectTokens(ms), 0) == Some(Parsed(ms, |ObjectTokens(ms)|))
    ensures WellFormed(ObjectTokens(ms))
  {
    ObjectParses(ms, []);
    assert ObjectTokens(ms) + [] == ObjectTokens(ms);
    MembersSkip(ObjectTokens(ms), 1);
  }

  lemma Regroup(a: Raw, b: Raw, c: Raw)
    ensures a + b + c == a + (b + c)
  {
  }

  lemma CutThree(ts: Raw, i: nat, j: nat, k: nat)
    requires i < j <= k <= |ts|
    ensures ts[i..k] == [ts[i]] + ts[i + 1..j] + ts[j..k]
  {
  }

  lemma {:induction false} FlattenOfMembers(ts: Raw, i: nat)
    requires i <= |ts| && Members(ts, i).Some?
    ensures ts[i..Members(ts, i).value.end] == Flatten(Members(ts, i).value.members) + [ObjClose]
    decreases |ts| - i
  {
    if ts[i].Key? {
      var j, p := SkipValue(ts, i + 1).value, Members(ts, i).value;
      var rest := Members(ts, j).value.members;
      FlattenOfMembers(ts, j);
      FlattenMore(Member(ts[i].name, ts[i + 1..j]), rest);
      CutThree(ts, i, j, p.end);
      Regroup([ts[i]] + ts[i + 1..j], Flatten(rest), [ObjClose]);
    }
  }

  /** The other direction: what parses as an object is the text of its members. */
  lemma TextOfPrefix(ts: Raw)
    requires ObjectAt(ts, 0).Some?
    ensures
      var p := ObjectAt(ts, 0).value;
      ts == ObjectTokens(p.members) + ts[p.end..] && ValuesWellFormed(p.members)
  {
    var p := ObjectAt(ts, 0).value;
    FlattenOfMembers(ts, 1);
    MembersSkip(ts, 1);
    assert ts == [ts[0]] + ts[1..p.end] + ts[p.end..];
    Regroup([ObjOpen], Flatten(p.members), [ObjClose]);
  }

  /** Whatever parses to its end is the text of its members. */
  lemma TextOfParse(ts: Raw)
    requires ObjectAt(ts, 0).Some? && ObjectAt(ts, 0).value.end == |ts|
    ensures ts == ObjectTokens(ObjectAt(ts, 0).value.members)
    ensures ValuesWellFormed(ObjectAt(ts, 0).value.members)
  {
    TextOfPrefix(ts);
  }

  // ----- lookups in a member list

  /** The value of the last member with this name. */
  function Last(ms: seq<Member>, name: string): Option<Raw> {
    if ms == [] then None
    else if ms[|ms| - 1].name == name then Some(ms[|ms| - 1].value)
    else Last(ms[..|ms| - 1], name)
  }

  /** The members as a map; of members with one name the last one stays. */
  function AsMap(ms: seq<Member>): Payload {
    if ms == [] then map[]
    else AsMap(ms[..|ms| - 1])[ms[|ms| - 1].name := ms[|ms| - 1].value]
  }

  lemma LastAppend(ms: seq<Member>, m: Member, name: string)
    ensures Last(ms + [m], name) == if m.name == name then Some(m.value) else Last(ms, name)
    ensures AsMap(ms + [m]) == AsMap(ms)[m.name := m.value]
  {
    assert (ms + [m])[..|ms|] == ms;
  }

  /** The map holds exactly the last member of each name. */
  lemma {:induction false} AsMapIsLast(ms: seq<Member>, name: string)
    ensures name in AsMap(ms) <==> Last(ms, name).Some?
    ensures name in AsMap(ms) ==> AsMap(ms)[name] == Last(ms, name).value
    ensures Last(ms, name).Some? ==> exists k :: 0 <= k < |ms| && ms[k] == Member(name, Last(ms, name).value)
  {
    if ms != [] {
      AsMapIsLast(ms[..|ms| - 1], name);
      assert ms[|ms| - 1] == Member(ms[|ms| - 1].name, ms[|ms| - 1].value);
    }
  }

  /** The last member of a name is the one behind which no other has it. */
  lemma {:induction false} LastMeans(ms: seq<Member>, name: string)
    ensures Last(ms, name).None? <==> forall k :: 0 <= k < |ms| ==> ms[k].name != name
    ensures Last(ms, name).Some? ==>
      exists k :: 0 <= k < |ms| && ms[k] == Member(name, Last(ms, name).value) &&
        forall l :: k < l < |ms| ==> ms[l].name != name
  {
    if ms != [] && ms[|ms| - 1].name != name {
      var front := ms[..|ms| - 1];
      LastMeans(front, name);
      if Last(front, name).Some? {
        var k :| 0 <= k < |front| && front[k] == Member(name, Last(front, name).value) &&
          forall l :: k < l < |front| ==> front[l].name != name;
        assert ms[k] == front[k];
      }
    }
  }

  predicate IsStr(v: Raw) {
    |v| == 1 && v[0].Str?
  }

  predicate IsObject(v: Raw) {
    |v| > 0 && v[0].ObjOpen?
  }

  function TextOf(v: Option<Raw>): string {
    if v.Some? && IsStr(v.value) then v.value[0].text else ""
  }

  /** The last text sent under this name, or "" when that is no text. */
  function SentText(ms: seq<Member>, name: string): string {
    TextOf(Last(ms, name))
  }
}
