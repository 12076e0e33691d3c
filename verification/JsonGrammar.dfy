/** What a JSON value is (section 3 of RFC 8259): a tree with a text of its own. A token list is
    skipped as one value exactly when it is the text of such a tree. */
module JsonGrammar {
  import opened Results
  import opened Domain
  import opened JsonTokens

  datatype Json =
    | JStr(text: string)
    | JAtom(literal: string)          // a number, true, false or null
    | JArr(items: seq<Json>)
    | JObj(members: seq<JMember>)

  datatype JMember = JMember(name: string, value: Json)

  function Text(j: Json): Raw {
    match j
    case JStr(text) => [Str(text)]
    case JAtom(literal) => [Atom(literal)]
    case JArr(items) => [ArrOpen] + ItemsText(items) + [ArrClose]
    case JObj(members) => [ObjOpen] + MembersText(members) + [ObjClose]
  }

  function ItemsText(items: seq<Json>): Raw {
    if items == [] then [] else Text(items[0]) + ItemsText(items[1..])
  }

  function MembersText(members: seq<JMember>): Raw {
    if members == [] then []
    else [Key(members[0].name)] + Text(members[0].value) + MembersText(members[1..])
  }

  ghost predicate IsJson(v: Raw) {
    exists j :: v == Text(j)
  }

  ghost predicate IsJsonObject(v: Raw) {
    exists j: Json :: j.JObj? && v == Text(j)
  }

  // ----- texts are skipped as one value

  /** The members with the texts of their values. */
  function Rendered(members: seq<JMember>): seq<Member> {
    if members == [] then [] else [Member(members[0].name, Text(members[0].value))] + Rendered(members[1..])
  }

  lemma {:induction false} TextOfMembers(members: seq<JMember>)
    ensures Flatten(Rendered(members)) == MembersText(members)
  {
    if members != [] {
      TextOfMembers(members[1..]);
      FlattenMore(Member(members[0].name, Text(members[0].value)), Rendered(members[1..]));
    }
  }

  lemma ItemsOfMore(pre: Raw, v: Raw, rest: Raw)
    requires WellFormed(v) && !v[0].ArrClose?
    requires
      var ts := pre + v + rest;
      SkipItems(ts, |pre + v|) == Some(|ts|)
    ensures
      var ts := pre + (v + rest);
      SkipItems(ts, |pre|) == Some(|ts|)
  {
    var ts := pre + v + rest;
    Regroup(pre, v, rest);
    assert ts[|pre|..|pre + v|] == v && ts[|pre|] == v[0];
    SliceIsValue(ts, |pre|, |pre + v|);
  }

  lemma {:induction false} ItemsSkip(pre: Raw, items: seq<Json>)
    requires forall i :: 0 <= i < |items| ==> WellFormed(Text(items[i]))
    ensures
      var ts := pre + (ItemsText(items) + [ArrClose]);
      SkipItems(ts, |pre|) == Some(|ts|)
    decreases |items|
  {
    if items == [] {
      assert ItemsText(items) + [ArrClose] == [ArrClose];
    } else {
      var v, rest := Text(items[0]), ItemsText(items[1..]) + [ArrClose];
      assert !v[0].ArrClose?;
      ItemsSkip(pre + v, items[1..]);
      ItemsOfMore(pre, v, rest);
      Regroup(v, ItemsText(items[1..]), [ArrClose]);
    }
  }

  lemma {:induction false} TextIsSkipped(j: Json)
    ensures WellFormed(Text(j))
    decreases j, 1
  {
    match j
    case JStr(_) =>
    case JAtom(_) =>
    case JArr(items) =>
      forall i | 0 <= i < |items| ensures WellFormed(Text(items[i])) {
        TextIsSkipped(items[i]);
      }
      ItemsSkip([ArrOpen], items);
      Regroup([ArrOpen], ItemsText(items), [ArrClose]);
    case JObj(members) =>
      RenderedIsWellFormed(members);
      TextOfMembers(members);
      ObjectRoundTrip(Rendered(members));
  }

  lemma {:induction false} RenderedIsWellFormed(members: seq<JMember>)
    ensures ValuesWellFormed(Rendered(members))
    decreases members, 0
  {
    if members != [] {
      TextIsSkipped(members[0].value);
      RenderedIsWellFormed(members[1..]);
    }
  }

  // ----- what is skipped is the text of a tree

  lemma {:induction false} ValueHasTree(ts: Raw, i: nat) returns (j: Json)
    requires i <= |ts| && SkipValue(ts, i).Some?
    ensures ts[i..SkipValue(ts, i).value] == Text(j)
    ensures ts[i].ObjOpen? ==> j.JObj?
    decreases |ts| - i, 0
  {
    var end := SkipValue(ts, i).value;
    match ts[i]
    case Str(text) => j := JStr(text);
    case Atom(literal) => j := JAtom(literal);
    case ArrOpen =>
      var items := ItemsHaveTrees(ts, i + 1);
      j := JArr(items);
      CutOne(ts, i, end);
      Regroup([ArrOpen], ItemsText(items), [ArrClose]);
    case ObjOpen =>
      var members := MembersHaveTrees(ts, i + 1);
      j := JObj(members);
      CutOne(ts, i, end);
      Regroup([ObjOpen], MembersText(members), [ObjClose]);
  }

  lemma CutOne(ts: Raw, i: nat, end: nat)
    requires i < end <= |ts|
    ensures ts[i..end] == [ts[i]] + ts[i + 1..end]
  {
  }

  lemma CutAt(ts: Raw, i: nat, j: nat, end: nat)
    requires i <= j <= end <= |ts|
    ensures ts[i..end] == ts[i..j] + ts[j..end]
  {
  }

  lemma {:induction false} ItemsHaveTrees(ts: Raw, i: nat) returns (items: seq<Json>)
    requires i <= |ts| && SkipItems(ts, i).Some?
    ensures ts[i..SkipItems(ts, i).value] == ItemsText(items) + [ArrClose]
    decreases |ts| - i, 1
  {
    if ts[i].ArrClose? {
      items := [];
      CutOne(ts, i, i + 1);
    } else {
      var end, j := SkipItems(ts, i).value, SkipValue(ts, i).value;
      var first := ValueHasTree(ts, i);
      var rest := ItemsHaveTrees(ts, j);
      items := [first] + rest;
      CutAt(ts, i, j, end);
      assert items[1..] == rest;
      Regroup(Text(first), ItemsText(rest), [ArrClose]);
    }
  }

  lemma {:induction false} MembersHaveTrees(ts: Raw, i: nat) returns (members: seq<JMember>)
    requires i <= |ts| && SkipMembers(ts, i).Some?
    ensures ts[i..SkipMembers(ts, i).value] == MembersText(members) + [ObjClose]
    decreases |ts| - i, 1
  {
    if ts[i].ObjClose? {
      members := [];
      CutOne(ts, i, i + 1);
    } else {
      var end, j := SkipMembers(ts, i).value, SkipValue(ts, i + 1).value;
      var first := ValueHasTree(ts, i + 1);
      var rest := MembersHaveTrees(ts, j);
      members := [JMember(ts[i].name, first)] + rest;
      CutThree(ts, i, j, end);
      assert members[1..] == rest;
      Regroup([ts[i]] + Text(first), MembersText(rest), [ObjClose]);
    }
  }

  /** Exactly the texts of JSON values are skipped as one value. */
  lemma WellFormedIsJson(v: Raw)
    ensures WellFormed(v) <==> IsJson(v)
  {
    if WellFormed(v) {
      var j := ValueHasTree(v, 0);
      assert v[0..|v|] == v;
    }
    if IsJson(v) {
      var j :| v == Text(j);
      TextIsSkipped(j);
    }
  }

  /** One value is skipped from i to n exactly when the text of a JSON value stands there. */
  lemma SkipsJson(ts: Raw, i: nat, n: nat)
    requires i < n <= |ts|
    ensures SkipValue(ts, i) == Some(n) <==> IsJson(ts[i..n])
  {
    SliceIsValue(ts, i, n);
    WellFormedIsJson(ts[i..n]);
  }

  /** An object is parsed up to n exactly when the text of a JSON object stands there. */
  lemma ParsesJsonObject(ts: Raw, i: nat, n: nat)
    requires i < n <= |ts|
    ensures ObjectAt(ts, i).Some? && ObjectAt(ts, i).value.end == n <==> IsJsonObject(ts[i..n])
  {
    if ts[i].ObjOpen? {
      MembersSkip(ts, i + 1);
    }
    if ObjectAt(ts, i).Some? && ObjectAt(ts, i).value.end == n {
      var j := ValueHasTree(ts, i);
    }
    if IsJsonObject(ts[i..n]) {
      var j: Json :| j.JObj? && ts[i..n] == Text(j);
      assert ts[i] == ts[i..n][0];
      SkipsJson(ts, i, n);
    }
  }

  /** The text of a JSON object stands at i. */
  ghost predicate ObjectStands(ts: Raw, i: nat) {
    exists n :: i < n <= |ts| && IsJsonObject(ts[i..n])
  }

  lemma ObjectIsThere(ts: Raw, i: nat)
    requires i <= |ts|
    ensures ObjectAt(ts, i).Some? <==> ObjectStands(ts, i)
    ensures ObjectAt(ts, i).Some? ==> IsJsonObject(ts[i..ObjectAt(ts, i).value.end])
  {
    if ObjectAt(ts, i).Some? {
      ParsesJsonObject(ts, i, ObjectAt(ts, i).value.end);
    }
    if n :| i < n <= |ts| && IsJsonObject(ts[i..n]) {
      ParsesJsonObject(ts, i, n);
    }
  }

  // ----- texts that begin with an object

  /** The body begins with the text of an object with these members. */
  ghost predicate Stands(body: Raw, ms: seq<Member>, rest: Raw) {
    body == ObjectTokens(ms) + rest && forall i :: 0 <= i < |ms| ==> IsJson(ms[i].value)
  }

  lemma StandsIsParsed(body: Raw, ms: seq<Member>, rest: Raw)
    requires Stands(body, ms, rest)
    ensures ObjectAt(body, 0) == Some(Parsed(ms, |ObjectTokens(ms)|)) && |body| == |ObjectTokens(ms)| + |rest|
  {
    forall i | 0 <= i < |ms| ensures WellFormed(ms[i].value) {
      WellFormedIsJson(ms[i].value);
    }
    ObjectParses(ms, rest);
  }

  lemma ParsedStands(body: Raw)
    requires ObjectAt(body, 0).Some?
    ensures
      var p := ObjectAt(body, 0).value;
      Stands(body, p.members, body[p.end..])
  {
    var p := ObjectAt(body, 0).value;
    TextOfPrefix(body);
    forall i | 0 <= i < |p.members| ensures IsJson(p.members[i].value) {
      WellFormedIsJson(p.members[i].value);
    }
  }
}
