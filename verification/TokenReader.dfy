/** The token reader the generated decoders share. Its position moves forward in place; the
    object loop of each decoder asks it for one member after another. */
module TokenReader {
  import opened Results
  import opened Domain
  import opened JsonTokens

  datatype DecodeError =
    | Malformed                          // syntax, or a member of the wrong type
    | MissingFields(names: seq<string>)  // required members not sent
    | Invalid(names: seq<string>)        // members that fail validation
    | TrailingData
    | BodyRequired
    | ContentType
    | UnexpectedStatus(status: nat)

  class Decoder {
    const input: Raw
    var pos: nat

    constructor (input: Raw)
      ensures this.input == input && pos == 0
    {
      this.input, pos := input, 0;
    }

    ghost predicate Valid()
      reads this
    {
      pos <= |input|
    }

    /** d.Str() */
    method ReadStr() returns (r: Option<string>)
      requires Valid()
      modifies `pos
      ensures Valid()
      ensures r.Some? <==> old(pos) < |input| && input[old(pos)].Str?
      ensures r.Some? ==> r.value == input[old(pos)].text && pos == old(pos) + 1
    {
      if pos < |input| && input[pos].Str? {
        r := Some(input[pos].text);
        pos := pos + 1;
      } else {
        r := None;
      }
    }

    /** d.Skip(), and d.RawAppend(nil): the tokens of one value. */
    method ReadValue() returns (r: Option<Raw>)
      requires Valid()
      modifies `pos
      ensures Valid()
      ensures r.Some? <==> SkipValue(input, old(pos)).Some?
      ensures r.Some? ==> SkipValue(input, old(pos)) == Some(pos) && r.value == input[old(pos)..pos]
    {
      match SkipValue(input, pos)
      case None => r := None;
      case Some(j) =>
        r := Some(input[pos..j]);
        pos := j;
    }

    /** The opening brace of d.ObjBytes. */
    method OpenObject() returns (ok: bool)
      requires Valid()
      modifies `pos
      ensures Valid()
      ensures ok <==> old(pos) < |input| && input[old(pos)].ObjOpen?
      ensures ok ==> pos == old(pos) + 1
    {
      ok := pos < |input| && input[pos].ObjOpen?;
      if ok {
        pos := pos + 1;
      }
    }

    /** The next member's name, or None at anything that is not a member. */
    method NextKey() returns (r: Option<string>)
      requires Valid()
      modifies `pos
      ensures Valid()
      ensures r.Some? <==> old(pos) < |input| && input[old(pos)].Key?
      ensures r.Some? ==> r.value == input[old(pos)].name && pos == old(pos) + 1
      ensures r.None? ==> pos == old(pos)
    {
      if pos < |input| && input[pos].Key? {
        r := Some(input[pos].name);
        pos := pos + 1;
      } else {
        r := None;
      }
    }

    /** The closing brace of d.ObjBytes. */
    method CloseObject() returns (ok: bool)
      requires Valid()
      modifies `pos
      ensures Valid()
      ensures ok <==> old(pos) < |input| && input[old(pos)].ObjClose?
      ensures ok ==> pos == old(pos) + 1
    {
      ok := pos < |input| && input[pos].ObjClose?;
      if ok {
        pos := pos + 1;
      }
    }
  }

  /** A value is a string exactly when its first token is one. */
  lemma StrValue(input: Raw, i: nat)
    requires i <= |input|
    ensures i < |input| && input[i].Str? ==> SkipValue(input, i) == Some(i + 1) && input[i..i + 1] == [input[i]]
    ensures SkipValue(input, i).Some? && IsStr(input[i..SkipValue(input, i).value]) ==> input[i].Str?
  {
  }

  /** The object loop after `done`: what is left to read completes the members read so far. */
  ghost predicate ReadSoFar(input: Raw, start: nat, done: seq<Member>, pos: nat) {
    start <= pos <= |input| &&
    match Members(input, pos)
    case None => Members(input, start).None?
    case Some(rest) => Members(input, start) == Some(Parsed(done + rest.members, rest.end))
  }

  lemma NothingRead(input: Raw, start: nat)
    requires start <= |input|
    ensures ReadSoFar(input, start, [], start)
  {
    if Members(input, start).Some? {
      assert [] + Members(input, start).value.members == Members(input, start).value.members;
    }
  }

  /** One more member read: its key at pos, its value up to next. */
  lemma OneMemberRead(input: Raw, start: nat, done: seq<Member>, pos: nat, next: nat)
    requires ReadSoFar(input, start, done, pos) && pos < |input| && input[pos].Key?
    requires SkipValue(input, pos + 1) == Some(next)
    ensures ReadSoFar(input, start, done + [Member(input[pos].name, input[pos + 1..next])], next)
  {
    var m := Member(input[pos].name, input[pos + 1..next]);
    if Members(input, next).Some? {
      var rest := Members(input, next).value.members;
      assert done + ([m] + rest) == done + [m] + rest;
    }
  }

  /** The value that could not be skipped makes the whole object malformed. */
  lemma BadValueRead(input: Raw, start: nat, done: seq<Member>, pos: nat)
    requires ReadSoFar(input, start, done, pos) && pos < |input| && input[pos].Key?
    requires SkipValue(input, pos + 1).None?
    ensures Members(input, start).None?
  {
  }

  predicate AllOk(ms: seq<Member>, ok: Member -> bool) {
    forall i :: 0 <= i < |ms| ==> ok(ms[i])
  }

  lemma AllOkAppend(ms: seq<Member>, m: Member, ok: Member -> bool)
    requires AllOk(ms, ok) && ok(m)
    ensures AllOk(ms + [m], ok)
  {
  }

  /** A member that is not ok, or no value at all, spoils the whole object. */
  lemma BadMemberRead(input: Raw, start: nat, done: seq<Member>, pos: nat, ok: Member -> bool)
    requires ReadSoFar(input, start, done, pos) && pos < |input| && input[pos].Key?
    requires SkipValue(input, pos + 1).Some? ==>
      !ok(Member(input[pos].name, input[pos + 1..SkipValue(input, pos + 1).value]))
    ensures Members(input, start).None? || !AllOk(Members(input, start).value.members, ok)
  {
    if SkipValue(input, pos + 1).Some? {
      var next := SkipValue(input, pos + 1).value;
      OneMemberRead(input, start, done, pos, next);
      if Members(input, next).Some? {
        assert Members(input, start).value.members[|done|] == Member(input[pos].name, input[pos + 1..next]);
      }
    }
  }
}
