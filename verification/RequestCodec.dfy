/** The generated codec of CreateTaskRequest: the encoder, the streaming decoder with its bit
    set of seen fields, and what a body means as a list of members. */
module RequestCodec {
  import opened Results
  import opened Domain
  import opened JsonTokens
  import opened JsonGrammar
  import opened TokenReader
  import opened Bytes
  import opened RequiredFields

  /** OptString and OptCreateTaskRequestPayload: a value and whether it was set. */
  datatype Opt<T> = Opt(value: T, isSet: bool)

  /** A Go map of payload members: nil, or made. */
  datatype GoMap = Nil | Made(entries: Payload)

  datatype CreateTaskRequest = CreateTaskRequest(handler: string, payload: Opt<GoMap>, key: Opt<string>)

  /** Reading a nil map finds nothing. */
  function Entries(m: GoMap): Payload {
    if m.Nil? then map[] else m.entries
  }

  const UNSET_PAYLOAD: Opt<GoMap> := Opt(Nil, false)
  const UNSET_KEY: Opt<string> := Opt("", false)
  const FIELD_NAMES := ["handler", "payload", "idempotency_key"]

  // ----- what an object means

  predicate WellTypedMember(m: Member) {
    (m.name == "handler" ==> IsStr(m.value)) &&
    (m.name == "payload" ==> IsObject(m.value)) &&
    (m.name == "idempotency_key" ==> IsStr(m.value))
  }

  predicate WellTyped(ms: seq<Member>) {
    AllOk(ms, WellTypedMember)
  }

  function PayloadMembers(v: Raw): seq<Member> {
    match ObjectAt(v, 0)
    case None => []
    case Some(p) => p.members
  }

  /** The request a list of members stands for: of each known name the last member counts, and
      its value replaces whatever came before. */
  function Fields(ms: seq<Member>): CreateTaskRequest {
    var payload, key := Last(ms, "payload"), Last(ms, "idempotency_key");
    CreateTaskRequest(
      TextOf(Last(ms, "handler")),
      if payload.Some? then Opt(Made(AsMap(PayloadMembers(payload.value))), true) else UNSET_PAYLOAD,
      if key.Some? then Opt(TextOf(key), true) else UNSET_KEY)
  }

  function RequestOf(ms: seq<Member>): Result<CreateTaskRequest, DecodeError> {
    if !WellTyped(ms) then Err(Malformed)
    else if Last(ms, "handler").None? then Err(MissingFields(["handler"]))
    else Ok(Fields(ms))
  }

  function RequestAt(ts: Raw, i: nat): Result<CreateTaskRequest, DecodeError> {
    match ObjectAt(ts, i)
    case None => Err(Malformed)
    case Some(p) => RequestOf(p.members)
  }

  // ----- decoding

  lemma PayloadValue(input: Raw, i: nat, j: nat, p: Parsed)
    requires i < j <= |input| && ObjectAt(input, i) == Some(p) && p.end == j
    ensures SkipValue(input, i) == Some(j) && IsObject(input[i..j])
    ensures PayloadMembers(input[i..j]) == p.members
  {
    MembersSkip(input, i + 1);
    FlattenOfMembers(input, i + 1);
    assert input[i..j] == [ObjOpen] + input[i + 1..j];
    Regroup([ObjOpen], Flatten(p.members), [ObjClose]);
    ObjectRoundTrip(p.members);
  }

  /** The object loop of a payload. */
  method ReadEntries(d: Decoder) returns (r: Option<Payload>)
    requires d.Valid()
    modifies d`pos
    ensures d.Valid()
    ensures r.Some? <==> ObjectAt(d.input, old(d.pos)).Some?
    ensures r.Some? ==>
      var p := ObjectAt(d.input, old(d.pos)).value;
      d.pos == p.end && r.value == AsMap(p.members)
  {
    var m: Payload := map[];
    var ok := d.OpenObject();
    if !ok {
      return None;
    }
    ghost var start, done: seq<Member> := d.pos, [];
    NothingRead(d.input, start);
    while true
      invariant d.Valid() && ReadSoFar(d.input, start, done, d.pos) && m == AsMap(done)
      decreases |d.input| - d.pos
    {
      ghost var at := d.pos;
      var k := d.NextKey();
      if k.None? {
        ok := d.CloseObject();
        if !ok {
          return None;
        }
        assert done + [] == done;
        return Some(m);
      }
      var elem := d.ReadValue();
      if elem.None? {
        BadValueRead(d.input, start, done, at);
        return None;
      }
      OneMemberRead(d.input, start, done, at, d.pos);
      LastAppend(done, Member(k.value, elem.value), "");
      m := m[k.value := elem.value];
      done := done + [Member(k.value, elem.value)];
    }
  }

  /** CreateTaskRequestPayload.Decode: it reads the text of one JSON object, and a later member
      of the same name replaces an earlier. */
  method DecodePayload(d: Decoder) returns (r: Option<Payload>)
    requires d.Valid()
    modifies d`pos
    ensures d.Valid()
    ensures r.Some? <==> ObjectStands(d.input, old(d.pos))
    ensures r.Some? ==> old(d.pos) < d.pos && IsJsonObject(d.input[old(d.pos)..d.pos])
    ensures r.Some? <==> ObjectAt(d.input, old(d.pos)).Some?
    ensures r.Some? ==>
      var p := ObjectAt(d.input, old(d.pos)).value;
      d.pos == p.end && r.value == AsMap(p.members)
  {
    ObjectIsThere(d.input, d.pos);
    r := ReadEntries(d);
  }

  lemma HandlerMissing(seen: bv8)
    ensures NamesOf(FIELD_NAMES, MissingList([seen], [0x01])) == if Bit(seen, 0) then [] else ["handler"]
  {
    var fields := MissingList([seen], [0x01]);
    forall n: nat ensures Bit(0x01, n) <==> n == 0 {
      NoHighBits(n);
    }
    forall f: nat ensures f in fields <==> f == 0 && !Bit(seen, 0) {
      MissingMeans([seen], [0x01], f);
    }
    MissingMeans([seen], [0x01], 0);
    SingletonList(fields, 0);
  }

  lemma {:induction false} NoHighBits(n: nat)
    ensures Bit(0x01, n) <==> n == 0
  {
    if n > 0 {
      ZeroBits(n - 1);
      assert (0x01 as bv8) >> 1 == 0;
    }
  }

  lemma SingletonList(fields: seq<nat>, f: nat)
    requires Ascending(fields) && forall g :: g in fields ==> g == f
    ensures fields == if f in fields then [f] else []
  {
    assert |fields| <= 1 || fields[0] < fields[1];
    forall i | 0 <= i < |fields| ensures fields[i] == f {
      assert fields[i] in fields;
    }
    if |fields| == 1 {
      assert fields == [fields[0]];
    }
  }

  /** The request after one more member. */
  function WithMember(s: CreateTaskRequest, m: Member): CreateTaskRequest {
    if m.name == "handler" then s.(handler := TextOf(Some(m.value)))
    else if m.name == "payload" then s.(payload := Opt(Made(AsMap(PayloadMembers(m.value))), true))
    else if m.name == "idempotency_key" then s.(key := Opt(TextOf(Some(m.value)), true))
    else s
  }

  lemma FieldsAppend(done: seq<Member>, m: Member)
    ensures Fields(done + [m]) == WithMember(Fields(done), m)
    ensures Last(done + [m], "handler").Some? <==> Last(done, "handler").Some? || m.name == "handler"
  {
    LastAppend(done, m, "handler");
    LastAppend(done, m, "payload");
    LastAppend(done, m, "idempotency_key");
  }

  /** One turn of the object loop, its callback: the member named k, whose value comes next. */
  method DecodeMember(d: Decoder, k: string, s0: CreateTaskRequest, seen: bv8)
    returns (ok: bool, s: CreateTaskRequest, requiredBitSet: bv8)
    requires d.Valid()
    modifies d`pos
    ensures d.Valid()
    ensures requiredBitSet == if k == "handler" then seen | 1 else seen
    ensures ok ==>
      SkipValue(d.input, old(d.pos)) == Some(d.pos) &&
      var m := Member(k, d.input[old(d.pos)..d.pos]);
      WellTypedMember(m) && s == WithMember(s0, m)
    ensures !ok ==>
      var end := SkipValue(d.input, old(d.pos));
      end.None? || !WellTypedMember(Member(k, d.input[old(d.pos)..end.value]))
  {
    ghost var at := d.pos;
    StrValue(d.input, at);
    s, requiredBitSet, ok := s0, seen, true;
    match k {
      case "handler" =>
        requiredBitSet := requiredBitSet | 1;
        var v := d.ReadStr();
        ok := v.Some?;
        if ok {
          s := s.(handler := v.value);
        }
      case "payload" =>
        s := s.(payload := UNSET_PAYLOAD);
        var v := DecodePayload(d);
        ok := v.Some?;
        if ok {
          PayloadValue(d.input, at, d.pos, ObjectAt(d.input, at).value);
          s := s.(payload := Opt(Made(v.value), true));
        } else if at < |d.input| && d.input[at].ObjOpen? {
          MembersSkip(d.input, at + 1);
        }
      case "idempotency_key" =>
        s := s.(key := UNSET_KEY);
        var v := d.ReadStr();
        ok := v.Some?;
        if ok {
          s := s.(key := Opt(v.value, true));
        }
      case _ =>
        var v := d.ReadValue();
        ok := v.Some?;
    }
  }

  /** The request decoder's loop state after the members in `done`. */
  ghost predicate RequestSoFar(
    input: Raw, start: nat, done: seq<Member>, pos: nat, s: CreateTaskRequest, seen: bv8)
  {
    ReadSoFar(input, start, done, pos) && s == Fields(done) && WellTyped(done) &&
    (seen & 1 != 0 <==> Last(done, "handler").Some?)
  }

  lemma RequestStart(input: Raw, start: nat)
    requires start <= |input|
    ensures RequestSoFar(input, start, [], start, CreateTaskRequest("", UNSET_PAYLOAD, UNSET_KEY), 0)
  {
    NothingRead(input, start);
  }

  /** Anything that is neither a good member nor the closing brace spoils the object. */
  lemma RequestSpoiled(input: Raw, start: nat, done: seq<Member>, pos: nat, s: CreateTaskRequest, seen: bv8)
    requires RequestSoFar(input, start, done, pos, s, seen) && start > 0 && input[start - 1].ObjOpen?
    requires pos < |input| ==> !input[pos].ObjClose?
    requires pos < |input| && input[pos].Key? && SkipValue(input, pos + 1).Some? ==>
      !WellTypedMember(Member(input[pos].name, input[pos + 1..SkipValue(input, pos + 1).value]))
    ensures RequestAt(input, start - 1) == Err(Malformed)
  {
    if pos < |input| && input[pos].Key? {
      BadMemberRead(input, start, done, pos, WellTypedMember);
    }
  }

  lemma RequestTurn(
    input: Raw, start: nat, done: seq<Member>, pos: nat, next: nat, s: CreateTaskRequest, seen: bv8, m: Member)
    requires RequestSoFar(input, start, done, pos, s, seen) && pos < |input| && input[pos] == Key(m.name)
    requires SkipValue(input, pos + 1) == Some(next) && m.value == input[pos + 1..next] && WellTypedMember(m)
    ensures RequestSoFar(
      input, start, done + [m], next, WithMember(s, m), if m.name == "handler" then seen | 1 else seen)
  {
    OneMemberRead(input, start, done, pos, next);
    AllOkAppend(done, m, WellTypedMember);
    FieldsAppend(done, m);
  }

  /** After the closing brace: what the bit loop reports decides. */
  lemma RequestEnd(input: Raw, start: nat, done: seq<Member>, pos: nat, s: CreateTaskRequest, seen: bv8)
    requires RequestSoFar(input, start, done, pos, s, seen) && pos < |input| && input[pos].ObjClose?
    requires start > 0 && input[start - 1].ObjOpen?
    ensures
      var failures := NamesOf(FIELD_NAMES, MissingList([seen], [0x01]));
      RequestAt(input, start - 1) == (if failures != [] then Err(MissingFields(failures)) else Ok(s)) &&
      ObjectAt(input, start - 1).value.end == pos + 1
  {
    assert done + [] == done;
    HandlerMissing(seen);
  }

  /** The object loop. */
  method ReadMembers(d: Decoder) returns (ok: bool, s: CreateTaskRequest, requiredBitSet: bv8)
    requires d.Valid()
    modifies d`pos
    ensures d.Valid()
    ensures !ok ==> RequestAt(d.input, old(d.pos)) == Err(Malformed)
    ensures ok ==>
      var failures := NamesOf(FIELD_NAMES, MissingList([requiredBitSet], [0x01]));
      RequestAt(d.input, old(d.pos)) == (if failures != [] then Err(MissingFields(failures)) else Ok(s)) &&
      d.pos == ObjectAt(d.input, old(d.pos)).value.end
  {
    s, requiredBitSet := CreateTaskRequest("", UNSET_PAYLOAD, UNSET_KEY), 0;
    ok := d.OpenObject();
    if !ok {
      return;
    }
    ghost var start, done: seq<Member> := d.pos, [];
    RequestStart(d.input, start);
    while true
      invariant d.Valid() && RequestSoFar(d.input, start, done, d.pos, s, requiredBitSet)
      decreases |d.input| - d.pos
    {
      ghost var at := d.pos;
      var k := d.NextKey();
      if k.None? {
        ok := d.CloseObject();
        if !ok {
          RequestSpoiled(d.input, start, done, at, s, requiredBitSet);
          return;
        }
        RequestEnd(d.input, start, done, at, s, requiredBitSet);
        break;
      }
      ghost var s0, seen := s, requiredBitSet;
      ok, s, requiredBitSet := DecodeMember(d, k.value, s, requiredBitSet);
      if !ok {
        RequestSpoiled(d.input, start, done, at, s0, seen);
        return;
      }
      ghost var m := Member(k.value, d.input[at + 1..d.pos]);
      RequestTurn(d.input, start, done, at, d.pos, s0, seen, m);
      done := done + [m];
    }
  }

  /** CreateTaskRequest.Decode: the streaming decoder reads exactly the request that the object
      at its position means, duplicates and unknown members included, and fails when there is
      no such object, when any occurrence of a known member is ill typed, or when the handler
      was never sent. */
  method DecodeRequest(d: Decoder) returns (r: Result<CreateTaskRequest, DecodeError>)
    requires d.Valid()
    modifies d`pos
    ensures d.Valid()
    ensures r == RequestAt(d.input, old(d.pos))
    ensures r.Ok? ==> d.pos == ObjectAt(d.input, old(d.pos)).value.end
  {
    var ok, s, requiredBitSet := ReadMembers(d);
    if !ok {
      return Err(Malformed);
    }
    var failures := ReportMissing([requiredBitSet], [0x01], FIELD_NAMES);
    if |failures| > 0 {
      return Err(MissingFields(failures));
    }
    return Ok(s);
  }
}
