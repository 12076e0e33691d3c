/** Task and Error bodies: the server's encoders, the client's streaming decoders, and what an
    object means to the latter. */
module ResponseCodec {
  import opened Results
  import opened Domain
  import opened JsonTokens
  import opened TokenReader
  import opened Bytes
  import opened RequiredFields

  datatype TaskDto = TaskDto(id: Uuid, status: string, createdAt: Time)

  datatype ErrorDto = ErrorDto(code: string, message: string)

  /** The text forms of ids and instants, which the ogen helpers write and read. */
  datatype Formats = Formats(
    uuidText: Uuid -> string, parseUuid: string -> Option<Uuid>,
    timeText: Time -> string, parseTime: string -> Option<Time>)

  const TASK_FIELDS := ["id", "status", "created_at"]
  const ERROR_FIELDS := ["code", "message"]

  // ----- what an object means

  predicate TaskMemberOk(f: Formats, m: Member) {
    (m.name == "id" ==> IsStr(m.value) && f.parseUuid(m.value[0].text).Some?) &&
    (m.name == "status" ==> IsStr(m.value)) &&
    (m.name == "created_at" ==> IsStr(m.value) && f.parseTime(m.value[0].text).Some?)
  }

  function TaskOk(f: Formats): Member -> bool {
    m => TaskMemberOk(f, m)
  }

  predicate ErrorMemberOk(m: Member) {
    (m.name == "code" ==> IsStr(m.value)) && (m.name == "message" ==> IsStr(m.value))
  }

  /** Of the first k names those no member has, in order. */
  function Absent(ms: seq<Member>, names: seq<string>, k: nat): seq<string>
    requires k <= |names|
  {
    if k == 0 then []
    else Absent(ms, names, k - 1) + if Last(ms, names[k - 1]).None? then [names[k - 1]] else []
  }

  function AbsentFrom(ms: seq<Member>, names: seq<string>): seq<string> {
    Absent(ms, names, |names|)
  }

  function UuidOf(f: Formats, v: Option<Raw>): Uuid {
    if v.Some? && f.parseUuid(TextOf(v)).Some? then f.parseUuid(TextOf(v)).value else 0
  }

  function TimeOf(f: Formats, v: Option<Raw>): Time {
    if v.Some? && f.parseTime(TextOf(v)).Some? then f.parseTime(TextOf(v)).value else 0
  }

  function TaskFields(f: Formats, ms: seq<Member>): TaskDto {
    TaskDto(UuidOf(f, Last(ms, "id")), TextOf(Last(ms, "status")), TimeOf(f, Last(ms, "created_at")))
  }

  function ErrorFields(ms: seq<Member>): ErrorDto {
    ErrorDto(TextOf(Last(ms, "code")), TextOf(Last(ms, "message")))
  }

  /** The task a list of members stands for. */
  function TaskOf(f: Formats, ms: seq<Member>): Result<TaskDto, DecodeError> {
    if !AllOk(ms, TaskOk(f)) then Err(Malformed)
    else if AbsentFrom(ms, TASK_FIELDS) != [] then Err(MissingFields(AbsentFrom(ms, TASK_FIELDS)))
    else Ok(TaskFields(f, ms))
  }

  function TaskAt(f: Formats, ts: Raw, i: nat): Result<TaskDto, DecodeError> {
    match ObjectAt(ts, i)
    case None => Err(Malformed)
    case Some(p) => TaskOf(f, p.members)
  }

  function ErrorOf(ms: seq<Member>): Result<ErrorDto, DecodeError> {
    if !AllOk(ms, ErrorMemberOk) then Err(Malformed)
    else if AbsentFrom(ms, ERROR_FIELDS) != [] then Err(MissingFields(AbsentFrom(ms, ERROR_FIELDS)))
    else Ok(ErrorFields(ms))
  }

  function ErrorAt(ts: Raw, i: nat): Result<ErrorDto, DecodeError> {
    match ObjectAt(ts, i)
    case None => Err(Malformed)
    case Some(p) => ErrorOf(p.members)
  }

  // ----- the bit set of seen fields against the members read

  ghost predicate SeenMatches(seen: bv8, ms: seq<Member>, names: seq<string>) {
    forall n: nat :: n < |names| ==> (Bit(seen, n) <==> Last(ms, names[n]).Some?)
  }

  lemma NothingSeen(names: seq<string>)
    ensures SeenMatches(0, [], names)
  {
    forall n: nat | n < |names| ensures !Bit(0, n) {
      ZeroBits(n);
    }
  }

  /** The member just read sets the bit of its name, or none when the name is unknown. */
  lemma SeenAfter(seen: bv8, ms: seq<Member>, names: seq<string>, m: Member, n: nat, later: bv8)
    requires SeenMatches(seen, ms, names) && |names| <= 8
    requires n <= |names| && forall k: nat :: k < |names| ==> (names[k] == m.name <==> k == n)
    requires later == if n < |names| then seen | Mask(n) else seen
    ensures SeenMatches(later, ms + [m], names)
  {
    forall k: nat | k < |names| ensures Bit(later, k) <==> Last(ms + [m], names[k]).Some? {
      LastAppend(ms, m, names[k]);
      if n < |names| {
        SetBit(seen, n, k);
      }
    }
  }

  lemma {:induction false} NamesOfMissing(miss: nat -> bool, ms: seq<Member>, names: seq<string>, k: nat)
    requires k <= |names| && forall n: nat :: n < k ==> (miss(n) <==> Last(ms, names[n]).None?)
    ensures NamesOf(names, ListBelow(miss, k)) == Absent(ms, names, k)
  {
    if k > 0 {
      NamesOfMissing(miss, ms, names, k - 1);
      NamesConcat(names, ListBelow(miss, k - 1), if miss(k - 1) then [k - 1] else []);
    }
  }

  /** When the mask asks for all named fields, what is reported missing is what is absent. */
  lemma ReportIsAbsent(seen: bv8, mask: bv8, ms: seq<Member>, names: seq<string>)
    requires SeenMatches(seen, ms, names) && |names| <= 8
    requires forall n: nat :: n < 8 ==> (Bit(mask, n) <==> n < |names|)
    ensures NamesOf(names, MissingList([seen], [mask])) == AbsentFrom(ms, names)
  {
    var miss := MissingFrom([seen], [mask]);
    forall n: nat | n < 8 ensures miss(n) <==> n < |names| && Last(ms, names[n]).None? {
      assert n / 8 == 0 && n % 8 == n;
    }
    ListSkips(miss, |names|, 8);
    NamesOfMissing(miss, ms, names, |names|);
  }

  lemma TaskMask()
    ensures forall n: nat :: n < 8 ==> (Bit(0x07, n) <==> n < 3)
  {
    forall n: nat | n < 8 ensures Bit(0x07, n) <==> n < 3 {
      if n >= 3 {
        ZeroBits(n - 3);
      }
      assert (0x07 as bv8) >> 1 == 0x03 && (0x03 as bv8) >> 1 == 0x01 && (0x01 as bv8) >> 1 == 0;
      assert n > 0 ==> Bit(0x07, n) == Bit(0x03, n - 1);
      assert n > 1 ==> Bit(0x03, n - 1) == Bit(0x01, n - 2);
      assert n > 2 ==> Bit(0x01, n - 2) == Bit(0, n - 3);
    }
  }

  lemma ErrorMask()
    ensures forall n: nat :: n < 8 ==> (Bit(0x03, n) <==> n < 2)
  {
    forall n: nat | n < 8 ensures Bit(0x03, n) <==> n < 2 {
      if n >= 2 {
        ZeroBits(n - 2);
      }
      assert (0x03 as bv8) >> 1 == 0x01 && (0x01 as bv8) >> 1 == 0;
      assert n > 0 ==> Bit(0x03, n) == Bit(0x01, n - 1);
      assert n > 1 ==> Bit(0x01, n - 1) == Bit(0, n - 2);
    }
  }

  // ----- the decoders

  function WithTaskMember(f: Formats, s: TaskDto, m: Member): TaskDto {
    if m.name == "id" then s.(id := UuidOf(f, Some(m.value)))
    else if m.name == "status" then s.(status := TextOf(Some(m.value)))
    else if m.name == "created_at" then s.(createdAt := TimeOf(f, Some(m.value)))
    else s
  }

  function TaskIndex(name: string): nat {
    if name == "id" then 0 else if name == "status" then 1 else if name == "created_at" then 2 else 3
  }

  lemma TaskIndexNames(name: string)
    ensures forall k: nat :: k < 3 ==> (TASK_FIELDS[k] == name <==> k == TaskIndex(name))
  {
    assert "id"[0] != "status"[0] && "id"[0] != "created_at"[0] && "status"[0] != "created_at"[0];
  }

  /** One turn of Task.Decode's object loop. */
  method DecodeTaskMember(d: Decoder, f: Formats, k: string, s0: TaskDto, seen: bv8)
    returns (ok: bool, s: TaskDto, requiredBitSet: bv8)
    requires d.Valid()
    modifies d`pos
    ensures d.Valid()
    ensures requiredBitSet == if TaskIndex(k) < 3 then seen | Mask(TaskIndex(k)) else seen
    ensures ok ==>
      SkipValue(d.input, old(d.pos)) == Some(d.pos) &&
      var m := Member(k, d.input[old(d.pos)..d.pos]);
      TaskMemberOk(f, m) && s == WithTaskMember(f, s0, m)
    ensures !ok ==>
      var end := SkipValue(d.input, old(d.pos));
      end.None? || !TaskMemberOk(f, Member(k, d.input[old(d.pos)..end.value]))
  {
    StrValue(d.input, d.pos);
    s, requiredBitSet, ok := s0, seen, true;
    if TaskIndex(k) < 3 {
      requiredBitSet := requiredBitSet | Mask(TaskIndex(k));
      var v := d.ReadStr();
      if v.None? {
        return false, s, requiredBitSet;
      }
      if k == "id" {
        var id := f.parseUuid(v.value);
        ok := id.Some?;
        s := if ok then s.(id := id.value) else s;
      } else if k == "status" {
        s := s.(status := v.value);
      } else {
        var at := f.parseTime(v.value);
        ok := at.Some?;
        s := if ok then s.(createdAt := at.value) else s;
      }
    } else {
      var v := d.ReadValue();
      ok := v.Some?;
    }
  }

  lemma TaskFieldsAppend(f: Formats, ms: seq<Member>, m: Member)
    ensures TaskFields(f, ms + [m]) == WithTaskMember(f, TaskFields(f, ms), m)
  {
    LastAppend(ms, m, "id");
    LastAppend(ms, m, "status");
    LastAppend(ms, m, "created_at");
  }

  /** The task decoder's loop state after the members in `done`. */
  ghost predicate TaskSoFar(
    input: Raw, start: nat, done: seq<Member>, pos: nat, f: Formats, s: TaskDto, seen: bv8)
  {
    ReadSoFar(input, start, done, pos) && s == TaskFields(f, done) && AllOk(done, TaskOk(f)) &&
    SeenMatches(seen, done, TASK_FIELDS)
  }

  lemma TaskStart(input: Raw, start: nat, f: Formats)
    requires start <= |input|
    ensures TaskSoFar(input, start, [], start, f, TaskDto(0, "", 0), 0)
  {
    NothingRead(input, start);
    NothingSeen(TASK_FIELDS);
  }

  /** Anything that is neither a good member nor the closing brace spoils the object. */
  lemma TaskSpoiled(input: Raw, start: nat, done: seq<Member>, pos: nat, f: Formats, s: TaskDto, seen: bv8)
    requires TaskSoFar(input, start, done, pos, f, s, seen) && start > 0 && input[start - 1].ObjOpen?
    requires pos < |input| ==> !input[pos].ObjClose?
    requires pos < |input| && input[pos].Key? && SkipValue(input, pos + 1).Some? ==>
      !TaskOk(f)(Member(input[pos].name, input[pos + 1..SkipValue(input, pos + 1).value]))
    ensures TaskAt(f, input, start - 1) == Err(Malformed)
  {
    if pos < |input| && input[pos].Key? {
      BadMemberRead(input, start, done, pos, TaskOk(f));
    }
  }

  lemma TaskTurn(
    input: Raw, start: nat, done: seq<Member>, pos: nat, next: nat, f: Formats, s: TaskDto, seen: bv8, m: Member, later: bv8)
    requires TaskSoFar(input, start, done, pos, f, s, seen) && pos < |input| && input[pos] == Key(m.name)
    requires SkipValue(input, pos + 1) == Some(next) && m.value == input[pos + 1..next] && TaskMemberOk(f, m)
    requires later == if TaskIndex(m.name) < 3 then seen | Mask(TaskIndex(m.name)) else seen
    ensures TaskSoFar(input, start, done + [m], next, f, WithTaskMember(f, s, m), later)
  {
    OneMemberRead(input, start, done, pos, next);
    AllOkAppend(done, m, TaskOk(f));
    TaskFieldsAppend(f, done, m);
    TaskIndexNames(m.name);
    SeenAfter(seen, done, TASK_FIELDS, m, TaskIndex(m.name), later);
  }

  /** After the closing brace: what the bit loop reports decides. */
  lemma TaskEnd(input: Raw, start: nat, done: seq<Member>, pos: nat, f: Formats, s: TaskDto, seen: bv8)
    requires TaskSoFar(input, start, done, pos, f, s, seen) && pos < |input| && input[pos].ObjClose?
    requires start > 0 && input[start - 1].ObjOpen?
    ensures
      var failures := NamesOf(TASK_FIELDS, MissingList([seen], [0x07]));
      TaskAt(f, input, start - 1) == (if failures != [] then Err(MissingFields(failures)) else Ok(s)) &&
      ObjectAt(input, start - 1).value.end == pos + 1
  {
    assert done + [] == done;
    TaskMask();
    ReportIsAbsent(seen, 0x07, done, TASK_FIELDS);
  }

  /** The object loop. */
  method ReadTaskMembers(d: Decoder, f: Formats) returns (ok: bool, s: TaskDto, requiredBitSet: bv8)
    requires d.Valid()
    modifies d`pos
    ensures d.Valid()
    ensures !ok ==> TaskAt(f, d.input, old(d.pos)) == Err(Malformed)
    ensures ok ==>
      var failures := NamesOf(TASK_FIELDS, MissingList([requiredBitSet], [0x07]));
      TaskAt(f, d.input, old(d.pos)) == (if failures != [] then Err(MissingFields(failures)) else Ok(s)) &&
      d.pos == ObjectAt(d.input, old(d.pos)).value.end
  {
    s, requiredBitSet := TaskDto(0, "", 0), 0;
    ok := d.OpenObject();
    if !ok {
      return;
    }
    ghost var start, done: seq<Member> := d.pos, [];
    TaskStart(d.input, start, f);
    while true
      invariant d.Valid() && TaskSoFar(d.input, start, done, d.pos, f, s, requiredBitSet)
      decreases |d.input| - d.pos
    {
      ghost var at := d.pos;
      var k := d.NextKey();
      if k.None? {
        ok := d.CloseObject();
        if !ok {
          TaskSpoiled(d.input, start, done, at, f, s, requiredBitSet);
          return;
        }
        TaskEnd(d.input, start, done, at, f, s, requiredBitSet);
        break;
      }
      ghost var s0, seen := s, requiredBitSet;
      ok, s, requiredBitSet := DecodeTaskMember(d, f, k.value, s, requiredBitSet);
      if !ok {
        TaskSpoiled(d.input, start, done, at, f, s0, seen);
        return;
      }
      ghost var m := Member(k.value, d.input[at + 1..d.pos]);
      TaskTurn(d.input, start, done, at, d.pos, f, s0, seen, m, requiredBitSet);
      done := done + [m];
    }
  }

  /** Task.Decode reads the task that the object at its position means. */
  method DecodeTask(d: Decoder, f: Formats) returns (r: Result<TaskDto, DecodeError>)
    requires d.Valid()
    modifies d`pos
    ensures d.Valid()
    ensures r == TaskAt(f, d.input, old(d.pos))
    ensures r.Ok? ==> d.pos == ObjectAt(d.input, old(d.pos)).value.end
  {
    var ok, s, requiredBitSet := ReadTaskMembers(d, f);
    if !ok {
      return Err(Malformed);
    }
    var failures := ReportMissing([requiredBitSet], [0x07], TASK_FIELDS);
    if |failures| > 0 {
      return Err(MissingFields(failures));
    }
    return Ok(s);
  }

  function WithErrorMember(s: ErrorDto, m: Member): ErrorDto {
    if m.name == "code" then s.(code := TextOf(Some(m.value)))
    else if m.name == "message" then s.(message := TextOf(Some(m.value)))
    else s
  }

  function ErrorIndex(name: string): nat {
    if name == "code" then 0 else if name == "message" then 1 else 2
  }

  lemma ErrorIndexNames(name: string)
    ensures forall k: nat :: k < 2 ==> (ERROR_FIELDS[k] == name <==> k == ErrorIndex(name))
  {
    assert "code"[0] != "message"[0];
  }

  lemma ErrorFieldsAppend(ms: seq<Member>, m: Member)
    ensures ErrorFields(ms + [m]) == WithErrorMember(ErrorFields(ms), m)
  {
    LastAppend(ms, m, "code");
    LastAppend(ms, m, "message");
  }

  /** The error decoder's loop state after the members in `done`. */
  ghost predicate ErrorSoFar(
    input: Raw, start: nat, done: seq<Member>, pos: nat, s: ErrorDto, seen: bv8)
  {
    ReadSoFar(input, start, done, pos) && s == ErrorFields(done) && AllOk(done, ErrorMemberOk) &&
    SeenMatches(seen, done, ERROR_FIELDS)
  }

  lemma ErrorStart(input: Raw, start: nat)
    requires start <= |input|
    ensures ErrorSoFar(input, start, [], start, ErrorDto("", ""), 0)
  {
    NothingRead(input, start);
    NothingSeen(ERROR_FIELDS);
  }

  /** Anything that is neither a good member nor the closing brace spoils the object. */
  lemma ErrorSpoiled(input: Raw, start: nat, done: seq<Member>, pos: nat, s: ErrorDto, seen: bv8)
    requires ErrorSoFar(input, start, done, pos, s, seen) && start > 0 && input[start - 1].ObjOpen?
    requires pos < |input| ==> !input[pos].ObjClose?
    requires pos < |input| && input[pos].Key? && SkipValue(input, pos + 1).Some? ==>
      !ErrorMemberOk(Member(input[pos].name, input[pos + 1..SkipValue(input, pos + 1).value]))
    ensures ErrorAt(input, start - 1) == Err(Malformed)
  {
    if pos < |input| && input[pos].Key? {
      BadMemberRead(input, start, done, pos, ErrorMemberOk);
    }
  }

  lemma ErrorTurn(
    input: Raw, start: nat, done: seq<Member>, pos: nat, next: nat, s: ErrorDto, seen: bv8, m: Member, later: bv8)
    requires ErrorSoFar(input, start, done, pos, s, seen) && pos < |input| && input[pos] == Key(m.name)
    requires SkipValue(input, pos + 1) == Some(next) && m.value == input[pos + 1..next] && ErrorMemberOk(m)
    requires later == if ErrorIndex(m.name) < 2 then seen | Mask(ErrorIndex(m.name)) else seen
    ensures ErrorSoFar(input, start, done + [m], next, WithErrorMember(s, m), later)
  {
    OneMemberRead(input, start, done, pos, next);
    AllOkAppend(done, m, ErrorMemberOk);
    ErrorFieldsAppend(done, m);
    ErrorIndexNames(m.name);
    SeenAfter(seen, done, ERROR_FIELDS, m, ErrorIndex(m.name), later);
  }

  /** One turn of Error.Decode's object loop. */
  method DecodeErrorMember(d: Decoder, k: string, s0: ErrorDto, seen: bv8)
    returns (ok: bool, s: ErrorDto, requiredBitSet: bv8)
    requires d.Valid()
    modifies d`pos
    ensures d.Valid()
    ensures requiredBitSet == if ErrorIndex(k) < 2 then seen | Mask(ErrorIndex(k)) else seen
    ensures ok ==>
      SkipValue(d.input, old(d.pos)) == Some(d.pos) &&
      var m := Member(k, d.input[old(d.pos)..d.pos]);
      ErrorMemberOk(m) && s == WithErrorMember(s0, m)
    ensures !ok ==>
      var end := SkipValue(d.input, old(d.pos));
      end.None? || !ErrorMemberOk(Member(k, d.input[old(d.pos)..end.value]))
  {
    StrValue(d.input, d.pos);
    s, requiredBitSet, ok := s0, seen, true;
    if ErrorIndex(k) < 2 {
      requiredBitSet := requiredBitSet | Mask(ErrorIndex(k));
      var v := d.ReadStr();
      ok := v.Some?;
      if ok {
        s := if k == "code" then s.(code := v.value) else s.(message := v.value);
      }
    } else {
      var v := d.ReadValue();
      ok := v.Some?;
    }
  }

  /** After the closing brace: what the bit loop reports decides. */
  lemma ErrorEnd(input: Raw, start: nat, done: seq<Member>, pos: nat, s: ErrorDto, seen: bv8)
    requires ErrorSoFar(input, start, done, pos, s, seen) && pos < |input| && input[pos].ObjClose?
    requires start > 0 && input[start - 1].ObjOpen?
    ensures
      var failures := NamesOf(ERROR_FIELDS, MissingList([seen], [0x03]));
      ErrorAt(input, start - 1) == (if failures != [] then Err(MissingFields(failures)) else Ok(s)) &&
      ObjectAt(input, start - 1).value.end == pos + 1
  {
    assert done + [] == done;
    ErrorMask();
    ReportIsAbsent(seen, 0x03, done, ERROR_FIELDS);
  }

  /** The object loop. */
  method ReadErrorMembers(d: Decoder) returns (ok: bool, s: ErrorDto, requiredBitSet: bv8)
    requires d.Valid()
    modifies d`pos
    ensures d.Valid()
    ensures !ok ==> ErrorAt(d.input, old(d.pos)) == Err(Malformed)
    ensures ok ==>
      var failures := NamesOf(ERROR_FIELDS, MissingList([requiredBitSet], [0x03]));
      ErrorAt(d.input, old(d.pos)) == (if failures != [] then Err(MissingFields(failures)) else Ok(s)) &&
      d.pos == ObjectAt(d.input, old(d.pos)).value.end
  {
    s, requiredBitSet := ErrorDto("", ""), 0;
    ok := d.OpenObject();
    if !ok {
      return;
    }
    ghost var start, done: seq<Member> := d.pos, [];
    ErrorStart(d.input, start);
    while true
      invariant d.Valid() && ErrorSoFar(d.input, start, done, d.pos, s, requiredBitSet)
      decreases |d.input| - d.pos
    {
      ghost var at := d.pos;
      var k := d.NextKey();
      if k.None? {
        ok := d.CloseObject();
        if !ok {
          ErrorSpoiled(d.input, start, done, at, s, requiredBitSet);
          return;
        }
        ErrorEnd(d.input, start, done, at, s, requiredBitSet);
        break;
      }
      ghost var s0, seen := s, requiredBitSet;
      ok, s, requiredBitSet := DecodeErrorMember(d, k.value, s, requiredBitSet);
      if !ok {
        ErrorSpoiled(d.input, start, done, at, s0, seen);
        return;
      }
      ghost var m := Member(k.value, d.input[at + 1..d.pos]);
      ErrorTurn(d.input, start, done, at, d.pos, s0, seen, m, requiredBitSet);
      done := done + [m];
    }
  }

  /** Error.Decode reads the error that the object at its position means. */
  method DecodeErrorBody(d: Decoder) returns (r: Result<ErrorDto, DecodeError>)
    requires d.Valid()
    modifies d`pos
    ensures d.Valid()
    ensures r == ErrorAt(d.input, old(d.pos))
    ensures r.Ok? ==> d.pos == ObjectAt(d.input, old(d.pos)).value.end
  {
    var ok, s, requiredBitSet := ReadErrorMembers(d);
    if !ok {
      return Err(Malformed);
    }
    var failures := ReportMissing([requiredBitSet], [0x03], ERROR_FIELDS);
    if |failures| > 0 {
      return Err(MissingFields(failures));
    }
    return Ok(s);
  }
}
