/** Encoding a request, and the encoding's fit with the decoder. */
module RequestEncoding {
  import opened Results
  import opened Domain
  import opened JsonTokens
  import opened TokenReader
  import opened RequestCodec

  // ----- encoding

  /** Some order in which a map's keys can be visited. */
  ghost predicate IsOrder(p: Payload, order: seq<string>) {
    (forall k :: k in order <==> k in p) && forall i, j :: 0 <= i < j < |order| ==> order[i] != order[j]
  }

  function PayloadList(p: Payload, order: seq<string>): (ms: seq<Member>)
    requires forall k :: k in order ==> k in p
    ensures |ms| == |order| && forall i :: 0 <= i < |ms| ==> ms[i] == Member(order[i], p[order[i]])
  {
    seq(|order|, i requires 0 <= i < |order| => Member(order[i], p[order[i]]))
  }

  ghost function PayloadField(p: Opt<GoMap>, order: seq<string>): seq<Member>
    requires IsOrder(Entries(p.value), order)
  {
    if p.isSet then [Member("payload", ObjectTokens(PayloadList(Entries(p.value), order)))] else []
  }

  function KeyField(key: Opt<string>): seq<Member> {
    if key.isSet then [Member("idempotency_key", [Str(key.value)])] else []
  }

  ghost function RequestMembers(req: CreateTaskRequest, order: seq<string>): seq<Member>
    requires IsOrder(Entries(req.payload.value), order)
  {
    [Member("handler", [Str(req.handler)])] + PayloadField(req.payload, order) + KeyField(req.key)
  }

  ghost function RequestTokens(req: CreateTaskRequest, order: seq<string>): Raw
    requires IsOrder(Entries(req.payload.value), order)
  {
    ObjectTokens(RequestMembers(req, order))
  }

  lemma {:induction false} FlattenAppend(ms: seq<Member>, m: Member)
    ensures Flatten(ms + [m]) == Flatten(ms) + [Key(m.name)] + m.value
  {
    if ms == [] {
      assert [m][1..] == [];
    } else {
      assert (ms + [m])[1..] == ms[1..] + [m];
      FlattenAppend(ms[1..], m);
    }
  }

  lemma FlattenNext(p: Payload, order: seq<string>, k: string)
    requires k in p && forall n :: n in order ==> n in p
    ensures (forall n :: n in order + [k] ==> n in p) &&
      Flatten(PayloadList(p, order + [k])) == Flatten(PayloadList(p, order)) + ([Key(k)] + p[k])
  {
    assert PayloadList(p, order + [k]) == PayloadList(p, order) + [Member(k, p[k])];
    FlattenAppend(PayloadList(p, order), Member(k, p[k]));
  }

  /** jx.Encoder: tokens are appended to its buffer. */
  class Encoder {
    var out: Raw

    constructor ()
      ensures out == []
    {
      out := [];
    }

    method Put(t: Token)
      modifies this
      ensures out == old(out) + [t]
    {
      out := out + [t];
    }

    /** e.Raw: tokens written as they are, well formed or not. */
    method PutRaw(v: Raw)
      modifies this
      ensures out == old(out) + v
    {
      out := out + v;
    }
  }

  /** The keys visited so far, each once, are those not left. */
  ghost predicate Visited(p: Payload, order: seq<string>, left: set<string>) {
    left <= p.Keys && (forall k :: k in order <==> k in p && k !in left) &&
    forall i, j :: 0 <= i < j < |order| ==> order[i] != order[j]
  }

  lemma VisitNext(p: Payload, order: seq<string>, left: set<string>, k: string)
    requires Visited(p, order, left) && k in left
    ensures Visited(p, order + [k], left - {k})
  {
  }

  /** CreateTaskRequestPayload.Encode. An empty raw value leaves its name without a value. */
  method EncodePayload(e: Encoder, p: Payload) returns (ghost order: seq<string>)
    modifies e
    ensures IsOrder(p, order) && e.out == old(e.out) + ObjectTokens(PayloadList(p, order))
  {
    e.Put(ObjOpen);
    ghost var start := e.out;
    order := [];
    var left := p.Keys;
    while left != {}
      invariant Visited(p, order, left)
      invariant e.out == start + Flatten(PayloadList(p, order))
      decreases left
    {
      var k :| k in left;
      Regroup(start, Flatten(PayloadList(p, order)), [Key(k)] + p[k]);
      e.Put(Key(k));
      if |p[k]| != 0 {
        e.PutRaw(p[k]);
      }
      FlattenNext(p, order, k);
      VisitNext(p, order, left, k);
      order := order + [k];
      left := left - {k};
    }
    Regroup(old(e.out), [ObjOpen], Flatten(PayloadList(p, order)));
    e.Put(ObjClose);
    Regroup(old(e.out), [ObjOpen] + Flatten(PayloadList(p, order)), [ObjClose]);
  }

  lemma FlattenOne(m: Member)
    ensures Flatten([m]) == [Key(m.name)] + m.value
  {
    FlattenMore(m, []);
    assert [m] + [] == [m];
  }

  lemma FlattenConcat(a: seq<Member>, b: seq<Member>)
    requires |b| <= 1
    ensures Flatten(a + b) == Flatten(a) + Flatten(b)
  {
    if b == [] {
      assert a + b == a;
    } else {
      var m := b[0];
      assert b == [m];
      FlattenAppend(a, m);
      FlattenOne(m);
      Regroup(Flatten(a), [Key(m.name)], m.value);
    }
  }

  lemma SomeOrder(p: Payload) returns (order: seq<string>)
    ensures IsOrder(p, order)
    decreases p.Keys
  {
    if p.Keys == {} {
      order := [];
    } else {
      var k :| k in p;
      order := SomeOrder(p - {k});
      order := order + [k];
    }
  }

  /** OptCreateTaskRequestPayload and its field name, when set. */
  method EncodePayloadField(e: Encoder, p: Opt<GoMap>) returns (ghost order: seq<string>)
    modifies e
    ensures IsOrder(Entries(p.value), order) && e.out == old(e.out) + Flatten(PayloadField(p, order))
  {
    if p.isSet {
      e.Put(Key("payload"));
      order := EncodePayload(e, Entries(p.value));
      FlattenOne(Member("payload", ObjectTokens(PayloadList(Entries(p.value), order))));
    } else {
      order := SomeOrder(Entries(p.value));
    }
  }

  method EncodeKeyField(e: Encoder, key: Opt<string>)
    modifies e
    ensures e.out == old(e.out) + Flatten(KeyField(key))
  {
    if key.isSet {
      e.Put(Key("idempotency_key"));
      e.Put(Str(key.value));
      FlattenOne(Member("idempotency_key", [Str(key.value)]));
    }
  }

  lemma RegroupFields(was: Raw, key: Raw, val: Raw, p: Raw, k: Raw, open: Raw, close: Raw)
    ensures was + (open + (key + val + p + k) + close) == was + open + key + val + p + k + close
  {
    Regroup(was, open, key + val + p + k);
    Regroup(was, open + (key + val + p + k), close);
    Regroup(was + open, key + val + p, k);
    Regroup(was + open, key + val, p);
    Regroup(was + open, key, val);
  }

  lemma FieldsInOrder(req: CreateTaskRequest, order: seq<string>)
    requires IsOrder(Entries(req.payload.value), order)
    ensures Flatten(RequestMembers(req, order)) ==
      [Key("handler")] + [Str(req.handler)] + Flatten(PayloadField(req.payload, order)) + Flatten(KeyField(req.key))
  {
    var h, p := [Member("handler", [Str(req.handler)])], PayloadField(req.payload, order);
    FlattenOne(h[0]);
    FlattenConcat(h, p);
    FlattenConcat(h + p, KeyField(req.key));
  }

  /** CreateTaskRequest.Encode, for whatever order the payload map is visited in. */
  method EncodeRequest(e: Encoder, req: CreateTaskRequest) returns (ghost order: seq<string>)
    modifies e
    ensures IsOrder(Entries(req.payload.value), order) && e.out == old(e.out) + RequestTokens(req, order)
  {
    e.Put(ObjOpen);
    e.Put(Key("handler"));
    e.Put(Str(req.handler));
    order := EncodePayloadField(e, req.payload);
    EncodeKeyField(e, req.key);
    e.Put(ObjClose);
    FieldsInOrder(req, order);
    RegroupFields(old(e.out), [Key("handler")], [Str(req.handler)], Flatten(PayloadField(req.payload, order)),
                  Flatten(KeyField(req.key)), [ObjOpen], [ObjClose]);
  }

  // ----- round trip

  /** Unset options are zero, a set payload is not nil, and every payload member is one well-formed value. */
  predicate Representable(req: CreateTaskRequest) {
    (!req.payload.isSet ==> req.payload == UNSET_PAYLOAD) && (!req.key.isSet ==> req.key == UNSET_KEY) &&
    (req.payload.isSet ==> req.payload.value.Made?) &&
    forall k :: k in Entries(req.payload.value) ==> WellFormed(Entries(req.payload.value)[k])
  }

  lemma {:induction false} MemberHasLast(ms: seq<Member>, i: nat)
    requires i < |ms|
    ensures Last(ms, ms[i].name).Some?
  {
    if i < |ms| - 1 {
      MemberHasLast(ms[..|ms| - 1], i);
    }
  }

  lemma AsMapOfList(p: Payload, order: seq<string>)
    requires IsOrder(p, order)
    ensures AsMap(PayloadList(p, order)) == p
  {
    var ms := PayloadList(p, order);
    forall k ensures k in AsMap(ms) <==> k in p {
      AsMapIsLast(ms, k);
      if k in order {
        var i :| 0 <= i < |order| && order[i] == k;
        MemberHasLast(ms, i);
      }
    }
    forall k | k in p ensures AsMap(ms)[k] == p[k] {
      AsMapIsLast(ms, k);
    }
  }

  lemma LastOfConcat(a: seq<Member>, b: seq<Member>, name: string)
    requires |b| <= 1
    ensures Last(a + b, name) == if Last(b, name).Some? then Last(b, name) else Last(a, name)
  {
    if b == [] {
      assert a + b == a;
    } else {
      LastAppend(a, b[0], name);
      LastAppend([], b[0], name);
      assert [] + [b[0]] == b && a + b == a + [b[0]];
    }
  }

  /** The value under one name of at most one member. */
  function ValueIn(b: seq<Member>, name: string): Option<Raw> {
    if b != [] && b[0].name == name then Some(b[0].value) else None
  }

  lemma LastOfParts(h: seq<Member>, p: seq<Member>, k: seq<Member>, name: string)
    requires |h| <= 1 && |p| <= 1 && |k| <= 1
    ensures Last(h + p + k, name) ==
      if ValueIn(k, name).Some? then ValueIn(k, name)
      else if ValueIn(p, name).Some? then ValueIn(p, name)
      else ValueIn(h, name)
  {
    LastOfConcat(h + p, k, name);
    LastOfConcat(h, p, name);
    LastOfFew(h, name);
    LastOfFew(p, name);
    LastOfFew(k, name);
  }

  lemma LastOfFew(b: seq<Member>, name: string)
    requires |b| <= 1
    ensures Last(b, name) == ValueIn(b, name)
  {
    if b != [] {
      LastAppend([], b[0], name);
      assert [] + [b[0]] == b;
    }
  }

  lemma NamesDiffer()
    ensures "handler" != "payload" && "handler" != "idempotency_key" && "payload" != "idempotency_key"
  {
    assert "handler"[0] == 'h' && "payload"[0] == 'p' && "idempotency_key"[0] == 'i';
  }

  lemma LastOfThree(req: CreateTaskRequest, order: seq<string>, name: string)
    requires IsOrder(Entries(req.payload.value), order)
    ensures Last(RequestMembers(req, order), name) ==
      if name == "handler" then Some([Str(req.handler)])
      else if name == "payload" && req.payload.isSet then Some(ObjectTokens(PayloadList(Entries(req.payload.value), order)))
      else if name == "idempotency_key" && req.key.isSet then Some([Str(req.key.value)])
      else None
  {
    NamesDiffer();
    LastOfParts([Member("handler", [Str(req.handler)])], PayloadField(req.payload, order), KeyField(req.key), name);
  }

  lemma EncodedWellTyped(req: CreateTaskRequest, order: seq<string>)
    requires IsOrder(Entries(req.payload.value), order) && Representable(req)
    ensures WellTyped(RequestMembers(req, order)) && ValuesWellFormed(RequestMembers(req, order))
  {
    NamesDiffer();
    ObjectRoundTrip(PayloadList(Entries(req.payload.value), order));
    forall m | m in RequestMembers(req, order) ensures WellTypedMember(m) && WellFormed(m.value) {
      if m in PayloadField(req.payload, order) {
      } else if m in KeyField(req.key) {
      } else {
        assert m == Member("handler", [Str(req.handler)]);
      }
    }
  }

  lemma EncodedMeans(req: CreateTaskRequest, order: seq<string>)
    requires IsOrder(Entries(req.payload.value), order) && Representable(req)
    ensures RequestOf(RequestMembers(req, order)) == Ok(req) && ValuesWellFormed(RequestMembers(req, order))
  {
    var list := PayloadList(Entries(req.payload.value), order);
    NamesDiffer();
    EncodedWellTyped(req, order);
    ObjectRoundTrip(list);
    LastOfThree(req, order, "handler");
    LastOfThree(req, order, "payload");
    LastOfThree(req, order, "idempotency_key");
    AsMapOfList(Entries(req.payload.value), order);
    assert PayloadMembers(ObjectTokens(list)) == list;
  }

  lemma EncodedDecodes(req: CreateTaskRequest, order: seq<string>)
    requires IsOrder(Entries(req.payload.value), order) && Representable(req)
    ensures ObjectAt(RequestTokens(req, order), 0) ==
      Some(Parsed(RequestMembers(req, order), |RequestTokens(req, order)|))
    ensures RequestAt(RequestTokens(req, order), 0) == Ok(req)
  {
    EncodedMeans(req, order);
    ObjectRoundTrip(RequestMembers(req, order));
  }

  lemma DecodedIsRepresentable(ms: seq<Member>)
    requires RequestOf(ms).Ok?
    ensures Representable(RequestOf(ms).value)
  {
    var payload := Last(ms, "payload");
    if payload.Some? && ObjectAt(payload.value, 0).Some? {
      var list := PayloadMembers(payload.value);
      MembersSkip(payload.value, 1);
      forall k | k in AsMap(list) ensures WellFormed(AsMap(list)[k]) {
        AsMapIsLast(list, k);
      }
    }
  }

  /** Round trip, for every order the payload map can be visited in: decoding the encoding gives
      the request back and reads it to the end exactly when the request is representable. */
  lemma RequestRoundTrip(req: CreateTaskRequest, order: seq<string>)
    requires IsOrder(Entries(req.payload.value), order)
    ensures
      var ts := RequestTokens(req, order);
      RequestAt(ts, 0) == Ok(req) && ObjectAt(ts, 0).value.end == |ts| <==> Representable(req)
  {
    if Representable(req) {
      EncodedDecodes(req, order);
    }
    var p := ObjectAt(RequestTokens(req, order), 0);
    if p.Some? && RequestOf(p.value.members) == Ok(req) {
      DecodedIsRepresentable(p.value.members);
    }
  }

  // ----- duplicates and unknown members

  function KeptMember(ms: seq<Member>, name: string): seq<Member> {
    if Last(ms, name).Some? then [Member(name, Last(ms, name).value)] else []
  }

  /** Of each known name its last member, and nothing else. */
  function NormalForm(ms: seq<Member>): seq<Member> {
    KeptMember(ms, "handler") + KeptMember(ms, "payload") + KeptMember(ms, "idempotency_key")
  }

  lemma ValueKept(ms: seq<Member>, kept: string, name: string)
    ensures ValueIn(KeptMember(ms, kept), name) == if kept == name then Last(ms, name) else None
  {
  }

  lemma LastOfNormalForm(ms: seq<Member>, name: string)
    requires name == "handler" || name == "payload" || name == "idempotency_key"
    ensures Last(NormalForm(ms), name) == Last(ms, name)
  {
    NamesDiffer();
    ValueKept(ms, "handler", name);
    ValueKept(ms, "payload", name);
    ValueKept(ms, "idempotency_key", name);
    LastOfParts(KeptMember(ms, "handler"), KeptMember(ms, "payload"), KeptMember(ms, "idempotency_key"), name);
  }

  lemma {:induction false} LastIsMember(ms: seq<Member>, name: string)
    requires Last(ms, name).Some?
    ensures Member(name, Last(ms, name).value) in ms
  {
    if ms[|ms| - 1].name != name {
      LastIsMember(ms[..|ms| - 1], name);
    }
  }

  /** An object whose every known member is well typed decodes as its normal form does: earlier
      duplicates and unknown members count for nothing, and payloads are replaced, not merged. */
  lemma DecodeNormalForm(ms: seq<Member>)
    requires WellTyped(ms)
    ensures RequestOf(NormalForm(ms)) == RequestOf(ms)
    ensures |NormalForm(ms)| <= 3 && forall m :: m in NormalForm(ms) ==> m in ms
  {
    LastOfNormalForm(ms, "handler");
    LastOfNormalForm(ms, "payload");
    LastOfNormalForm(ms, "idempotency_key");
    forall m | m in NormalForm(ms) ensures m in ms {
      assert m in KeptMember(ms, "handler") || m in KeptMember(ms, "payload") || m in KeptMember(ms, "idempotency_key");
      LastIsMember(ms, m.name);
    }
    assert forall m :: m in ms ==> WellTypedMember(m);
    forall i | 0 <= i < |NormalForm(ms)| ensures WellTypedMember(NormalForm(ms)[i]) {
      assert NormalForm(ms)[i] in NormalForm(ms);
    }
  }

  /** On the wire: an object sent with duplicates and unknown members decodes as its normal form. */
  lemma NormalFormOnTheWire(ts: Raw, i: nat)
    requires ObjectAt(ts, i).Some? && WellTyped(ObjectAt(ts, i).value.members)
    ensures RequestAt(ObjectTokens(NormalForm(ObjectAt(ts, i).value.members)), 0) == RequestAt(ts, i)
  {
    var ms := ObjectAt(ts, i).value.members;
    MembersSkip(ts, i + 1);
    DecodeNormalForm(ms);
    forall k | 0 <= k < |NormalForm(ms)| ensures WellFormed(NormalForm(ms)[k].value) {
      assert NormalForm(ms)[k] in ms;
    }
    ObjectRoundTrip(NormalForm(ms));
  }
}
