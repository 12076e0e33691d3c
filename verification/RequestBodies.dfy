/** Request bodies: decoding and validating one, and which answer is owed to which request. */
module RequestBodies {
  import opened Results
  import opened Domain
  import opened JsonTokens
  import opened JsonGrammar
  import opened TokenReader
  import opened MediaTypes
  import opened RequestCodec
  import opened RequestEncoding

  const MIN_LENGTH := 1
  const MAX_LENGTH := 128

  /** Lengths count runes, and a char is one. */
  predicate LengthOk(s: string) {
    MIN_LENGTH <= |s| <= MAX_LENGTH
  }

  function InvalidFields(req: CreateTaskRequest): seq<string> {
    (if LengthOk(req.handler) then [] else ["handler"]) +
    (if req.key.isSet && !LengthOk(req.key.value) then ["idempotency_key"] else [])
  }

  /** CreateTaskRequest.Validate */
  method Validate(req: CreateTaskRequest) returns (failures: seq<string>)
    ensures failures == InvalidFields(req)
  {
    failures := [];
    if !(MIN_LENGTH <= |req.handler| <= MAX_LENGTH) {
      failures := failures + ["handler"];
    }
    if req.key.isSet {
      if !(MIN_LENGTH <= |req.key.value| <= MAX_LENGTH) {
        failures := failures + ["idempotency_key"];
      }
    }
  }

  function BodyMeaning(contentType: string, body: Raw): Result<CreateTaskRequest, DecodeError> {
    if MediaType(contentType) != "application/json" then Err(ContentType)
    else if body == [] then Err(BodyRequired)
    else match RequestAt(body, 0)
      case Err(e) => Err(e)
      case Ok(req) =>
        if ObjectAt(body, 0).value.end != |body| then Err(TrailingData)
        else if InvalidFields(req) != [] then Err(Invalid(InvalidFields(req)))
        else Ok(req)
  }

  /** decodeCreateTaskRequest: decode, reject trailing data, validate. */
  method DecodeBody(contentType: string, body: Raw) returns (r: Result<CreateTaskRequest, DecodeError>)
    ensures r == BodyMeaning(contentType, body)
    ensures r.Ok? <==> MediaType(contentType) == "application/json" && MatchesSchema(body)
    ensures Answers(contentType, body, r)
  {
    BodyAnswered(contentType, body);
    if MediaType(contentType) == "application/json" {
      AcceptsExactlySchema(contentType, body);
    }
    var ct := MediaType(contentType);
    if ct != "application/json" {
      return Err(ContentType);
    }
    if |body| == 0 {
      return Err(BodyRequired);
    }
    var d := new Decoder(body);
    var request := DecodeRequest(d);
    if request.Err? {
      return request;
    }
    if d.pos != |d.input| {
      return Err(TrailingData);
    }
    var failures := Validate(request.value);
    if |failures| > 0 {
      return Err(Invalid(failures));
    }
    return request;
  }

  /** The schema: the text of one object, duplicates and unknown members allowed, handler
      required, handler and key strings of 1 to 128 characters, payload an object. */
  ghost predicate MatchesSchema(body: Raw) {
    exists ms :: body == ObjectTokens(ms) && FitsSchema(ms)
  }

  /** A member by itself: a JSON value, of the type its name asks for. */
  ghost predicate SchemaMember(m: Member) {
    IsJson(m.value) &&
    (m.name == "handler" || m.name == "idempotency_key" ==> exists text :: m.value == [Str(text)]) &&
    (m.name == "payload" ==> IsJsonObject(m.value))
  }

  ghost predicate SchemaMembers(ms: seq<Member>) {
    forall i :: 0 <= i < |ms| ==> SchemaMember(ms[i])
  }

  ghost predicate FitsSchema(ms: seq<Member>) {
    SchemaMembers(ms) && Last(ms, "handler").Some? && FailingNames(ms) == []
  }

  /** The names of the texts that are too short or too long, in the order of the schema. */
  function FailingNames(ms: seq<Member>): seq<string> {
    (if 1 <= |SentText(ms, "handler")| <= 128 then [] else ["handler"]) +
    (if Last(ms, "idempotency_key").None? || 1 <= |SentText(ms, "idempotency_key")| <= 128 then []
     else ["idempotency_key"])
  }

  /** The request says what the last members say; a payload sent replaces any sent before. */
  ghost predicate Says(ms: seq<Member>, req: CreateTaskRequest) {
    var payload, key := Last(ms, "payload"), Last(ms, "idempotency_key");
    req.handler == SentText(ms, "handler") &&
    req.key == (if key.None? then Opt("", false) else Opt(SentText(ms, "idempotency_key"), true)) &&
    if payload.None? then req.payload == Opt(Nil, false)
    else
      req.payload.isSet && req.payload.value.Made? &&
      forall sent :: payload.value == ObjectTokens(sent) && ValuesWellFormed(sent) ==>
        req.payload.value.entries == AsMap(sent)
  }

  /** The answer owed to a body that begins with an object. */
  ghost predicate ObjectAnswered(ms: seq<Member>, rest: Raw, r: Result<CreateTaskRequest, DecodeError>) {
    if !SchemaMembers(ms) then r == Err(Malformed)
    else if forall i :: 0 <= i < |ms| ==> ms[i].name != "handler" then r == Err(MissingFields(["handler"]))
    else if rest != [] then r == Err(TrailingData)
    else if FailingNames(ms) != [] then r == Err(Invalid(FailingNames(ms)))
    else r.Ok? && Says(ms, r.value)
  }

  /** The answer owed to any request, from its header and text alone. */
  ghost predicate Answers(contentType: string, body: Raw, r: Result<CreateTaskRequest, DecodeError>) {
    if MediaType(contentType) != "application/json" then r == Err(ContentType)
    else if body == [] then r == Err(BodyRequired)
    else if exists ms, rest :: Stands(body, ms, rest) then
      forall ms, rest :: Stands(body, ms, rest) ==> ObjectAnswered(ms, rest, r)
    else r == Err(Malformed)
  }

  /** On JSON values the decoder's types are those of the schema. */
  lemma TypesAreSchema(m: Member)
    requires IsJson(m.value)
    ensures WellTypedMember(m) <==> SchemaMember(m)
  {
    var v := m.value;
    WellFormedIsJson(v);
    if IsStr(v) {
      assert v == [Str(v[0].text)];
    }
    if v != [] {
      ParsesJsonObject(v, 0, |v|);
      assert v[0..|v|] == v;
      if v[0].ObjOpen? {
        MembersSkip(v, 1);
      }
    }
  }

  lemma AllTypesAreSchema(ms: seq<Member>)
    requires forall i :: 0 <= i < |ms| ==> IsJson(ms[i].value)
    ensures WellTyped(ms) <==> SchemaMembers(ms)
  {
    forall i | 0 <= i < |ms| ensures WellTypedMember(ms[i]) <==> SchemaMember(ms[i]) {
      TypesAreSchema(ms[i]);
    }
  }

  /** Every refusal, from the request alone: which error answers which header and text, and that
      a body that decodes and ends where it should is refused with exactly its failing fields. */
  lemma BodyAnswered(contentType: string, body: Raw)
    ensures Answers(contentType, body, BodyMeaning(contentType, body))
  {
    forall ms, rest | Stands(body, ms, rest) && MediaType(contentType) == "application/json" && body != []
      ensures ObjectAnswered(ms, rest, BodyMeaning(contentType, body))
    {
      StandsIsParsed(body, ms, rest);
      AllTypesAreSchema(ms);
      LastMeans(ms, "handler");
      if WellTyped(ms) && Last(ms, "handler").Some? {
        FailuresAreFailing(ms);
        FieldsSay(ms);
      }
    }
    if ObjectAt(body, 0).Some? {
      ParsedStands(body);
    }
  }

  lemma FieldsSay(ms: seq<Member>)
    requires WellTyped(ms)
    ensures Says(ms, Fields(ms))
  {
    var payload := Last(ms, "payload");
    if payload.Some? {
      forall sent | payload.value == ObjectTokens(sent) && ValuesWellFormed(sent)
        ensures PayloadMembers(payload.value) == sent
      {
        ObjectRoundTrip(sent);
      }
    }
  }

  lemma FailuresAreFailing(ms: seq<Member>)
    requires WellTyped(ms)
    ensures InvalidFields(Fields(ms)) == FailingNames(ms)
  {
  }

  lemma ParsesWhenMatching(body: Raw)
    ensures MatchesSchema(body) <==>
      var p := ObjectAt(body, 0);
      p.Some? && p.value.end == |body| && FitsSchema(p.value.members)
  {
    if MatchesSchema(body) {
      var ms :| body == ObjectTokens(ms) && FitsSchema(ms);
      assert ObjectTokens(ms) + [] == body;
      StandsIsParsed(body, ms, []);
    }
    if ObjectAt(body, 0).Some? && ObjectAt(body, 0).value.end == |body| {
      TextOfParse(body);
    }
  }

  /** Acceptance matches the schema, and what is accepted is what the last members say. */
  lemma AcceptsExactlySchema(contentType: string, body: Raw)
    requires MediaType(contentType) == "application/json"
    ensures BodyMeaning(contentType, body).Ok? <==> MatchesSchema(body)
    ensures BodyMeaning(contentType, body).Ok? ==>
      BodyMeaning(contentType, body) == Ok(Fields(ObjectAt(body, 0).value.members))
  {
    ParsesWhenMatching(body);
    if ObjectAt(body, 0).Some? {
      var ms := ObjectAt(body, 0).value.members;
      ParsedStands(body);
      AllTypesAreSchema(ms);
      if WellTyped(ms) && Last(ms, "handler").Some? {
        FailuresAreFailing(ms);
      }
    }
  }

  lemma FailuresNamed(req: CreateTaskRequest)
    ensures "handler" in InvalidFields(req) <==> !LengthOk(req.handler)
    ensures "idempotency_key" in InvalidFields(req) <==> req.key.isSet && !LengthOk(req.key.value)
    ensures InvalidFields(req) == [] <==> LengthOk(req.handler) && (req.key.isSet ==> LengthOk(req.key.value))
  {
    assert "handler"[0] != "idempotency_key"[0];
  }

  /** An accepted request, encoded again in any order, is accepted as the same request. */
  lemma AcceptedStaysAccepted(contentType: string, body: Raw, order: seq<string>)
    requires BodyMeaning(contentType, body).Ok?
    requires IsOrder(Entries(BodyMeaning(contentType, body).value.payload.value), order)
    ensures
      var req := BodyMeaning(contentType, body).value;
      BodyMeaning(contentType, RequestTokens(req, order)) == Ok(req)
  {
    var req := BodyMeaning(contentType, body).value;
    DecodedIsRepresentable(ObjectAt(body, 0).value.members);
    EncodedDecodes(req, order);
  }
}
