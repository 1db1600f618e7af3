/**
 * The `signal` edge function: a closed schema (unknown keys stripped,
 * `evidence` defaulted), a proxy to the executor's `/signal`, and a
 * best-effort `grid_signals` row built from the executor's result.
 */
module Signal {
  import opened Wrappers
  import opened Json
  import opened Http
  import opened Zod
  import opened EdgeProxy

  /** `SignalSchema`: `location` and `symptoms` required, `evidence` optional with default `[]`. */
  const SignalSchema: Schema := ZObject(SignalShape, Strip)

  const SignalShape: Fields :=
    Field("location", LocationSchema,
    Field("symptoms", SymptomsSchema,
    Field("evidence", EvidenceSchema,
    NoFields)))

  const LocationSchema: Schema := ZString(1, 100, LocationText)
  const SymptomsSchema: Schema := ZArray(ZString(1, 200, AnyText), 1, 20)
  const EvidenceSchema: Schema := ZDefault(ZOptional(ZArray(ZRecordAny, 0, 50)), JArray([]))

  /** Evidence as given: an array of at most 50 objects. */
  predicate EvidenceWithin(v: Json) {
    v.JArray? && |v.items| <= 50 && forall i :: 0 <= i < |v.items| ==> v.items[i].JObject?
  }

  /** The body the schema admits, stated member by member. */
  predicate WellFormed(body: Json) {
    && body.JObject?
    && var m := body.members;
    && "location" in m && StringWithin(m["location"], 1, 100, LocationText)
    && "symptoms" in m && m["symptoms"].JArray? && 1 <= |m["symptoms"].items| <= 20
    && StringsWithin(m["symptoms"].items, 1, 200, AnyText)
    && ("evidence" in m ==> EvidenceWithin(m["evidence"]))
  }

  /** The `evidence` member, or `[]` when it is absent. */
  function EvidenceOf(m: map<string, Json>): (v: Json)
    ensures "evidence" !in m ==> v == JArray([])
    ensures "evidence" in m ==> v == m["evidence"]
  {
    if "evidence" in m then m["evidence"] else JArray([])
  }

  /** The validated payload of a well-formed body: its three known members, evidence filled in. */
  function Payload(body: Json): (p: Json)
    requires WellFormed(body)
    ensures p.JObject? && p.members.Keys == {"location", "symptoms", "evidence"}
  {
    var m := body.members;
    JObject(map["location" := m["location"], "symptoms" := m["symptoms"], "evidence" := EvidenceOf(m)])
  }

  lemma LocationField(v: Slot)
    ensures Parse(LocationSchema, v) ==
      if v.Present? && StringWithin(v.value, 1, 100, LocationText) then Accepted(v) else Rejected
  {
  }

  lemma SymptomsField(v: Slot)
    ensures Parse(SymptomsSchema, v) ==
      if v.Present? && v.value.JArray? && 1 <= |v.value.items| <= 20 && StringsWithin(v.value.items, 1, 200, AnyText)
      then Accepted(v) else Rejected
  {
    if v.Present? && v.value.JArray? {
      StringItems(v.value.items, 1, 200, AnyText);
    }
  }

  lemma EvidenceField(v: Slot)
    ensures Parse(EvidenceSchema, v) ==
      if v.Absent? then Accepted(Present(JArray([])))
      else if EvidenceWithin(v.value) then Accepted(v)
      else Rejected
  {
    if v.Present? && v.value.JArray? {
      ObjectItems(v.value.items);
    }
  }

  /** Each declared field of an object parses exactly when the object is well-formed. */
  lemma FieldsWellFormed(body: Json)
    requires body.JObject?
    ensures AllFieldsAccepted(SignalShape, body.members) <==> WellFormed(body)
  {
    var m := body.members;
    LocationField(Member(m, "location"));
    SymptomsField(Member(m, "symptoms"));
    EvidenceField(Member(m, "evidence"));
    var last := Field("evidence", EvidenceSchema, NoFields);
    assert AllFieldsAccepted(last, m) == Parse(EvidenceSchema, Member(m, "evidence")).Accepted?;
    assert AllFieldsAccepted(SignalShape, m) <==>
      Parse(LocationSchema, Member(m, "location")).Accepted? && Parse(SymptomsSchema, Member(m, "symptoms")).Accepted?
      && AllFieldsAccepted(last, m);
  }

  /** The declared part the schema returns for a well-formed body is the payload. */
  lemma KnownMembers(body: Json)
    requires WellFormed(body)
    ensures ParseFields(SignalShape, body.members) == Some(Payload(body).members)
  {
    var m := body.members;
    LocationField(Member(m, "location"));
    SymptomsField(Member(m, "symptoms"));
    EvidenceField(Member(m, "evidence"));
    var rest := ParseFields(Field("evidence", EvidenceSchema, NoFields), m);
    assert rest == Some(map["evidence" := EvidenceOf(m)]);
    var known := map["evidence" := EvidenceOf(m)]["symptoms" := m["symptoms"]]["location" := m["location"]];
    assert ParseFields(SignalShape, m) == Some(known);
    assert known == Payload(body).members;
  }

  /**
   * The schema accepts exactly the well-formed bodies; what it returns holds
   * the three known members only, with `evidence` defaulted to `[]`.
   */
  lemma AcceptsExactly(body: Json)
    ensures Parse(SignalSchema, Present(body)) ==
      if WellFormed(body) then Accepted(Present(Payload(body))) else Rejected
  {
    if body.JObject? {
      FieldsAccepted(SignalShape, body.members);
      FieldsWellFormed(body);
      if WellFormed(body) {
        KnownMembers(body);
      }
    }
  }

  /** The forwarded payload is itself a well-formed signal, and validating it again changes nothing. */
  lemma PayloadRevalidates(body: Json)
    requires WellFormed(body)
    ensures WellFormed(Payload(body))
    ensures Parse(SignalSchema, Present(Payload(body))) == Accepted(Present(Payload(body)))
  {
    var p := Payload(body);
    AcceptsExactly(p);
    assert Payload(p) == p;
  }

  /** The outcome of the `grid_signals` insert: an error is only logged. */
  datatype InsertOutcome = Inserted | InsertFailed

  /** A `grid_signals` row; `Absent` columns are the `undefined` properties of the result. */
  datatype GridSignal = GridSignal(location: Slot, symptoms: Json, odu: Slot, ihash: Slot, verdict: Slot, action: Slot)

  /** One request's effects: the response, the body sent upstream, the row built, and whether it was stored. */
  datatype SignalExchange = SignalExchange(response: Response, forwarded: Option<Json>, record: Option<GridSignal>, stored: bool)

  /** The row for a successful result: location and verdict fields from the executor, symptoms from the request. */
  function LogRecord(result: Json, symptoms: Json): (g: GridSignal)
    requires !result.JNull?
    ensures g.location == Property(result, "location")
    ensures g.symptoms == symptoms
    ensures g.odu == Property(result, "odu")
    ensures g.ihash == Property(result, "assessor_hash")
    ensures g.verdict == Property(result, "root_cause")
    ensures g.action == Property(result, "recommended_action")
  {
    GridSignal(Property(result, "location"), symptoms, Property(result, "odu"),
      Property(result, "assessor_hash"), Property(result, "root_cause"), Property(result, "recommended_action"))
  }

  /** `JSON.stringify({location, symptoms, evidence})` of the parsed data; `undefined` members are omitted. */
  function Restate(data: Json): (p: Json)
    requires !data.JNull?
    ensures p.JObject? && p.members.Keys <= {"location", "symptoms", "evidence"}
  {
    var keep := map k | k in {"location", "symptoms", "evidence"} && Property(data, k).Present? :: Property(data, k).value;
    JObject(keep)
  }

  /**
   * The `serve` handler. A rejected body gets 400 and nothing is sent; an
   * accepted one is forwarded as `{location, symptoms, evidence}`. After a
   * successful forward the row is built and the result returned whatever the
   * insert does; a `null` result makes `result.location` throw, which the
   * `catch` answers with 503.
   */
  function Handle(verb: string, uuid: string, body: BodyRead, upstream: Upstream, insert: InsertOutcome): (x: SignalExchange)
    ensures verb == "OPTIONS" ==> x == SignalExchange(Preflight(), None, None, false)
    ensures verb != "OPTIONS" && body.Unreadable? ==> x == SignalExchange(Unavailable(RequestId(uuid)), None, None, false)
    ensures verb != "OPTIONS" && body.Read? && !WellFormed(body.json) ==>
      x == SignalExchange(InvalidInput(RequestId(uuid)), None, None, false)
    ensures verb != "OPTIONS" && body.Read? && WellFormed(body.json) ==>
      && x.forwarded == Some(Payload(body.json))
      && (upstream.Answered? && IsOk(upstream.status) && upstream.reply.JsonReply? && !upstream.reply.json.JNull? ==>
            && x.response == Success(upstream.reply.json)
            && x.record == Some(LogRecord(upstream.reply.json, body.json.members["symptoms"])))
      && (upstream.Answered? && !IsOk(upstream.status) ==>
            x.response == UpstreamFailure(upstream.status, RequestId(uuid)) && x.record == None)
      && (upstream.Unreachable? || (upstream.Answered? && IsOk(upstream.status) &&
            (upstream.reply.NotJson? || upstream.reply.json.JNull?)) ==>
            x.response == Unavailable(RequestId(uuid)) && x.record == None)
    ensures x.stored <==> x.record.Some? && insert == Inserted
    ensures Disclosed(x.response, upstream, RequestId(uuid))
  {
    if verb == "OPTIONS" then SignalExchange(Preflight(), None, None, false)
    else
      var id := RequestId(uuid);
      match body
      case Unreadable => SignalExchange(Unavailable(id), None, None, false)
      case Read(json) =>
        AcceptsExactly(json);
        match Parse(SignalSchema, Present(json))
        case Rejected => SignalExchange(InvalidInput(id), None, None, false)
        case Accepted(out) =>
          var forwarded := Restate(out.value);
          assert forwarded == out.value;
          match upstream
          case Unreachable => SignalExchange(Unavailable(id), Some(forwarded), None, false)
          case Answered(status, reply) =>
            if !IsOk(status) then SignalExchange(UpstreamFailure(status, id), Some(forwarded), None, false)
            else
              match reply
              case NotJson => SignalExchange(Unavailable(id), Some(forwarded), None, false)
              case JsonReply(result) =>
                if result.JNull? then SignalExchange(Unavailable(id), Some(forwarded), None, false)
                else
                  var row := LogRecord(result, Property(out.value, "symptoms").value);
                  SignalExchange(Success(result), Some(forwarded), Some(row), insert == Inserted)
  }

  /** A failed insert never changes what the caller receives. */
  lemma InsertNeverChangesResponse(verb: string, uuid: string, body: BodyRead, upstream: Upstream)
    ensures Handle(verb, uuid, body, upstream, Inserted).response == Handle(verb, uuid, body, upstream, InsertFailed).response
  {
  }
}
