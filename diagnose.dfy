/** The `diagnose` edge function: an open schema, then a plain proxy to the assessor's `/diagnose`. */
module Diagnose {
  import opened Wrappers
  import opened Json
  import opened Zod
  import opened EdgeProxy

  /** `DiagnoseSchema`: every field optional, unknown keys kept. */
  const DiagnoseSchema: Schema := ZObject(DiagnoseShape, Passthrough)

  const DiagnoseShape: Fields :=
    Field("signal_id", ZOptional(ZString(0, 100, AnyText)),
    Field("location", ZOptional(ZString(1, 100, AnyText)),
    Field("symptoms", ZOptional(ZArray(ZString(1, 200, AnyText), 0, 20)),
    Field("data", ZOptional(ZRecordAny),
    NoFields))))

  /** The body the schema admits, stated member by member. */
  predicate WellFormed(body: Json) {
    && body.JObject?
    && var m := body.members;
    && ("signal_id" in m ==> StringWithin(m["signal_id"], 0, 100, AnyText))
    && ("location" in m ==> StringWithin(m["location"], 1, 100, AnyText))
    && ("symptoms" in m ==>
          m["symptoms"].JArray? && |m["symptoms"].items| <= 20
          && StringsWithin(m["symptoms"].items, 1, 200, AnyText))
    && ("data" in m ==> m["data"].JObject?)
  }

  /** The schema accepts exactly the well-formed bodies and returns them unchanged, unknown keys included. */
  lemma AcceptsExactly(body: Json)
    ensures Parse(DiagnoseSchema, Present(body)) ==
      if WellFormed(body) then Accepted(Present(body)) else Rejected
  {
    if body.JObject? {
      var m := body.members;
      FieldsAccepted(DiagnoseShape, m);
      OptionalString(Member(m, "signal_id"), 0, 100, AnyText);
      OptionalString(Member(m, "location"), 1, 100, AnyText);
      OptionalStrings(Member(m, "symptoms"), 1, 200, 20);
      OptionalRecord(Member(m, "data"));
      assert AllFieldsAccepted(DiagnoseShape, m) <==> WellFormed(body);
      PreservingParse(DiagnoseSchema, Present(body));
    }
  }

  /**
   * The `serve` handler. A well-formed body is forwarded exactly as received;
   * any other parsed body gets 400 and nothing is sent.
   */
  function Handle(verb: string, uuid: string, body: BodyRead, upstream: Upstream): (x: Exchange)
    ensures verb == "OPTIONS" ==> x == Exchange(Preflight(), None)
    ensures verb != "OPTIONS" && body.Unreadable? ==> x == Exchange(Unavailable(RequestId(uuid)), None)
    ensures verb != "OPTIONS" && body.Read? && !WellFormed(body.json) ==>
      x == Exchange(InvalidInput(RequestId(uuid)), None)
    ensures verb != "OPTIONS" && body.Read? && WellFormed(body.json) ==>
      x == Exchange(Relay(upstream, RequestId(uuid)), Some(body.json))
    ensures Disclosed(x.response, upstream, RequestId(uuid))
  {
    match body
    case Unreadable => HandlePassthrough(DiagnoseSchema, verb, uuid, body, upstream)
    case Read(json) =>
      AcceptsExactly(json);
      HandlePassthrough(DiagnoseSchema, verb, uuid, body, upstream)
  }

  /** `{}` is a valid body: every field is optional. */
  lemma EmptyBodyAccepted()
    ensures Parse(DiagnoseSchema, Present(JObject(map[]))) == Accepted(Present(JObject(map[])))
  {
    AcceptsExactly(JObject(map[]));
  }
}
