/** The `evaluate` edge function: an open schema, then a plain proxy to the judge's `/evaluate`. */
module Evaluate {
  import opened Wrappers
  import opened Json
  import opened Zod
  import opened EdgeProxy

  /** `EvaluateSchema`: every field optional, unknown keys kept. */
  const EvaluateSchema: Schema := ZObject(EvaluateShape, Passthrough)

  const EvaluateShape: Fields :=
    Field("signal_id", ZOptional(ZString(0, 100, AnyText)),
    Field("assessment", ZOptional(ZRecordAny),
    Field("context", ZOptional(ZRecordAny),
    Field("data", ZOptional(ZRecordAny),
    NoFields))))

  /** The body the schema admits, stated member by member. */
  predicate WellFormed(body: Json) {
    && body.JObject?
    && var m := body.members;
    && ("signal_id" in m ==> StringWithin(m["signal_id"], 0, 100, AnyText))
    && ("assessment" in m ==> m["assessment"].JObject?)
    && ("context" in m ==> m["context"].JObject?)
    && ("data" in m ==> m["data"].JObject?)
  }

  /** The schema accepts exactly the well-formed bodies and returns them unchanged, unknown keys included. */
  lemma AcceptsExactly(body: Json)
    ensures Parse(EvaluateSchema, Present(body)) ==
      if WellFormed(body) then Accepted(Present(body)) else Rejected
  {
    if body.JObject? {
      var m := body.members;
      FieldsAccepted(EvaluateShape, m);
      OptionalString(Member(m, "signal_id"), 0, 100, AnyText);
      OptionalRecord(Member(m, "assessment"));
      OptionalRecord(Member(m, "context"));
      OptionalRecord(Member(m, "data"));
      assert AllFieldsAccepted(EvaluateShape, m) <==> WellFormed(body);
      PreservingParse(EvaluateSchema, Present(body));
    }
  }

  /**
   * The `serve` handler. A well-formed body is forwarded exactly as received;
   * any other parsed body gets 400 and nothing is sent.
   */
  function Handle(verb: string, uuid: string, body: BodyRead, upstream: Upstream): (x: Exchange)
    ensures verb == "OPTIONS" ==> x == Exchange(Preflight(), None)
    ensures verb != "OPTIONS" && body.Unreadable? ==> x == Exchange(Unavailable(RequestId(uuid)), None)
    ensures verb != "OPTIONS" && body.Read? && !WellFormed(body.json) ==>
      x == Exchange(InvalidInput(RequestId(uuid)), None)
    ensures verb != "OPTIONS" && body.Read? && WellFormed(body.json) ==>
      x == Exchange(Relay(upstream, RequestId(uuid)), Some(body.json))
    ensures Disclosed(x.response, upstream, RequestId(uuid))
  {
    match body
    case Unreadable => HandlePassthrough(EvaluateSchema, verb, uuid, body, upstream)
    case Read(json) =>
      AcceptsExactly(json);
      HandlePassthrough(EvaluateSchema, verb, uuid, body, upstream)
  }
}
