/**
 * What the three edge functions (`signal`, `diagnose`, `evaluate`) share:
 * the request identifier, the safe error vocabulary, the upstream status
 * mapping, and, for the two `.passthrough()` endpoints, the whole handler.
 * Network, body parsing and randomness are inputs: the outcome of
 * `req.json()`, of `fetch` and of `response.json()`, and the UUID string.
 */
module EdgeProxy {
  import opened Wrappers
  import opened Json
  import opened Http
  import Zod

  /** The outcome of `await req.json()`: it throws on a body that is not JSON. */
  datatype BodyRead = Unreadable | Read(json: Json)

  /** The outcome of `await response.json()` on the upstream reply. */
  datatype Reply = NotJson | JsonReply(json: Json)

  /** The outcome of `await fetch(...)`: a transport failure throws; otherwise a status and a body. */
  datatype Upstream = Unreachable | Answered(status: int, reply: Reply)

  /** What one request produces: the response, and the body sent upstream, if any. */
  datatype Exchange = Exchange(response: Response, forwarded: Option<Json>)

  const InvalidInputMessage := "Invalid input format. Please check your data and try again."
  const TooManyRequestsMessage := "Too many requests. Please wait before trying again."
  const LimitReachedMessage := "Service limit reached. Please contact support."
  const UnavailableMessage := "Service temporarily unavailable."
  const GenericMessage := "An error occurred processing your request."
  const TryLaterMessage := "Service temporarily unavailable. Please try again later."

  /** Every error text a caller can ever see. */
  const Vocabulary: set<string> :=
    {InvalidInputMessage, TooManyRequestsMessage, LimitReachedMessage,
     UnavailableMessage, GenericMessage, TryLaterMessage}

  /** `crypto.randomUUID().slice(0, 8)`: the first eight characters of the UUID. */
  function RequestId(uuid: string): (id: string)
    ensures |uuid| >= 8 ==> |id| == 8
    ensures |uuid| < 8 ==> id == uuid
    ensures id <= uuid
  {
    if |uuid| <= 8 then uuid else uuid[..8]
  }

  /**
   * `getSafeErrorMessage`: one of four fixed texts, chosen by the upstream
   * status alone (RFC 6585 section 4 for 429, RFC 9110 section 15.5.3 for 402,
   * RFC 9110 section 15.6 for the 5xx class).
   */
  function SafeErrorMessage(status: int): (msg: string)
    ensures msg in Vocabulary
    ensures msg == TooManyRequestsMessage <==> status == 429
    ensures msg == LimitReachedMessage <==> status == 402
    ensures msg == UnavailableMessage <==> status >= 500
    ensures msg == GenericMessage <==> status != 429 && status != 402 && status < 500
  {
    if status == 429 then TooManyRequestsMessage
    else if status == 402 then LimitReachedMessage
    else if status >= 500 then UnavailableMessage
    else GenericMessage
  }

  /** The status a caller is given for an upstream error: every 5xx becomes 503 (RFC 9110 section 15.6.4). */
  function CallerStatus(status: int): (s: int)
    ensures s == 503 || s == status
    ensures s >= 500 <==> status >= 500
    ensures s == status <==> status < 500 || status == 503
  {
    if status >= 500 then 503 else status
  }

  /** `response.ok`. */
  predicate IsOk(status: int) {
    200 <= status <= 299
  }

  /** The body `{error, requestId}` of every error response. */
  function ErrorBody(message: string, id: string): Json {
    JObject(map["error" := JString(message), "requestId" := JString(id)])
  }

  /** An error response whose text comes from the fixed vocabulary and carries the request identifier. */
  predicate IsSafeError(r: Response, id: string) {
    && r.status != 200
    && r.headers == JsonHeaders
    && exists msg :: msg in Vocabulary && r.body == Some(ErrorBody(msg, id))
  }

  /** The answer to a CORS preflight: `new Response(null, {headers: corsHeaders})`, status 200. */
  function Preflight(): Response {
    Response(200, None, CorsHeaders)
  }

  /** The `catch` branch: 503 with the fixed "try again later" text. */
  function Unavailable(id: string): (r: Response)
    ensures IsSafeError(r, id) && r.status == 503
  {
    Response(503, Some(ErrorBody(TryLaterMessage, id)), JsonHeaders)
  }

  /** A body the schema rejects: 400 with the fixed "invalid input" text. */
  function InvalidInput(id: string): (r: Response)
    ensures IsSafeError(r, id) && r.status == 400
  {
    Response(400, Some(ErrorBody(InvalidInputMessage, id)), JsonHeaders)
  }

  /**
   * The `!response.ok` branch. The upstream text is never used. If the mapped
   * status is one `new Response` refuses (below 200, or 304 with a body), the
   * constructor throws and the `catch` branch answers instead.
   */
  function UpstreamFailure(status: int, id: string): (r: Response)
    requires !IsOk(status)
    ensures IsSafeError(r, id)
    ensures status >= 500 ==> r == Response(503, Some(ErrorBody(UnavailableMessage, id)), JsonHeaders)
    ensures 300 <= status < 500 && status != 304 ==>
      r == Response(status, Some(ErrorBody(SafeErrorMessage(status), id)), JsonHeaders)
    ensures status < 200 || status == 304 ==> r == Unavailable(id)
  {
    var body := Some(ErrorBody(SafeErrorMessage(status), id));
    match NewResponse(body, CallerStatus(status), JsonHeaders)
    case Some(r) => r
    case None => Unavailable(id)
  }

  /** A successful upstream reply passed through verbatim, with the default status 200. */
  function Success(result: Json): (r: Response)
    ensures r.status == 200 && r.body == Some(result)
  {
    Response(200, Some(result), JsonHeaders)
  }

  /** Everything after the payload is sent: the upstream outcome decides the response. */
  function Relay(upstream: Upstream, id: string): (r: Response)
    ensures upstream.Unreachable? ==> r == Unavailable(id)
    ensures upstream.Answered? && !IsOk(upstream.status) ==> r == UpstreamFailure(upstream.status, id)
    ensures upstream.Answered? && IsOk(upstream.status) && upstream.reply.NotJson? ==> r == Unavailable(id)
    ensures upstream.Answered? && IsOk(upstream.status) && upstream.reply.JsonReply? ==>
      r == Success(upstream.reply.json)
  {
    match upstream
    case Unreachable => Unavailable(id)
    case Answered(status, reply) =>
      if !IsOk(status) then UpstreamFailure(status, id)
      else
        match reply
        case NotJson => Unavailable(id)
        case JsonReply(result) => Success(result)
  }

  /** A response is either the preflight answer, an upstream success passed through, or a safe error. */
  predicate Disclosed(r: Response, upstream: Upstream, id: string) {
    || r == Preflight()
    || (upstream.Answered? && IsOk(upstream.status) && upstream.reply.JsonReply? && r == Success(upstream.reply.json))
    || IsSafeError(r, id)
  }

  /**
   * The handler of `diagnose` and `evaluate`, which differ only in their
   * schema: an OPTIONS request is answered before anything else; a body that is not JSON
   * lands in the `catch`; a rejected body gets 400 and nothing is sent
   * upstream; an accepted body is forwarded as Zod returned it.
   */
  function HandlePassthrough(schema: Zod.Schema, verb: string, uuid: string, body: BodyRead, upstream: Upstream): (x: Exchange)
    ensures verb == "OPTIONS" ==> x == Exchange(Preflight(), None)
    ensures verb != "OPTIONS" && body.Unreadable? ==> x == Exchange(Unavailable(RequestId(uuid)), None)
    ensures verb != "OPTIONS" && body.Read? ==>
      match Zod.Parse(schema, Present(body.json))
      case Rejected => x == Exchange(InvalidInput(RequestId(uuid)), None)
      case Accepted(out) => x == Exchange(Relay(upstream, RequestId(uuid)), Some(out.value))
    ensures Disclosed(x.response, upstream, RequestId(uuid))
  {
    if verb == "OPTIONS" then Exchange(Preflight(), None)
    else
      var id := RequestId(uuid);
      match body
      case Unreadable => Exchange(Unavailable(id), None)
      case Read(json) =>
        match Zod.Parse(schema, Present(json))
        case Rejected => Exchange(InvalidInput(id), None)
        case Accepted(out) => Exchange(Relay(upstream, id), Some(out.value))
  }
}
