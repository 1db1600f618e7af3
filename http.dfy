/** HTTP responses as the edge functions build them with `new Response(...)`. */
module Http {
  import opened Wrappers
  import opened Json

  type Headers = map<string, string>

  /** The permissive CORS headers every response carries. */
  const CorsHeaders: Headers :=
    map["Access-Control-Allow-Origin" := "*",
        "Access-Control-Allow-Headers" := "authorization, x-client-info, apikey, content-type"]

  /** CORS headers plus the JSON content type, for every response with a body. */
  const JsonHeaders: Headers := CorsHeaders["Content-Type" := "application/json"]

  /** A response; `body` is None for a null body, else the JSON value that `JSON.stringify` serialised. */
  datatype Response = Response(status: int, body: Option<Json>, headers: Headers)

  /** The Fetch Standard's null body statuses. */
  predicate NullBodyStatus(status: int) {
    status == 101 || status == 103 || status == 204 || status == 205 || status == 304
  }

  /**
   * `new Response(body, {status, headers})`. None when the constructor throws:
   * a RangeError for a status outside 200..599, a TypeError for a body with a
   * null body status (the Fetch Standard's "initialize a response" steps).
   */
  function NewResponse(body: Option<Json>, status: int, headers: Headers): (r: Option<Response>)
    ensures r.Some? <==> 200 <= status <= 599 && !(body.Some? && NullBodyStatus(status))
    ensures r.Some? ==> r.value.status == status && r.value.body == body && r.value.headers == headers
  {
    if status < 200 || status > 599 then None
    else if body.Some? && NullBodyStatus(status) then None
    else Some(Response(status, body, headers))
  }
}
