/** The serverless relay endpoint: it validates a POSTed transcript, normalises it
    and forwards it to the upstream worker. The upstream call is an input: the
    handler is given what the upstream answered (or how it failed), and reports
    the payload it would send. */
module Relay {
  import opened Wrappers
  import opened Json

  /** What the upstream worker call produced. */
  datatype Upstream =
    | Delivered(text: string)
    | Rejected(status: nat, text: string)
    | Unreachable(reason: string)

  datatype ResponseBody = Empty | Body(json: Object)

  datatype Response = Response(status: nat, headers: seq<(string, string)>, body: ResponseBody)

  /** The response sent back, and the payload forwarded upstream if any. */
  datatype Outcome = Outcome(response: Response, forwarded: Option<Object>)

  const CorsHeaders: seq<(string, string)> := [
    ("Access-Control-Allow-Origin", "*"),
    ("Access-Control-Allow-Methods", "POST, OPTIONS"),
    ("Access-Control-Allow-Headers", "Content-Type")
  ]

  const DefaultConfidence: real := 0.95

  /** The body fields the handler names; everything else is passed through. */
  const NamedFields: set<string> := {"transcript", "speaker", "type", "confidence"}

  function DecimalString(n: nat): string
    decreases n
  {
    var digit := ["0", "1", "2", "3", "4", "5", "6", "7", "8", "9"][n % 10];
    if n < 10 then digit else DecimalString(n / 10) + digit
  }

  /** The normalised upstream payload: defaults for falsy `type`, `speaker` and
      `confidence`, server-side `timestamp` and `source`, then the remaining body
      fields spread over them. */
  function Payload(body: Object, now: string): (p: Object)
    ensures p.Keys == (body.Keys - NamedFields) + {"type", "speaker", "confidence", "timestamp", "source"}
                      + (if "transcript" in body then {"transcript"} else {})
    ensures Truthy(Get(body, "type")) ==> p["type"] == body["type"]
    ensures !Truthy(Get(body, "type")) ==> p["type"] == Str("transcript")
    ensures Truthy(Get(body, "speaker")) ==> p["speaker"] == body["speaker"]
    ensures !Truthy(Get(body, "speaker")) ==> p["speaker"] == Str("user")
    ensures Truthy(Get(body, "confidence")) ==> p["confidence"] == body["confidence"]
    ensures !Truthy(Get(body, "confidence")) ==> p["confidence"] == Num(DefaultConfidence)
    ensures "transcript" in body ==> p["transcript"] == body["transcript"]
    ensures p["timestamp"] == (if "timestamp" in body then body["timestamp"] else Str(now))
    ensures p["source"] == (if "source" in body then body["source"] else Str("vercel-app"))
    ensures forall k :: k in body && k !in NamedFields ==> k in p && p[k] == body[k]
  {
    var rest := body - NamedFields;
    var base := map[
      "type" := Or(Get(body, "type"), Str("transcript")),
      "speaker" := Or(Get(body, "speaker"), Str("user")),
      "confidence" := Or(Get(body, "confidence"), Num(DefaultConfidence)),
      "timestamp" := Str(now),
      "source" := Str("vercel-app")
    ];
    var withTranscript := if "transcript" in body then base["transcript" := body["transcript"]] else base;
    withTranscript + rest
  }

  /** The request handler. `sentAt` and `respondedAt` are the two readings of the
      clock it takes. */
  function Handle(httpMethod: string, body: Object, upstream: Upstream, sentAt: string, respondedAt: string): (r: Outcome)
    ensures r.response.headers == CorsHeaders
    ensures httpMethod == "OPTIONS" ==> r.response.status == 200 && r.response.body == Empty && r.forwarded == None
    ensures httpMethod != "OPTIONS" && httpMethod != "POST" ==>
              r.response.status == 405 && r.forwarded == None
              && r.response.body.Body? && Get(r.response.body.json, "error") == Some(Str("Method not allowed"))
    ensures httpMethod == "POST" && !Truthy(Get(body, "transcript")) && !Truthy(Get(body, "type")) ==>
              r.response.status == 400 && r.forwarded == None
              && r.response.body.Body? && Get(r.response.body.json, "error") == Some(Str("Missing required fields"))
    ensures r.forwarded.Some? <==>
              httpMethod == "POST" && (Truthy(Get(body, "transcript")) || Truthy(Get(body, "type")))
    ensures r.forwarded.Some? ==>
              r.forwarded.value == Payload(body, sentAt)
              && (r.response.status == 200 <==> upstream.Delivered?)
              && (r.response.status == 500 <==> !upstream.Delivered?)
              && r.response.body.Body?
              && Get(r.response.body.json, "success") == Some(Bool(upstream.Delivered?))
  {
    if httpMethod == "OPTIONS" then
      Outcome(Response(200, CorsHeaders, Empty), None)
    else if httpMethod != "POST" then
      Outcome(Response(405, CorsHeaders, Body(map[
        "error" := Str("Method not allowed"),
        "message" := Str("This endpoint only accepts POST requests")])), None)
    else if !Truthy(Get(body, "transcript")) && !Truthy(Get(body, "type")) then
      Outcome(Response(400, CorsHeaders, Body(map[
        "error" := Str("Missing required fields"),
        "message" := Str("Either transcript or type is required")])), None)
    else
      Outcome(Reply(upstream, respondedAt), Some(Payload(body, sentAt)))
  }

  /** The response once the payload has gone upstream: 200 with `success: true`
      when the worker answered ok; otherwise the thrown error (a non-ok answer is
      turned into one) is caught and reported as 500 with `success: false`. */
  function Reply(upstream: Upstream, respondedAt: string): (r: Response)
    ensures r.headers == CorsHeaders
    ensures r.status == 200 <==> upstream.Delivered?
    ensures r.status == 500 <==> !upstream.Delivered?
    ensures r.body.Body? && Get(r.body.json, "success") == Some(Bool(upstream.Delivered?))
    ensures upstream.Delivered? ==> Get(r.body.json, "cloudflareResponse") == Some(Str(upstream.text))
    ensures upstream.Unreachable? ==> Get(r.body.json, "message") == Some(Str(upstream.reason))
  {
    match upstream
    case Delivered(text) =>
      Response(200, CorsHeaders, Body(map[
        "success" := Bool(true),
        "message" := Str("Data sent to Cloudflare Worker successfully"),
        "cloudflareResponse" := Str(text),
        "timestamp" := Str(respondedAt)]))
    case Rejected(status, text) =>
      Failed("Cloudflare worker error: " + DecimalString(status) + " - " + text, respondedAt)
    case Unreachable(reason) =>
      Failed(reason, respondedAt)
  }

  /** The response for an exception raised while forwarding. */
  function Failed(message: string, respondedAt: string): Response {
    Response(500, CorsHeaders, Body(map[
      "success" := Bool(false),
      "error" := Str("Failed to send to Cloudflare Worker"),
      "message" := Str(message),
      "timestamp" := Str(respondedAt)]))
  }

  /** Because defaulting uses `||`, an explicit confidence of zero is replaced. */
  lemma ZeroConfidenceReplaced(body: Object, now: string)
    requires Get(body, "confidence") == Some(Num(0.0))
    ensures Payload(body, now)["confidence"] == Num(DefaultConfidence)
  {
  }

  /** Extra fields are spread last, so a client timestamp or source wins over the
      server's. */
  lemma ClientFieldsOverride(body: Object, now: string)
    requires "timestamp" in body && "source" in body
    ensures Payload(body, now)["timestamp"] == body["timestamp"]
    ensures Payload(body, now)["source"] == body["source"]
  {
  }
}
