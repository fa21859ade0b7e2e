/** The `analyze-camouflage` edge function (supabase/functions/analyze-camouflage/index.ts):
    a CORS preflight answer, a chain of early exits, one call to the AI gateway, extraction of
    the JSON from the model's reply, and a fallback record when that JSON does not parse.

    The gateway round trip and `Deno.env` are inputs to the handler; `JSON.parse` is the
    parameter `parse`, a partial function that yields `None` where the real one throws. */
module EdgeFunction {
  import opened Records
  import opened Fence

  /** The request body as `await req.json()` sees it: unreadable (the call throws, with the
      runtime's message), or an object whose `image` property may be missing. */
  datatype RequestBody = Unreadable(reason: string) | Payload(image: Option<string>)

  datatype Request = Request(httpMethod: string, body: RequestBody)

  /** `req.method === 'OPTIONS'`: a CORS preflight. */
  predicate IsPreflight(req: Request) {
    req.httpMethod == "OPTIONS"
  }

  /** The gateway round trip: either it throws with the error's message (the fetch is rejected,
      the reply is not JSON, or, after a non-ok status, reading the error text with
      `response.text()` is rejected, so that this message replaces "AI analysis failed"), or a
      reply arrives with its status and `choices[0].message.content`. */
  datatype Upstream = Thrown(message: string) | Reply(status: nat, content: Option<string>)

  /** What `new Response(...)` is given as body: `null`, the model's parsed JSON passed through,
      an analysis record, or the error record (an analysis record with an `error` property). */
  datatype ResponseBody<J> =
    | NoBody
    | Parsed(value: J)
    | Record(data: AnalysisData)
    | ErrorRecord(error: string, data: AnalysisData)

  datatype Response<J> = Response(status: nat, headers: map<string, string>, body: ResponseBody<J>)

  const OkStatus: nat := 200
  const ErrorStatus: nat := 500

  const NoImageMessage: string := "No image provided"
  const NoKeyMessage: string := "LOVABLE_API_KEY not configured"
  const NoContentMessage: string := "No content in AI response"
  const FallbackDescription: string := "Unable to parse AI analysis. Please try again with a different image."
  const ErrorDescription: string := "An error occurred during analysis. Please try again."
  const AllowedHeaders: string := "authorization, x-client-info, apikey, content-type"

  /** `corsHeaders` (index.ts:4-7). */
  function CorsHeaders(): map<string, string> {
    map["Access-Control-Allow-Origin" := "*",
        "Access-Control-Allow-Headers" := AllowedHeaders]
  }

  /** `{ ...corsHeaders, 'Content-Type': 'application/json' }`. */
  function JsonHeaders(): map<string, string> {
    CorsHeaders()["Content-Type" := "application/json"]
  }

  /** `Response.ok`: the status is in the range 200-299. */
  predicate IsOk(status: nat) {
    200 <= status <= 299
  }

  function GatewayFailedMessage(status: nat): string {
    "AI analysis failed: " + NatToString(status)
  }

  /** The record substituted when the model's reply does not parse (index.ts:123-132). */
  function FallbackRecord(): AnalysisData {
    AnalysisData(
      detected := false,
      species := None,
      camouflagePercentage := 0,
      confidence := 50,
      description := FallbackDescription,
      adaptations := [],
      boundingBox := None,
      camouflageRegions := Some([]))
  }

  /** The zeroed record sent beside every error message (index.ts:152-160). */
  function ZeroRecord(): AnalysisData {
    AnalysisData(
      detected := false,
      species := None,
      camouflagePercentage := 0,
      confidence := 0,
      description := ErrorDescription,
      adaptations := [],
      boundingBox := None,
      camouflageRegions := Some([]))
  }

  /** The `catch` of index.ts:147-169. */
  function ErrorResponse<J>(message: string): Response<J> {
    Response(ErrorStatus, JsonHeaders(), ErrorRecord(message, ZeroRecord()))
  }

  /** The inner `try`/`catch` of index.ts:114-133: the extracted text parsed, or the fallback.
      A parse failure never becomes an error; a parsed value is passed through untouched. */
  function AnalysisBody<J>(content: string, parse: string -> Option<J>): (r: ResponseBody<J>)
    ensures r.Parsed? || r == Record(FallbackRecord())
    ensures r.Parsed? <==> parse(ExtractJson(content)).Some?
    ensures r.Parsed? ==> parse(ExtractJson(content)) == Some(r.value)
  {
    match parse(ExtractJson(content))
    case Some(v) => Parsed(v)
    case None => Record(FallbackRecord())
  }

  /** Every error answer is a 500 carrying the zeroed record and the JSON headers; every other
      answer is a 200. */
  predicate StatusMatchesBody<J>(resp: Response<J>) {
    (resp.body.ErrorRecord? <==> resp.status == ErrorStatus) &&
    (resp.body.ErrorRecord? ==> resp.body.data == ZeroRecord() && resp.headers == JsonHeaders()) &&
    (!resp.body.ErrorRecord? ==> resp.status == OkStatus)
  }

  /** What the handler does with the gateway's answer (index.ts:99-145, and the `catch` for the
      errors thrown there): a thrown error, a non-ok status and a missing content each give their
      own error message; a usable reply gives a 200 with the parsed JSON or the fallback record. */
  method HandleReply<J>(upstream: Upstream, parse: string -> Option<J>) returns (resp: Response<J>)
    ensures upstream.Thrown? ==> resp == ErrorResponse(upstream.message)
    ensures upstream.Reply? && !IsOk(upstream.status) ==>
      resp == ErrorResponse(GatewayFailedMessage(upstream.status))
    ensures upstream.Reply? && IsOk(upstream.status) && !Truthy(upstream.content) ==>
      resp == ErrorResponse(NoContentMessage)
    ensures upstream.Reply? && IsOk(upstream.status) && Truthy(upstream.content) ==>
      resp == Response(OkStatus, JsonHeaders(), AnalysisBody(upstream.content.value, parse))
    ensures StatusMatchesBody(resp)
  {
    var content: Option<string>;
    match upstream {
      case Thrown(message) =>
        resp := ErrorResponse(message);
        return;
      case Reply(status, c) =>
        if !IsOk(status) {
          resp := ErrorResponse(GatewayFailedMessage(status));
          return;
        }
        content := c;
    }
    if !Truthy(content) {
      resp := ErrorResponse(NoContentMessage);
      return;
    }

    var analysisData := AnalysisBody(content.value, parse);
    resp := Response(OkStatus, JsonHeaders(), analysisData);
  }

  /** The `serve` handler (index.ts:9-170). Besides the response it reports whether the request
      body was read and whether the gateway was called, so that the order of the early exits is
      visible. */
  method Serve<J>(req: Request, apiKey: Option<string>, upstream: Upstream, parse: string -> Option<J>)
    returns (resp: Response<J>, bodyRead: bool, gatewayCalled: bool)
    // Preflight: answered at once, with no body and the CORS headers, before anything is read.
    ensures IsPreflight(req) ==>
      resp == Response(OkStatus, CorsHeaders(), NoBody) && !bodyRead && !gatewayCalled
    ensures !IsPreflight(req) ==> bodyRead && StatusMatchesBody(resp)
    // The gateway is called only once the image and the key are both present.
    ensures gatewayCalled <==>
      !IsPreflight(req) && req.body.Payload? && Truthy(req.body.image) && Truthy(apiKey)
    // The early exits before the call, in the order the source tries them.
    ensures !IsPreflight(req) && req.body.Unreadable? ==>
      resp == ErrorResponse(req.body.reason)
    ensures !IsPreflight(req) && req.body.Payload? && !Truthy(req.body.image) ==>
      resp == ErrorResponse(NoImageMessage)
    ensures !IsPreflight(req) && req.body.Payload? && Truthy(req.body.image) && !Truthy(apiKey) ==>
      resp == ErrorResponse(NoKeyMessage)
    // After the call.
    ensures gatewayCalled && upstream.Thrown? ==> resp == ErrorResponse(upstream.message)
    ensures gatewayCalled && upstream.Reply? && !IsOk(upstream.status) ==>
      resp == ErrorResponse(GatewayFailedMessage(upstream.status))
    ensures gatewayCalled && upstream.Reply? && IsOk(upstream.status) && !Truthy(upstream.content) ==>
      resp == ErrorResponse(NoContentMessage)
    ensures gatewayCalled && upstream.Reply? && IsOk(upstream.status) && Truthy(upstream.content) ==>
      resp == Response(OkStatus, JsonHeaders(), AnalysisBody(upstream.content.value, parse))
  {
    bodyRead, gatewayCalled := false, false;
    if IsPreflight(req) {
      resp := Response(OkStatus, CorsHeaders(), NoBody);
      return;
    }

    bodyRead := true;
    var image: Option<string>;
    match req.body {
      case Unreadable(reason) =>
        resp := ErrorResponse(reason);
        return;
      case Payload(img) =>
        image := img;
    }
    if !Truthy(image) {
      resp := ErrorResponse(NoImageMessage);
      return;
    }
    if !Truthy(apiKey) {
      resp := ErrorResponse(NoKeyMessage);
      return;
    }

    gatewayCalled := true;
    resp := HandleReply(upstream, parse);
  }

  /** Stripping a code fence is transparent: a fenced block of fence-free JSON text is answered
      exactly as the bare text would be, with either kind of fence. */
  lemma FenceIsTransparent<J>(s: string, parse: string -> Option<J>)
    requires NoFence(s)
    ensures AnalysisBody("```json\n" + s + "\n```", parse) == AnalysisBody(s, parse)
    ensures AnalysisBody("```\n" + s + "\n```", parse) == AnalysisBody(s, parse)
  {
    JsonFencedRoundTrip(s);
    PlainFencedRoundTrip(s);
    UnfencedUnchanged(s);
  }

  /** Different upstream statuses give different error messages: the status can be read back
      from the message. */
  lemma GatewayFailedMessageInjective(a: nat, b: nat)
    requires GatewayFailedMessage(a) == GatewayFailedMessage(b)
    ensures a == b
  {
    var prefix := "AI analysis failed: ";
    assert NatToString(a) == GatewayFailedMessage(a)[|prefix|..];
    assert NatToString(b) == GatewayFailedMessage(b)[|prefix|..];
    NatToStringValue(a);
    NatToStringValue(b);
  }
}
