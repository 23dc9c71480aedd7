/**
  The relay endpoint: the handler's ladder of guards (method, configuration,
  body and message, delegation, normalisation, catch-all) over an inbound
  event, the configured API key and the transport outcome.
 */
module Relay {
  import opened Wrappers
  import opened JsonValue
  import opened Upstream

  const MethodNotAllowed := "Method not allowed"
  const KeyNotConfigured := "OpenAI API key not configured"
  const MessageRequired := "Message is required"
  const InternalError := "Internal server error"

  /** The cross-origin headers every response carries. */
  const CorsHeaders := [
    Header("Access-Control-Allow-Origin", "*"),
    Header("Access-Control-Allow-Headers", "Content-Type"),
    Header("Access-Control-Allow-Methods", "POST, OPTIONS"),
    Header("Content-Type", "application/json")]

  /** The inbound event: its HTTP method and what `JSON.parse` makes of its body. */
  datatype Event = Event(httpMethod: string, body: ParseResult)

  /** A response body: `''`, `{ error }`, or `{ response }` whose value may be `undefined`. */
  datatype Body = EmptyBody | ErrorBody(error: Json) | ReplyBody(response: Option<Json>)

  datatype Response = Response(statusCode: int, headers: seq<Header>, body: Body)

  /** One invocation: the response returned, and the upstream request issued, if any. */
  datatype Exchange = Exchange(response: Response, sent: Option<Request>)

  /** How the `try` block ended: with a `return`, or with a thrown fault. */
  datatype Attempt = Returned(exchange: Exchange) | Threw

  function Respond(status: int, body: Body): Response {
    Response(status, CorsHeaders, body)
  }

  /** `!apiKey`: an unset variable and the empty string both count as missing. */
  predicate KeyConfigured(apiKey: Option<string>) {
    apiKey.Some? && apiKey.value != ""
  }

  /** The message a parsed body states: its own `message` member, when that is a non-empty string. */
  function StatedMessage(v: Json): Option<string> {
    if !v.Obj? then None
    else
      match LastValue(v.members, "message")
      case Some(Str(s)) => if s != "" then Some(s) else None
      case _ => None
  }

  /**
    Lines 71-82: a truthy `error` gives 500 with that error; anything else gives
    200 with `content`, which is `undefined` for a result that has none.
   */
  function Normalize(c: Completion): (r: Response)
    ensures r.headers == CorsHeaders
    ensures c.Failure? && Truthy(c.error) ==> r.statusCode == 500 && r.body == ErrorBody(c.error)
    ensures c.Success? ==> r.statusCode == 200 && r.body == ReplyBody(c.content)
    ensures c.Failure? && !Truthy(c.error) ==> r.statusCode == 200 && r.body == ReplyBody(None)
  {
    if c.Failure? && Truthy(c.error) then Respond(500, ErrorBody(c.error))
    else Respond(200, ReplyBody(if c.Success? then c.content else None))
  }

  /** The body of the `try` block, lines 31-83, as the JavaScript evaluates it. */
  function TryBlock(body: ParseResult, apiKey: Option<string>, upstream: Outcome): Attempt {
    if !KeyConfigured(apiKey) then
      Returned(Exchange(Respond(500, ErrorBody(Str(KeyNotConfigured))), None))
    else
      match body
      case SyntaxError => Threw
      case Parsed(v) =>
        var message := Get(v, "message");
        if message.Throws? then Threw
        else if !ReadTruthy(message) || !message.value.Str? then
          Returned(Exchange(Respond(400, ErrorBody(Str(MessageRequired))), None))
        else if !HeaderSafe(Authorization(apiKey.value).value) then
          Threw
        else
          var request := BuildRequest(apiKey.value, message.value.s);
          Returned(Exchange(Normalize(Classify(upstream)), Some(request)))
  }

  /**
    The handler: answers every event with the CORS headers, sends the upstream
    request only for a POST with a configured key and a usable message, and
    turns every fault inside the `try` block into 500 "Internal server error".
   */
  function Handle(event: Event, apiKey: Option<string>, upstream: Outcome): (x: Exchange)
    ensures x.response.headers == CorsHeaders
    ensures event.httpMethod == "OPTIONS" ==> x == Exchange(Response(200, CorsHeaders, EmptyBody), None)
    ensures event.httpMethod != "OPTIONS" && event.httpMethod != "POST" ==>
              x == Exchange(Response(405, CorsHeaders, ErrorBody(Str(MethodNotAllowed))), None)
    ensures event.httpMethod == "POST" && !KeyConfigured(apiKey) ==>
              x == Exchange(Response(500, CorsHeaders, ErrorBody(Str(KeyNotConfigured))), None)
    ensures event.httpMethod == "POST" && KeyConfigured(apiKey)
            && (event.body.SyntaxError? || event.body == Parsed(Null)) ==>
              x == Exchange(Response(500, CorsHeaders, ErrorBody(Str(InternalError))), None)
    ensures event.httpMethod == "POST" && KeyConfigured(apiKey)
            && event.body.Parsed? && !event.body.value.Null? && StatedMessage(event.body.value).None? ==>
              x == Exchange(Response(400, CorsHeaders, ErrorBody(Str(MessageRequired))), None)
    ensures event.httpMethod == "POST" && KeyConfigured(apiKey)
            && event.body.Parsed? && StatedMessage(event.body.value).Some? && !HeaderSafe(apiKey.value) ==>
              x == Exchange(Response(500, CorsHeaders, ErrorBody(Str(InternalError))), None)
    ensures x.sent.Some? <==>
              && event.httpMethod == "POST" && KeyConfigured(apiKey)
              && event.body.Parsed? && StatedMessage(event.body.value).Some? && HeaderSafe(apiKey.value)
    ensures x.sent.Some? ==>
              && x.sent.value == BuildRequest(apiKey.value, StatedMessage(event.body.value).value)
              && x.response == match Classify(upstream)
                               case Failure(e) => Response(500, CorsHeaders, ErrorBody(e))
                               case Success(c) => Response(200, CorsHeaders, ReplyBody(c))
  {
    AuthorizationSafe(if apiKey.Some? then apiKey.value else "");
    if event.httpMethod == "OPTIONS" then
      Exchange(Respond(200, EmptyBody), None)
    else if event.httpMethod != "POST" then
      Exchange(Respond(405, ErrorBody(Str(MethodNotAllowed))), None)
    else
      match TryBlock(event.body, apiKey, upstream)
      case Returned(x) => x
      case Threw => Exchange(Respond(500, ErrorBody(Str(InternalError))), None)
  }

  /**
    What `JSON.stringify` writes for a body, as a value: nothing for `''`, and
    an object in which `undefined` members are dropped.
   */
  function Rendered(b: Body): (r: Option<Json>)
    ensures r.None? <==> b.EmptyBody?
    ensures r.Some? ==> r.value.Obj?
    ensures b == ReplyBody(None) ==> r == Some(Obj([]))
    ensures b.ErrorBody? || (b.ReplyBody? && b.response.Some?) ==> |r.value.members| == 1
    ensures b.ErrorBody? ==> LastValue(r.value.members, "error") == Some(b.error)
    ensures b.ReplyBody? ==> LastValue(r.value.members, "error") == None
                             && LastValue(r.value.members, "response") == b.response
  {
    match b
    case EmptyBody => None
    case ErrorBody(e) => Some(Obj([Member("error", e)]))
    case ReplyBody(None) => Some(Obj([]))
    case ReplyBody(Some(c)) => Some(Obj([Member("response", c)]))
  }

  /**
    A relayed reply reaches the browser client as it reads the body: `data.error`
    is absent and `data.response` is the content the provider returned.
   */
  lemma ClientReadsRelayedReply(event: Event, apiKey: Option<string>, upstream: Outcome)
    requires Handle(event, apiKey, upstream).sent.Some?
    requires Classify(upstream).Success?
    ensures var data := Rendered(Handle(event, apiKey, upstream).response.body);
            && data.Some?
            && LastValue(data.value.members, "error") == None
            && LastValue(data.value.members, "response") == Classify(upstream).content
  {
  }

  /** Whenever the handler does not send a request, its answer is the same for every transport outcome. */
  lemma UpstreamUnusedUnlessSent(event: Event, apiKey: Option<string>, o1: Outcome, o2: Outcome)
    requires Handle(event, apiKey, o1).sent.None?
    ensures Handle(event, apiKey, o1) == Handle(event, apiKey, o2)
  {
  }
}
