/**
  The upstream client: the completion request the relay sends to the provider,
  and the classification of the one outcome it gets back into an error or a
  reply content. The transport itself is an input value.
 */
module Upstream {
  import opened Wrappers
  import opened JsonValue

  /** An HTTP header as a name and a value. */
  datatype Header = Header(name: string, value: string)

  /** What the transport delivered: a request `error` event, or a status and the parsed collected body. */
  datatype Outcome = ConnectError | Reply(statusCode: int, body: ParseResult)

  /** The object the request promise resolves with: `{ error }` or `{ content }`. */
  datatype Completion = Failure(error: Json) | Success(content: Option<Json>)

  const ConnectFailed := "Failed to connect to OpenAI API"
  const ParseFailed := "Failed to parse OpenAI API response"
  const ApiError := "OpenAI API error"
  const InvalidResponse := "Invalid response from OpenAI API"

  const Hostname := "api.openai.com"
  const Port := 443
  const CompletionsPath := "/v1/chat/completions"
  const ModelName := "gpt-3.5-turbo"
  const SystemPrompt := "You are a helpful assistant. Keep your responses concise and friendly."
  const MaxTokens: real := 500.0
  const Temperature: real := 0.7

  /** The outbound request: where it goes, its headers, and the JSON value it serialises. */
  datatype Request = Request(
    hostname: string, port: int, path: string, httpMethod: string,
    headers: seq<Header>, payload: Json)

  /** A chat entry `{ role, content }` with string fields, read back as a pair. */
  function RoleAndContent(entry: Json): Option<(string, string)> {
    if entry.Obj? then
      match (LastValue(entry.members, "role"), LastValue(entry.members, "content"))
      case (Some(Str(role)), Some(Str(content))) => Some((role, content))
      case _ => None
    else None
  }

  /** One chat entry `{ role, content }`. */
  function ChatEntry(role: string, content: string): (e: Json)
    ensures e.Obj? && |e.members| == 2
    ensures RoleAndContent(e) == Some((role, content))
  {
    var members := [Member("role", Str(role)), Member("content", Str(content))];
    LastValueOfSoleKey(members, 0, "role");
    LastValueOfSoleKey(members, 1, "content");
    Obj(members)
  }

  /** The members of the completion request body, in the order the code writes them. */
  function PayloadMembers(message: string): seq<Member> {
    [ Member("model", Str(ModelName)),
      Member("messages", Arr([ChatEntry("system", SystemPrompt), ChatEntry("user", message)])),
      Member("max_tokens", Num(MaxTokens)),
      Member("temperature", Num(Temperature)) ]
  }

  /**
    The completion request body: the fixed system entry followed by the user's
    message verbatim (the other settings are stated by `PayloadSettings`).
   */
  function CompletionPayload(message: string): (p: Json)
    ensures p.Obj? && |p.members| == 4
    ensures LastValue(p.members, "messages")
            == Some(Arr([ChatEntry("system", SystemPrompt), ChatEntry("user", message)]))
    ensures var entries := LastValue(p.members, "messages");
            && entries.Some? && entries.value.Arr? && |entries.value.elems| == 2
            && RoleAndContent(entries.value.elems[0]) == Some(("system", SystemPrompt))
            && RoleAndContent(entries.value.elems[1]) == Some(("user", message))
  {
    LastValueOfSoleKey(PayloadMembers(message), 1, "messages");
    Obj(PayloadMembers(message))
  }

  /** The request body names the model, the 500-token cap and the 0.7 temperature. */
  lemma PayloadSettings(message: string)
    ensures LastValue(CompletionPayload(message).members, "model") == Some(Str(ModelName))
    ensures LastValue(CompletionPayload(message).members, "max_tokens") == Some(Num(MaxTokens))
    ensures LastValue(CompletionPayload(message).members, "temperature") == Some(Num(Temperature))
  {
    var members := PayloadMembers(message);
    LastValueOfSoleKey(members, 0, "model");
    LastValueOfSoleKey(members, 2, "max_tokens");
    LastValueOfSoleKey(members, 3, "temperature");
  }

  /**
    A character Node's HTTP layer accepts in a header value: tab, printable
    ASCII, or a code point from 0x80 to 0xFF. Any other character makes the
    request constructor throw.
   */
  predicate HeaderChar(c: char) {
    c == '\t' || (32 <= c as int <= 126) || (128 <= c as int <= 255)
  }

  predicate HeaderSafe(s: string) {
    forall i :: 0 <= i < |s| ==> HeaderChar(s[i])
  }

  /** The bearer credential header built from the API key. */
  function Authorization(apiKey: string): Header {
    Header("Authorization", "Bearer " + apiKey)
  }

  /** `makeOpenAIRequest(apiKey, requestData)`: the POST it issues, without Content-Length. */
  function BuildRequest(apiKey: string, message: string): (r: Request)
    ensures r.hostname == Hostname && r.port == Port && r.path == CompletionsPath
    ensures r.httpMethod == "POST"
    ensures r.headers == [Header("Content-Type", "application/json"), Authorization(apiKey)]
    ensures r.payload == CompletionPayload(message)
  {
    Request(Hostname, Port, CompletionsPath, "POST",
      [Header("Content-Type", "application/json"), Authorization(apiKey)],
      CompletionPayload(message))
  }

  /** `"Bearer " + key` passes the header check exactly when the key does. */
  lemma AuthorizationSafe(apiKey: string)
    ensures HeaderSafe(Authorization(apiKey).value) <==> HeaderSafe(apiKey)
  {
    var v := Authorization(apiKey).value;
    assert forall i :: 0 <= i < |apiKey| ==> v[i + 7] == apiKey[i];
    assert forall i :: 0 <= i < 7 ==> HeaderChar(v[i]);
  }

  /**
    The error a non-200 reply carries: the member `message` of the member
    `error` of the parsed object, when that is truthy.
   */
  function ProviderMessage(v: Json): Option<Json> {
    if !v.Obj? then None
    else
      match LastValue(v.members, "error")
      case Some(Obj(em)) => (
        match LastValue(em, "message")
        case Some(x) => if Truthy(x) then Some(x) else None
        case None => None)
      case _ => None
  }

  /**
    The `message` of the first choice of a 200 reply, when `choices`, its first
    entry and that entry's `message` are all present and truthy. Only an object
    can carry `message`, so a first entry that is a string or a number has none.
   */
  function FirstChoiceMessage(v: Json): Option<Json> {
    if !v.Obj? then None
    else
      var first: Option<Json> := (
        match LastValue(v.members, "choices")
        case Some(Arr(es)) => if es == [] then None else Some(es[0])
        case Some(Obj(cm)) => LastValue(cm, "0")
        case _ => None);
      match first
      case Some(Obj(fm)) => (
        match LastValue(fm, "message")
        case Some(m) => if Truthy(m) then Some(m) else None
        case None => None)
      case _ => None
  }

  /** The `content` member of a reply message; `undefined` when it has none. */
  function ContentOf(m: Json): Option<Json> {
    if m.Obj? then LastValue(m.members, "content") else None
  }

  /** The `'end'` listener: classify a status and the parsed body, as the JavaScript reads them. */
  function OnEnd(status: int, body: ParseResult): Completion {
    match body
    case SyntaxError => Failure(Str(ParseFailed))
    case Parsed(response) =>
      if status != 200 then
        var error := Get(response, "error");
        if error.Throws? then Failure(Str(ParseFailed))
        else
          var message := GetOptional(error, "message");
          if ReadTruthy(message) then Failure(message.value) else Failure(Str(ApiError))
      else
        var choices := Get(response, "choices");
        if choices.Throws? then Failure(Str(ParseFailed))
        else if !ReadTruthy(choices) then Failure(Str(InvalidResponse))
        else
          var first := GetFirst(choices.value);
          if !ReadTruthy(first) then Failure(Str(InvalidResponse))
          else
            var message := Get(first.value, "message");
            if !ReadTruthy(message) then Failure(Str(InvalidResponse))
            else
              match Get(message.value, "content")
              case Found(c) => Success(Some(c))
              case _ => Success(None)
  }

  /**
    The value the request promise resolves with for one transport outcome, in
    the order the callbacks check: connection, parse, status, reply shape.
   */
  function Classify(o: Outcome): (c: Completion)
    ensures o.ConnectError? ==> c == Failure(Str(ConnectFailed))
    ensures o.Reply? && (o.body.SyntaxError? || o.body == Parsed(Null)) ==> c == Failure(Str(ParseFailed))
    ensures o.Reply? && o.statusCode != 200 && o.body.Parsed? && !o.body.value.Null? ==>
              c == Failure(match ProviderMessage(o.body.value) case Some(x) => x case None => Str(ApiError))
    ensures o.Reply? && o.statusCode == 200 && o.body.Parsed? && !o.body.value.Null? ==>
              c == match FirstChoiceMessage(o.body.value)
                   case Some(m) => Success(ContentOf(m))
                   case None => Failure(Str(InvalidResponse))
    ensures c.Success? ==> o.Reply? && o.statusCode == 200
    ensures c.Failure? ==> Truthy(c.error)
  {
    match o
    case ConnectError => Failure(Str(ConnectFailed))
    case Reply(status, body) => OnEnd(status, body)
  }
}
