# Chat relay: a verified model

This project models the serverless chat relay of the repository: the `handler`
in `netlify/functions/chat.js`, and how `makeOpenAIRequest` classifies the
provider's answer. The handler takes an HTTP event and does the following, in order:

1. It answers an `OPTIONS` pre-flight and refuses every method other than `POST`.
2. It checks that the provider API key is configured.
3. It parses the body and checks that `message` is a non-empty string.
4. It sends one chat-completion request to the provider.
5. It normalises the classified outcome into `500 {error}` or `200 {response}`.
6. Its `catch` turns any thrown fault into `500 {"error":"Internal server error"}`.

Every response carries the same four cross-origin headers.

The model is pure: Dafny datatypes, functions and lemmas.

- The environment variable is the parameter `apiKey: Option<string>`.
- The network exchange is the parameter `upstream: Outcome`: a connection `error`, or a status plus what `JSON.parse` made of the collected body.
- The handler's result is an `Exchange`. It holds the response and the upstream `Request` the handler issued, if it issued one. "The upstream is never consulted" is therefore stated directly, as `sent == None`.

Modules:

- `Wrappers`: `Option`. `None` stands for JavaScript's `undefined`.
- `JsonValue`: parsed JSON values; JavaScript truthiness; and the property reads the code performs (`v.name`, `v[0]`, `v?.name`). A read yields `undefined`, a value, or a thrown TypeError (reading from `null`). `JSON.parse` keeps the *last* of duplicate keys. `LastValue` is the lookup, and `Assigned` (assignment in text order) is its reference definition. `LastValueIsAssigned` proves the two agree.
- `Upstream`: the outbound request (`BuildRequest`, `CompletionPayload`). Also `Classify`: its body follows the JavaScript of the `'end'` and `'error'` listeners read by read. Its contract states the outcome through the structural references `ProviderMessage` and `FirstChoiceMessage`.
- `Relay`: the handler ladder (`Handle` and its `try` block `TryBlock`), the normalisation (`Normalize`), and what `JSON.stringify` writes for a body (`Rendered`).

Behaviour the code has that a quick reading could miss, all modelled:

- A body that is not JSON, or the JSON `null`, makes the destructuring on line 42 throw. The `catch` then answers 500 "Internal server error": an unparseable body is a server error (500), not a client error (400).
- A body that is a number, a string, an array or a boolean has no `message`, so it gets 400.
- A non-200 reply whose `error.message` is a truthy non-string, such as `5`, relays that value unchanged as the error.
- A 200 reply whose first choice's `message` has no `content` resolves `{content: undefined}`. The handler answers 200, and the body renders as `{}`.
- `choices` may be an object with a member `"0"`. The code reads `choices[0]` from it just as it reads from an array.
- `if (response.error)` tests truthiness. `Classify` proves that every error it produces is truthy, so every failure becomes a 500.
- Node's HTTP layer throws while building the request when a header value holds a character other than tab, 0x20-0x7E or 0x80-0xFF. An API key with such a character therefore makes `https.request` throw inside the Promise executor. The awaited promise rejects, the `catch` answers 500 "Internal server error", and nothing is sent.

## Model

| member | source | states |
|---|---|---|
| JsonValue.Assigned | netlify/functions/chat.js:118 | the object `JSON.parse` builds has a property for every member key, and each property's value is the value of some member with that key |
| JsonValue.LastValue | netlify/functions/chat.js:118 | the lookup finds nothing exactly when no member has the key; otherwise it finds the value of a member with that key after which no member repeats the key |
| JsonValue.LastValueAppend | netlify/functions/chat.js:118 | a member appended at the end overrides any earlier member with the same key and leaves other keys unchanged |
| JsonValue.LastValueIsAssigned | netlify/functions/chat.js:118 | the last-member lookup agrees with the property assigned by parsing in text order (duplicate keys: last wins) |
| JsonValue.Get | netlify/functions/chat.js:42-43 | reading a named property throws exactly on `null`; it finds a value only on an object that has a member with that name, and that value is the last such member's |
| JsonValue.GetFirst | netlify/functions/chat.js:125-126 | `v[0]` throws exactly on `null`; on an array it is the first element or `undefined` when the array is empty; on an object it is member `"0"`; on a string it is the first character, or `undefined` for `""`; on anything else it is `undefined` |
| JsonValue.GetOptional | netlify/functions/chat.js:121 | `?.` never throws; it gives `undefined` on `undefined` or `null`; on an object that has the member it finds the last such member's value, and any value it finds is such a member |
| Upstream.ChatEntry | netlify/functions/chat.js:55-62 | a chat entry is an object of exactly two members that reads back as its role and content |
| Upstream.CompletionPayload | netlify/functions/chat.js:52-63 | the payload is an object of exactly four members whose `messages` is exactly two chat entries of two members each: the fixed system instruction, then the user's message verbatim with role `user` |
| Upstream.PayloadSettings | netlify/functions/chat.js:52-66 | the payload names the model `gpt-3.5-turbo`, the 500-token cap and the 0.7 temperature |
| Upstream.BuildRequest | netlify/functions/chat.js:97-107 | the request is a POST to the provider's completions path on port 443, carries exactly the headers `Content-Type: application/json` and `Authorization: Bearer <key>`, and its payload is the completion payload of the message |
| Upstream.AuthorizationSafe | netlify/functions/chat.js:104 | the `Bearer` header value passes Node's header-character check exactly when the key does |
| Upstream.Classify | netlify/functions/chat.js:116-138 | transport error gives "Failed to connect"; an unparseable body or `null` gives "Failed to parse" whatever the status; a non-200 status gives the truthy `error.message` or "OpenAI API error"; a 200 gives the first choice's `content` when `choices`, `choices[0]` and `.message` are all truthy, else "Invalid response"; success only on 200; every error is truthy |
| Relay.Normalize | netlify/functions/chat.js:71-83 | a truthy error gives 500 with that error; a success gives 200 with its content (possibly `undefined`); always the CORS headers |
| Relay.Handle | netlify/functions/chat.js:3-93 | every response carries the four CORS headers; `OPTIONS` gives 200 with an empty body; any method other than `OPTIONS` or `POST` gives 405; for `POST`, a missing or empty key gives 500 "not configured"; an unparseable or `null` body gives 500 "Internal server error"; a body without a non-empty string `message` gives 400; an unsafe key gives 500 "Internal server error"; in each of these cases nothing is sent. A request is sent exactly when none of these holds, and then it carries the key and the message, and the response is 500 with the classified error or 200 with the content |
| Relay.Rendered | netlify/functions/chat.js:79-83 | the empty body renders as nothing; an error body, or a reply with content, renders as an object of exactly one member; `{response: undefined}` renders as exactly `{}`; an error body exposes its error; a reply body has no `error`, and its `response` is the content |
| Relay.ClientReadsRelayedReply | script.js:57-64 | after a successful exchange, the client sees no `error` in the body and reads the provider's content as `response` |
| Relay.UpstreamUnusedUnlessSent | netlify/functions/chat.js:13-49 | on every path that returns before the request is sent, the handler's answer is the same for every transport outcome |

## Left out

- The transport: `https.request`, the chunk accumulation on lines 110-114, `req.write`/`req.end`, and the Promise/`await` plumbing. They are replaced by the `Outcome` input. An `'error'` event after the `'end'` event (where the first `resolve` wins) is not modelled, because the input names one outcome.
- The `Content-Length` header: the byte length of the serialised request is text handling that the model does not carry.
- `JSON.parse` and `JSON.stringify` as text: bodies are modelled as parsed values (`ParseResult`, `Json`) and rendered values (`Rendered`). A missing inbound body is coerced by `JSON.parse` to the text `null`, which the model expresses as `Parsed(Null)`.
- Numbers are exact reals. IEEE rounding is not modelled, so a literal that rounds to zero is not treated as falsy, and `0.7` is the exact decimal.
- Strings are sequences of Unicode scalar values, not UTF-16 code units. `GetFirst` on a string returns its first character.
- JsonValue.Get: covers only the four names the relay reads (`message`, `error`, `choices`, `content`). Inherited properties such as `length` are not modelled.
- `process.env` lookup: the key is the `apiKey` parameter.
- `console.error` on line 86: logging only.
- Node's header-value check is modelled only for the `Authorization` value. The other header values are constants that pass it.
- `script.js` apart from its reading of the response: DOM wiring, resizing, scrolling and button state are presentation.
