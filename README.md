# Override proxy: request rewrite and response decision

This project models the core of an HTTP proxy that sits between a code
editor's assistant and large-language-model backends. The proxy has two
endpoints:

- The chat relay (`completions`) rewrites a chat-completion body. It resolves
  `model` through the configured model map, falling back to the default
  model. When `function_call` is absent it appends a locale instruction to
  the last message. It deletes the `intent`, `intent_threshold` and
  `intent_content` members and clamps `max_tokens` to the configured
  ceiling. It then forwards the body and relays the upstream's status,
  content type and body, whatever the status.
- The code-completion relay (`codeCompletions`) deletes `extra` and `nwo`
  and forces `model` to `deepseek-coder`. It forwards the body, relays a
  200 answer, and turns every other outcome into the event-stream
  terminator `data: [DONE]\n`. That terminator carries the status of the
  outcome.

Both relays POST to `<base>/chat/completions`. They always send a bearer
token, and send the organization and project headers only when those are
configured. At startup, the configuration fields can be overridden by
`OVERRIDE_<TAG>` environment variables.

Modules, one per component:

- `Json` (json.dfy): the abstract request document, a map from member names
  to JSON values, with the readings the proxy applies to a member: exists,
  text and integer.
- `Settings` (settings.dfy): the configuration record and the
  environment-override loop.
- `Chat` (chat.dfy) and `Codex` (codex.dfy): the two rewrites as
  functions, with their properties.
- `Upstream` (upstream.dfy): the outbound request.
- `Responses` (responses.dfy): what each relay answers for each outcome.
- `Handlers` (handlers.dfy): the two handlers as methods that reassign the
  body step by step. They take as parameters what the handlers cannot see:
  the result of reading the inbound body, whether a URL is accepted when the
  outbound request is built, the HTTP client's verdict, and whether the
  context is already canceled.
- `Wrappers` (wrappers.dfy): `Option`.

The code compares gjson's integer reading of a missing `max_tokens`, which
is 0, with the ceiling. So when the ceiling is negative, a body without
`max_tokens` gains one (`Chat.AbsentMaxTokens`).

## Model

| member | source | states |
|---|---|---|
| `Chat.ChatRewrite` | main.go:190-218 | `model` becomes the mapped name when the inbound model (absent reads as "") is a key of the map, and the default otherwise. The three intent members are gone and no other member is dropped. Members the rewrite does not address keep their values. `max_tokens` never reads above the ceiling: a value above it becomes the ceiling, and a value within it stays as it was. With `function_call` present, `messages` is untouched. Without it, the last message's content contains the locale phrase |
| `Chat.InjectLocale` | main.go:200-210 | after injection the last message's content contains "Respond in the following locale" |
| `Chat.LocaleAppended` | main.go:200-210 | without `function_call`, only the last message changes and only in `content`. That content becomes the old text + "Respond in the following locale: " + locale + ".", with locale `chat_locale` or "zh_CN" when it is empty. A content that already mentions the phrase is left as it was, and so is every earlier message |
| `Chat.InjectLocaleIdempotent` | main.go:203-209 | injecting again, with any locale, leaves the document unchanged |
| `Chat.RewriteTwice` | main.go:190-218 | rewriting a rewritten body changes only `model`, which is resolved once more. Messages, intents and `max_tokens` are a fixed point |
| `Chat.MessagesStable` | main.go:200-210 | a second rewrite never adds a second locale instruction: `messages` stays as the first rewrite left it |
| `Chat.AbsentMaxTokens` | main.go:216-218 | a body without `max_tokens` gains one exactly when the ceiling is negative |
| `Chat.Example` | main.go:190-218 | gpt-4 with an empty map, default deepseek-coder and locale zh_CN gives model deepseek-coder and content "hiRespond in the following locale: zh_CN." |
| `Codex.CodexRewrite` | main.go:290-292 | `extra` and `nwo` are absent and `model` is "deepseek-coder" (main.go:23). Every other member is kept with its value |
| `Codex.CodexRewriteIdempotent` | main.go:290-292 | rewriting a rewritten code-completion body changes nothing |
| `Codex.CallerModelIgnored` | main.go:292 | the caller's `model`, whatever it is, does not affect the forwarded body |
| `Upstream.BuildRequest` | main.go:221-236 | POST to base + "/chat/completions" with the body. `Content-Type: application/json` and `Authorization: Bearer <key>` are always sent. `OpenAI-Organization` and `OpenAI-Project` are present exactly when configured non-empty, and carry the configured values. The handler sets no other header. The codex relay builds its request the same way (main.go:295-310) |
| `Responses.ChatResponse` | main.go:183-267 | the status is 400 on a read error, 500 on a build or transport error, 408 on cancellation, and the upstream's status otherwise. Local failures have no content type and an empty body. Any upstream answer, including a non-200 one, is relayed with its status and body, and its content type is copied only when non-empty. For a status that allows no body (1xx, 204, 304) the caller gets an empty body, and for 304 no content type, since net/http removes it |
| `Responses.CodexResponse` | main.go:277-342 | the status follows the same table. Only a 200 answer is relayed. Every other outcome, including a non-200 answer, gets `text/event-stream` and the body `data: [DONE]\n` (main.go:134-141). For a status that allows no body (1xx, 204, 304) the body is empty. For 304 the content type is absent too, since net/http removes it |
| `Responses.RelaysAgree` | main.go:252-267 | both relays always answer with the same status. Their responses are equal for a 200 answer and differ for every local failure. A non-200 answer is relayed by the chat relay and replaced by the terminator in the code-completion relay |
| `Responses.CodexCanceledExample` | main.go:314-318 | a canceled code-completion request gets 408, `text/event-stream`, `data: [DONE]\n` |
| `Responses.CodexNoContentExample` | main.go:326-331 | a 204 from the codex backend is answered with 204, `text/event-stream` and an empty body |
| `Responses.NotModifiedExample` | main.go:252-267 | a 304 answer reaches the caller of either relay with status 304, no content type and no body |
| `Responses.ChatRateLimitedExample` | main.go:252-267 | a 503 with body `{"error":"rate limited"}` from the chat backend reaches the caller unchanged |
| `Handlers.ServeChat` | main.go:179-268 | a read failure answers 400 with nothing sent. A URL rejected while the request is built answers 500 with nothing sent. Otherwise the request sent is `BuildRequest` of the chat backend and the rewritten body, and the answer is `ChatResponse` of the client's verdict |
| `Handlers.ServeCodex` | main.go:271-343 | a context already canceled after the delay answers 408 with the terminator. A read failure answers 400 and a rejected URL 500, both with the terminator and nothing sent. Otherwise the request sent is `BuildRequest` of the codex backend and the rewritten body, and the answer is `CodexResponse` of the client's verdict |
| `Settings.ApplyOverrides` | main.go:61-96 | after the loop over the fields, each field whose `OVERRIDE_<TAG>` is unset keeps its value. A string field takes the variable's text. An integer field takes the parsed value, or keeps its own when parsing fails. The map field is never changed |
| `Settings.SetField` | main.go:76-90 | storing a value changes the named field and no other |
| `Settings.MapFieldNeverOverridden` | main.go:76-95 | `OVERRIDE_CHAT_MODEL_MAP` has no effect: the kind switch has no case for maps |
| `Settings.MaxTokensVariable` | main.go:71 | the variable for `chat_max_tokens` is `OVERRIDE_CHAT_MAX_TOKENS` |
| `Json.ParseDecimalText` | main.go:216 | the decimal string of n has the integer reading n wrapped to 64 bits, as gjson accumulates digits in an int64. So a `max_tokens` given as the string of an int64 n is compared like n itself |
| `Json.NumberReadsLikeText` | main.go:216 | an integer literal and its decimal string have the same integer reading, since gjson reads both with the int64 accumulator |
| `Json.TwoToThe64ReadsZero` | main.go:216 | 2^64 has the integer reading 0, as a number and as its decimal string |
| `Chat.HugeMaxTokensUnclamped` | main.go:216-218 | a `max_tokens` given as the number 2^64 or as its decimal string reads as 0 and is forwarded unclamped whenever the ceiling is non-negative |

## Left out

- `getClient` and `NewProxyService` (main.go:102-131, 159-169) are left out. They set up HTTP/2, the outbound proxy URL and timeouts, which are transport plumbing.
- The HTTP client's `Do` and context cancellation are not modelled as mechanisms. The client's verdict on a request is the function parameter `client`, and "the context is already canceled" is a boolean.
- The 100 ms delay of the code-completion relay (main.go:275) is left out.
- Whether `http.NewRequestWithContext` accepts a URL is the parameter `validUrl`.
- Streaming the upstream body to the caller, closing it, and logging (main.go:144-150, 253-254, 267, 320, 327-328, 342) are left out. The body is relayed as a whole value. Bodies are strings, not byte sequences.
- Reading `config.json` and unmarshalling it (main.go:49-59) are left out.
- The reflection machinery is not modelled. Only the per-field override rule is modelled, over an explicit list of fields with their tags and kinds.
- `strconv.ParseInt` is a parameter, a parser that may fail. The struct has no bool, unsigned or floating-point field, so the `ParseBool`, `ParseUint` and `ParseFloat` arms of the switch cannot fire and are not modelled.
- Gin routing, `InitRoutes` and `main` (main.go:172-176, 346-368) are left out.
- gjson and sjson are not modelled at the byte level. The document is the map of members of its top-level object, so member order, duplicate keys, non-object and malformed bodies are out.
- gjson's `String()` of an array or an object is its raw JSON text, which the abstract document does not keep. `Json.StringOf` reads such a value as "". This affects a non-string `model` lookup and a non-string message `content`.
- JSON numbers are integers: fractional and exponent literals, and gjson's floating-point path in `Int()`, are out. Integer literals and decimal strings are read with gjson's int64 wrap-around (`Json.IntOf`, `Json.ParseInt`).
- Go 1xx informational responses are not modelled beyond carrying no body.
- Responses.ChatResponse: `contentType` is the header the handler sets, less net/http's removal on a 304. When no header is set and the body is non-empty, net/http sniffs a content type from the first bytes; that sniffed header is not modelled, and such a response has `None`.
- Responses.CodexResponse: a 200 answer without a content type is relayed with `None`. The type net/http would sniff from a non-empty body is not modelled.
- Chat.Rewritable: a body without `function_call` must have `messages` as a non-empty array whose last element is an object. The code indexes the last element without a guard and panics on an absent or empty array. The recovery middleware of `gin.Default()` (main.go:351) answers that panic with a 500, so the model does not cover that 500 answer. For a non-array `messages` or a non-object last element, the outcome depends on sjson's path handling.
- net/http canonicalises header names, so `OpenAI-Organization` goes out as `Openai-Organization`. Header names are case-insensitive, and the model keeps the spelling of the code.
- Chat.ChatRewrite: states that the last message's content contains the locale phrase after the rewrite and is not extended again. It does not state that the phrase occurs exactly once: a configured locale that itself contains the phrase makes the phrase appear twice.
