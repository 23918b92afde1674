/** What each relay answers its caller, given how the request went
    (main.go:134-141, 183-267, 277-342). */
module Responses {
  import opened Wrappers

  /** An answer from the upstream backend: status, `Content-Type` header
      ("" when absent) and body. */
  datatype UpstreamAnswer = UpstreamAnswer(status: int, contentType: string, body: string)

  /** How handling a request went: the inbound body could not be read, the
      outbound request could not be built, the inbound context was canceled,
      the transport failed in another way, or the upstream answered. */
  datatype Outcome =
    | ReadError
    | BuildError
    | Canceled
    | TransportError
    | Answer(upstream: UpstreamAnswer)

  /** The outcomes the HTTP client can produce for a dispatched request. */
  type Dispatch = o: Outcome | o.Canceled? || o.TransportError? || o.Answer? witness Canceled

  /** The response as it reaches the caller: its status, the `Content-Type`
      header the handler set (`None` when it set none or net/http removed it)
      and the body net/http let through. */
  datatype Response = Response(status: int, contentType: Option<string>, body: string)

  const StatusOK := 200
  const StatusBadRequest := 400
  const StatusRequestTimeout := 408
  const StatusInternalServerError := 500

  const EventStream := "text/event-stream"
  const DoneEvent := "data: [DONE]\n"

  /** The status each outcome stands for in the proxy's error taxonomy:
      unreadable body 400, build or transport failure 500, cancellation 408,
      and the upstream's own status when it answered. */
  function TaxonomyStatus(o: Outcome): int
  {
    match o
    case ReadError => StatusBadRequest
    case BuildError => StatusInternalServerError
    case Canceled => StatusRequestTimeout
    case TransportError => StatusInternalServerError
    case Answer(u) => u.status
  }

  /** Whether a response with this status may carry a body. gin writes no
      body for the others, and net/http refuses one: informational statuses,
      204 No Content and 304 Not Modified. */
  predicate BodyAllowed(status: int)
  {
    !(100 <= status <= 199 || status == 204 || status == 304)
  }

  /** What reaches the caller of a body written with this status. */
  function Written(status: int, body: string): string
  {
    if BodyAllowed(status) then body else ""
  }

  /** Whether the `Content-Type` header set for a response with this status
      reaches the caller: net/http deletes it from 304 Not Modified. */
  predicate TypeAllowed(status: int)
  {
    status != 304
  }

  /** What reaches the caller of a content type set with this status. */
  function Stamped(status: int, contentType: Option<string>): Option<string>
  {
    if TypeAllowed(status) then contentType else None
  }

  /** Copies status, content type (only when non-empty) and body. */
  function Relay(u: UpstreamAnswer): Response
  {
    Response(u.status, Stamped(u.status, if u.contentType != "" then Some(u.contentType) else None),
             Written(u.status, u.body))
  }

  /** `abortCodex`: an event-stream terminator with the given status. */
  function AbortCodex(status: int): Response
  {
    Response(status, Stamped(status, Some(EventStream)), Written(status, DoneEvent))
  }

  /** The chat relay: local failures abort with a bare status; every upstream
      answer, whatever its status, is relayed. */
  function ChatResponse(o: Outcome): (r: Response)
    ensures r.status == TaxonomyStatus(o)
    ensures o.Answer? && BodyAllowed(o.upstream.status) ==> r.body == o.upstream.body
    ensures o.Answer? && !BodyAllowed(o.upstream.status) ==> r.body == ""
    ensures o.Answer? ==> (r.contentType.Some? <==> o.upstream.contentType != "" && TypeAllowed(o.upstream.status))
    ensures o.Answer? && r.contentType.Some? ==> r.contentType.value == o.upstream.contentType
    ensures !o.Answer? ==> r.contentType.None? && r.body == ""
  {
    match o
    case ReadError => Response(StatusBadRequest, None, "")
    case BuildError => Response(StatusInternalServerError, None, "")
    case Canceled => Response(StatusRequestTimeout, None, "")
    case TransportError => Response(StatusInternalServerError, None, "")
    case Answer(u) => Relay(u)
  }

  /** The code-completion relay: only a 200 answer is relayed; every other
      outcome becomes the event-stream terminator. */
  function CodexResponse(o: Outcome): (r: Response)
    ensures r.status == TaxonomyStatus(o)
    ensures o.Answer? && o.upstream.status == StatusOK ==> r == Relay(o.upstream)
    ensures !(o.Answer? && o.upstream.status == StatusOK) && TypeAllowed(r.status) ==> r.contentType == Some(EventStream)
    ensures !TypeAllowed(r.status) ==> r.contentType == None
    ensures !(o.Answer? && o.upstream.status == StatusOK) && BodyAllowed(r.status) ==> r.body == DoneEvent
    ensures !BodyAllowed(r.status) ==> r.body == ""
  {
    match o
    case ReadError => AbortCodex(StatusBadRequest)
    case BuildError => AbortCodex(StatusInternalServerError)
    case Canceled => AbortCodex(StatusRequestTimeout)
    case TransportError => AbortCodex(StatusInternalServerError)
    case Answer(u) => if u.status != StatusOK then AbortCodex(u.status) else Relay(u)
  }

  /** The two relays always answer with the same status. They give the same
      response to a 200 answer and different ones to every local failure;
      a non-200 answer is relayed by one and replaced by the other. */
  lemma RelaysAgree(o: Outcome)
    ensures ChatResponse(o).status == CodexResponse(o).status
    ensures o.Answer? && o.upstream.status == StatusOK ==> ChatResponse(o) == CodexResponse(o)
    ensures !o.Answer? ==> ChatResponse(o) != CodexResponse(o)
    ensures o.Answer? && o.upstream.status != StatusOK ==>
              ChatResponse(o) == Relay(o.upstream) && CodexResponse(o) == AbortCodex(o.upstream.status)
  {
  }

  /** A canceled code-completion request gets 408 with the terminator. */
  lemma CodexCanceledExample()
    ensures CodexResponse(Canceled) == Response(408, Some("text/event-stream"), "data: [DONE]\n")
  {
  }

  /** A 204 from the codex backend is answered with 204, the event-stream
      content type and no body: the terminator cannot be written. */
  lemma CodexNoContentExample()
    ensures CodexResponse(Answer(UpstreamAnswer(204, "", ""))) == Response(204, Some("text/event-stream"), "")
  {
  }

  /** A 304 reaches the caller of either relay with neither a content type
      nor a body. */
  lemma NotModifiedExample()
    ensures ChatResponse(Answer(UpstreamAnswer(304, "application/json", "{}"))) == Response(304, None, "")
    ensures CodexResponse(Answer(UpstreamAnswer(304, "application/json", "{}"))) == Response(304, None, "")
  {
  }

  /** A 503 from the chat backend reaches the caller unchanged. */
  lemma ChatRateLimitedExample()
    ensures ChatResponse(Answer(UpstreamAnswer(503, "application/json", "{\"error\":\"rate limited\"}")))
            == Response(503, Some("application/json"), "{\"error\":\"rate limited\"}")
  {
  }
}
