/** The two request handlers, step by step: read the body, rewrite it,
    build the outbound request, dispatch it, answer the caller
    (main.go:179-268, 271-343).

    What the handlers cannot see is passed in: `read` is the inbound body
    (`None` when reading it failed), `validUrl` says whether
    `http.NewRequestWithContext` accepts a URL, and `client` is the HTTP
    client's verdict on a dispatched request. */
module Handlers {
  import opened Wrappers
  import opened Json
  import opened Settings
  import opened Chat
  import opened Codex
  import opened Upstream
  import opened Responses

  /** `completions`: the chat relay. */
  method ServeChat(cfg: Config, read: Option<Doc>, validUrl: string -> bool,
                   client: Request -> Dispatch)
    returns (sent: Option<Request>, resp: Response)
    requires read.Some? ==> Rewritable(read.value)
    ensures read.None? ==> sent == None && resp == Response(400, None, "")
    ensures read.Some? && !validUrl(cfg.chatApiBase + CompletionsPath) ==>
              sent == None && resp == Response(500, None, "")
    ensures read.Some? && validUrl(cfg.chatApiBase + CompletionsPath) ==>
              sent == Some(BuildRequest(ChatBackend(cfg), ChatRewrite(read.value, cfg)))
    ensures sent.Some? ==> resp == ChatResponse(client(sent.value))
  {
    sent := None;
    if read.None? {
      resp := ChatResponse(ReadError);
      return;
    }
    var body := read.value;
    var model := StringOf(Get(body, "model"));
    model := ResolveModel(model, cfg);
    body := body["model" := Str(model)];
    if "function_call" !in body {
      body := InjectLocale(body, Locale(cfg));
    }
    ghost var located := body;
    body := body - {"intent"};
    body := body - {"intent_threshold"};
    body := body - {"intent_content"};
    assert body == located - IntentKeys;
    if IntOf(Get(body, "max_tokens")) > cfg.chatMaxTokens {
      body := body["max_tokens" := Num(cfg.chatMaxTokens)];
    }
    assert body == ChatRewrite(read.value, cfg);
    var url := cfg.chatApiBase + CompletionsPath;
    if !validUrl(url) {
      resp := ChatResponse(BuildError);
      return;
    }
    var req := BuildRequest(ChatBackend(cfg), body);
    sent := Some(req);
    var outcome := client(req);
    resp := ChatResponse(outcome);
  }

  /** `codeCompletions`: the code-completion relay. `canceled` says whether
      the inbound context is already canceled after the fixed delay. */
  method ServeCodex(cfg: Config, canceled: bool, read: Option<Doc>, validUrl: string -> bool,
                    client: Request -> Dispatch)
    returns (sent: Option<Request>, resp: Response)
    ensures canceled ==> sent == None && resp == AbortCodex(408)
    ensures !canceled && read.None? ==> sent == None && resp == AbortCodex(400)
    ensures !canceled && read.Some? && !validUrl(cfg.codexApiBase + CompletionsPath) ==>
              sent == None && resp == AbortCodex(500)
    ensures !canceled && read.Some? && validUrl(cfg.codexApiBase + CompletionsPath) ==>
              sent == Some(BuildRequest(CodexBackend(cfg), CodexRewrite(read.value)))
    ensures sent.Some? ==> resp == CodexResponse(client(sent.value))
  {
    sent := None;
    if canceled {
      resp := CodexResponse(Canceled);
      return;
    }
    if read.None? {
      resp := CodexResponse(ReadError);
      return;
    }
    var body := read.value;
    body := body - {"extra"};
    body := body - {"nwo"};
    body := body["model" := Str(InstructModel)];
    var url := cfg.codexApiBase + CompletionsPath;
    if !validUrl(url) {
      resp := CodexResponse(BuildError);
      return;
    }
    var req := BuildRequest(CodexBackend(cfg), body);
    sent := Some(req);
    var outcome := client(req);
    resp := CodexResponse(outcome);
  }
}
