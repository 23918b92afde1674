/** The outbound request both relays build (main.go:220-236, 294-310). */
module Upstream {
  import opened Json
  import opened Settings

  const CompletionsPath := "/chat/completions"

  /** One backend's connection settings: base URL, key, and the optional
      organization and project identifiers. */
  datatype Backend = Backend(base: string, key: string, organization: string, project: string)

  function ChatBackend(cfg: Config): Backend
  {
    Backend(cfg.chatApiBase, cfg.chatApiKey, cfg.chatApiOrganization, cfg.chatApiProject)
  }

  function CodexBackend(cfg: Config): Backend
  {
    Backend(cfg.codexApiBase, cfg.codexApiKey, cfg.codexApiOrganization, cfg.codexApiProject)
  }

  datatype Request = Request(verb: string, url: string, headers: map<string, string>, body: Doc)

  /** The names of every header the proxy may send upstream. */
  const HeaderNames: set<string> := {"Content-Type", "Authorization", "OpenAI-Organization", "OpenAI-Project"}

  /** A POST of `body` to the backend's completions endpoint, with a JSON
      content type, a bearer token, and the organization and project headers
      only when they are configured. */
  function BuildRequest(b: Backend, body: Doc): (r: Request)
    ensures r.verb == "POST" && r.url == b.base + CompletionsPath && r.body == body
    ensures r.headers.Keys <= HeaderNames
    ensures "Content-Type" in r.headers && r.headers["Content-Type"] == "application/json"
    ensures "Authorization" in r.headers && r.headers["Authorization"] == "Bearer " + b.key
    ensures "OpenAI-Organization" in r.headers <==> b.organization != ""
    ensures "OpenAI-Organization" in r.headers ==> r.headers["OpenAI-Organization"] == b.organization
    ensures "OpenAI-Project" in r.headers <==> b.project != ""
    ensures "OpenAI-Project" in r.headers ==> r.headers["OpenAI-Project"] == b.project
  {
    var h := map["Content-Type" := "application/json", "Authorization" := "Bearer " + b.key];
    var h := if b.organization != "" then h["OpenAI-Organization" := b.organization] else h;
    var h := if b.project != "" then h["OpenAI-Project" := b.project] else h;
    Request("POST", b.base + CompletionsPath, h, body)
  }

}
