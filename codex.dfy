/** The rewrite the code-completion relay applies to a request body before
    forwarding it (main.go:23, 290-292). */
module Codex {
  import opened Json

  /** The model every code-completion request is forwarded with. */
  const InstructModel := "deepseek-coder"

  /** Members some clients send that the backend does not accept. */
  const StrippedKeys: set<string> := {"extra", "nwo"}

  /** Deletes `extra`, then `nwo`, then sets `model` to the instruct model. */
  function CodexRewrite(d: Doc): (r: Doc)
    ensures StrippedKeys !! r.Keys
    ensures "model" in r && r["model"] == Str(InstructModel)
    ensures forall k :: k in d && k !in StrippedKeys ==> k in r
    ensures forall k :: k in r ==> k in d || k == "model"
    ensures forall k :: k in d && k !in StrippedKeys && k != "model" ==> r[k] == d[k]
  {
    var d1 := d - {"extra"};
    var d2 := d1 - {"nwo"};
    d2["model" := Str(InstructModel)]
  }

  /** Rewriting a rewritten body changes nothing. */
  lemma CodexRewriteIdempotent(d: Doc)
    ensures CodexRewrite(CodexRewrite(d)) == CodexRewrite(d)
  {
    var once := CodexRewrite(d);
    assert CodexRewrite(once).Keys == once.Keys;
  }

  /** Whatever model the caller names, the same body apart from `model`
      is forwarded identically. */
  lemma CallerModelIgnored(d: Doc, m: Json)
    ensures CodexRewrite(d["model" := m]) == CodexRewrite(d)
  {
    assert CodexRewrite(d["model" := m]).Keys == CodexRewrite(d).Keys;
  }
}
