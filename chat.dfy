/** The rewrite the chat-completion relay applies to a request body before
    forwarding it (main.go:190-218). */
module Chat {
  import opened Json
  import opened Settings

  const LocalePhrase := "Respond in the following locale"
  const DefaultLocale := "zh_CN"
  const IntentKeys: set<string> := {"intent", "intent_threshold", "intent_content"}

  /** The model the request is forwarded with: the mapped name when the
      requested one is a key of the model map, the default otherwise. */
  function ResolveModel(requested: string, cfg: Config): string
  {
    if requested in cfg.chatModelMap then cfg.chatModelMap[requested] else cfg.chatModelDefault
  }

  /** The configured locale, or zh_CN when none is configured. */
  function Locale(cfg: Config): string
  {
    if cfg.chatLocale == "" then DefaultLocale else cfg.chatLocale
  }

  function LocaleInstruction(locale: string): string
  {
    LocalePhrase + ": " + locale + "."
  }

  /** `messages` is a non-empty array whose last element is an object. */
  predicate HasLastMessage(d: Doc)
  {
    "messages" in d && d["messages"].Arr? && |d["messages"].items| > 0
    && d["messages"].items[|d["messages"].items| - 1].Obj?
  }

  function LastMessage(d: Doc): map<string, Json>
    requires HasLastMessage(d)
  {
    var items := d["messages"].items;
    items[|items| - 1].fields
  }

  /** The text of the last message's `content`. */
  function LastContent(d: Doc): string
    requires HasLastMessage(d)
  {
    StringOf(Get(LastMessage(d), "content"))
  }

  /** What the relay needs of a body: without `function_call` it indexes the
      last element of `messages`, which panics on an empty array. */
  predicate Rewritable(d: Doc)
  {
    "function_call" in d || HasLastMessage(d)
  }

  /** Appends the locale instruction to the last message's content unless
      that content already mentions the locale phrase. */
  function InjectLocale(d: Doc, locale: string): (r: Doc)
    requires HasLastMessage(d)
    ensures HasLastMessage(r)
    ensures Contains(LastContent(r), LocalePhrase)
  {
    var items := d["messages"].items;
    var last := |items| - 1;
    var msg := items[last].fields;
    var content := StringOf(Get(msg, "content"));
    if Contains(content, LocalePhrase) then d
    else
      var r := d["messages" := Arr(items[last := Obj(msg["content" := Str(content + LocaleInstruction(locale))])])];
      assert LastContent(r) == content + LocalePhrase + (": " + locale + ".");
      ContainsInside(content, LocalePhrase, ": " + locale + ".");
      r
  }

  /** Lowers `max_tokens` to the ceiling when its integer reading exceeds it. */
  function ClampMaxTokens(d: Doc, ceiling: int): Doc
  {
    if IntOf(Get(d, "max_tokens")) > ceiling then d["max_tokens" := Num(ceiling)] else d
  }

  /** The chat rewrite, in the order the relay applies its steps. */
  function ChatRewrite(d: Doc, cfg: Config): (r: Doc)
    requires Rewritable(d)
    ensures Rewritable(r)
    // the model is always resolved: mapped, or the default
    ensures "model" in r && r["model"] == Str(ResolveModel(StringOf(Get(d, "model")), cfg))
    // the intent keys are gone, and no other key is dropped
    ensures IntentKeys !! r.Keys
    ensures forall k :: k in d && k !in IntentKeys ==> k in r
    ensures forall k :: k in r ==> k in d || k == "model" || k == "max_tokens"
    // keys the rewrite does not address keep their values
    ensures forall k :: k in d && k !in IntentKeys && k !in {"model", "messages", "max_tokens"} ==> r[k] == d[k]
    // max_tokens never exceeds the ceiling, and is left alone when within it
    ensures IntOf(Get(r, "max_tokens")) <= cfg.chatMaxTokens
    ensures IntOf(Get(d, "max_tokens")) <= cfg.chatMaxTokens ==> Get(r, "max_tokens") == Get(d, "max_tokens")
    ensures IntOf(Get(d, "max_tokens")) > cfg.chatMaxTokens ==> r["max_tokens"] == Num(cfg.chatMaxTokens)
    // with function_call present the messages are not touched
    ensures "function_call" in d ==> Get(r, "messages") == Get(d, "messages")
    // without it, the last message carries the locale instruction
    ensures "function_call" !in d ==> HasLastMessage(r) && Contains(LastContent(r), LocalePhrase)
  {
    var d1 := d["model" := Str(ResolveModel(StringOf(Get(d, "model")), cfg))];
    var d2 := if "function_call" in d1 then d1 else InjectLocale(d1, Locale(cfg));
    var d3 := d2 - IntentKeys;
    Wrap64InRange(cfg.chatMaxTokens);
    ClampMaxTokens(d3, cfg.chatMaxTokens)
  }

  /** Without `function_call`, only the last message changes, and only its
      content: it becomes the old content followed by the instruction, unless
      the old content already mentions the locale phrase. */
  lemma LocaleAppended(d: Doc, cfg: Config)
    requires "function_call" !in d && HasLastMessage(d)
    ensures var r := ChatRewrite(d, cfg);
            var items := d["messages"].items;
            var last := |items| - 1;
            HasLastMessage(r)
            && |r["messages"].items| == |items|
            && r["messages"].items[..last] == items[..last]
            && (if Contains(LastContent(d), LocalePhrase) then r["messages"] == d["messages"]
                else r["messages"].items[last]
                       == Obj(LastMessage(d)["content" := Str(LastContent(d) + LocaleInstruction(Locale(cfg)))]))
  {
  }

  /** Injecting the locale a second time, with any locale, changes nothing. */
  lemma InjectLocaleIdempotent(d: Doc, first: string, second: string)
    requires HasLastMessage(d)
    ensures InjectLocale(InjectLocale(d, first), second) == InjectLocale(d, first)
  {
    var r := InjectLocale(d, first);
    assert Contains(LastContent(r), LocalePhrase);
  }

  /** Rewriting a rewritten body is a fixed point everywhere but `model`,
      which is resolved once more; in particular `messages` never receives
      a second locale instruction. */
  lemma RewriteTwice(d: Doc, cfg: Config)
    requires Rewritable(d)
    ensures var once := ChatRewrite(d, cfg);
            ChatRewrite(once, cfg)
              == once["model" := Str(ResolveModel(ResolveModel(StringOf(Get(d, "model")), cfg), cfg))]
  {
    var once := ChatRewrite(d, cfg);
    var m := ResolveModel(StringOf(Get(d, "model")), cfg);
    var e1 := once["model" := Str(ResolveModel(m, cfg))];
    assert StringOf(Get(once, "model")) == m;
    var e2 := if "function_call" in e1 then e1 else InjectLocale(e1, Locale(cfg));
    if "function_call" !in e1 {
      assert LastContent(e1) == LastContent(once);
      assert e2 == e1;
    }
    assert e2 - IntentKeys == e1;
    assert ClampMaxTokens(e1, cfg.chatMaxTokens) == e1;
  }

  /** Corollary: repeated rewriting leaves `messages` as the first rewrite
      made it. */
  lemma MessagesStable(d: Doc, cfg: Config)
    requires Rewritable(d)
    ensures Get(ChatRewrite(ChatRewrite(d, cfg), cfg), "messages") == Get(ChatRewrite(d, cfg), "messages")
  {
    RewriteTwice(d, cfg);
  }

  /** A body without `max_tokens` gains one exactly when the ceiling is
      negative: the missing value reads as 0, which exceeds such a ceiling. */
  lemma AbsentMaxTokens(d: Doc, cfg: Config)
    requires Rewritable(d) && "max_tokens" !in d
    ensures "max_tokens" in ChatRewrite(d, cfg) <==> cfg.chatMaxTokens < 0
  {
  }

  lemma ExampleText()
    ensures !Contains("hi", LocalePhrase)
    ensures "hi" + LocaleInstruction("zh_CN") == "hiRespond in the following locale: zh_CN."
  {
  }

  /** A `max_tokens` of 2^64, given as a number or as its decimal string,
      reads as 0 and is forwarded unclamped, whatever the non-negative
      ceiling. */
  lemma HugeMaxTokensUnclamped(d: Doc, ceiling: int)
    requires ceiling >= 0
    ensures var e := d["max_tokens" := Num(0x1_0000_0000_0000_0000)];
            ClampMaxTokens(e, ceiling) == e
    ensures var e := d["max_tokens" := Str(DecimalText(0x1_0000_0000_0000_0000))];
            ClampMaxTokens(e, ceiling) == e
  {
    TwoToThe64ReadsZero();
  }

  /** The locale step of the worked example below. */
  lemma ExampleInjection()
    ensures var msg := map["content" := Str("hi")];
            InjectLocale(map["model" := Str("deepseek-coder"), "messages" := Arr([Obj(msg)])], "zh_CN")
              == map["model" := Str("deepseek-coder"),
                     "messages" := Arr([Obj(map["content" := Str("hiRespond in the following locale: zh_CN.")])])]
  {
    var msg := map["content" := Str("hi")];
    var d1 := map["model" := Str("deepseek-coder"), "messages" := Arr([Obj(msg)])];
    var text := "hiRespond in the following locale: zh_CN.";
    assert LastContent(d1) == "hi";
    ExampleText();
    assert msg["content" := Str(text)] == map["content" := Str(text)];
    assert [Obj(msg)][0 := Obj(map["content" := Str(text)])] == [Obj(map["content" := Str(text)])];
    var r := InjectLocale(d1, "zh_CN");
    assert r == d1["messages" := Arr([Obj(map["content" := Str(text)])])];
  }

  /** The worked example: gpt-4 with an empty model map, default
      deepseek-coder and locale zh_CN. */
  lemma Example()
    ensures var cfg := Config("", "", 0, "", "", "", "", "", "", "", "", "deepseek-coder", map[], 4096, "zh_CN");
            var d := map["model" := Str("gpt-4"), "messages" := Arr([Obj(map["content" := Str("hi")])])];
            ChatRewrite(d, cfg)
              == map["model" := Str("deepseek-coder"),
                     "messages" := Arr([Obj(map["content" := Str("hiRespond in the following locale: zh_CN.")])])]
  {
    var cfg := Config("", "", 0, "", "", "", "", "", "", "", "", "deepseek-coder", map[], 4096, "zh_CN");
    var msg := map["content" := Str("hi")];
    var d := map["model" := Str("gpt-4"), "messages" := Arr([Obj(msg)])];
    var d1 := map["model" := Str("deepseek-coder"), "messages" := Arr([Obj(msg)])];
    var d2 := map["model" := Str("deepseek-coder"),
                  "messages" := Arr([Obj(map["content" := Str("hiRespond in the following locale: zh_CN.")])])];
    assert d["model" := Str(ResolveModel(StringOf(Get(d, "model")), cfg))] == d1;
    ExampleInjection();
    assert d2 - IntentKeys == d2;
  }
}
