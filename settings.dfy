/** The proxy's configuration and the environment overrides applied to it
    after the configuration file is loaded (main.go:27-44, 61-96). */
module Settings {
  import opened Wrappers

  /** Go's `int` on the 64-bit platforms the proxy targets. */
  type Int64 = x: int | -0x8000_0000_0000_0000 <= x < 0x8000_0000_0000_0000

  datatype Config = Config(
    bind: string,
    proxyUrl: string,
    timeout: Int64,
    codexApiBase: string,
    codexApiKey: string,
    codexApiOrganization: string,
    codexApiProject: string,
    chatApiBase: string,
    chatApiKey: string,
    chatApiOrganization: string,
    chatApiProject: string,
    chatModelDefault: string,
    chatModelMap: map<string, string>,
    chatMaxTokens: Int64,
    chatLocale: string)

  /** The fields of `Config`, one constructor per struct field. */
  datatype Field =
    | Bind | ProxyUrl | Timeout
    | CodexApiBase | CodexApiKey | CodexApiOrganization | CodexApiProject
    | ChatApiBase | ChatApiKey | ChatApiOrganization | ChatApiProject
    | ChatModelDefault | ChatModelMap | ChatMaxTokens | ChatLocale

  /** The fields in declaration order, the order the override loop visits them. */
  const Fields: seq<Field> := [
    Bind, ProxyUrl, Timeout,
    CodexApiBase, CodexApiKey, CodexApiOrganization, CodexApiProject,
    ChatApiBase, ChatApiKey, ChatApiOrganization, ChatApiProject,
    ChatModelDefault, ChatModelMap, ChatMaxTokens, ChatLocale]

  /** The field's `json` struct tag. */
  function Tag(f: Field): string
  {
    match f
    case Bind => "bind"
    case ProxyUrl => "proxy_url"
    case Timeout => "timeout"
    case CodexApiBase => "codex_api_base"
    case CodexApiKey => "codex_api_key"
    case CodexApiOrganization => "codex_api_organization"
    case CodexApiProject => "codex_api_project"
    case ChatApiBase => "chat_api_base"
    case ChatApiKey => "chat_api_key"
    case ChatApiOrganization => "chat_api_organization"
    case ChatApiProject => "chat_api_project"
    case ChatModelDefault => "chat_model_default"
    case ChatModelMap => "chat_model_map"
    case ChatMaxTokens => "chat_max_tokens"
    case ChatLocale => "chat_locale"
  }

  /** The Go kind of the field's type. The struct has no bool, unsigned or
      floating-point field, so only these three kinds occur. */
  datatype Kind = StringKind | IntKind | MapKind

  function KindOf(f: Field): Kind
  {
    match f
    case Timeout | ChatMaxTokens => IntKind
    case ChatModelMap => MapKind
    case _ => StringKind
  }

  /** A field's value, tagged by kind. */
  datatype Value = Text(s: string) | Integer(i: Int64) | Table(m: map<string, string>)

  predicate Fits(f: Field, v: Value)
  {
    match KindOf(f)
    case StringKind => v.Text?
    case IntKind => v.Integer?
    case MapKind => v.Table?
  }

  function ValueOf(c: Config, f: Field): (v: Value)
    ensures Fits(f, v)
  {
    match f
    case Bind => Text(c.bind)
    case ProxyUrl => Text(c.proxyUrl)
    case Timeout => Integer(c.timeout)
    case CodexApiBase => Text(c.codexApiBase)
    case CodexApiKey => Text(c.codexApiKey)
    case CodexApiOrganization => Text(c.codexApiOrganization)
    case CodexApiProject => Text(c.codexApiProject)
    case ChatApiBase => Text(c.chatApiBase)
    case ChatApiKey => Text(c.chatApiKey)
    case ChatApiOrganization => Text(c.chatApiOrganization)
    case ChatApiProject => Text(c.chatApiProject)
    case ChatModelDefault => Text(c.chatModelDefault)
    case ChatModelMap => Table(c.chatModelMap)
    case ChatMaxTokens => Integer(c.chatMaxTokens)
    case ChatLocale => Text(c.chatLocale)
  }

  /** Stores `v` in field `f` (reflection's `SetString`/`SetInt`); every
      other field keeps its value. */
  function SetField(c: Config, f: Field, v: Value): (r: Config)
    requires Fits(f, v)
    ensures ValueOf(r, f) == v
    ensures forall g :: g != f ==> ValueOf(r, g) == ValueOf(c, g)
  {
    match f
    case Bind => c.(bind := v.s)
    case ProxyUrl => c.(proxyUrl := v.s)
    case Timeout => c.(timeout := v.i)
    case CodexApiBase => c.(codexApiBase := v.s)
    case CodexApiKey => c.(codexApiKey := v.s)
    case CodexApiOrganization => c.(codexApiOrganization := v.s)
    case CodexApiProject => c.(codexApiProject := v.s)
    case ChatApiBase => c.(chatApiBase := v.s)
    case ChatApiKey => c.(chatApiKey := v.s)
    case ChatApiOrganization => c.(chatApiOrganization := v.s)
    case ChatApiProject => c.(chatApiProject := v.s)
    case ChatModelDefault => c.(chatModelDefault := v.s)
    case ChatModelMap => c.(chatModelMap := v.m)
    case ChatMaxTokens => c.(chatMaxTokens := v.i)
    case ChatLocale => c.(chatLocale := v.s)
  }

  /** `strings.ToUpper` on ASCII text; the tags are ASCII. */
  function UpperChar(ch: char): char
  {
    if 'a' <= ch <= 'z' then (ch as int - 32) as char else ch
  }

  function Upper(s: string): (u: string)
  {
    seq(|s|, i requires 0 <= i < |s| => UpperChar(s[i]))
  }

  /** The environment variable that overrides field `f`. */
  function EnvName(f: Field): string
  {
    "OVERRIDE_" + Upper(Tag(f))
  }

  /** What field `f` holds once the overrides are applied: unchanged when its
      variable is unset; a string field takes the variable's text; an integer
      field takes the parsed value, or keeps its own when parsing fails; the
      map field is never overridden, because the kind switch has no case for
      maps. `parseInt` stands for `strconv.ParseInt(value, 10, 64)`. */
  function Overridden(base: Config, f: Field, env: map<string, string>,
                      parseInt: string -> Option<Int64>): Value
  {
    var name := EnvName(f);
    if name !in env then ValueOf(base, f)
    else
      match KindOf(f)
      case StringKind => Text(env[name])
      case IntKind => (match parseInt(env[name]) case Some(i) => Integer(i) case None => ValueOf(base, f))
      case MapKind => ValueOf(base, f)
  }

  /** The position of a field in `Fields`. */
  function Position(f: Field): (k: nat)
    ensures k < |Fields| && Fields[k] == f
  {
    match f
    case Bind => 0
    case ProxyUrl => 1
    case Timeout => 2
    case CodexApiBase => 3
    case CodexApiKey => 4
    case CodexApiOrganization => 5
    case CodexApiProject => 6
    case ChatApiBase => 7
    case ChatApiKey => 8
    case ChatApiOrganization => 9
    case ChatApiProject => 10
    case ChatModelDefault => 11
    case ChatModelMap => 12
    case ChatMaxTokens => 13
    case ChatLocale => 14
  }

  /** `Fields` lists each field exactly once. */
  lemma PositionsAgree()
    ensures forall j :: 0 <= j < |Fields| ==> Position(Fields[j]) == j
  {
  }

  /** The override loop of `readConfig`: visits every tagged field in
      declaration order, looks up `OVERRIDE_<TAG>` and, when it is set,
      stores it according to the field's kind. */
  method ApplyOverrides(base: Config, env: map<string, string>,
                        parseInt: string -> Option<Int64>) returns (cfg: Config)
    ensures forall f :: ValueOf(cfg, f) == Overridden(base, f, env, parseInt)
  {
    PositionsAgree();
    cfg := base;
    for i := 0 to |Fields|
      invariant forall f :: Position(f) < i ==> ValueOf(cfg, f) == Overridden(base, f, env, parseInt)
      invariant forall f :: Position(f) >= i ==> ValueOf(cfg, f) == ValueOf(base, f)
    {
      var f := Fields[i];
      assert Position(f) == i;
      var tag := Tag(f);
      if tag == "" {
        continue;
      }
      var name := "OVERRIDE_" + Upper(tag);
      if name !in env {
        continue;
      }
      var value := env[name];
      match KindOf(f) {
        case StringKind =>
          cfg := SetField(cfg, f, Text(value));
        case IntKind =>
          var parsed := parseInt(value);
          if parsed.Some? {
            cfg := SetField(cfg, f, Integer(parsed.value));
          }
        case MapKind =>
      }
    }
  }

  /** Setting `OVERRIDE_CHAT_MODEL_MAP` has no effect. */
  lemma MapFieldNeverOverridden(base: Config, env: map<string, string>,
                                parseInt: string -> Option<Int64>)
    ensures Overridden(base, ChatModelMap, env, parseInt) == Table(base.chatModelMap)
  {
  }

  /** The variable for `chat_max_tokens`, spelled out. */
  lemma MaxTokensVariable()
    ensures EnvName(ChatMaxTokens) == "OVERRIDE_CHAT_MAX_TOKENS"
  {
  }
}
