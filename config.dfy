/** `load_settings` and `_load_prompts` of backend/app/config.py. The
    environment is given as the values of the variables it reads (`None`
    when unset) and prompts.yml as the document it parses to. */
module Config {
  import opened Wrappers
  import opened Text

  const DefaultSystemPrompt: string := "You are a senior technology and privacy attorney. Return ONLY Markdown."
  const DefaultModel: string := "gpt-4o"
  const DefaultMaxTokens: int := 16000

  /** OPENAI_API_KEY, OPENAI_MODEL, OPENAI_MAX_TOKENS, CORS_ALLOW_ORIGINS. */
  datatype Env = Env(apiKey: Option<string>, model: Option<string>, maxTokens: Option<string>, corsOrigins: Option<string>)

  /** The prompt configuration as the code reads it: section -> key -> text. */
  type Prompts = map<string, map<string, string>>

  /** What `yaml.safe_load` returned: a mapping, or anything else. */
  datatype YamlDoc = Mapping(sections: Prompts) | NotMapping

  datatype Settings = Settings(apiKey: Option<string>, model: string, maxTokens: int,
                               corsAllowOrigins: seq<string>, prompts: Prompts)

  /** `prompts.get(section, {}).get(key)`. */
  function PromptText(p: Prompts, section: string, key: string): (r: Option<string>)
    ensures r.Some? <==> section in p && key in p[section]
    ensures r.Some? ==> r.value == p[section][key]
  {
    if section in p && key in p[section] then Some(p[section][key]) else None
  }

  /** `[o.strip() for o in pieces if o.strip()]`. */
  function CleanPieces(pieces: seq<string>): (r: seq<string>)
    ensures |r| <= |pieces|
  {
    if pieces == [] then []
    else if PyStrip(pieces[0]) != "" then [PyStrip(pieces[0])] + CleanPieces(pieces[1..])
    else CleanPieces(pieces[1..])
  }

  /** A usable origin: non-empty, with no surrounding whitespace. */
  predicate CleanOrigin(o: string) {
    o != "" && Unpadded(o, PyIsSpace)
  }

  /** Every piece kept is non-empty and unpadded. */
  lemma {:induction false} CleanPiecesAreClean(pieces: seq<string>)
    ensures forall i :: 0 <= i < |CleanPieces(pieces)| ==> CleanOrigin(CleanPieces(pieces)[i])
  {
    if pieces != [] {
      CleanPiecesAreClean(pieces[1..]);
      var head, rest := PyStrip(pieces[0]), CleanPieces(pieces[1..]);
      var r := CleanPieces(pieces);
      if head != "" {
        assert r == [head] + rest;
        forall i | 0 <= i < |r|
          ensures CleanOrigin(r[i])
        {
          if i == 0 { assert r[0] == head; } else { assert r[i] == rest[i - 1]; }
        }
      } else {
        assert r == rest;
      }
    }
  }

  /** The CORS origin list: the comma-separated pieces of the variable
      (default `"*"`), stripped, blanks dropped, or `["*"]` when none is
      left. Never empty, and every origin is non-empty and unpadded. */
  function CorsOrigins(env: Option<string>): (r: seq<string>)
    ensures |r| >= 1
    ensures forall i :: 0 <= i < |r| ==> CleanOrigin(r[i])
  {
    var pieces := CleanPieces(Split(env.GetOr("*"), ','));
    CleanPiecesAreClean(Split(env.GetOr("*"), ','));
    if pieces == [] then ["*"] else pieces
  }

  lemma {:induction false} CleanPiecesKeepsClean(pieces: seq<string>)
    requires forall i :: 0 <= i < |pieces| ==> CleanOrigin(pieces[i])
    ensures CleanPieces(pieces) == pieces
  {
    if pieces != [] {
      CleanPiecesKeepsClean(pieces[1..]);
      var head := pieces[0];
      assert CleanOrigin(head);
      PyStripUnpadded(head);
      assert CleanPieces(pieces) == [head] + CleanPieces(pieces[1..]);
      assert [head] == pieces[..1];
      assert pieces[..1] + pieces[1..] == pieces;
    }
  }

  lemma {:induction false} CleanPiecesAllBlank(pieces: seq<string>)
    requires forall i :: 0 <= i < |pieces| ==> AllSpace(pieces[i], PyIsSpace)
    ensures CleanPieces(pieces) == []
  {
    if pieces != [] {
      CleanPiecesAllBlank(pieces[1..]);
    }
  }

  /** Clean origins survive the trip through the variable: listing them
      separated by commas gives back exactly that list, in order. */
  lemma CorsRoundTrip(origins: seq<string>)
    requires |origins| >= 1
    requires forall i :: 0 <= i < |origins| ==> CleanOrigin(origins[i]) && NoChar(origins[i], ',')
    ensures CorsOrigins(Some(Join(origins, ","))) == origins
  {
    SplitJoin(origins, ',');
    assert Split(Join(origins, [',']), ',') == origins;
    CleanPiecesKeepsClean(origins);
  }

  /** An unset variable, or one whose every piece is blank, gives `["*"]`. */
  lemma CorsFallback(env: Option<string>)
    requires env.Some? ==> forall i :: 0 <= i < |Split(env.value, ',')| ==> AllSpace(Split(env.value, ',')[i], PyIsSpace)
    ensures CorsOrigins(env) == ["*"]
  {
    if env.Some? {
      CleanPiecesAllBlank(Split(env.value, ','));
    } else {
      assert Split("*", ',') == ["*"] by { SplitPiece("*", ','); }
      assert Strip("*", PyIsSpace) == "*";
    }
  }

  /** `int(v) if v else default`, falling back to `default` on ValueError. */
  function MaxTokens(env: Option<string>, default: int): (r: int)
    ensures !Truthy(env) ==> r == default
    ensures Truthy(env) && ParsePyInt(env.value).None? ==> r == default
    ensures Truthy(env) && ParsePyInt(env.value).Some? ==> r == ParsePyInt(env.value).value
  {
    if !Truthy(env) then default
    else match ParsePyInt(env.value)
      case Some(n) => n
      case None => default
  }

  /** A variable holding a rendered integer of at most 4300 digits yields
      that integer. */
  lemma MaxTokensOfDecimal(n: int, default: int)
    requires -(Pow10(MaxStrDigits) as int) < n < Pow10(MaxStrDigits)
    ensures MaxTokens(Some(IntToDecimal(n)), default) == n
  {
    ParseIntOfDecimal(n);
  }

  /** A variable whose digits follow a U+001C separator yields the default:
      `int()` raises on it although `str.strip` would remove the separator. */
  lemma MaxTokensRefusesSeparator(d: string, default: int)
    requires d != [] && forall i :: 0 <= i < |d| ==> IsDigit(d[i])
    ensures MaxTokens(Some("\U{1C}" + d), default) == default
  {
    ParseRefusesSeparator(d);
  }

  /** A variable holding more than 4300 digits yields the default, since
      `int()` raises on it. */
  lemma MaxTokensPastDigitLimit(d: string, default: int)
    requires |d| > MaxStrDigits
    requires forall i :: 0 <= i < |d| ==> IsDigit(d[i])
    ensures MaxTokens(Some(d), default) == default
  {
    ParseIntPastDigitLimit(d);
  }

  /** `_load_prompts`: `None` when the file cannot be read or parsed; any
      document that is not a mapping gives `{}`. */
  function LoadPrompts(doc: Option<YamlDoc>): (r: Prompts)
    ensures doc.Some? && doc.value.Mapping? ==> r == doc.value.sections
    ensures !(doc.Some? && doc.value.Mapping?) ==> r == map[]
  {
    match doc
    case Some(Mapping(m)) => m
    case _ => map[]
  }

  /** `load_settings`. The model falls back to "gpt-4o" only when unset. */
  function LoadSettings(env: Env, doc: Option<YamlDoc>): (s: Settings)
    ensures s.apiKey == env.apiKey
    ensures env.model.None? ==> s.model == DefaultModel
    ensures env.model.Some? ==> s.model == env.model.value
    ensures s.maxTokens == MaxTokens(env.maxTokens, DefaultMaxTokens)
    ensures s.corsAllowOrigins == CorsOrigins(env.corsOrigins)
    ensures s.prompts == LoadPrompts(doc)
  {
    Settings(env.apiKey, env.model.GetOr(DefaultModel), MaxTokens(env.maxTokens, DefaultMaxTokens),
             CorsOrigins(env.corsOrigins), LoadPrompts(doc))
  }
}
