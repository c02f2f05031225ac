/** Contract generation (backend/app/services/generation.py): the user
    prompt builder, the selection of the system prompt and of the optional
    user template, Python's `str.format` on that template, and the
    streaming of the non-empty deltas. The standalone backend/main.py reuses
    the prompt line layout defined here with its own requirement lines. */
module Generation {
  import opened Wrappers
  import opened Text
  import opened Config
  import opened Retry
  import opened Provider

  /** The generation request body (the optional fields may be absent). */
  datatype ContractRequest = ContractRequest(prompt: string, companyName: Option<string>,
                                             jurisdiction: Option<string>, tone: Option<string>)

  const PromptHeader: string := "Context provided by the user describing business and needs:"

  /** The fixed lines after the stripped prompt, Markdown flavour. */
  const MarkdownRequirements: seq<string> := [
    "\nOutput requirements:",
    "- Return ONLY GitHub-Flavored Markdown (no code fences, no backticks).",
    "- Use #, ##, ### headings with consistent numbering; include a table of contents.",
    "- Ensure consistent defined terms and cross-references.",
    "- Be Verbose and Detailed",
    "- Target 10+ printed pages equivalent when rendered (substantial detail and clauses).",
    "- Use numbered sections and subsections (e.g., 1., 1.1., 1.1.1).",
    "- Use a table of contents to navigate the document.",
    "- Use a footer to include a copyright notice and contact information.",
    "- Use a header to include the document title and version number.",
    "- Include placeholders where user specifics are unknown (e.g., Company Name, Address)."
  ]

  const CompanyLabel: string := "- Company Name: "
  const JurisdictionLabel: string := "- Governing Law / Location Context: "
  const ToneLabel: string := "- Tone: "

  function CompanyLine(v: string): string { CompanyLabel + v }
  function JurisdictionLine(v: string): string { JurisdictionLabel + v }
  function ToneLine(v: string): string { ToneLabel + v }

  /** The line `label + value`, present exactly when the field is non-empty. */
  function OptionalLine(o: Option<string>, tag: string): seq<string> {
    if Truthy(o) then [tag + o.value] else []
  }

  function Count(o: Option<string>): nat { if Truthy(o) then 1 else 0 }

  /** The lines of a user prompt: header, stripped prompt, the fixed
      requirement lines, then a company, a jurisdiction and a tone line, each
      present exactly when its field is non-empty, in that order. */
  function PromptLines(requirements: seq<string>, prompt: string, company: Option<string>,
                       jurisdiction: Option<string>, tone: Option<string>): (r: seq<string>)
    ensures var n := 2 + |requirements|;
      && |r| == n + Count(company) + Count(jurisdiction) + Count(tone)
      && r[..n] == [PromptHeader, PyStrip(prompt)] + requirements
      && (Truthy(company) ==> r[n] == CompanyLine(company.value))
      && (Truthy(jurisdiction) ==> r[n + Count(company)] == JurisdictionLine(jurisdiction.value))
      && (Truthy(tone) ==> r[n + Count(company) + Count(jurisdiction)] == ToneLine(tone.value))
  {
    [PromptHeader, PyStrip(prompt)] + requirements
    + OptionalLine(company, CompanyLabel) + OptionalLine(jurisdiction, JurisdictionLabel) + OptionalLine(tone, ToneLabel)
  }

  lemma PromptLinesUnfold(requirements: seq<string>, prompt: string, company: Option<string>,
                          jurisdiction: Option<string>, tone: Option<string>)
    ensures PromptLines(requirements, prompt, company, jurisdiction, tone)
         == [PromptHeader, PyStrip(prompt)] + requirements
            + OptionalLine(company, CompanyLabel) + OptionalLine(jurisdiction, JurisdictionLabel) + OptionalLine(tone, ToneLabel)
  {
  }

  /** Every line prefixed with the separator: what the lines after the first
      add to a join. */
  function Prefixed(ys: seq<string>, sep: string): (r: seq<string>)
    ensures |r| == |ys|
  {
    if ys == [] then [] else Prefixed(ys[..|ys| - 1], sep) + [sep + ys[|ys| - 1]]
  }

  lemma {:induction false} JoinExtend(xs: seq<string>, ys: seq<string>, sep: string)
    requires |xs| >= 1
    ensures Join(xs + ys, sep) == Join(xs, sep) + Concat(Prefixed(ys, sep))
    decreases |ys|
  {
    if ys == [] {
      assert xs + ys == xs;
    } else {
      var init := ys[..|ys| - 1];
      var last := ys[|ys| - 1];
      var p := Prefixed(init, sep);
      assert xs + ys == (xs + init) + [last];
      JoinExtend(xs, init, sep);
      JoinAppend(xs + init, last, sep);
      assert Join(xs + ys, sep) == Join(xs, sep) + Concat(p) + sep + last;
      assert (p + [sep + last])[..|p|] == p;
      assert Concat(Prefixed(ys, sep)) == Concat(p) + (sep + last);
    }
  }

  /** Without optional fields the prompt is exactly the fixed parts joined by
      newlines; with them, each non-empty field only adds its own line after
      those parts. */
  lemma PromptOptionalLines(requirements: seq<string>, prompt: string, company: Option<string>,
                            jurisdiction: Option<string>, tone: Option<string>)
    ensures var fixed := [PromptHeader, PyStrip(prompt)] + requirements;
      var extra := PromptLines(requirements, prompt, company, jurisdiction, tone)[|fixed|..];
      && Join(PromptLines(requirements, prompt, company, jurisdiction, tone), "\n") == Join(fixed, "\n") + Concat(Prefixed(extra, "\n"))
      && (!Truthy(company) && !Truthy(jurisdiction) && !Truthy(tone) ==>
            Join(PromptLines(requirements, prompt, company, jurisdiction, tone), "\n") == Join(fixed, "\n"))
  {
    var fixed := [PromptHeader, PyStrip(prompt)] + requirements;
    var lines := PromptLines(requirements, prompt, company, jurisdiction, tone);
    var extra := lines[|fixed|..];
    assert lines == fixed + extra;
    JoinExtend(fixed, extra, "\n");
    if !Truthy(company) && !Truthy(jurisdiction) && !Truthy(tone) {
      assert extra == [];
      assert Prefixed(extra, "\n") == [];
    }
  }

  /** The optional lines `build_user_prompt` appends after the fixed ones:
      company, jurisdiction and tone, each only when its field is
      non-empty. */
  method AppendFieldLines(fixed: seq<string>, company: Option<string>, jurisdiction: Option<string>,
                          tone: Option<string>) returns (parts: seq<string>)
    ensures parts == fixed + OptionalLine(company, CompanyLabel) + OptionalLine(jurisdiction, JurisdictionLabel)
                     + OptionalLine(tone, ToneLabel)
  {
    parts := fixed;
    if Truthy(company) {
      parts := parts + [CompanyLine(company.value)];
    }
    ghost var withCompany := parts;
    assert withCompany == fixed + OptionalLine(company, CompanyLabel);
    if Truthy(jurisdiction) {
      parts := parts + [JurisdictionLine(jurisdiction.value)];
    }
    ghost var withJurisdiction := parts;
    assert withJurisdiction == withCompany + OptionalLine(jurisdiction, JurisdictionLabel);
    if Truthy(tone) {
      parts := parts + [ToneLine(tone.value)];
    }
  }

  /** `build_user_prompt`: the parts list is grown by appends and joined. */
  method BuildUserPrompt(data: ContractRequest) returns (r: string)
    ensures r == Join(PromptLines(MarkdownRequirements, data.prompt, data.companyName, data.jurisdiction, data.tone), "\n")
  {
    var parts := AppendFieldLines([PromptHeader, PyStrip(data.prompt)] + MarkdownRequirements,
                                  data.companyName, data.jurisdiction, data.tone);
    PromptLinesUnfold(MarkdownRequirements, data.prompt, data.companyName, data.jurisdiction, data.tone);
    r := Join(parts, "\n");
  }


  /** Why `template.format(context=...)` raises: a field other than
      `context` (KeyError/IndexError), a lone or unbalanced brace
      (ValueError), or a conversion, format spec, attribute or index on
      `context`, which this model does not evaluate. */
  datatype FormatError = MissingField(field: string) | Malformed | Unmodelled(field: string)

  predicate NoBrace(s: string) {
    forall k :: 0 <= k < |s| ==> s[k] != '{' && s[k] != '}'
  }

  /** The first `}` at or after `i`, or `|t|` when there is none. */
  function CloseBrace(t: string, i: nat): (k: nat)
    requires i <= |t|
    ensures i <= k <= |t|
    ensures k < |t| ==> t[k] == '}'
    ensures forall j :: i <= j < k ==> t[j] != '}'
    decreases |t| - i
  {
    if i == |t| || t[i] == '}' then i else CloseBrace(t, i + 1)
  }

  /** Where a field name ends and a conversion, format spec, attribute or
      index begins. */
  function FieldNameEnd(f: string): (k: nat)
    ensures k <= |f|
  {
    if f == [] || f[0] in "!:.[" then 0 else 1 + FieldNameEnd(f[1..])
  }

  function Prepend(p: string, r: Result<string, FormatError>): Result<string, FormatError>
  {
    match r
    case Success(v) => Success(p + v)
    case Failure(e) => Failure(e)
  }

  /** `template.format(context=context)`. */
  function Format(t: string, context: string): Result<string, FormatError>
    decreases |t|
  {
    if t == [] then Success([])
    else if |t| >= 2 && t[0] == '{' && t[1] == '{' then Prepend("{", Format(t[2..], context))
    else if |t| >= 2 && t[0] == '}' && t[1] == '}' then Prepend("}", Format(t[2..], context))
    else if t[0] == '}' then Failure(Malformed)
    else if t[0] == '{' then
      var k := CloseBrace(t, 1);
      if k == |t| || '{' in t[1..k] then Failure(Malformed)
      else
        var field := t[1..k];
        if field == "context" then Prepend(context, Format(t[k + 1..], context))
        else if field[..FieldNameEnd(field)] == "context" then Failure(Unmodelled(field))
        else Failure(MissingField(field))
    else Prepend([t[0]], Format(t[1..], context))
  }

  lemma PrependPrepend(p: string, q: string, r: Result<string, FormatError>)
    ensures Prepend(p, Prepend(q, r)) == Prepend(p + q, r)
  {
    match r
    case Success(v) => assert p + (q + v) == (p + q) + v;
    case Failure(_) =>
  }

  /** Brace-free text is copied through, whatever the context. */
  lemma {:induction false} FormatPlain(a: string, rest: string, context: string)
    requires NoBrace(a)
    ensures Format(a + rest, context) == Prepend(a, Format(rest, context))
    decreases |a|
  {
    if a == [] {
      assert a + rest == rest;
      match Format(rest, context)
      case Success(v) => assert a + v == v;
      case Failure(_) =>
    } else {
      var t := a + rest;
      assert t[0] == a[0] && t[1..] == a[1..] + rest;
      assert t[0] != '{' && t[0] != '}';
      assert Format(t, context) == Prepend([a[0]], Format(t[1..], context));
      FormatPlain(a[1..], rest, context);
      PrependPrepend([a[0]], a[1..], Format(rest, context));
      assert [a[0]] + a[1..] == a;
    }
  }

  lemma FormatWithoutBraces(a: string, context: string)
    requires NoBrace(a)
    ensures Format(a, context) == Success(a)
  {
    FormatPlain(a, [], context);
    assert a + [] == a;
  }

  lemma CloseBraceSkips(t: string, i: nat, k: nat)
    requires i <= k <= |t|
    requires forall j :: i <= j < k ==> t[j] != '}'
    ensures CloseBrace(t, i) == CloseBrace(t, k)
    decreases k - i
  {
    if i < k {
      CloseBraceSkips(t, i + 1, k);
    }
  }

  lemma FormatContextField(b: string, context: string)
    ensures Format("{context}" + b, context) == Prepend(context, Format(b, context))
  {
    var t := "{context}" + b;
    assert t[1..8] == "context" && t[8] == '}';
    CloseBraceSkips(t, 1, 8);
    assert CloseBrace(t, 1) == 8;
    assert t[9..] == b;
  }

  /** A single `{context}` between brace-free text is replaced by the
      context. */
  lemma FormatContext(a: string, b: string, context: string)
    requires NoBrace(a) && NoBrace(b)
    ensures Format(a + "{context}" + b, context) == Success(a + context + b)
  {
    var t := "{context}" + b;
    assert a + "{context}" + b == a + t;
    FormatPlain(a, t, context);
    FormatContextField(b, context);
    FormatWithoutBraces(b, context);
    assert a + (context + b) == a + context + b;
  }

  /** Each brace doubled: text that `str.format` reproduces as it is. */
  function EscapeBraces(s: string): (r: string)
  {
    if s == [] then []
    else (if s[0] == '{' then "{{" else if s[0] == '}' then "}}" else [s[0]]) + EscapeBraces(s[1..])
  }

  lemma {:induction false} FormatEscaped(s: string, context: string)
    ensures Format(EscapeBraces(s), context) == Success(s)
  {
    if s != [] {
      var e := EscapeBraces(s);
      FormatEscaped(s[1..], context);
      if s[0] == '{' {
        assert e[2..] == EscapeBraces(s[1..]);
      } else if s[0] == '}' {
        assert e[2..] == EscapeBraces(s[1..]);
      } else {
        assert e[1..] == EscapeBraces(s[1..]);
      }
      assert [s[0]] + s[1..] == s;
    }
  }

  /** The system prompt: the configured `system.contract_generation` when
      non-empty, else the default one. */
  function SystemPrompt(p: Prompts): (r: string)
    ensures Truthy(PromptText(p, "system", "contract_generation")) ==> r == p["system"]["contract_generation"]
    ensures !Truthy(PromptText(p, "system", "contract_generation")) ==> r == DefaultSystemPrompt
  {
    OrElse(PromptText(p, "system", "contract_generation"), DefaultSystemPrompt)
  }

  /** The user message: the configured `user.generation_requirements`
      template formatted with the prompt when non-empty, else the prompt. */
  function UserContent(p: Prompts, prompt: string): (r: Result<string, FormatError>)
    ensures var t := PromptText(p, "user", "generation_requirements");
      && (Truthy(t) ==> r == Format(t.value, prompt))
      && (!Truthy(t) ==> r == Success(prompt))
  {
    var t := PromptText(p, "user", "generation_requirements");
    if Truthy(t) then Format(t.value, prompt) else Success(prompt)
  }

  /** The streamed generation request. */
  function GenerationRequest(settings: Settings, content: string): (r: Request)
    ensures r.model == settings.model && r.maxTokens == settings.maxTokens && r.stream
    ensures r.messages == [Message("system", SystemPrompt(settings.prompts)), Message("user", content)]
  {
    Request(settings.model, [Message("system", SystemPrompt(settings.prompts)), Message("user", content)],
            settings.maxTokens, true)
  }

  datatype GenerationFailure<E> = MissingApiKey | BadTemplate(error: FormatError) | CreateFailed(run: Run<ChunkStream, E>)

  /** A started generation: the request, how creating the stream went, the
      deltas yielded and whether the stream raised after them. */
  datatype Generated<E> = Generated(request: Request, run: Run<ChunkStream, E>, deltas: seq<string>, raises: bool)

  /** The delta loop of `stream_contract_md`. */
  method StreamDeltas(chunks: seq<Chunk>) returns (out: seq<string>)
    ensures out == Deltas(chunks)
  {
    out := [];
    var i := 0;
    while i < |chunks|
      invariant 0 <= i <= |chunks|
      invariant out == Deltas(chunks[..i])
    {
      assert chunks[..i + 1][..i] == chunks[..i];
      var delta := DeltaText(chunks[i]);
      if delta != "" {
        out := out + [delta];
      }
      i := i + 1;
    }
    assert chunks[..i] == chunks;
  }

  /** `stream_contract_md`. `create(i)` is the outcome of the i-th attempt to
      open the stream. Without an API key, and when the template cannot be
      formatted, nothing is requested from the provider. */
  method StreamContractMd<E>(settings: Settings, data: ContractRequest, create: nat -> Outcome<ChunkStream, E>)
    returns (r: Result<Generated<E>, GenerationFailure<E>>)
    ensures !Truthy(settings.apiKey) ==> r == Failure(MissingApiKey)
    ensures Truthy(settings.apiKey) ==> (
      var prompt := Join(PromptLines(MarkdownRequirements, data.prompt, data.companyName, data.jurisdiction, data.tone), "\n");
      var content := UserContent(settings.prompts, prompt);
      var run := Retry.Retry(create, DefaultAttempts, DefaultBaseDelayMs);
      && (content.Failure? ==> r == Failure(BadTemplate(content.error)))
      && (content.Success? && run.ending.Returned? ==>
            r == Success(Generated(GenerationRequest(settings, content.value), run,
                                   Deltas(run.ending.value.chunks), run.ending.value.failsAfter)))
      && (content.Success? && !run.ending.Returned? ==> r == Failure(CreateFailed(run))))
  {
    if !Truthy(settings.apiKey) {
      return Failure(MissingApiKey);
    }
    var prompt := BuildUserPrompt(data);
    var content := UserContent(settings.prompts, prompt);
    if content.Failure? {
      return Failure(BadTemplate(content.error));
    }
    var request := GenerationRequest(settings, content.value);
    var run := RetryAsync(create, DefaultAttempts, DefaultBaseDelayMs);
    if !run.ending.Returned? {
      return Failure(CreateFailed(run));
    }
    var deltas := StreamDeltas(run.ending.value.chunks);
    r := Success(Generated(request, run, deltas, run.ending.value.failsAfter));
  }

  /** Two chunks "Hello" and " World" stream as those two deltas, which
      spell "Hello World". */
  lemma HelloWorld()
    ensures Deltas([Delta(Some("Hello")), Delta(Some(" World"))]) == ["Hello", " World"]
    ensures Concat(Deltas([Delta(Some("Hello")), Delta(Some(" World"))])) == "Hello World"
  {
    var a, b := Delta(Some("Hello")), Delta(Some(" World"));
    assert |DeltaText(a)| == 5 && |DeltaText(b)| == 6;
    assert [a][..0] == [];
    assert Deltas([a]) == ["Hello"];
    assert [a, b][..1] == [a];
    assert Deltas([a, b]) == Deltas([a]) + [" World"];
    ConcatPair("Hello", " World");
  }
}
