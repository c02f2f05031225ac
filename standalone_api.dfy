/** The standalone service of backend/main.py: an HTML variant of contract
    generation with its own system prompt, requirement lines, hard-coded
    retry loop, 4000-token default, 413/502 error classification and an
    `<article>` envelope around the streamed deltas. */
module StandaloneApi {
  import opened Wrappers
  import opened Text
  import opened Retry
  import opened Provider
  import Config
  import opened Generation

  const SystemPrompt: string :=
    "You are a senior technology and privacy attorney. Generate long-form, production-ready "
    + "Terms of Service in well-structured, semantic HTML. Use consistent defined terms and "
    + "section numbering. Include comprehensive clauses suitable for a cloud cybersecurity SaaS, "
    + "including but not limited to: Definitions; Eligibility; Accounts; Acceptable Use; Access and "
    + "Security; Intellectual Property; Customer Data and Privacy; Subprocessors; Confidentiality; "
    + "Warranties and Disclaimers; Indemnification; Limitation of Liability; Term and Termination; "
    + "Suspension; Fees and Payment (if relevant); Beta Features; Export Controls; Government Use; "
    + "Governing Law; Venue; Dispute Resolution (with optional arbitration); Notices; Changes to the "
    + "Service; Changes to Terms; Force Majeure; Assignment; Entire Agreement; Severability; and "
    + "Contact."

  /** The fixed lines after the stripped prompt, HTML flavour. */
  const HtmlRequirements: seq<string> := [
    "\nOutput requirements:",
    "- Return ONLY HTML within a single <article> root; do not include backticks or explanations.",
    "- Use semantic HTML (h1-h6, section, article, aside, ol/ul, dl, details, table when appropriate).",
    "- Include a table of contents with anchor links.",
    "- Ensure consistent defined terms and cross-references.",
    "- Target 10+ printed pages equivalent when rendered (substantial detail and clauses).",
    "- Use numbered sections and subsections (e.g., 1., 1.1., 1.1.1).",
    "- Include placeholders where user specifics are unknown (e.g., Company Name, Address)."
  ]

  const MaxAttempts: int := 3
  const BaseDelayMs: nat := 500
  const DefaultMaxTokens: int := 4000
  const DefaultModel: string := "gpt-4o-mini"
  const Prelude: string := "<article class=\"tos-document\">"
  const Closing: string := "</article>"
  const SdkMissing: string := "OpenAI SDK not installed. Ensure backend dependencies are installed."
  const KeyMissing: string := "OPENAI_API_KEY not configured"
  const DownstreamPrefix: string := "Downstream model error: "
  /** What Python says when `raise None` runs. */
  const RaiseNoneMessage: string := "exceptions must derive from BaseException"

  /** `_build_user_prompt`: parts grown by appends, joined by newlines. */
  method BuildUserPrompt(data: ContractRequest) returns (r: string)
    ensures r == Join(PromptLines(HtmlRequirements, data.prompt, data.companyName, data.jurisdiction, data.tone), "\n")
  {
    var parts := AppendFieldLines([PromptHeader, PyStrip(data.prompt)] + HtmlRequirements,
                                  data.companyName, data.jurisdiction, data.tone);
    PromptLinesUnfold(HtmlRequirements, data.prompt, data.companyName, data.jurisdiction, data.tone);
    r := Join(parts, "\n");
  }


  /** `_create_stream_with_retries`: the `for attempt in range(1, 4)` loop. */
  method CreateStreamWithRetries<S, E>(create: nat -> Outcome<S, E>) returns (run: Run<S, E>)
    ensures run == Retry.Retry(create, MaxAttempts, BaseDelayMs)
  {
    var lastExc: Option<E> := None;
    var calls: nat := 0;
    var sleeps: seq<nat> := [];
    for attempt := 1 to MaxAttempts + 1
      invariant calls == attempt - 1
      invariant lastExc.None? <==> attempt == 1
      invariant attempt > 1 ==> create(attempt - 2).Raises? && lastExc == Some(create(attempt - 2).exc)
      invariant Retry.Retry(create, MaxAttempts, BaseDelayMs) == Shift(calls, sleeps, RetryFrom(create, attempt, MaxAttempts, BaseDelayMs))
    {
      var outcome := create(attempt - 1);
      calls := calls + 1;
      match outcome
      case Returns(v) =>
        return Run(Returned(v), calls, sleeps);
      case Raises(e) =>
        lastExc := Some(e);
        if attempt == MaxAttempts {
          break;
        }
        sleeps := sleeps + [BaseDelayMs * Pow2(attempt - 1)];
    }
    run := Run(if lastExc.None? then NothingRaised else Reraised(lastExc.value), calls, sleeps);
  }

  /** Stream creation makes one to three attempts; its sleeps are the first
      ones of 0.5 s then 1.0 s, one after each failed attempt but the last. */
  lemma CreateStreamSleeps<S, E>(create: nat -> Outcome<S, E>)
    ensures var run := Retry.Retry(create, MaxAttempts, BaseDelayMs);
      && 1 <= run.calls <= 3
      && |run.sleepsMs| == run.calls - 1
      && run.sleepsMs <= [500, 1000]
      && !run.ending.NothingRaised?
  {
    var run := Retry.Retry(create, MaxAttempts, BaseDelayMs);
    RetryBehaviour(create, MaxAttempts, BaseDelayMs);
    assert Backoff(BaseDelayMs, 2) == [500, 1000] by {
      assert Pow2(1) == 2;
    }
    assert run.sleepsMs == Backoff(BaseDelayMs, run.calls - 1);
  }

  /** The HTTP status of a failed stream creation. */
  function FailureStatus(message: string): (s: int)
    ensures s == 413 || s == 502
    ensures s == 413 <==> Contains(message, "maximum context length") || Contains(message, "max_tokens")
  {
    if Contains(message, "maximum context length") || Contains(message, "max_tokens") then 413 else 502
  }

  /** A context-length complaint anywhere in the message is a 413. */
  lemma ContextLengthIs413(pre: string, post: string)
    ensures FailureStatus(pre + "maximum context length" + post) == 413
    ensures FailureStatus(pre + "max_tokens" + post) == 413
  {
    ContainsInfix(pre + "maximum context length" + post, "maximum context length", pre, post);
    ContainsInfix(pre + "max_tokens" + post, "max_tokens", pre, post);
  }

  /** The streamed body: prelude, the non-empty deltas, closing tag. */
  function DocumentFrames(chunks: seq<Chunk>): (r: seq<string>)
    ensures |r| == |Deltas(chunks)| + 2 && |r| <= |chunks| + 2
    ensures r[0] == Prelude && r[|r| - 1] == Closing
  {
    [Prelude] + Deltas(chunks) + [Closing]
  }

  /** The body spells the prelude, all the content of the chunks, and the
      closing tag. */
  lemma {:induction false} DocumentText(chunks: seq<Chunk>)
    ensures Concat(DocumentFrames(chunks)) == Prelude + AllDeltaText(chunks) + Closing
  {
    var d := Deltas(chunks);
    DeltasSpellContent(chunks);
    ConcatAppend([Prelude] + d, [Closing]);
    ConcatCons(Prelude, d);
    ConcatCons(Closing, []);
    assert [Closing] + [] == [Closing];
  }

  /** `_event_stream`: the closing tag is emitted in a `finally`, so also
      when iterating the stream raises. */
  method EventStream(stream: ChunkStream) returns (out: seq<string>, raised: bool)
    ensures out == DocumentFrames(stream.chunks)
    ensures raised == stream.failsAfter
  {
    out := [Prelude];
    var chunks := stream.chunks;
    var i := 0;
    while i < |chunks|
      invariant 0 <= i <= |chunks|
      invariant out == [Prelude] + Deltas(chunks[..i])
    {
      assert chunks[..i + 1][..i] == chunks[..i];
      var delta := DeltaText(chunks[i]);
      if delta != "" {
        out := out + [delta];
      }
      i := i + 1;
    }
    assert chunks[..i] == chunks;
    raised := stream.failsAfter;
    out := out + [Closing];
  }

  datatype ApiResponse =
    | JsonError(status: int, error: string)
    | HttpError(status: int, detail: string)
    | HtmlStream(request: Request, frames: seq<string>, raises: bool)

  /** The streamed request of `generate_contract`. */
  function StandaloneRequest(env: Config.Env, prompt: string): (r: Request)
    ensures r.stream && r.messages == [Message("system", SystemPrompt), Message("user", prompt)]
    ensures env.model.None? ==> r.model == DefaultModel
    ensures env.model.Some? ==> r.model == env.model.value
    ensures r.maxTokens == Config.MaxTokens(env.maxTokens, DefaultMaxTokens)
    ensures !Truthy(env.maxTokens) ==> r.maxTokens == DefaultMaxTokens
  {
    Request(env.model.GetOr(DefaultModel), [Message("system", SystemPrompt), Message("user", prompt)],
            Config.MaxTokens(env.maxTokens, DefaultMaxTokens), true)
  }

  /** `OPENAI_MAX_TOKENS` holding a rendered integer of at most 4300 digits
      sets the request's token limit to that integer. */
  lemma StandaloneMaxTokens(env: Config.Env, prompt: string, n: int)
    requires -(Pow10(MaxStrDigits) as int) < n < Pow10(MaxStrDigits)
    requires env.maxTokens == Some(IntToDecimal(n))
    ensures StandaloneRequest(env, prompt).maxTokens == n
  {
    Config.MaxTokensOfDecimal(n, DefaultMaxTokens);
  }

  /** `generate_contract`. `sdkInstalled` says whether the SDK imported;
      `create(i)` is the outcome of the i-th attempt and `describe` gives an
      exception's `str`. */
  method GenerateContract<E>(sdkInstalled: bool, env: Config.Env, data: ContractRequest,
                             create: nat -> Outcome<ChunkStream, E>, describe: E -> string)
    returns (resp: ApiResponse, run: Option<Run<ChunkStream, E>>)
    ensures !sdkInstalled ==> resp == JsonError(500, SdkMissing) && run == None
    ensures sdkInstalled && !Truthy(env.apiKey) ==> resp == HttpError(500, KeyMissing) && run == None
    ensures sdkInstalled && Truthy(env.apiKey) ==> (
      var r := Retry.Retry(create, MaxAttempts, BaseDelayMs);
      var prompt := Join(PromptLines(HtmlRequirements, data.prompt, data.companyName, data.jurisdiction, data.tone), "\n");
      && run == Some(r)
      && (r.ending.Reraised? ==>
            var message := describe(r.ending.exc);
            resp == HttpError(FailureStatus(message), DownstreamPrefix + message))
      && (r.ending.Returned? ==>
            resp == HtmlStream(StandaloneRequest(env, prompt), DocumentFrames(r.ending.value.chunks), r.ending.value.failsAfter)))
  {
    if !sdkInstalled {
      return JsonError(500, SdkMissing), None;
    }
    if !Truthy(env.apiKey) {
      return HttpError(500, KeyMissing), None;
    }
    var prompt := BuildUserPrompt(data);
    var request := StandaloneRequest(env, prompt);
    var r := CreateStreamWithRetries(create);
    run := Some(r);
    match r.ending
    case Reraised(e) =>
      var message := describe(e);
      resp := HttpError(FailureStatus(message), DownstreamPrefix + message);
    case NothingRaised =>
      resp := HttpError(FailureStatus(RaiseNoneMessage), DownstreamPrefix + RaiseNoneMessage);
    case Returned(stream) =>
      var frames, raised := EventStream(stream);
      resp := HtmlStream(request, frames, raised);
  }
}
