/** Session titles (backend/app/services/title.py): the heuristic fallback
    title and `generate_session_title`, which asks the completion service
    for a short title through the async retry helper and falls back to the
    heuristic whenever that gives nothing usable. */
module Title {
  import opened Wrappers
  import opened Text
  import opened Config
  import opened Retry
  import opened Provider

  const MaxTitleLength: nat := 60
  const KeptBeforeEllipsis: nat := 57
  const Ellipsis: char := '\U{2026}'
  /** How much of the base document the request quotes at most. */
  const ExcerptLength: nat := 4000
  /** The `max_tokens` of the title request. */
  const TitleMaxTokens: int := 32

  const DefaultTitleInstruction: string :=
    "You are naming a legal document editing session. Generate a concise, professional 3-7 word title based on the user's request and, if provided, the current Markdown document. Prefer specific nouns (e.g., company name, jurisdiction) and keep it neutral. Return ONLY the title text without quotes."

  const RequestHeader: string := "User request:\n"
  const ExcerptHeader: string := "\nDocument excerpt (may be truncated):\n"

  /** `str.upper()` of one character, for the ASCII letters. */
  function Upper(c: char): (u: char)
    ensures 'a' <= c <= 'z' ==> 'A' <= u <= 'Z' && u as int == c as int - 32
    ensures !('a' <= c <= 'z') ==> u == c
  {
    if 'a' <= c <= 'z' then (c as int - 32) as char else c
  }

  /** `r` is `t` with (at most) its first character upper-cased. */
  predicate CapitalisedFrom(r: string, t: string) {
    && |r| == |t|
    && (t != [] ==> r[0] == Upper(t[0]))
    && (forall i :: 1 <= i < |t| ==> r[i] == t[i])
  }

  /** `_fallback_title`: the stripped input, cut to 57 characters and an
      ellipsis when it is longer than 60, with its first letter upper-cased. */
  function FallbackTitle(userInput: string): (r: string)
    ensures r == [] <==> AllSpace(userInput, PyIsSpace)
    ensures |r| <= MaxTitleLength
  {
    var s := PyStrip(userInput);
    if |s| > MaxTitleLength then
      var cut := s[..KeptBeforeEllipsis] + [Ellipsis];
      [Upper(cut[0])] + cut[1..]
    else if s == [] then []
    else [Upper(s[0])] + s[1..]
  }

  /** What the fallback title is made of: the stripped input, or its first
      57 characters and an ellipsis, with the first character upper-cased. */
  lemma FallbackShape(userInput: string)
    ensures var s, r := PyStrip(userInput), FallbackTitle(userInput);
      && (|s| <= MaxTitleLength ==> CapitalisedFrom(r, s))
      && (|s| > MaxTitleLength ==> CapitalisedFrom(r, s[..KeptBeforeEllipsis] + [Ellipsis]))
  {
    var s := PyStrip(userInput);
    if |s| > MaxTitleLength {
      var cut := s[..KeptBeforeEllipsis] + [Ellipsis];
      assert FallbackTitle(userInput) == [Upper(cut[0])] + cut[1..];
      Capitalised(cut);
    } else if s != [] {
      assert FallbackTitle(userInput) == [Upper(s[0])] + s[1..];
      Capitalised(s);
    }
  }

  lemma Capitalised(t: string)
    requires t != []
    ensures CapitalisedFrom([Upper(t[0])] + t[1..], t)
  {
  }

  lemma UpperNotSpace(c: char)
    requires !PyIsSpace(c)
    ensures !PyIsSpace(Upper(c)) && Upper(Upper(c)) == Upper(c)
  {
  }

  /** A fallback title has no surrounding whitespace. */
  lemma FallbackUnpadded(userInput: string)
    ensures Unpadded(FallbackTitle(userInput), PyIsSpace)
  {
    var s := PyStrip(userInput);
    var r := FallbackTitle(userInput);
    FallbackShape(userInput);
    if r != [] {
      UpperNotSpace(s[0]);
      if |s| > MaxTitleLength {
        assert r[|r| - 1] == Ellipsis;
      } else if |s| > 1 {
        assert r[|r| - 1] == s[|s| - 1];
      }
    }
  }

  /** The first character of a non-empty fallback title is the upper-cased
      first character of the stripped input. */
  lemma FallbackHead(userInput: string)
    requires FallbackTitle(userInput) != []
    ensures FallbackTitle(userInput)[0] == Upper(PyStrip(userInput)[0])
  {
    FallbackShape(userInput);
  }

  /** An unpadded string of at most 60 characters whose first character is
      already upper-case is its own fallback title. */
  lemma FallbackOfTitleShaped(t: string)
    requires PyStrip(t) == t && t != [] && |t| <= MaxTitleLength
    requires Upper(t[0]) == t[0]
    ensures FallbackTitle(t) == t
  {
    assert FallbackTitle(t) == [Upper(t[0])] + t[1..];
  }

  /** The heuristic is a fixed point of itself: a fallback title given back
      as input yields the same title. */
  lemma {:induction false} FallbackIdempotent(userInput: string)
    ensures FallbackTitle(FallbackTitle(userInput)) == FallbackTitle(userInput)
  {
    var r := FallbackTitle(userInput);
    FallbackUnpadded(userInput);
    assert PyStrip(r) == r;
    if r != [] {
      FallbackHead(userInput);
      UpperNotSpace(PyStrip(userInput)[0]);
      FallbackOfTitleShaped(r);
    }
  }

  /** Surrounding whitespace is stripped before anything else. */
  lemma FallbackStripsFirst(userInput: string)
    ensures FallbackTitle(PyStrip(userInput)) == FallbackTitle(userInput)
  {
    StripIdempotent(userInput, PyIsSpace);
  }

  /** The system instruction: the configured `title.instruction` when
      non-empty, else the built-in one. */
  function TitleInstruction(p: Prompts): (r: string)
    ensures Truthy(PromptText(p, "title", "instruction")) ==> r == p["title"]["instruction"]
    ensures !Truthy(PromptText(p, "title", "instruction")) ==> r == DefaultTitleInstruction
    ensures r != ""
  {
    OrElse(PromptText(p, "title", "instruction"), DefaultTitleInstruction)
  }

  /** The user message of the title request. */
  function TitleUserContent(userInput: string, baseDoc: Option<string>): (r: string)
    ensures RequestHeader + PyStrip(userInput) + "\n" <= r
    ensures !Truthy(baseDoc) ==> r == RequestHeader + PyStrip(userInput) + "\n"
    ensures Truthy(baseDoc) ==> exists excerpt ::
      && excerpt <= baseDoc.value
      && |excerpt| == (if |baseDoc.value| < ExcerptLength then |baseDoc.value| else ExcerptLength)
      && r == RequestHeader + PyStrip(userInput) + "\n" + ExcerptHeader + excerpt
  {
    var head := RequestHeader + PyStrip(userInput) + "\n";
    if Truthy(baseDoc) then
      var excerpt := baseDoc.value[..if |baseDoc.value| < ExcerptLength then |baseDoc.value| else ExcerptLength];
      assert (head + ExcerptHeader + excerpt)[..|head|] == head;
      head + ExcerptHeader + excerpt
    else head
  }

  /** The title request: the configured model, the instruction and the user
      content, at most 32 tokens, not streamed. */
  function TitleRequest(settings: Settings, userInput: string, baseDoc: Option<string>): (r: Request)
    ensures r.model == settings.model && r.maxTokens == 32 && !r.stream
    ensures r.messages == [Message("system", TitleInstruction(settings.prompts)),
                           Message("user", TitleUserContent(userInput, baseDoc))]
    ensures r.messages[0].content != ""
  {
    Request(settings.model,
            [Message("system", TitleInstruction(settings.prompts)), Message("user", TitleUserContent(userInput, baseDoc))],
            TitleMaxTokens, false)
  }

  /** The answer of one title request: the first choice's message content,
      or `Malformed` where reading it raises. */
  datatype Reply = Reply(content: Option<string>) | Malformed

  /** What `generate_session_title` did: the title it returned, the request
      it retried (none without an API key) and how the retries went. */
  datatype Titled<E> = Titled(title: string, request: Option<Request>, run: Option<Run<Reply, E>>)

  /** `(content or "").strip()` of a returned reply; `None` where the retry
      raised or the reply could not be read, which the source catches. */
  function ReplyText<E>(e: Ending<Reply, E>): (r: Option<string>)
    ensures r.Some? <==> e.Returned? && e.value.Reply?
  {
    match e
    case Returned(Reply(c)) => Some(PyStrip(c.GetOr("")))
    case _ => None
  }

  /** `generate_session_title`. `call(i)` is the outcome of the i-th request. */
  function GenerateSessionTitle<E>(settings: Settings, userInput: string, baseDoc: Option<string>,
                                   call: nat -> Outcome<Reply, E>): (t: Titled<E>)
    ensures !Truthy(settings.apiKey) ==> t == Titled(FallbackTitle(userInput), None, None)
    ensures Truthy(settings.apiKey) ==> (
      && t.request == Some(TitleRequest(settings, userInput, baseDoc))
      && t.run == Some(Retry.Retry(call, DefaultAttempts, DefaultBaseDelayMs)))
    ensures Truthy(settings.apiKey) ==> (
      var text := ReplyText(Retry.Retry(call, DefaultAttempts, DefaultBaseDelayMs).ending);
      && (Truthy(text) ==> t.title == text.value)
      && (!Truthy(text) ==> t.title == FallbackTitle(userInput)))
  {
    if !Truthy(settings.apiKey) then Titled(FallbackTitle(userInput), None, None)
    else
      var run := Retry.Retry(call, DefaultAttempts, DefaultBaseDelayMs);
      var text := ReplyText(run.ending);
      Titled(if Truthy(text) then text.value else FallbackTitle(userInput),
             Some(TitleRequest(settings, userInput, baseDoc)), Some(run))
  }

  /** The title is never padded with whitespace, and it is empty only for a
      blank user input: a usable reply or else the heuristic always gives
      the chat route something to store. */
  lemma GeneratedTitleShape<E>(settings: Settings, userInput: string, baseDoc: Option<string>,
                               call: nat -> Outcome<Reply, E>)
    ensures var t := GenerateSessionTitle(settings, userInput, baseDoc, call);
      && Unpadded(t.title, PyIsSpace)
      && (t.title == "" <==> AllSpace(userInput, PyIsSpace) && t.title == FallbackTitle(userInput))
  {
    FallbackUnpadded(userInput);
  }

  /** A reply the retries obtain first time with non-blank content becomes
      the title, stripped; once the three attempts all fail the title is the
      heuristic one. */
  lemma TitleFromFirstReply<E>(settings: Settings, userInput: string, baseDoc: Option<string>,
                               call: nat -> Outcome<Reply, E>, c: string)
    requires Truthy(settings.apiKey)
    requires call(0) == Returns(Reply(Some(c))) && !AllSpace(c, PyIsSpace)
    ensures GenerateSessionTitle(settings, userInput, baseDoc, call).title == PyStrip(c)
  {
    RetryFirstSuccess(call, DefaultAttempts, DefaultBaseDelayMs, 0);
  }

  lemma TitleWhenAllFail<E>(settings: Settings, userInput: string, baseDoc: Option<string>,
                            call: nat -> Outcome<Reply, E>)
    requires Truthy(settings.apiKey)
    requires forall j :: 0 <= j < DefaultAttempts ==> call(j).Raises?
    ensures GenerateSessionTitle(settings, userInput, baseDoc, call).title == FallbackTitle(userInput)
    ensures GenerateSessionTitle(settings, userInput, baseDoc, call).run.value.calls == DefaultAttempts
  {
    RetryAlwaysFails(call, DefaultAttempts, DefaultBaseDelayMs);
  }
}
