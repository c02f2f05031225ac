# AI Contract Generator backend core, modelled in Dafny

This project models the core of the AI Contract Generator backend, plus one
helper of its front end. The backend is a FastAPI service. It streams
contract documents produced by a remote completion service, and it keeps
in-memory editing sessions for a chat-style document editor. The model
covers these parts:

- **Retry** – the bounded retry loops with exponential backoff
  (`retry_sync`, `retry_async`). The retried operation is given as the
  outcome of each of its calls. The sleeps become a trace of whole
  milliseconds.
- **JsonStream** – the chat envelope framer `json_stream_wrapper`: a loop
  over the relayed parts, driven by its `first` flag.
- **SessionService** – the session store. The two module-level dicts and
  the insertion order that `list_sessions` iterates in are fields of a
  `SessionStore` class. Whether LangChain's history class could be imported
  is a flag fixed when the store is made.
- **SessionRoutes**, **ChatRoute** – the session routes, including
  `set_title`, and the chat route's unknown-session check and first-turn
  title rule.
- **ChatService** – the system-text assembly and the token normalisation
  of `stream_chat`.
- **Title** – the heuristic fallback title, and `generate_session_title`
  on top of the retry model.
- **Generation** – the prompt builder, the system-prompt and template
  selection, `str.format` on the template, and the delta loop of
  `stream_contract_md`.
- **StandaloneApi** – the separate `backend/main.py` service. It has its
  own HTML prompt, a hard-coded retry loop, a 4000-token default, the
  413/502 classification and the `<article>` framing.
- **Config** – CORS list parsing, the `max_tokens` and model defaults, and
  the prompt-file fallback.
- **Viewer** – the front end's `extractTitleFromMarkdown`, which applies
  the regular expression `^#\s+(.+)$` with the `m` flag, and the
  page-title chain.
- **Text**, **Provider**, **Http**, **Wrappers** – shared helpers:
  - Python's `str.strip`, `split`, `join`, `in` and `int()`, with the exact
    character sets they skip: `str.isspace` for `strip`, and for `int()` the
    smaller set that leaves out U+001C to U+001F; and ECMAScript `\s`.
  - The completion service as the model sees it: requests and streamed
    chunks.

The loops below are Dafny `method`s with a `while` or `for` loop, each
proved equal to a reference function:

- the retry loops equal `Retry.Retry`;
- the framer equals `JsonStream.Frames`;
- the delta loops equal `Provider.Deltas`;
- `list_sessions` equals the `order`/`meta` listing.

The comprehensions, and the token loop of `stream_chat`, only map or
filter a sequence, so they are recursive functions:

- `Config.CleanPieces` models the origin list comprehension.
- `SessionRoutes.Entries` models the history entries.
- `ChatService.NormaliseTokens` models the `async for` that normalises the
  relayed tokens.

The properties the source promises are then proved as lemmas about those
functions.

Behaviour of the code worth noting:

- With no non-empty part, the chat envelope is `{"data":"""}`, not
  `{"data":""}`. The `finally` block emits `"data":""` and then the closing
  `"}` (`JsonStream.EmptyEnvelope`).
- Only backslash and double quote are escaped. Newlines and control
  characters pass through unescaped.
- The clear route never answers 404, because `clear_history` performs no
  existence check. Clearing an unknown session creates an orphan empty
  history.
- Every creation failure is retried, including the ones later classified
  as 413. A document stream that breaks off ends with the closing
  `</article>` and no error note.
- The sleep after failed attempt k is base·2^(k-1).
- `OPENAI_MAX_TOKENS` with more than 4300 digits makes `int()` raise ValueError, so the default is used.
- The standalone service defaults to the model `gpt-4o-mini`, while the
  application's settings default to `gpt-4o`.

## Model

| member | source | states |
|---|---|---|
| Retry.RetrySync | backend/app/utils.py:11-21 | the loop's result, call count and sleep trace are exactly those of the reference `Retry` for every operation and attempt budget |
| Retry.RetryAsync | backend/app/utils.py:24-34 | the awaited loop has the same result, call count and sleep trace as the reference `Retry`, hence as `RetrySync` |
| Retry.RetryBehaviour | backend/app/utils.py:11-21 | a budget below one calls nothing and raises `None`; otherwise 1..attempts calls, every call but the last failed, the value of a returning call is returned, the last exception is re-raised only after all attempts failed, and the sleeps are the backoff schedule for calls-1 failures |
| Retry.RetryFromShape | backend/app/utils.py:13-21 | from any attempt on, the loop makes at most the remaining number of calls, stops at the first success, and sleeps base·2^(k-1) after each failed attempt k except the final one |
| Retry.RetryFirstSuccess | backend/app/utils.py:13-15 | when call k is the first to succeed, its value is returned after exactly k+1 calls and k sleeps, and no further call is made |
| Retry.RetryAlwaysFails | backend/app/utils.py:13-21 | an always-failing operation is called exactly `attempts` times, its last exception is re-raised, and there are attempts-1 sleeps |
| Retry.Retry | backend/app/utils.py:11-34 | the reference for both retry loops: the run from attempt 1, with no call at all when the budget is below one (no ensures; its properties are the `Retry*` lemmas) |
| Retry.RetryFrom | backend/app/utils.py:13-21 | the run from attempt k on: return on success, re-raise after the last attempt, else sleep base·2^(k-1) and go on (no ensures; `RetryFromShape` states its shape) |
| Retry.Backoff | backend/app/utils.py:18-20 | the i-th sleep of the schedule is base·2^i |
| Retry.BackoffIncreases | backend/app/utils.py:18-20 | each sleep doubles the previous one, and for a positive base the sleeps strictly increase |
| JsonStream.Wrap | backend/app/utils.py:37-55 | the chunks yielded by the `first`-flag loop are exactly `Frames(parts)`, and an exception of the generator is raised again after the closing chunk |
| JsonStream.Frames | backend/app/utils.py:37-55 | the opening brace first and the closing quote and brace last, with exactly three chunks more than there are non-empty parts |
| JsonStream.Escape | backend/app/utils.py:48 | backslashes doubled, then quotes escaped, nothing else (no ensures; `UnescapeEscape` and `ConcatEscapeAll` state its properties) |
| JsonStream.Envelope | backend/app/utils.py:39-53 | with a non-empty part, the body is `{"data":"` + the escaped concatenation of the non-empty parts in order + `"}`, and unescaping the field recovers that concatenation |
| JsonStream.EmptyEnvelope | backend/app/utils.py:50-53 | with no non-empty part, the body is exactly `{"data":"""}` |
| JsonStream.DataOpenedOnce | backend/app/utils.py:43-46 | `"data":"` is emitted exactly once, right before the first escaped part; every chunk between it and the closing one is the next escaped part |
| JsonStream.EscapedNotDataOpen | backend/app/utils.py:47-49 | no escaped part can be mistaken for the field opener |
| JsonStream.FalsyPartsIgnored | backend/app/utils.py:43 | removing an empty or falsy part does not change the output |
| JsonStream.NonEmptyDrop | backend/app/utils.py:43 | a falsy part contributes nothing to the parts that pass `if part:` |
| JsonStream.UnescapeEscape | backend/app/utils.py:48 | doubling backslashes before escaping quotes is reversible: unescaping gives the part back |
| JsonStream.ConcatEscapeAll | backend/app/utils.py:47-49 | escaping the parts one by one equals escaping their concatenation |
| Config.CorsOrigins | backend/app/config.py:18-19 | the origin list is never empty, and every origin is non-empty with no surrounding whitespace |
| Config.CorsRoundTrip | backend/app/config.py:18-19 | joining clean origins with commas and parsing them back gives the same list, in order |
| Config.CorsFallback | backend/app/config.py:18-19 | an unset value, or one whose pieces are all blank, yields `["*"]` |
| Config.CleanPiecesAreClean | backend/app/config.py:19 | every piece kept is non-empty and has no surrounding whitespace |
| Config.CleanPiecesKeepsClean | backend/app/config.py:19 | stripping and dropping blanks keeps already clean pieces unchanged and in order |
| Config.CleanPiecesAllBlank | backend/app/config.py:19 | all-blank pieces are all dropped |
| Config.MaxTokens | backend/app/config.py:21-25 | the default when the value is unset or empty, the default when `int()` raises ValueError on it (malformed text, or more than 4300 digits), else the parsed integer |
| Config.MaxTokensOfDecimal | backend/app/config.py:21-25 | the decimal rendering of any integer of at most 4300 digits is parsed back to that integer |
| Config.MaxTokensRefusesSeparator | backend/app/config.py:22-25 | a value of digits after a leading U+001C makes `int()` raise, so the default is used |
| Config.MaxTokensPastDigitLimit | backend/app/config.py:22-25 | a value of more than 4300 digits makes `int()` raise, so the default is used |
| Config.PromptText | backend/app/services/generation.py:46 | `prompts.get(section, {}).get(key)` is present exactly when both keys are, and is then the configured text |
| Config.LoadPrompts | backend/app/config.py:36-47 | a YAML mapping is used as it is; a non-mapping document or a failed read gives `{}` |
| Config.LoadSettings | backend/app/config.py:17-33 | the key is passed through, the model defaults to "gpt-4o" only when unset, and `max_tokens`, the origins and the prompts follow the rules above |
| Text.Split | backend/app/config.py:19 | `str.split(",")` yields at least one piece, no piece holds the separator, and joining the pieces back gives the input |
| Text.SplitJoin | backend/app/config.py:19 | splitting a comma-join of comma-free pieces gives those pieces back |
| Text.ParsePyInt | backend/app/config.py:23 | `int()` succeeds exactly when, after the whitespace `int()` skips is stripped (the `isspace` set without U+001C to U+001F) and one optional sign is dropped, a run of digits with single underscores between digits is left that has at most 4300 digits; a negative value only comes from a leading `-` |
| Text.ParseIntOfDecimal | backend/app/config.py:23 | Python `int()` accepts the decimal text of every integer of at most 4300 digits and returns that integer |
| Text.StripRemovesSeparator | backend/app/config.py:19 | `str.strip` removes a leading U+001C from digits |
| Text.ParseRefusesSeparator | backend/app/config.py:23 | `int()` refuses digits after a leading U+001C, since it does not skip that separator |
| Text.ParseIntPastDigitLimit | backend/app/config.py:23-25 | a run of more than 4300 digits is rejected, as `int()` raises ValueError on it |
| SessionService.SessionStore.Valid | backend/app/services/session.py:12-13 | the store invariant: the order lists each metadata key once, and every session with metadata has a history (a ghost predicate; every store method keeps it) |
| SessionService.NewMeta | backend/app/services/session.py:27-31 | the system prompt is the given one if non-empty, else the default; the metadata is the given map or `{}`; no document or title yet |
| SessionService.WithDocument | backend/app/services/session.py:65-67 | the HTML is set; the title is replaced only by a non-empty title; everything else is kept |
| SessionService.SessionStore.constructor | backend/app/services/session.py:12-13 | the store starts with no sessions |
| SessionService.SessionStore.StartSession | backend/app/services/session.py:24-33 | without LangChain it raises before touching state; otherwise the fresh key is returned, gets its metadata and an empty history, is appended to the order, and every other session is unchanged |
| SessionService.SessionStore.GetHistory | backend/app/services/session.py:36-41 | raises KeyError exactly when the key has no history entry, else returns that entry unchanged; RuntimeError first without LangChain |
| SessionService.SessionStore.ClearHistory | backend/app/services/session.py:44-46 | empties the key's history even for an unknown key, never raises KeyError, and leaves metadata and order untouched |
| SessionService.SessionStore.ListSessions | backend/app/services/session.py:49-57 | one item per metadata entry in insertion order, each the session id with that session's metadata; the store is not changed |
| SessionService.SessionStore.SetDocument | backend/app/services/session.py:60-67 | an unknown key raises KeyError and changes nothing; otherwise only that session's metadata changes, as `WithDocument` says |
| SessionService.TwoSessionsKeepTheirTitles | backend/tests/test_api.py:81-107 | two sessions given titles "A" and "B" list in order with their own titles |
| SessionRoutes.ErrorResponse | backend/app/routes/session.py:29-32 | KeyError becomes 404 "session not found" and RuntimeError becomes 500 with its message |
| SessionRoutes.Entries | backend/app/routes/session.py:33-35 | one `{role, content}` entry per history message, in history order, with the role taken from the message type |
| SessionRoutes.StartSessionRoute | backend/app/routes/session.py:16-22 | the new session id is returned, or 500 with the store unchanged |
| SessionRoutes.HistoryRoute | backend/app/routes/session.py:25-38 | 404 exactly when the key has no history; otherwise the messages in order, with the metadata or `{}` when only a history exists |
| SessionRoutes.ClearRoute | backend/app/routes/session.py:41-49 | `{ok: true}` whenever LangChain is present, even for unknown sessions (the 404 branch is unreachable); 500 otherwise |
| SessionRoutes.ListRoute | backend/app/routes/session.py:52-57 | the listing of `list_sessions`, or 500 |
| SessionRoutes.SetDocumentRoute | backend/app/routes/session.py:60-68 | 404 for an unknown session, 500 without LangChain, both with nothing changed; otherwise `{ok: true}` and the document stored |
| SessionRoutes.SetTitleRoute | backend/app/routes/session.py:71-80 | 404 for an unknown session takes precedence over title validation; a blank stripped title gives 400 with nothing changed; otherwise the stripped title is stored in that session only and echoed with ok=true |
| SessionRoutes.PayloadTitle | backend/app/routes/session.py:76 | the title read from the payload never has surrounding whitespace, and a missing `title` gives "" |
| SessionRoutes.StoreTitle | backend/app/routes/session.py:73-80 | given the stripped title: 404 for a session without metadata, then 400 for an empty title, both changing nothing; otherwise only that session's `document_title` changes and the title is echoed |
| ChatRoute.WantsTitle | backend/app/routes/chat.py:27 | a title is asked for exactly when none or an empty one is set and the message has content (a predicate; `ChatStream` and `TitleAfterTurn` use it) |
| ChatRoute.TitleAfterTurn | backend/app/routes/chat.py:27-33 | an existing title is never overwritten; a non-empty generated title is stored only when none was set and the message has content; an empty title or a raised generator changes nothing |
| ChatRoute.ChatStream | backend/app/routes/chat.py:15-53 | an unknown session gives 404 before any title request or streaming, with nothing changed; otherwise the title is asked for exactly when none is set and the message is non-empty, only that session's title may change, the relay gets the session's document and system prompt, and the body is the envelope of the normalised tokens |
| ChatRoute.TextTokensKept | backend/app/services/chat.py:89 | non-empty string tokens all pass the wrapper's filter, unchanged and in order |
| ChatRoute.TokensForwarded | backend/app/routes/chat.py:35-46 | for non-empty string tokens the chat body is the envelope around their escaped concatenation, in arrival order |
| ChatService.BaseSystemText | backend/app/services/chat.py:31 | the explicit system prompt if non-empty, else the configured `contract_generation`, else the default prompt |
| ChatService.EditingBlock | backend/app/services/chat.py:33-37 | the configured `editing_context` if non-empty, else the built-in editing text |
| ChatService.SystemText | backend/app/services/chat.py:31-40 | with no or an empty base document, the base text unchanged; with one, it starts with base + "\n\n" + editing block, ends with the document between the `<BASE_DOCUMENT>` markers, and is exactly as long as those two parts together, so it is their concatenation |
| ChatService.ChatSystemMessage | backend/app/services/chat.py:21-40 | without LangChain a RuntimeError before any prompt is built; otherwise the system text |
| ChatService.NormaliseTokens | backend/app/services/chat.py:89 | one output per token, in arrival order: a dict's `content` value, or the string itself |
| Title.Upper | backend/app/services/title.py:49 | ASCII lower-case letters become the matching capitals; every other character is unchanged |
| Title.FallbackTitle | backend/app/services/title.py:44-49 | empty exactly for a blank input; never longer than 60 |
| Title.FallbackShape | backend/app/services/title.py:44-49 | the stripped input, or its first 57 characters followed by one "…" when it is longer than 60, with only the first character upper-cased |
| Title.FallbackUnpadded | backend/app/services/title.py:44-49 | a fallback title has no surrounding whitespace |
| Title.FallbackIdempotent | backend/app/services/title.py:44-49 | applying the heuristic to a fallback title gives the same title |
| Title.FallbackStripsFirst | backend/app/services/title.py:45 | surrounding whitespace makes no difference: it is stripped before anything else |
| Title.TitleInstruction | backend/app/services/title.py:17-20 | the configured `title.instruction` if non-empty, else the built-in instruction; never empty |
| Title.TitleUserContent | backend/app/services/title.py:21-23 | "User request:\n" + stripped input + "\n", followed by the excerpt header and the first min(len, 4000) characters of a non-empty base document, and by nothing otherwise |
| Title.ReplyText | backend/app/services/title.py:38 | a text exists exactly when a reply was returned and could be read |
| Title.TitleRequest | backend/app/services/title.py:25-34 | the configured model, exactly two messages: the system message holding `TitleInstruction` of the prompts (never empty) and the user message holding `TitleUserContent` of the input and document; at most 32 tokens, not streamed |
| Title.GenerateSessionTitle | backend/app/services/title.py:9-41 | with no API key, the fallback and no request; otherwise the retried request with the configured model, the instruction and the content, and the stripped reply when non-empty, else the fallback |
| Title.GeneratedTitleShape | backend/app/services/title.py:36-41 | the title never has surrounding whitespace, and it is empty only when the input is blank and the fallback was used |
| Title.TitleFromFirstReply | backend/app/services/title.py:36-39 | a first reply with non-blank content becomes the title, stripped |
| Title.TitleWhenAllFail | backend/app/services/title.py:36-41 | when all three attempts fail, the request was made three times and the fallback is returned |
| Generation.PromptLines | backend/app/services/generation.py:11-33 | the header, the stripped prompt and the fixed requirement lines come first; then the company, jurisdiction and tone lines, each present exactly when its field is non-empty, in that order |
| Generation.AppendFieldLines | backend/app/services/generation.py:27-32 | the company, jurisdiction and tone lines, each appended exactly when its field is non-empty, in that order, after the fixed lines |
| Generation.BuildUserPrompt | backend/app/services/generation.py:11-33 | the appended parts joined by "\n" are exactly the lines of `PromptLines` for the Markdown requirements |
| Generation.PromptOptionalLines | backend/app/services/generation.py:12-33 | the optional fields only add "\n"-prefixed lines after the fixed parts; with none, the prompt is exactly the fixed parts joined by "\n" |
| Generation.JoinExtend | backend/app/services/generation.py:33 | appending lines to a join appends each of them after a separator |
| Generation.Format | backend/app/services/generation.py:55 | `str.format(context=…)`: doubled braces become single, a `{context}` field becomes the prompt, and any other field or a lone brace is an error (no ensures; the `Format*` lemmas state its properties) |
| Generation.FormatWithoutBraces | backend/app/services/generation.py:55 | a brace-free template formats to itself |
| Generation.FormatContext | backend/app/services/generation.py:55 | a single `{context}` in brace-free text is replaced by the built prompt |
| Generation.FormatEscaped | backend/app/services/generation.py:55 | doubled braces format to single ones, so any text can be written as a template that reproduces it |
| Generation.CloseBrace | backend/app/services/generation.py:55 | finds the first `}` of a replacement field, or reports that there is none |
| Generation.SystemPrompt | backend/app/services/generation.py:44-48 | the configured `system.contract_generation` when non-empty, else the default system prompt |
| Generation.UserContent | backend/app/services/generation.py:49-67 | the formatted `user.generation_requirements` template when one is configured, else the built prompt itself, or the template's error |
| Generation.GenerationRequest | backend/app/services/generation.py:69-76 | the configured model and `max_tokens`, streamed, exactly two messages: the system message holding `SystemPrompt` of the prompts, then the user message with the given content |
| Generation.StreamDeltas | backend/app/services/generation.py:83-90 | the loop yields exactly the non-empty deltas in provider order |
| Generation.StreamContractMd | backend/app/services/generation.py:36-90 | a missing key fails before any provider call, and so does a bad template; otherwise the stream is opened with the retry policy, a creation failure propagates, and the non-empty deltas are yielded |
| Generation.HelloWorld | backend/app/services/generation.py:83-89 | an example of the delta filter on two chunks "Hello" and " World", like those of the dummy stream in backend/tests/test_api.py:59-65: they pass as those two deltas and spell "Hello World" |
| Provider.Deltas | backend/app/services/generation.py:83-89 | the non-empty deltas in chunk order, never more than there are chunks |
| Provider.DeltasSpellContent | backend/app/services/generation.py:83-90 | every yielded delta is non-empty, and the deltas spell all the chunks' content in order: skipped chunks carry none |
| StandaloneApi.BuildUserPrompt | backend/main.py:52-71 | header, stripped prompt and the HTML requirement lines, then the optional company, jurisdiction and tone lines in order, joined by "\n" |
| StandaloneApi.CreateStreamWithRetries | backend/main.py:74-92 | the `for` loop behaves as the reference retry with three attempts and a 500 ms base |
| StandaloneApi.CreateStreamSleeps | backend/main.py:74-92 | one to three attempts, one sleep after each failed attempt but the last, the sleeps a prefix of 500 ms then 1000 ms, and never a bare `raise None` |
| StandaloneApi.FailureStatus | backend/main.py:128-133 | 413 exactly when the message contains "maximum context length" or "max_tokens", else 502 |
| StandaloneApi.ContextLengthIs413 | backend/main.py:131-132 | either phrase anywhere in the message gives 413 |
| StandaloneApi.DocumentFrames | backend/main.py:135-147 | the prelude first and `</article>` last, with the non-empty deltas between, so at most two chunks more than the stream has |
| StandaloneApi.EventStream | backend/main.py:135-147 | the prelude, then the non-empty deltas in order, then `</article>`, emitted even when iteration raises |
| StandaloneApi.DocumentText | backend/main.py:135-147 | the body spells the prelude, all the content of the readable chunks, and the closing tag |
| StandaloneApi.StandaloneRequest | backend/main.py:80-86 | a streamed request of exactly the `SYSTEM_PROMPT` system message and the user prompt; the model is `OPENAI_MODEL` when set, else `gpt-4o-mini`; `max_tokens` is `Config.MaxTokens` of `OPENAI_MAX_TOKENS` with default 4000 (lines 115-119): 4000 when unset, empty or rejected by `int()`, else the parsed integer |
| StandaloneApi.StandaloneMaxTokens | backend/main.py:115-119 | a variable holding the decimal text of an integer of at most 4300 digits sets the request's `max_tokens` to that integer |
| StandaloneApi.GenerateContract | backend/main.py:95-149 | a missing SDK gives 500 JSON and a missing key gives 500, neither with a client call; a failed creation gives 413/502 with "Downstream model error: " + the message; otherwise the HTML stream of the request built with the 4000-token default and the `gpt-4o-mini` model default |
| Viewer.LineEnd | frontend/src/components/Viewer.tsx:4 | where the greedy `.+` stops: the first line terminator or the end |
| Viewer.SpaceRunEnd | frontend/src/components/Viewer.tsx:4 | the greedy extent of `\s+`, newlines included |
| Viewer.GiveBack | frontend/src/components/Viewer.tsx:4 | backtracking `\s+` finds the largest capture start below a bound, or proves there is none |
| Viewer.CaptureStart | frontend/src/components/Viewer.tsx:4 | the capture start the engine picks at a `#`, the largest possible, or none exactly when no match starts there |
| Viewer.Scan | frontend/src/components/Viewer.tsx:4 | the scan finds the leftmost matching line start, or proves that none of the later positions matches |
| Viewer.ExtractTitleFromMarkdown | frontend/src/components/Viewer.tsx:3-6 | null exactly when no line matches `^#\s+(.+)$`; otherwise the trimmed capture of the leftmost match |
| Viewer.DoubleHashIsNoHeading | frontend/src/components/Viewer.tsx:4 | a line starting "##" does not match |
| Viewer.LeadingHeading | frontend/src/components/Viewer.tsx:3-6 | a document starting "# " and a title yields the trimmed rest of that first line |
| Viewer.HashThenTextLine | frontend/src/components/Viewer.tsx:4-5 | a lone `#` line followed by a text line yields that text, since `\s+` crosses the newline |
| Viewer.HashThenSpaces | frontend/src/components/Viewer.tsx:4-5 | `#` followed only by spaces yields "", not null |
| Viewer.HashThenOneSpace | frontend/src/components/Viewer.tsx:4-5 | `#` and a single trailing space is no match |
| Viewer.PageTitle | frontend/src/components/Viewer.tsx:30 | the session title if non-empty, else the extracted title if non-empty, else "AI Contract Generator"; never empty |

## Left out

- The LangChain relay of `stream_chat` (backend/app/services/chat.py:42-86) is left out. This covers the prompt template, the history wrapper, the callback iterator, the background task and the done flag. It is concurrency over a foreign library. Its output enters the model as the token sequence and a flag that says whether the relay raised.
- The message appends that the relay makes to a history are left out with it.
- The OpenAI clients are foreign calls. They are modelled only as the outcome of each call and the chunks of a stream. The temperature 0.2 is a float and is not recorded in requests.
- Real time is not modelled. `time.sleep`, `asyncio.sleep` and `async_sleep_yield` become the millisecond sleep trace, or nothing. `uuid4` and `datetime.now` are parameters (`newId`, `createdAt`).
- UTF-8 encoding, and `errors="ignore"` when encoding deltas, are left out. Text is modelled as a sequence of characters.
- Environment variables, `.env` loading and reading the YAML file are left out. They are replaced by `Config.Env` and an optional parsed document. Prompts are a map from section to a map from key to text. So a section whose value is not a mapping (`title: null`, a scalar, a list), a key whose value is not text, and values nested deeper than section → key → text are not modelled. For a section that is not a mapping, `prompts.get(section, {}).get(key)` raises AttributeError in the source, and the model has no such case.
- The FastAPI wiring is left out: response headers, the CORS middleware, the health route, the thin `generate` route, the stream-test route and the Lambda adapters.
- The React components other than the title extraction are left out. The assignment to `document.title` is not modelled. `Viewer.PageTitle` computes the value that is assigned.
- SessionService.NewMeta: the request's `metadata` is a map from text to text. The source accepts any JSON values there (`Dict[str, Any]`), and other value types are not modelled. No operation reads the values.
- `deepcopy` in `list_sessions` needs no model. The model's values are immutable, so a listing cannot alias the store.
- Title.Upper: only ASCII letters are upper-cased. Python's full Unicode case mapping is not modelled, including mappings that change length such as "ß" → "SS". So `Title.FallbackTitle`'s bound of 60 and `Title.FallbackIdempotent` hold for the model but not for every Python input: for "ß" followed by 59 letters, the source returns 61 characters, and a second pass truncates them.
- Text.ParsePyInt: only ASCII digits are accepted. Python `int()` also accepts other Unicode decimal digits.
- Text.ParsePyInt: the digit limit is fixed at 4300, the default of `sys.get_int_max_str_digits()` since Python 3.11. A limit changed with `sys.set_int_max_str_digits` or `-X int_max_str_digits`, and interpreters without the limit, are not modelled. The round-trip lemmas therefore cover integers of at most 4300 digits.
- Retry.RetryFrom: every `Raises` outcome counts as an `Exception` and is retried. A `BaseException` that is not an `Exception`, such as `asyncio.CancelledError` or `KeyboardInterrupt`, is not caught by `except Exception` and escapes `retry_sync` and `retry_async` at once, with no further call and no sleep. The model does not capture that.
- Generation.Format: conversions, format specs, and attribute or index access on `context` are reported as `Unmodelled` and not evaluated. Examples are `{context!r}`, `{context:>10}` and `{context.upper}`. Fields of other names are errors, as in Python.
- SessionRoutes.SetTitleRoute: the payload's `title` can be missing, null or a string. Other JSON values go through `str()` in the source, and the model does not cover them.
- ChatRoute.ChatStream: the title generator is given by what it produced: a title, or none when it raised. The route is not composed with `Title.GenerateSessionTitle`, and the relay's history callback is not modelled.
- ChatRoute.ChatStream: the route's 500 branches (backend/app/routes/chat.py:54-59) are not modelled. No modelled step raises before the stream starts. The relay's errors surface through the envelope's re-raise flag.
- Generation.StreamContractMd: a failure while iterating the stream is only recorded, by the `failsAfter` flag. The async-generator laziness is not modelled: the checks run when iteration starts.
- Viewer.ExtractTitleFromMarkdown: characters are code points, not UTF-16 code units. The result is the same, because `.` matches both halves of a surrogate pair.
