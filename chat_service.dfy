/** The parts of `stream_chat` (backend/app/services/chat.py) that are not
    the LangChain relay: the assembly of the system text and the
    normalisation of relayed tokens. */
module ChatService {
  import opened Wrappers
  import opened Text
  import Config

  const DefaultEditingBlock: string :=
    "You are continuing an editing session. The current base Markdown document is provided below.\n"
    + "Apply user instructions as surgical edits to this base, preserving headings, numbering, anchors, and tables.\n"
    + "Return ONLY updated Markdown (no backticks, no code fences).\n"

  const BaseDocumentOpen: string := "\n\n<BASE_DOCUMENT>\n"
  const BaseDocumentClose: string := "\n</BASE_DOCUMENT>\n"

  /** `system_prompt or prompts.system.contract_generation or DEFAULT_SYSTEM_PROMPT`. */
  function BaseSystemText(systemPrompt: Option<string>, prompts: Config.Prompts): (r: string)
    ensures Truthy(systemPrompt) ==> r == systemPrompt.value
    ensures !Truthy(systemPrompt) && Truthy(Config.PromptText(prompts, "system", "contract_generation")) ==>
      r == prompts["system"]["contract_generation"]
    ensures !Truthy(systemPrompt) && !Truthy(Config.PromptText(prompts, "system", "contract_generation")) ==>
      r == Config.DefaultSystemPrompt
  {
    OrElse(systemPrompt, OrElse(Config.PromptText(prompts, "system", "contract_generation"), Config.DefaultSystemPrompt))
  }

  /** The editing instructions: the configured `system.editing_context`, or
      the built-in text. */
  function EditingBlock(prompts: Config.Prompts): (r: string)
    ensures Truthy(Config.PromptText(prompts, "system", "editing_context")) ==> r == prompts["system"]["editing_context"]
    ensures !Truthy(Config.PromptText(prompts, "system", "editing_context")) ==> r == DefaultEditingBlock
  {
    OrElse(Config.PromptText(prompts, "system", "editing_context"), DefaultEditingBlock)
  }

  /** The system text of a chat turn. Without a base document it is the
      base text; with one, the base text comes first, then the editing
      block, and the rest is exactly the document between the
      `<BASE_DOCUMENT>` markers: nothing lies between the two parts. */
  function SystemText(systemPrompt: Option<string>, prompts: Config.Prompts, baseDoc: Option<string>): (r: string)
    ensures !Truthy(baseDoc) ==> r == BaseSystemText(systemPrompt, prompts)
    ensures Truthy(baseDoc) ==> (
      var head := BaseSystemText(systemPrompt, prompts) + "\n\n" + EditingBlock(prompts);
      var tail := BaseDocumentOpen + baseDoc.value + BaseDocumentClose;
      && head <= r
      && |tail| <= |r| && r[|r| - |tail|..] == tail
      && |r| == |head| + |tail|)
  {
    var base := BaseSystemText(systemPrompt, prompts);
    if Truthy(baseDoc) then
      var head := base + "\n\n" + EditingBlock(prompts);
      var r := head + BaseDocumentOpen + baseDoc.value + BaseDocumentClose;
      assert r == head + (BaseDocumentOpen + baseDoc.value + BaseDocumentClose);
      r
    else base
  }

  /** What stream_chat's setup does before the relay starts: without
      LangChain it raises RuntimeError before building any prompt. */
  function ChatSystemMessage(langchainAvailable: bool, systemPrompt: Option<string>, prompts: Config.Prompts,
                             baseDoc: Option<string>): (r: Result<string, string>)
    ensures !langchainAvailable ==> r == Failure("LangChain not available on server")
    ensures langchainAvailable ==> r == Success(SystemText(systemPrompt, prompts, baseDoc))
  {
    if !langchainAvailable then Failure("LangChain not available on server")
    else Success(SystemText(systemPrompt, prompts, baseDoc))
  }

  /** A token from the callback handler: a string, or a dict whose
      `"content"` entry may be absent. */
  datatype Token = TextToken(text: string) | DictToken(content: Option<string>)

  /** `token.get("content") if isinstance(token, dict) else str(token)`;
      `None` stands for the `None` an absent entry gives. */
  function NormaliseToken(t: Token): Option<string>
  {
    match t
    case TextToken(s) => Some(s)
    case DictToken(c) => c
  }

  /** The relayed tokens, normalised one for one and in arrival order. */
  function NormaliseTokens(tokens: seq<Token>): (r: seq<Option<string>>)
    ensures |r| == |tokens|
    ensures forall i :: 0 <= i < |tokens| ==> r[i] == NormaliseToken(tokens[i])
  {
    seq(|tokens|, i requires 0 <= i < |tokens| => NormaliseToken(tokens[i]))
  }
}
