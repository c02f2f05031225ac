/** `chat_stream` of backend/app/routes/chat.py: the unknown-session check,
    the first-turn title rule, and the relay of tokens through the envelope
    framer. The awaited title generator and the LangChain relay are given
    by what they produce: the title (or `None` where the call raised) and
    the tokens (with whether the relay raised after them). */
module ChatRoute {
  import opened Wrappers
  import opened Text
  import opened Http
  import opened SessionService
  import JsonStream
  import ChatService

  /** The arguments `generate_session_title` is awaited with. */
  datatype TitleRequest = TitleRequest(userInput: string, baseDocMarkdown: Option<string>)

  /** The arguments `stream_chat` is started with. */
  datatype RelayRequest = RelayRequest(sessionId: Id, inputText: string, baseDoc: Option<string>, systemPrompt: string)

  /** A started chat turn: whether a title was asked for, what the relay was
      started with, and the chunks of the streamed body. */
  datatype ChatTurn = ChatTurn(titleRequest: Option<TitleRequest>, relay: RelayRequest,
                               frames: seq<string>, raises: bool)

  /** A turn asks for a title when none (or an empty one) is set and the
      message has content. */
  predicate WantsTitle(m: Meta, content: string) {
    !Truthy(m.documentTitle) && content != ""
  }

  /** The session's title after the title step of a turn: a non-empty
      generated title is stored; an empty one, a raised generator, or an
      existing title leave it as it was. */
  function TitleAfterTurn(m: Meta, content: string, generated: Option<string>): (t: Option<string>)
    ensures Truthy(m.documentTitle) ==> t == m.documentTitle
    ensures WantsTitle(m, content) && Truthy(generated) ==> t == generated
    ensures !(WantsTitle(m, content) && Truthy(generated)) ==> t == m.documentTitle
    ensures Truthy(t) <==> Truthy(m.documentTitle) || (content != "" && Truthy(generated))
  {
    if WantsTitle(m, content) && Truthy(generated) then generated else m.documentTitle
  }

  method ChatStream(store: SessionStore, sessionId: Id, content: string, generatedTitle: Option<string>,
                    tokens: seq<ChatService.Token>, relayRaises: bool)
    returns (r: Response<ChatTurn>)
    requires store.Valid()
    modifies store
    ensures store.Valid()
    ensures sessionId !in old(store.meta) ==> r == HttpError(404, "session not found") && unchanged(store)
    ensures sessionId in old(store.meta) ==> (
      var m := old(store.meta)[sessionId];
      && r.Ok?
      && r.body.titleRequest == (if WantsTitle(m, content) then Some(TitleRequest(content, m.documentHtml)) else None)
      && store.meta == (if WantsTitle(m, content) && Truthy(generatedTitle)
                        then old(store.meta)[sessionId := m.(documentTitle := generatedTitle)]
                        else old(store.meta))
      && store.meta[sessionId].documentTitle == TitleAfterTurn(m, content, generatedTitle)
      && store.history == old(store.history) && store.order == old(store.order)
      && r.body.relay == RelayRequest(sessionId, content, m.documentHtml, m.systemPrompt)
      && r.body.frames == JsonStream.Frames(ChatService.NormaliseTokens(tokens))
      && r.body.raises == relayRaises)
  {
    if sessionId !in store.meta {
      return HttpError(404, "session not found");
    }
    var meta := store.meta[sessionId];
    var baseDoc := meta.documentHtml;
    var titleRequest: Option<TitleRequest> := None;
    if !Truthy(meta.documentTitle) && content != "" {
      titleRequest := Some(TitleRequest(content, baseDoc));
      if generatedTitle.Some? && generatedTitle.value != "" {
        store.meta := store.meta[sessionId := meta.(documentTitle := generatedTitle)];
      }
    }
    var relay := RelayRequest(sessionId, content, baseDoc, meta.systemPrompt);
    var frames, raised := JsonStream.Wrap(ChatService.NormaliseTokens(tokens), relayRaises);
    r := Ok(ChatTurn(titleRequest, relay, frames, raised));
  }

  /** The texts of a run of string tokens. */
  function Texts(tokens: seq<ChatService.Token>): (r: seq<string>)
    requires forall i :: 0 <= i < |tokens| ==> tokens[i].TextToken?
    ensures |r| == |tokens| && forall i :: 0 <= i < |tokens| ==> r[i] == tokens[i].text
  {
    seq(|tokens|, i requires 0 <= i < |tokens| => tokens[i].text)
  }

  lemma {:induction false} TextTokensKept(tokens: seq<ChatService.Token>)
    requires forall i :: 0 <= i < |tokens| ==> tokens[i].TextToken? && tokens[i].text != ""
    ensures JsonStream.NonEmpty(ChatService.NormaliseTokens(tokens)) == Texts(tokens)
  {
    if tokens != [] {
      var init := tokens[..|tokens| - 1];
      TextTokensKept(init);
      assert ChatService.NormaliseTokens(tokens)[..|tokens| - 1] == ChatService.NormaliseTokens(init);
      assert Texts(tokens) == Texts(init) + [tokens[|tokens| - 1].text];
    }
  }

  /** Non-empty string tokens reach the client unchanged and in order: the
      body is the envelope around their escaped concatenation. */
  lemma TokensForwarded(tokens: seq<ChatService.Token>)
    requires tokens != []
    requires forall i :: 0 <= i < |tokens| ==> tokens[i].TextToken? && tokens[i].text != ""
    ensures Concat(JsonStream.Frames(ChatService.NormaliseTokens(tokens)))
            == "{\"data\":\"" + JsonStream.Escape(Concat(Texts(tokens))) + "\"}"
  {
    TextTokensKept(tokens);
    JsonStream.Envelope(ChatService.NormaliseTokens(tokens));
  }
}
