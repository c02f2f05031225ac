/** The session routes of backend/app/routes/session.py: how the store's
    errors become HTTP statuses, the shape of the history response, and
    `set_title`, which validates and writes the metadata itself. */
module SessionRoutes {
  import opened Wrappers
  import opened Text
  import opened Http
  import opened SessionService

  const NotFoundDetail: string := "session not found"
  const TitleRequiredDetail: string := "title required"
  /** `str(exc)` of the store's RuntimeError. */
  const UnavailableDetail: string := "LangChain not available on server"

  /** One element of the history response's `messages`. */
  datatype ChatEntry = ChatEntry(role: string, content: string)

  /** The history response; `meta` is `None` where the route answers `{}`. */
  datatype HistoryBody = HistoryBody(sessionId: Id, messages: seq<ChatEntry>, meta: Option<Meta>)

  /** The `"title"` member of the request payload, as far as it is modelled. */
  datatype TitleField = Missing | Null | Text(s: string)

  datatype TitleBody = TitleBody(ok: bool, title: string)

  /** `[{"role": m.type, "content": m.content} for m in history.messages]`. */
  function Entries(h: seq<Message>): (r: seq<ChatEntry>)
    ensures |r| == |h|
    ensures forall i :: 0 <= i < |h| ==> r[i].role == h[i].kind && r[i].content == h[i].content
  {
    seq(|h|, i requires 0 <= i < |h| => ChatEntry(h[i].kind, h[i].content))
  }

  /** `str(payload.get("title", ""))`: a missing member reads as the empty
      string and JSON `null` as the text "None". */
  function TitleText(f: TitleField): string
  {
    match f
    case Missing => ""
    case Null => "None"
    case Text(s) => s
  }

  /** The title `set_title` stores: `TitleText` stripped of whitespace. */
  function PayloadTitle(f: TitleField): (r: string)
    ensures Unpadded(r, PyIsSpace)
    ensures f == Missing ==> r == ""
  {
    PyStrip(TitleText(f))
  }

  function ErrorResponse<T>(e: StoreError): (r: Response<T>)
    ensures e == NotFound ==> r == HttpError(404, NotFoundDetail)
    ensures e == Unavailable ==> r == HttpError(500, UnavailableDetail)
  {
    match e
    case NotFound => HttpError(404, NotFoundDetail)
    case Unavailable => HttpError(500, UnavailableDetail)
  }

  method StartSessionRoute(store: SessionStore, newId: Id, createdAt: string,
                           systemPrompt: Option<string>, metadata: Option<map<string, string>>)
    returns (r: Response<Id>)
    requires store.Valid() && newId !in store.history && newId !in store.meta
    modifies store
    ensures store.Valid()
    ensures !store.historyAvailable ==> r == HttpError(500, UnavailableDetail) && unchanged(store)
    ensures store.historyAvailable ==> (
      && r == Ok(newId)
      && store.meta == old(store.meta)[newId := NewMeta(createdAt, systemPrompt, metadata)]
      && store.history == old(store.history)[newId := []]
      && store.order == old(store.order) + [newId])
  {
    var s := store.StartSession(newId, createdAt, systemPrompt, metadata);
    r := if s.Success? then Ok(s.value) else ErrorResponse(s.error);
  }

  /** The history route: 404 exactly when the key has no history, the
      messages in history order, and the metadata or `{}`. */
  method HistoryRoute(store: SessionStore, id: Id) returns (r: Response<HistoryBody>)
    ensures !store.historyAvailable ==> r == HttpError(500, UnavailableDetail)
    ensures store.historyAvailable && id !in store.history ==> r == HttpError(404, NotFoundDetail)
    ensures store.historyAvailable && id in store.history ==>
      r == Ok(HistoryBody(id, Entries(store.history[id]), if id in store.meta then Some(store.meta[id]) else None))
  {
    var h := store.GetHistory(id);
    if h.Failure? {
      return ErrorResponse(h.error);
    }
    var meta := if id in store.meta then Some(store.meta[id]) else None;
    r := Ok(HistoryBody(id, Entries(h.value), meta));
  }

  /** The clear route. Its 404 branch cannot be taken: `clear_history`
      never raises KeyError. */
  method ClearRoute(store: SessionStore, id: Id) returns (r: Response<bool>)
    requires store.Valid()
    modifies store
    ensures store.Valid()
    ensures !store.historyAvailable ==> r == HttpError(500, UnavailableDetail) && unchanged(store)
    ensures store.historyAvailable ==> (
      && r == Ok(true)
      && store.history == old(store.history)[id := []]
      && store.meta == old(store.meta) && store.order == old(store.order))
  {
    var d := store.ClearHistory(id);
    r := if d.Done? then Ok(true) else ErrorResponse(d.error);
  }

  method ListRoute(store: SessionStore) returns (r: Response<seq<SessionItem>>)
    requires store.Valid()
    ensures !store.historyAvailable ==> r == HttpError(500, UnavailableDetail)
    ensures store.historyAvailable ==> (
      && r.Ok? && |r.body| == |store.order|
      && forall i :: 0 <= i < |store.order| ==> r.body[i] == SessionItem(store.order[i], store.meta[store.order[i]]))
  {
    var l := store.ListSessions();
    r := if l.Success? then Ok(l.value) else ErrorResponse(l.error);
  }

  method SetDocumentRoute(store: SessionStore, id: Id, html: string, title: Option<string>) returns (r: Response<bool>)
    requires store.Valid()
    modifies store
    ensures store.Valid()
    ensures !store.historyAvailable ==> r == HttpError(500, UnavailableDetail) && unchanged(store)
    ensures store.historyAvailable && id !in old(store.meta) ==> r == HttpError(404, NotFoundDetail) && unchanged(store)
    ensures store.historyAvailable && id in old(store.meta) ==> (
      && r == Ok(true)
      && store.meta == old(store.meta)[id := WithDocument(old(store.meta)[id], html, title)]
      && store.history == old(store.history) && store.order == old(store.order))
  {
    var d := store.SetDocument(id, html, title);
    r := if d.Done? then Ok(true) else ErrorResponse(d.error);
  }

  /** `set_title`, which reads `SESSION_META` directly and so does not
      depend on LangChain: 404 for an unknown session whatever the payload,
      then 400 for a blank title; otherwise the stripped title is stored
      and echoed. */
  method SetTitleRoute(store: SessionStore, id: Id, payload: TitleField) returns (r: Response<TitleBody>)
    requires store.Valid()
    modifies store
    ensures store.Valid()
    ensures id !in old(store.meta) ==> r == HttpError(404, NotFoundDetail) && unchanged(store)
    ensures id in old(store.meta) && PayloadTitle(payload) == "" ==>
      r == HttpError(400, TitleRequiredDetail) && unchanged(store)
    ensures id in old(store.meta) && PayloadTitle(payload) != "" ==> (
      && r == Ok(TitleBody(true, PayloadTitle(payload)))
      && store.meta == old(store.meta)[id := old(store.meta)[id].(documentTitle := Some(PayloadTitle(payload)))]
      && store.history == old(store.history) && store.order == old(store.order))
  {
    r := StoreTitle(store, id, PayloadTitle(payload));
  }

  /** The body of `set_title` once the payload's title is read and stripped. */
  method StoreTitle(store: SessionStore, id: Id, title: string) returns (r: Response<TitleBody>)
    requires store.Valid()
    modifies store
    ensures store.Valid()
    ensures id !in old(store.meta) ==> r == HttpError(404, NotFoundDetail) && unchanged(store)
    ensures id in old(store.meta) && title == "" ==> r == HttpError(400, TitleRequiredDetail) && unchanged(store)
    ensures id in old(store.meta) && title != "" ==> (
      && r == Ok(TitleBody(true, title))
      && store.meta == old(store.meta)[id := old(store.meta)[id].(documentTitle := Some(title))]
      && store.history == old(store.history) && store.order == old(store.order))
  {
    if id !in store.meta {
      return HttpError(404, NotFoundDetail);
    }
    if title == "" {
      return HttpError(400, TitleRequiredDetail);
    }
    store.meta := store.meta[id := store.meta[id].(documentTitle := Some(title))];
    r := Ok(TitleBody(true, title));
  }
}
