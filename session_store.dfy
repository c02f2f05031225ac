/** The in-process session store of backend/app/services/session.py: the
    module-level dicts `SESSION_HISTORY` and `SESSION_META` become fields of
    one `SessionStore` object, together with the insertion order of
    `SESSION_META` that `list_sessions` iterates in. Whether LangChain's
    `ChatMessageHistory` could be imported is a capability fixed when the
    store is made; the fresh session id and the creation time are passed in. */
module SessionService {
  import opened Wrappers
  import opened Text
  import Config

  type Id = string

  /** One message of a history: LangChain's message `type` and `content`. */
  datatype Message = Message(kind: string, content: string)

  /** The metadata dict of one session. `documentHtml` and `documentTitle`
      are the keys that are absent until first set. */
  datatype Meta = Meta(createdAt: string, systemPrompt: string, metadata: map<string, string>,
                       documentHtml: Option<string>, documentTitle: Option<string>)

  /** RuntimeError("LangChain not available on server") and KeyError. */
  datatype StoreError = Unavailable | NotFound

  datatype Done = Done | Raised(error: StoreError)

  /** One element of `list_sessions`: `{"session_id": sid}` updated with a
      copy of that session's metadata. */
  datatype SessionItem = SessionItem(sessionId: Id, meta: Meta)

  /** The metadata `start_session` records. */
  function NewMeta(createdAt: string, systemPrompt: Option<string>, metadata: Option<map<string, string>>): (m: Meta)
    ensures Truthy(systemPrompt) ==> m.systemPrompt == systemPrompt.value
    ensures !Truthy(systemPrompt) ==> m.systemPrompt == Config.DefaultSystemPrompt
    ensures m.metadata == (if metadata.Some? then metadata.value else map[])
    ensures m.createdAt == createdAt && m.documentHtml.None? && m.documentTitle.None?
  {
    Meta(createdAt, OrElse(systemPrompt, Config.DefaultSystemPrompt), metadata.GetOr(map[]), None, None)
  }

  /** What `set_document` makes of a session's metadata. */
  function WithDocument(m: Meta, html: string, title: Option<string>): (r: Meta)
    ensures r.documentHtml == Some(html)
    ensures r.documentTitle == (if Truthy(title) then title else m.documentTitle)
    ensures r.createdAt == m.createdAt && r.systemPrompt == m.systemPrompt && r.metadata == m.metadata
  {
    m.(documentHtml := Some(html), documentTitle := if Truthy(title) then title else m.documentTitle)
  }

  class SessionStore {
    const historyAvailable: bool
    var history: map<Id, seq<Message>>
    var meta: map<Id, Meta>
    var order: seq<Id>

    /** `order` lists the metadata keys once each, in insertion order, and
        every session with metadata has a history. A history may exist
        without metadata: `clear_history` does not check its key. */
    ghost predicate Valid()
      reads this
    {
      && (forall i, j :: 0 <= i < j < |order| ==> order[i] != order[j])
      && (forall id :: id in meta <==> id in order)
      && meta.Keys <= history.Keys
    }

    constructor (historyAvailable: bool)
      ensures Valid()
      ensures this.historyAvailable == historyAvailable
      ensures history == map[] && meta == map[] && order == []
    {
      this.historyAvailable := historyAvailable;
      history := map[];
      meta := map[];
      order := [];
    }

    /** `start_session`, with the id `uuid4` would draw given as `newId`. */
    method StartSession(newId: Id, createdAt: string, systemPrompt: Option<string>, metadata: Option<map<string, string>>)
      returns (r: Result<Id, StoreError>)
      requires Valid() && newId !in history && newId !in meta
      modifies this
      ensures Valid()
      ensures !historyAvailable ==> r == Failure(Unavailable) && unchanged(this)
      ensures historyAvailable ==> (
        && r == Success(newId)
        && meta == old(meta)[newId := NewMeta(createdAt, systemPrompt, metadata)]
        && history == old(history)[newId := []]
        && order == old(order) + [newId])
    {
      if !historyAvailable {
        return Failure(Unavailable);
      }
      meta := meta[newId := NewMeta(createdAt, systemPrompt, metadata)];
      order := order + [newId];
      history := history[newId := []];
      r := Success(newId);
    }

    /** `get_history`: KeyError exactly when the key has no history entry;
        otherwise that entry, unchanged. */
    method GetHistory(id: Id) returns (r: Result<seq<Message>, StoreError>)
      ensures !historyAvailable ==> r == Failure(Unavailable)
      ensures historyAvailable && id in history ==> r == Success(history[id])
      ensures historyAvailable && id !in history ==> r == Failure(NotFound)
    {
      if !historyAvailable {
        return Failure(Unavailable);
      }
      if id !in history {
        return Failure(NotFound);
      }
      r := Success(history[id]);
    }

    /** `clear_history`: no existence check, so an unknown key gets an
        (orphan) empty history; metadata is left alone. */
    method ClearHistory(id: Id) returns (r: Done)
      requires Valid()
      modifies this
      ensures Valid()
      ensures !historyAvailable ==> r == Raised(Unavailable) && unchanged(this)
      ensures historyAvailable ==> (
        && r == Done && history == old(history)[id := []]
        && meta == old(meta) && order == old(order))
    {
      if !historyAvailable {
        return Raised(Unavailable);
      }
      history := history[id := []];
      r := Done;
    }

    /** `list_sessions`: one item per metadata entry, in insertion order. */
    method ListSessions() returns (r: Result<seq<SessionItem>, StoreError>)
      requires Valid()
      ensures !historyAvailable ==> r == Failure(Unavailable)
      ensures historyAvailable ==> (
        && r.Success? && |r.value| == |order|
        && forall i :: 0 <= i < |order| ==> r.value[i] == SessionItem(order[i], meta[order[i]]))
    {
      if !historyAvailable {
        return Failure(Unavailable);
      }
      var items: seq<SessionItem> := [];
      var i := 0;
      while i < |order|
        invariant 0 <= i <= |order| && |items| == i
        invariant forall k :: 0 <= k < i ==> items[k] == SessionItem(order[k], meta[order[k]])
      {
        var sid := order[i];
        items := items + [SessionItem(sid, meta[sid])];
        i := i + 1;
      }
      r := Success(items);
    }

    /** `set_document`: KeyError for a key without metadata, changing
        nothing; otherwise the HTML is stored, and the title too when it is
        non-empty. */
    method SetDocument(id: Id, html: string, title: Option<string>) returns (r: Done)
      requires Valid()
      modifies this
      ensures Valid()
      ensures !historyAvailable ==> r == Raised(Unavailable) && unchanged(this)
      ensures historyAvailable && id !in old(meta) ==> r == Raised(NotFound) && unchanged(this)
      ensures historyAvailable && id in old(meta) ==> (
        && r == Done
        && meta == old(meta)[id := WithDocument(old(meta)[id], html, title)]
        && history == old(history) && order == old(order))
    {
      if !historyAvailable {
        return Raised(Unavailable);
      }
      if id !in meta {
        return Raised(NotFound);
      }
      meta := meta[id := WithDocument(meta[id], html, title)];
      r := Done;
    }
  }

  /** The scenario of backend/tests/test_api.py: two sessions started one
      after the other and given documents titled "A" and "B" list with their
      own titles. */
  method TwoSessionsKeepTheirTitles(s1: Id, s2: Id, createdAt1: string, createdAt2: string) returns (items: seq<SessionItem>)
    requires s1 != s2
    ensures |items| == 2
    ensures items[0].sessionId == s1 && items[0].meta.documentTitle == Some("A")
    ensures items[1].sessionId == s2 && items[1].meta.documentTitle == Some("B")
  {
    var store := new SessionStore(true);
    var r1 := store.StartSession(s1, createdAt1, None, None);
    var d1 := store.SetDocument(s1, "# Doc A", Some("A"));
    var r2 := store.StartSession(s2, createdAt2, None, None);
    var d2 := store.SetDocument(s2, "# Doc B", Some("B"));
    var listed := store.ListSessions();
    items := listed.value;
  }
}
