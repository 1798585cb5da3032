// The chat-history index shared by the page and the navigation bar: its records, their JSON
// form under `chatHistories-${email}`, and the list operations both components apply to it.

module ChatHistories {
  import opened Wrappers
  import Json
  import Text

  /** The summary of one conversation shown in the history list. */
  datatype ChatHistory = ChatHistory(id: string, title: string, preview: string, timestamp: nat)

  /** The local-storage key of a user's history list. */
  function HistoryKey(email: string): string {
    "chatHistories-" + email
  }

  /** Each user has a key of their own. */
  lemma HistoryKeyInjective(a: string, b: string)
    requires HistoryKey(a) == HistoryKey(b)
    ensures a == b
  {
    assert a == HistoryKey(a)[14..];
  }

  // ================================================================ ids

  predicate HasId(hs: seq<ChatHistory>, id: string) {
    exists i :: 0 <= i < |hs| && hs[i].id == id
  }

  /** No two entries share an id. */
  predicate DistinctIds(hs: seq<ChatHistory>) {
    forall i, j :: 0 <= i < j < |hs| ==> hs[i].id != hs[j].id
  }

  /** `prev.find(c => c.id === chatId)`: the first entry with the id. */
  function Find(hs: seq<ChatHistory>, id: string): (r: Option<ChatHistory>)
    ensures r.Some? <==> HasId(hs, id)
    ensures r.Some? ==> exists i :: 0 <= i < |hs| && hs[i] == r.value && r.value.id == id
                                    && forall j :: 0 <= j < i ==> hs[j].id != id
  {
    if hs == [] then None
    else if hs[0].id == id then Some(hs[0])
    else
      var r := Find(hs[1..], id);
      assert forall i :: 0 < i < |hs| ==> hs[i] == hs[1..][i - 1];
      if r.Some? then
        var i :| 0 <= i < |hs[1..]| && hs[1..][i] == r.value && r.value.id == id
                 && forall j :: 0 <= j < i ==> hs[1..][j].id != id;
        assert hs[i + 1] == r.value;
        r
      else r
  }

  // ================================================================ JSON form

  function ToJson(c: ChatHistory): Json.Value {
    Json.Object([
      Json.Member("id", Json.Str(c.id)),
      Json.Member("title", Json.Str(c.title)),
      Json.Member("preview", Json.Str(c.preview)),
      Json.Member("timestamp", Json.Number(c.timestamp))])
  }

  /** A parsed object with the four fields of a history entry, each of the right type. */
  function FromJson(v: Json.Value): Option<ChatHistory> {
    match (Json.AsString(Json.Field(v, "id")), Json.AsString(Json.Field(v, "title")),
           Json.AsString(Json.Field(v, "preview")), Json.AsNumber(Json.Field(v, "timestamp")))
    case (Some(id), Some(title), Some(preview), Some(timestamp)) => Some(ChatHistory(id, title, preview, timestamp))
    case _ => None
  }

  lemma EntryRoundTrip(c: ChatHistory)
    ensures FromJson(ToJson(c)) == Some(c)
  {
    var ms := ToJson(c).members;
    assert ms[0].key[0] == 'i' && ms[1].key[0] == 't' && ms[2].key[0] == 'p' && ms[3].key[0] == 't';
    assert ms[1].key[2] == 't' && ms[3].key[2] == 'm';
    Json.LookupAt(ms, 0);
    Json.LookupAt(ms, 1);
    Json.LookupAt(ms, 2);
    Json.LookupAt(ms, 3);
  }

  lemma EntriesRoundTrip()
    ensures forall c :: FromJson(ToJson(c)) == Some(c)
  {
    forall c: ChatHistory
      ensures FromJson(ToJson(c)) == Some(c)
    {
      EntryRoundTrip(c);
    }
  }

  /** `JSON.stringify(chatHistories)`. */
  function EncodeHistories(hs: seq<ChatHistory>): (r: string)
    ensures r != []
  {
    Json.Stringify(Json.ArrayOf(hs, ToJson))
  }

  /** Stored text read back as a history list; `None` when it does not parse or is not one. */
  function DecodeHistories(raw: string): (r: Option<seq<ChatHistory>>)
    ensures r.Some? ==> raw != []
  {
    match Json.Parse(raw)
    case Some(v) => Json.FromArray(v, FromJson)
    case None => None
  }

  /** Every history list survives storage unchanged. */
  lemma HistoriesCodecRoundTrip(hs: seq<ChatHistory>)
    ensures DecodeHistories(EncodeHistories(hs)) == Some(hs)
  {
    Json.ParseStringify(Json.ArrayOf(hs, ToJson));
    EntriesRoundTrip();
    Json.ArrayRoundTrip(hs, ToJson, FromJson);
  }
}
