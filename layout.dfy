// The navigation bar's history sidebar: loading the signed-in user's list, searching it, and
// deleting a chat together with its transcript.

module Navbar {
  import opened Wrappers
  import Text
  import Storage
  import opened ChatHistories
  import opened Lists
  import FinanceChatComponent

  // ================================================================ search

  /** The entry's lowercased title or lowercased preview contains the lowercased query. */
  predicate MatchesQuery(c: ChatHistory, query: string) {
    Text.Contains(Text.Lower(c.title), Text.Lower(query))
    || Text.Contains(Text.Lower(c.preview), Text.Lower(query))
  }

  function MatchesQueryTest(query: string): ChatHistory -> bool {
    (c: ChatHistory) => MatchesQuery(c, query)
  }

  /** `filteredChats`. */
  function Search(hs: seq<ChatHistory>, query: string): seq<ChatHistory> {
    Filter(hs, MatchesQueryTest(query))
  }

  /** The search result lists, in their order, exactly the entries that match the query, each as
      often as the list holds it. */
  lemma SearchSpec(hs: seq<ChatHistory>, query: string)
    ensures forall c :: c in Search(hs, query) <==> c in hs && MatchesQuery(c, query)
    ensures forall c :: multiset(Search(hs, query))[c] == if MatchesQuery(c, query) then multiset(hs)[c] else 0
    ensures IsSubsequence(Search(hs, query), hs)
  {
    FilterSpec(hs, MatchesQueryTest(query));
  }

  /** The empty query lists everything. */
  lemma SearchEmptyQuery(hs: seq<ChatHistory>)
    ensures Search(hs, "") == hs
  {
    FilterSpec(hs, MatchesQueryTest(""));
    forall c | c in hs ensures MatchesQueryTest("")(c) {
      assert Text.Lower("") == "";
      assert Text.Contains(Text.Lower(c.title), "");
    }
  }

  /** Queries that differ only in letter case find the same entries. */
  lemma SearchIgnoresCase(hs: seq<ChatHistory>, a: string, b: string)
    requires Text.EqualIgnoringCase(a, b)
    ensures Search(hs, a) == Search(hs, b)
  {
    Text.LowerEqualIff(a, b);
    FilterAgreeing(hs, MatchesQueryTest(a), MatchesQueryTest(b));
  }

  // ================================================================ delete

  /** `chatHistories.filter(chat => chat.id !== chatId)`. */
  function Remove(hs: seq<ChatHistory>, chatId: string): seq<ChatHistory> {
    Filter(hs, OtherThan(chatId))
  }

  function OtherThan(chatId: string): ChatHistory -> bool {
    (c: ChatHistory) => c.id != chatId
  }

  /** Deleting drops every entry with the id and keeps every other entry, as often as it occurs
      and in order; deleting an id that is not listed changes nothing. */
  lemma RemoveSpec(hs: seq<ChatHistory>, chatId: string)
    ensures forall c :: c in Remove(hs, chatId) <==> c in hs && c.id != chatId
    ensures forall c :: multiset(Remove(hs, chatId))[c] == if c.id != chatId then multiset(hs)[c] else 0
    ensures IsSubsequence(Remove(hs, chatId), hs)
    ensures !HasId(Remove(hs, chatId), chatId)
    ensures !HasId(hs, chatId) ==> Remove(hs, chatId) == hs
  {
    FilterSpec(hs, OtherThan(chatId));
    var r := Remove(hs, chatId);
    forall i | 0 <= i < |r| ensures r[i].id != chatId {
      assert r[i] in r;
    }
    if !HasId(hs, chatId) {
      forall c | c in hs ensures OtherThan(chatId)(c) {
        var i :| 0 <= i < |hs| && hs[i] == c;
      }
    }
  }

  /** The list and the store after `handleDeleteChat`. */
  datatype AfterDelete = AfterDelete(histories: seq<ChatHistory>, items: map<string, string>)

  /** `handleDeleteChat`: nothing when signed out; otherwise the filtered list, written back under
      the user's history key, and the chat's transcript removed. */
  function DeleteChat(hs: seq<ChatHistory>, items: map<string, string>, email: Option<string>, chatId: string): AfterDelete {
    if email.None? then AfterDelete(hs, items)
    else
      var updated := Remove(hs, chatId);
      AfterDelete(updated, items[HistoryKey(email.value) := EncodeHistories(updated)]
                           - {FinanceChatComponent.TranscriptKey(email.value, chatId)})
  }

  /** The history key and a transcript key are never the same key. */
  lemma HistoryKeyIsNotTranscriptKey(email: string, other: string, chatId: string)
    ensures HistoryKey(email) != FinanceChatComponent.TranscriptKey(other, chatId)
  {
    assert HistoryKey(email)[0] == 'c';
    assert FinanceChatComponent.TranscriptKey(other, chatId)[0] == 'f';
  }

  /** After a delete the user's history key holds the filtered list, the transcript is gone, and
      no other key changed; signed out, nothing changes at all. */
  lemma DeleteChatSpec(hs: seq<ChatHistory>, items: map<string, string>, email: Option<string>, chatId: string)
    ensures email.None? ==> DeleteChat(hs, items, email, chatId) == AfterDelete(hs, items)
    ensures email.Some? ==>
              var r := DeleteChat(hs, items, email, chatId);
              var historyKey := HistoryKey(email.value);
              var transcriptKey := FinanceChatComponent.TranscriptKey(email.value, chatId);
              r.histories == Remove(hs, chatId)
              && historyKey in r.items && DecodeHistories(r.items[historyKey]) == Some(Remove(hs, chatId))
              && transcriptKey !in r.items
              && forall k :: k != historyKey && k != transcriptKey ==> Storage.Get(r.items, k) == Storage.Get(items, k)
  {
    if email.Some? {
      HistoryKeyIsNotTranscriptKey(email.value, email.value, chatId);
      HistoriesCodecRoundTrip(Remove(hs, chatId));
    }
  }

  /** A deleted chat's transcript loads as the empty conversation. */
  lemma DeletedTranscriptLoadsEmpty(hs: seq<ChatHistory>, items: map<string, string>, email: Option<string>, chatId: string)
    ensures FinanceChatComponent.LoadTranscript(DeleteChat(hs, items, email, chatId).items, email, chatId) == []
  {
  }

  // ================================================================ load

  /** The sidebar's history-load effect: nothing when signed out, the stored list when the key
      holds one, and the previous list when the key holds nothing or its text does not parse. */
  function LoadedHistories(prev: seq<ChatHistory>, items: map<string, string>, email: Option<string>): seq<ChatHistory> {
    if email.None? then []
    else
      var saved := Storage.Get(items, HistoryKey(email.value));
      if Storage.Truthy(saved) then DecodeHistories(saved.value).GetOr(prev) else prev
  }

  lemma LoadedHistoriesCases(prev: seq<ChatHistory>, items: map<string, string>, email: Option<string>)
    ensures email.None? ==> LoadedHistories(prev, items, email) == []
    ensures email.Some? && HistoryKey(email.value) !in items ==> LoadedHistories(prev, items, email) == prev
    ensures email.Some? && HistoryKey(email.value) in items ==>
              var d := DecodeHistories(items[HistoryKey(email.value)]);
              LoadedHistories(prev, items, email) == (if d.Some? then d.value else prev)
  {
  }

  /** The sidebar sees what a delete wrote: loading right after it gives the filtered list. */
  lemma LoadAfterDelete(prev: seq<ChatHistory>, hs: seq<ChatHistory>, items: map<string, string>, email: Option<string>, chatId: string)
    requires email.Some?
    ensures LoadedHistories(prev, DeleteChat(hs, items, email, chatId).items, email) == Remove(hs, chatId)
  {
    DeleteChatSpec(hs, items, email, chatId);
  }

  // ================================================================ the navigation bar

  /** The sidebar's state; `store` is the page's shared local storage. */
  class NavigationBar {
    const store: Storage.LocalStorage
    var chatHistories: seq<ChatHistory>
    var searchQuery: string

    constructor (store: Storage.LocalStorage)
      ensures this.store == store && chatHistories == [] && searchQuery == ""
    {
      this.store := store;
      chatHistories := [];
      searchQuery := "";
    }

    /** The history-load effect (also what every poll runs). */
    method LoadChatHistories(session: Option<string>)
      modifies this`chatHistories
      ensures chatHistories == LoadedHistories(old(chatHistories), store.items, Storage.SessionEmail(session))
    {
      var email := Storage.SessionEmail(session);
      if email.None? {
        chatHistories := [];
        return;
      }
      var saved := Storage.Get(store.items, HistoryKey(email.value));
      if Storage.Truthy(saved) {
        var parsed := DecodeHistories(saved.value);
        if parsed.Some? {
          chatHistories := parsed.value;
        }
      }
    }

    /** The search box's change handler. */
    method SetSearchQuery(query: string)
      modifies this`searchQuery
      ensures searchQuery == query
    {
      searchQuery := query;
    }

    /** `filteredChats`: a view of the list, computed without changing anything. */
    function FilteredChats(): (r: seq<ChatHistory>)
      reads this
      ensures forall c :: c in r <==> c in chatHistories && MatchesQuery(c, searchQuery)
      ensures forall c :: multiset(r)[c] == if MatchesQuery(c, searchQuery) then multiset(chatHistories)[c] else 0
      ensures IsSubsequence(r, chatHistories)
      ensures searchQuery == "" ==> r == chatHistories
    {
      SearchSpec(chatHistories, searchQuery);
      SearchEmptyQuery(chatHistories);
      Search(chatHistories, searchQuery)
    }

    /** `handleDeleteChat`. */
    method HandleDeleteChat(session: Option<string>, chatId: string)
      modifies this`chatHistories, store
      ensures var r := DeleteChat(old(chatHistories), old(store.items), Storage.SessionEmail(session), chatId);
              chatHistories == r.histories && store.items == r.items
    {
      var email := Storage.SessionEmail(session);
      if email.None? {
        return;
      }
      var updated := Remove(chatHistories, chatId);
      chatHistories := updated;
      store.SetItem(HistoryKey(email.value), EncodeHistories(updated));
      store.RemoveItem(FinanceChatComponent.TranscriptKey(email.value, chatId));
    }
  }
}
