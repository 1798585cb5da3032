// The assistant page: the chat-id state machine, the history upsert fed by the widget's
// first-message callback, and the page's history load and save effects.

module AssistantPage {
  import opened Wrappers
  import Text
  import Storage
  import opened ChatHistories

  /** Longest title and preview kept before an ellipsis is added. */
  const TitleLength: nat := 30
  const PreviewLength: nat := 50

  /** `s.slice(0, n) + (s.length > n ? "..." : "")`. */
  function Truncate(s: string, n: nat): (r: string)
    ensures |s| <= n ==> r == s
    ensures |s| > n ==> |r| == n + 3 && r[..n] == s[..n] && r[n..] == "..."
    ensures |r| <= n + 3
  {
    (if |s| <= n then s else s[..n]) + (if |s| > n then "..." else "")
  }

  /** The id of a chat started at time `now`: `chat-${Date.now()}`. */
  function FreshChatId(now: nat): string {
    "chat-" + Text.NatToString(now)
  }

  /** Chats started at different milliseconds get different ids. */
  lemma FreshChatIdInjective(a: nat, b: nat)
    requires FreshChatId(a) == FreshChatId(b)
    ensures a == b
  {
    assert FreshChatId(a)[5..] == Text.NatToString(a);
    assert FreshChatId(b)[5..] == Text.NatToString(b);
    Text.NatToStringInjective(a, b);
  }

  // ================================================================ the upsert

  /** The entry made for a chat whose first message is `firstMessage`. */
  function NewEntry(chatId: string, firstMessage: string, now: nat): ChatHistory {
    ChatHistory(chatId, Truncate(firstMessage, TitleLength), Truncate(firstMessage, PreviewLength), now)
  }

  /** `prev.map(c => c.id === chatId ? { ...c, timestamp: now } : c)`. */
  function Bumped(hs: seq<ChatHistory>, chatId: string, now: nat): (r: seq<ChatHistory>)
    ensures |r| == |hs|
  {
    seq(|hs|, i requires 0 <= i < |hs| => if hs[i].id == chatId then hs[i].(timestamp := now) else hs[i])
  }

  /** The updater `updateChatHistory` hands to `setChatHistories`. */
  function Upsert(hs: seq<ChatHistory>, chatId: string, firstMessage: string, now: nat): seq<ChatHistory> {
    if Find(hs, chatId).Some? then Bumped(hs, chatId, now)
    else [NewEntry(chatId, firstMessage, now)] + hs
  }

  /** A known chat keeps its place, id, title and preview; only its timestamp moves to `now`,
      and every other entry is left as it was. */
  lemma UpsertExisting(hs: seq<ChatHistory>, chatId: string, firstMessage: string, now: nat)
    requires HasId(hs, chatId)
    ensures var r := Upsert(hs, chatId, firstMessage, now);
            |r| == |hs|
            && forall i :: 0 <= i < |hs| ==>
                 r[i].id == hs[i].id && r[i].title == hs[i].title && r[i].preview == hs[i].preview
                 && r[i].timestamp == (if hs[i].id == chatId then now else hs[i].timestamp)
  {
  }

  /** A new chat is put in front of the unchanged list. */
  lemma UpsertAbsent(hs: seq<ChatHistory>, chatId: string, firstMessage: string, now: nat)
    requires !HasId(hs, chatId)
    ensures var r := Upsert(hs, chatId, firstMessage, now);
            |r| == |hs| + 1 && r[1..] == hs
            && r[0] == ChatHistory(chatId, Truncate(firstMessage, TitleLength), Truncate(firstMessage, PreviewLength), now)
  {
    var r := Upsert(hs, chatId, firstMessage, now);
    assert r == [NewEntry(chatId, firstMessage, now)] + hs;
  }

  /** The title is the message itself when it has at most 30 characters, and otherwise its first
      30 characters followed by "..."; so it never exceeds 33 characters. */
  lemma TitleTruncation(chatId: string, firstMessage: string, now: nat)
    ensures var title := NewEntry(chatId, firstMessage, now).title;
            |title| <= 33
            && (|firstMessage| <= 30 ==> title == firstMessage)
            && (|firstMessage| > 30 ==> title == firstMessage[..30] + "...")
  {
    var title := NewEntry(chatId, firstMessage, now).title;
    if |firstMessage| > 30 {
      assert title == title[..30] + title[30..];
    }
  }

  /** The preview is the message itself when it has at most 50 characters, and otherwise its
      first 50 characters followed by "..."; so it never exceeds 53 characters. */
  lemma PreviewTruncation(chatId: string, firstMessage: string, now: nat)
    ensures var preview := NewEntry(chatId, firstMessage, now).preview;
            |preview| <= 53
            && (|firstMessage| <= 50 ==> preview == firstMessage)
            && (|firstMessage| > 50 ==> preview == firstMessage[..50] + "...")
  {
    var preview := NewEntry(chatId, firstMessage, now).preview;
    if |firstMessage| > 50 {
      assert preview == preview[..50] + preview[50..];
    }
  }

  /** The upserted chat is listed, and ids that were distinct stay distinct. */
  lemma UpsertKeepsIdsDistinct(hs: seq<ChatHistory>, chatId: string, firstMessage: string, now: nat)
    requires DistinctIds(hs)
    ensures HasId(Upsert(hs, chatId, firstMessage, now), chatId)
    ensures DistinctIds(Upsert(hs, chatId, firstMessage, now))
  {
    var r := Upsert(hs, chatId, firstMessage, now);
    if HasId(hs, chatId) {
      var i :| 0 <= i < |hs| && hs[i].id == chatId;
      assert r[i].id == chatId;
    } else {
      assert r[0].id == chatId;
      assert forall i :: 1 <= i < |r| ==> r[i] == hs[i - 1];
    }
  }

  /** Upserting the same chat twice is upserting it once at the later time: the second call
      never adds an entry and changes only the timestamp. */
  lemma UpsertTwice(hs: seq<ChatHistory>, chatId: string, first: string, second: string, t1: nat, t2: nat)
    ensures Upsert(Upsert(hs, chatId, first, t1), chatId, second, t2) == Upsert(hs, chatId, first, t2)
  {
    var once := Upsert(hs, chatId, first, t1);
    assert HasId(once, chatId) by {
      if !HasId(hs, chatId) {
        assert once[0].id == chatId;
      } else {
        var i :| 0 <= i < |hs| && hs[i].id == chatId;
        assert once[i].id == chatId;
      }
    }
    if !HasId(hs, chatId) {
      assert forall i :: 1 <= i < |once| ==> once[i] == hs[i - 1];
      assert Bumped(once, chatId, t2) == [NewEntry(chatId, first, t2)] + hs;
    }
  }

  /** A new chat whose first message has at most 30 characters is listed first under that
      message, unshortened, as both its title and its preview. */
  lemma FirstShortMessageIndexed(hs: seq<ChatHistory>, chatId: string, firstMessage: string, now: nat)
    requires !HasId(hs, chatId) && |firstMessage| <= TitleLength
    ensures Upsert(hs, chatId, firstMessage, now) == [ChatHistory(chatId, firstMessage, firstMessage, now)] + hs
  {
    UpsertAbsent(hs, chatId, firstMessage, now);
    var r := Upsert(hs, chatId, firstMessage, now);
    assert r == [r[0]] + r[1..];
  }

  // ================================================================ the stored list

  /** The history-load effect of the page: nothing when signed out, the stored list when the key
      holds one, nothing when the key holds nothing, and the previous list when the stored text
      does not parse (the exception is caught and logged). */
  function LoadedHistories(prev: seq<ChatHistory>, items: map<string, string>, email: Option<string>): seq<ChatHistory> {
    if email.None? then []
    else
      var saved := Storage.Get(items, HistoryKey(email.value));
      if Storage.Truthy(saved) then DecodeHistories(saved.value).GetOr(prev) else []
  }

  /** The history-save effect: the whole list under the user's key, skipped when signed out or
      when the list is empty. */
  function SavedHistories(items: map<string, string>, email: Option<string>, hs: seq<ChatHistory>): map<string, string> {
    if email.None? || hs == [] then items
    else items[HistoryKey(email.value) := EncodeHistories(hs)]
  }

  lemma LoadedHistoriesCases(prev: seq<ChatHistory>, items: map<string, string>, email: Option<string>)
    ensures email.None? ==> LoadedHistories(prev, items, email) == []
    ensures email.Some? && HistoryKey(email.value) !in items ==> LoadedHistories(prev, items, email) == []
    ensures email.Some? && HistoryKey(email.value) in items ==>
              var d := DecodeHistories(items[HistoryKey(email.value)]);
              LoadedHistories(prev, items, email) == (if d.Some? then d.value else if items[HistoryKey(email.value)] == [] then [] else prev)
  {
  }

  /** Saving writes nothing when signed out or when the list is empty, and otherwise writes only
      the user's history key. */
  lemma SavedHistoriesTouchesOneKey(items: map<string, string>, email: Option<string>, hs: seq<ChatHistory>)
    ensures email.None? || hs == [] ==> SavedHistories(items, email, hs) == items
    ensures forall k :: (email.None? || k != HistoryKey(email.value)) ==>
              Storage.Get(SavedHistories(items, email, hs), k) == Storage.Get(items, k)
  {
  }

  /** A saved list is the one the next load gives back. */
  lemma LoadAfterSave(prev: seq<ChatHistory>, items: map<string, string>, email: Option<string>, hs: seq<ChatHistory>)
    requires email.Some? && hs != []
    ensures LoadedHistories(prev, SavedHistories(items, email, hs), email) == hs
  {
    HistoriesCodecRoundTrip(hs);
  }

  /** One user's saved list never changes what another user loads. */
  lemma SaveIsPerUser(prev: seq<ChatHistory>, items: map<string, string>, a: string, b: string, hs: seq<ChatHistory>)
    requires a != b
    ensures LoadedHistories(prev, SavedHistories(items, Some(a), hs), Some(b)) == LoadedHistories(prev, items, Some(b))
  {
    if HistoryKey(a) == HistoryKey(b) {
      HistoryKeyInjective(a, b);
    }
  }

  // ================================================================ the page

  /** The page's state; `store` is the local storage it shares with the chat widget and the
      navigation bar. Each effect is an event method. */
  class Page {
    const store: Storage.LocalStorage
    var triggerQuestion: string
    var currentChatId: string
    var chatHistories: seq<ChatHistory>
    var currentUserEmail: Option<string>
    var hasStartedChat: bool

    constructor (store: Storage.LocalStorage)
      ensures this.store == store
      ensures triggerQuestion == "" && currentChatId == "default" && chatHistories == []
      ensures currentUserEmail == None && !hasStartedChat
    {
      this.store := store;
      triggerQuestion := "";
      currentChatId := "default";
      chatHistories := [];
      currentUserEmail := None;
      hasStartedChat := false;
    }

    /** The URL effect: a `chatId` parameter opens that chat; without one a new chat starts. */
    method ChatIdFromUrl(chatIdParam: Option<string>, now: nat)
      modifies this`currentChatId, this`hasStartedChat
      ensures Storage.Truthy(chatIdParam) ==> currentChatId == chatIdParam.value && hasStartedChat
      ensures !Storage.Truthy(chatIdParam) ==> currentChatId == FreshChatId(now) && !hasStartedChat
    {
      if Storage.Truthy(chatIdParam) {
        currentChatId := chatIdParam.value;
        hasStartedChat := true;
      } else {
        currentChatId := FreshChatId(now);
        hasStartedChat := false;
      }
    }

    /** The user-change effect: a different identity empties the list and starts a new chat. */
    method UserChanged(session: Option<string>, now: nat)
      modifies this`chatHistories, this`currentChatId, this`currentUserEmail, this`hasStartedChat
      ensures currentUserEmail == Storage.SessionEmail(session)
      ensures old(currentUserEmail) != Storage.SessionEmail(session) ==>
                chatHistories == [] && currentChatId == FreshChatId(now) && !hasStartedChat
      ensures old(currentUserEmail) == Storage.SessionEmail(session) ==>
                chatHistories == old(chatHistories) && currentChatId == old(currentChatId)
                && hasStartedChat == old(hasStartedChat)
    {
      var newEmail := Storage.SessionEmail(session);
      if currentUserEmail != newEmail {
        chatHistories := [];
        currentChatId := FreshChatId(now);
        currentUserEmail := newEmail;
        hasStartedChat := false;
      }
    }

    /** The history-load effect, run when the session's address changes. */
    method LoadChatHistories(session: Option<string>)
      modifies this`chatHistories
      ensures chatHistories == LoadedHistories(old(chatHistories), store.items, Storage.SessionEmail(session))
    {
      var email := Storage.SessionEmail(session);
      if email.None? {
        chatHistories := [];
        return;
      }
      var saved := Storage.Get(store.items, HistoryKey(email.value));
      if Storage.Truthy(saved) {
        var histories := DecodeHistories(saved.value);
        if histories.Some? {
          chatHistories := histories.value;
        }
      } else {
        chatHistories := [];
      }
    }

    /** The history-save effect, run whenever the list or the session changes. */
    method SaveChatHistories(session: Option<string>)
      modifies store
      ensures store.items == SavedHistories(old(store.items), Storage.SessionEmail(session), chatHistories)
    {
      var email := Storage.SessionEmail(session);
      if email.None? {
        return;
      }
      if |chatHistories| > 0 {
        store.SetItem(HistoryKey(email.value), EncodeHistories(chatHistories));
      }
    }

    /** `handleCardClick`: a suggestion card starts a new chat with its question. */
    method HandleCardClick(question: string, now: nat)
      modifies this`currentChatId, this`triggerQuestion, this`hasStartedChat
      ensures currentChatId == FreshChatId(now) && triggerQuestion == question && hasStartedChat
    {
      currentChatId := FreshChatId(now);
      triggerQuestion := question;
      hasStartedChat := true;
    }

    /** The timer `handleCardClick` sets: the trigger is cleared again. */
    method ClearTriggerQuestion()
      modifies this`triggerQuestion
      ensures triggerQuestion == ""
    {
      triggerQuestion := "";
    }

    /** `updateChatHistory`, the widget's `onMessageSent` callback: the chat counts as started,
        and a signed-in user's list gets the chat upserted. */
    method UpdateChatHistory(session: Option<string>, chatId: string, firstMessage: string, now: nat)
      modifies this`hasStartedChat, this`chatHistories
      ensures hasStartedChat
      ensures Storage.SessionEmail(session).None? ==> chatHistories == old(chatHistories)
      ensures Storage.SessionEmail(session).Some? ==> chatHistories == Upsert(old(chatHistories), chatId, firstMessage, now)
    {
      hasStartedChat := true;
      if Storage.SessionEmail(session).None? {
        return;
      }
      chatHistories := Upsert(chatHistories, chatId, firstMessage, now);
    }
  }
}
