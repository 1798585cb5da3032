// The chat widget: per-user transcripts in local storage, the send path and the card-trigger path.

module FinanceChatComponent {
  import opened Wrappers
  import Json
  import Text
  import Storage
  import Knowledge
  import Matcher

  datatype Sender = User | Bot

  /** One chat bubble; `time` is optional, as in the stored records. */
  datatype Message = Message(sender: Sender, text: string, time: Option<nat>)

  /** What the widget reports through `onMessageSent(chatId, firstMessage)`. */
  datatype Notification = Notification(chatId: string, firstMessage: string)

  /** The delay the bot's reply is stamped with, in milliseconds. */
  const ReplyDelay: nat := 200

  // ================================================================ JSON form

  function SenderName(s: Sender): string {
    match s
    case User => "user"
    case Bot => "bot"
  }

  function SenderFromName(name: string): (r: Option<Sender>)
    ensures r.Some? ==> SenderName(r.value) == name
  {
    if name == "user" then Some(User)
    else if name == "bot" then Some(Bot)
    else None
  }

  /** `JSON.stringify` drops a missing `time`. */
  function MessageToJson(m: Message): Json.Value {
    Json.Object(
      [Json.Member("sender", Json.Str(SenderName(m.sender))), Json.Member("text", Json.Str(m.text))]
      + (if m.time.Some? then [Json.Member("time", Json.Number(m.time.value))] else []))
  }

  function MessageFromJson(v: Json.Value): Option<Message> {
    var time := Json.Field(v, "time");
    match (Json.AsString(Json.Field(v, "sender")), Json.AsString(Json.Field(v, "text")))
    case (Some(name), Some(text)) =>
      (match SenderFromName(name)
       case Some(sender) =>
         if time.None? then Some(Message(sender, text, None))
         else if time.value.Number? then Some(Message(sender, text, Some(time.value.n)))
         else None
       case None => None)
    case _ => None
  }

  lemma MessageRoundTrip(m: Message)
    ensures MessageFromJson(MessageToJson(m)) == Some(m)
  {
    var ms := MessageToJson(m).members;
    assert ms[0].key[0] == 's' && ms[1].key[0] == 't' && ms[1].key[1] == 'e';
    assert |ms| == 3 ==> ms[2].key[0] == 't' && ms[2].key[1] == 'i';
    Json.LookupAt(ms, 0);
    Json.LookupAt(ms, 1);
    if m.time.Some? {
      Json.LookupAt(ms, 2);
    } else {
      assert Json.Lookup(ms, "time").None? by {
        assert ms[0].key != "time" && ms[1].key != "time";
      }
    }
    match m.sender
    case User =>
    case Bot =>
      assert SenderName(m.sender) != "user";
  }

  lemma MessagesRoundTrip()
    ensures forall m :: MessageFromJson(MessageToJson(m)) == Some(m)
  {
    forall m: Message
      ensures MessageFromJson(MessageToJson(m)) == Some(m)
    {
      MessageRoundTrip(m);
    }
  }

  function EncodeMessages(ms: seq<Message>): (r: string)
    ensures r != []
  {
    Json.Stringify(Json.ArrayOf(ms, MessageToJson))
  }

  function DecodeMessages(raw: string): Option<seq<Message>> {
    match Json.Parse(raw)
    case Some(v) => Json.FromArray(v, MessageFromJson)
    case None => None
  }

  lemma MessagesCodecRoundTrip(ms: seq<Message>)
    ensures DecodeMessages(EncodeMessages(ms)) == Some(ms)
  {
    Json.ParseStringify(Json.ArrayOf(ms, MessageToJson));
    MessagesRoundTrip();
    Json.ArrayRoundTrip(ms, MessageToJson, MessageFromJson);
  }

  // ================================================================ transcript keys

  /** `financeChat-${email}-${chatId}`. */
  function TranscriptKey(email: string, chatId: string): (k: string)
    ensures |k| == 13 + |email| + |chatId|
  {
    "financeChat-" + email + "-" + chatId
  }

  /** One user's transcripts never share a key. */
  lemma TranscriptKeyInjective(email: string, a: string, b: string)
    requires TranscriptKey(email, a) == TranscriptKey(email, b)
    ensures a == b
  {
    var k := TranscriptKey(email, a);
    var n := 13 + |email|;
    assert a == k[n..];
    assert b == TranscriptKey(email, b)[n..];
  }

  /** The key does not separate the address from the chat id: two users can address the same record. */
  lemma TranscriptKeysOfTwoUsersCanCoincide()
    ensures TranscriptKey("a", "b-c") == TranscriptKey("a-b", "c")
  {
    assert "financeChat-" + "a" + "-" + "b-c" == "financeChat-a-b-c";
    assert "financeChat-" + "a-b" + "-" + "c" == "financeChat-a-b-c";
  }

  // ================================================================ load and save

  /** The load effect: nothing when signed out, when there is no record or when it does not decode. */
  function LoadTranscript(items: map<string, string>, email: Option<string>, chatId: string): seq<Message> {
    if email.None? then []
    else
      var raw := Storage.Get(items, TranscriptKey(email.value, chatId));
      if Storage.Truthy(raw) then DecodeMessages(raw.value).GetOr([]) else []
  }

  /** The save effect: the whole list under the transcript key, skipped when signed out or empty. */
  function SaveTranscript(items: map<string, string>, email: Option<string>, chatId: string, ms: seq<Message>)
    : map<string, string>
  {
    if email.None? || ms == [] then items
    else items[TranscriptKey(email.value, chatId) := EncodeMessages(ms)]
  }

  lemma LoadTranscriptCases(items: map<string, string>, email: Option<string>, chatId: string)
    ensures email.None? ==> LoadTranscript(items, email, chatId) == []
    ensures email.Some? && TranscriptKey(email.value, chatId) !in items ==> LoadTranscript(items, email, chatId) == []
    ensures email.Some? && TranscriptKey(email.value, chatId) in items ==>
              var raw := items[TranscriptKey(email.value, chatId)];
              LoadTranscript(items, email, chatId) == (if DecodeMessages(raw).Some? then DecodeMessages(raw).value else [])
  {
    if email.Some? && TranscriptKey(email.value, chatId) in items {
      var raw := items[TranscriptKey(email.value, chatId)];
      if raw == [] {
        assert Json.Parse(raw).None?;
      }
    }
  }

  /** Saving touches only the one transcript key. */
  lemma SaveTouchesOneKey(items: map<string, string>, email: Option<string>, chatId: string, ms: seq<Message>)
    ensures email.None? || ms == [] ==> SaveTranscript(items, email, chatId, ms) == items
    ensures forall k :: (email.None? || k != TranscriptKey(email.value, chatId)) ==>
              Storage.Get(SaveTranscript(items, email, chatId, ms), k) == Storage.Get(items, k)
  {
  }

  /** What one session saves, the next load of the same chat gives back. */
  lemma LoadAfterSave(items: map<string, string>, email: Option<string>, chatId: string, ms: seq<Message>)
    requires email.Some?
    ensures LoadTranscript(SaveTranscript(items, email, chatId, ms), email, chatId) ==
            (if ms == [] then LoadTranscript(items, email, chatId) else ms)
  {
    if ms != [] {
      MessagesCodecRoundTrip(ms);
    }
  }

  // ================================================================ sending

  /** A question and its reply, stamped with the two clock readings. */
  function Exchange(question: string, reply: string, now1: nat, now2: nat): (r: seq<Message>)
    ensures |r| == 2 && r[0].sender == User && r[1].sender == Bot
    ensures r[0].text == question && r[1].text == reply
  {
    [Message(User, question, Some(now1)), Message(Bot, reply, Some(now2 + ReplyDelay))]
  }

  /** The widget state `handleSend` changes, and what it reports. */
  datatype SendOutcome = SendOutcome(messages: seq<Message>, input: string, sent: Option<Notification>)

  /** `handleSend` for signed-in address `email` (if any), in chat `chatId`, with the store `items`. */
  function Send(messages: seq<Message>, input: string, email: Option<string>, chatId: string,
                items: map<string, string>, responder: Matcher.Responder, now1: nat, now2: nat): SendOutcome
  {
    var trimmed := Text.Trim(input);
    if trimmed == [] then SendOutcome(messages, input, None)
    else
      var reply := Matcher.GenerateResponse(responder, items, trimmed);
      var first := email.Some? && messages == [];
      SendOutcome(messages + Exchange(trimmed, reply, now1, now2), "",
                  if first then Some(Notification(chatId, trimmed)) else None)
  }

  /** A blank input changes nothing and reports nothing. */
  lemma SendIgnoresBlank(messages: seq<Message>, input: string, email: Option<string>, chatId: string,
                         items: map<string, string>, responder: Matcher.Responder, now1: nat, now2: nat)
    requires Text.AllWhiteSpace(input)
    ensures Send(messages, input, email, chatId, items, responder, now1, now2) == SendOutcome(messages, input, None)
  {
    Text.TrimEmptyIff(input);
  }

  /** Otherwise exactly two messages are appended, the trimmed question and its reply, and the box is cleared. */
  lemma SendAppendsExchange(messages: seq<Message>, input: string, email: Option<string>, chatId: string,
                            items: map<string, string>, responder: Matcher.Responder, now1: nat, now2: nat)
    requires !Text.AllWhiteSpace(input)
    ensures var r := Send(messages, input, email, chatId, items, responder, now1, now2);
            var question := Text.Trim(input);
            |r.messages| == |messages| + 2
            && r.messages[..|messages|] == messages
            && r.messages[|messages|] == Message(User, question, Some(now1))
            && r.messages[|messages| + 1] == Message(Bot, Matcher.GenerateResponse(responder, items, question), Some(now2 + ReplyDelay))
            && r.input == ""
  {
    Text.TrimEmptyIff(input);
    var r := Send(messages, input, email, chatId, items, responder, now1, now2);
    assert r.messages == messages + Exchange(Text.Trim(input), Matcher.GenerateResponse(responder, items, Text.Trim(input)), now1, now2);
  }

  /** The callback fires exactly for a signed-in user's first exchange, with the trimmed question. */
  lemma SendNotifiesFirstExchange(messages: seq<Message>, input: string, email: Option<string>, chatId: string,
                                  items: map<string, string>, responder: Matcher.Responder, now1: nat, now2: nat)
    ensures var r := Send(messages, input, email, chatId, items, responder, now1, now2);
            (r.sent.Some? <==> !Text.AllWhiteSpace(input) && email.Some? && messages == [])
            && (r.sent.Some? ==> r.sent.value == Notification(chatId, Text.Trim(input)))
  {
    Text.TrimEmptyIff(input);
  }

  // ================================================================ the component

  /** The widget's state; `store` is the page's shared local storage. The widget seeds the store
      with, and falls back to, the built-in knowledge base, and answers a non-match with the fixed
      fallback text: `responder` holds both, and is always `Matcher.BuiltInResponder()`. */
  class FinanceChat {
    const store: Storage.LocalStorage
    const responder: Matcher.Responder
    var messages: seq<Message>
    var input: string
    var currentUserEmail: Option<string>

    constructor (store: Storage.LocalStorage)
      ensures this.store == store && responder == Matcher.BuiltInResponder()
      ensures messages == [] && input == "" && currentUserEmail == None
    {
      this.store := store;
      responder := Matcher.BuiltInResponder();
      messages := [];
      input := "";
      currentUserEmail := None;
    }

    /** The mount effect seeds the knowledge base. */
    method Mount()
      modifies store
      ensures store.items == Knowledge.Initialized(old(store.items), responder.builtIn)
    {
      Knowledge.InitializeKnowledgeBase(store, responder.builtIn);
    }

    /** The input box's change handler. */
    method SetInput(text: string)
      modifies this`input
      ensures input == text
    {
      input := text;
    }

    /** The user-change effect: a different identity clears the conversation. */
    method UserChanged(session: Option<string>)
      modifies this`messages, this`currentUserEmail
      ensures currentUserEmail == Storage.SessionEmail(session)
      ensures messages == (if old(currentUserEmail) == Storage.SessionEmail(session) then old(messages) else [])
    {
      var newEmail := Storage.SessionEmail(session);
      if currentUserEmail != newEmail {
        messages := [];
        currentUserEmail := newEmail;
      }
    }

    /** The load effect, run when the chat id or the session changes. */
    method LoadMessages(session: Option<string>, chatId: string)
      modifies this`messages
      ensures messages == LoadTranscript(store.items, Storage.SessionEmail(session), chatId)
    {
      var email := Storage.SessionEmail(session);
      if email.None? {
        messages := [];
        return;
      }
      var raw := Storage.Get(store.items, TranscriptKey(email.value, chatId));
      if Storage.Truthy(raw) {
        var decoded := DecodeMessages(raw.value);
        if decoded.Some? {
          messages := decoded.value;
        } else {
          messages := [];
        }
      } else {
        messages := [];
      }
    }

    /** The save effect, run whenever the messages change. */
    method SaveMessages(session: Option<string>, chatId: string)
      modifies store
      ensures store.items == SaveTranscript(old(store.items), Storage.SessionEmail(session), chatId, messages)
    {
      var email := Storage.SessionEmail(session);
      if email.None? || |messages| == 0 {
        return;
      }
      store.SetItem(TranscriptKey(email.value, chatId), EncodeMessages(messages));
    }

    /** The trigger effect: a non-blank card question replaces the conversation with the question
        (as given, untrimmed) and its reply, and is always reported. `now1` and `now2` are the
        two clock readings. */
    method TriggerQuestion(trigger: string, chatId: string, now1: nat, now2: nat) returns (sent: Option<Notification>)
      modifies this`messages
      ensures Text.Trim(trigger) == [] ==> messages == old(messages) && sent == None
      ensures Text.Trim(trigger) != [] ==>
                messages == [Message(User, trigger, Some(now1)),
                             Message(Bot, Matcher.GenerateResponse(responder, old(store.items), trigger), Some(now2 + ReplyDelay))]
                && sent == Some(Notification(chatId, trigger))
    {
      sent := None;
      if trigger != [] && Text.Trim(trigger) != [] {
        var userMsg := Message(User, trigger, Some(now1));
        var botMsg := Message(Bot, Matcher.GenerateResponse(responder, store.items, trigger), Some(now2 + ReplyDelay));
        messages := [userMsg, botMsg];
        sent := Some(Notification(chatId, trigger));
      }
    }

    /** `handleSend`: the step is `Send` over the state before the call. */
    method HandleSend(session: Option<string>, chatId: string, now1: nat, now2: nat) returns (sent: Option<Notification>)
      modifies this`messages, this`input
      ensures var step := Send(old(messages), old(input), Storage.SessionEmail(session), chatId, old(store.items), responder, now1, now2);
              messages == step.messages && input == step.input && sent == step.sent
    {
      var step := Send(messages, input, Storage.SessionEmail(session), chatId, store.items, responder, now1, now2);
      messages, input, sent := step.messages, step.input, step.sent;
    }
  }
}
