# Finance chat widget — a Dafny model of its response engine and chat persistence

This project models the logic of a small Next.js personal-finance chat widget. The model has five parts:

- **Knowledge store** (`knowledge.dfy`, module `Knowledge`). It holds the 27-entry built-in catalogue
  (`FINANCIAL_KNOWLEDGE_BASE`). It seeds the catalogue into `localStorage` under `financeKnowledgeBase` and
  re-seeds it when the stored value's `length` differs. It also reads the catalogue back, falling back to the
  built-in one.
- **Matcher** (`matcher.dfy`, module `Matcher`). `generateResponse` lowercases the input. It keeps the entries
  that have some keyword contained in that text, sorts them stably by difficulty (easy < medium < advanced) and
  answers with the first one's response, or with a fixed fallback text when nothing matched. The sort is the
  insertion sort `SortByDifficulty`, proved sorted, a permutation, and stable.
- **Chat widget** (`finance_chat.dfy`, module `FinanceChatComponent`). Transcripts are stored under
  `financeChat-${email}-${chatId}`. The class `FinanceChat` has one event method per React effect: mount,
  user change, load, save and triggered question. It also has `handleSend`, which appends the trimmed question
  and its reply and reports the first exchange of a signed-in user through `onMessageSent`.
- **Page** (`page.dfy`, module `AssistantPage`). `updateChatHistory` upserts an entry. For a known chat it bumps
  the timestamp in place. For a new chat it prepends an entry whose title and preview are cut to 30 and 50
  characters plus `"..."`. The class `Page` holds the chat-id state machine: an id from the URL or a fresh
  `chat-${now}`, a reset on identity change, and a new id on a card click. It also has the history load and save
  effects under `chatHistories-${email}`.
- **Navigation bar** (`layout.dfy`, module `Navbar`). It has the case-insensitive history search
  (`filteredChats`) and `handleDeleteChat`, which rewrites the list and removes the transcript. Its history
  load is gated on the user.

Supporting modules:

- `ChatHistories` (`history.dfy`): the history record, its storage key, `find` by id, and its JSON form.
- `Lists` (`lists.dfy`): `Array.prototype.filter` with its specification, shared by the matcher, the page and the
  navigation bar.
- `Storage` (`storage.dfy`): `localStorage` as a class over a `map<string, string>` that every component
  shares.
- `Text` (`text.dfy`): ASCII `toLowerCase`, `includes`, `trim` and decimal numbers.
- `Json` (`json.dfy`): the JSON that `JSON.stringify` writes and `JSON.parse` reads. A failed parse is `None`.
  Its round trip is proved.
- `Wrappers` (`wrappers.dfy`): `Option`.

Inputs from outside the core are parameters:

- The signed-in identity is `Option<string>`. `Storage.SessionEmail` turns an empty address into "signed out",
  as `session?.user?.email || null` does.
- Every `Date.now()` reading is a `nat` argument (`now`, `now1`, `now2`).
- The URL's `chatId` parameter is an `Option<string>`.
- The `onMessageSent` callback is the `Notification` a method returns.

Each React effect is an event method that the caller invokes; the order in which React runs the effects is
not modelled.

The source's handlers map to these members: `generateResponse` is `Matcher.GenerateResponse` (over
`Matcher.SelectResponse`), `handleSend` is `FinanceChatComponent.Send`, `updateChatHistory` is
`AssistantPage.Upsert`, `handleDeleteChat` is `Navbar.DeleteChat`, and `filteredChats` is `Navbar.Search`. Each
class method performs the corresponding function on its fields.

Points of the code worth knowing, each proved or stated in the model:

- **Keywords are not lowercased.** Only the input is lowercased (`FinanceChat.tsx:234,238`). A stored keyword
  with a capital letter can never match; `Matcher.UpperCaseKeywordNeverMatches` proves this. All built-in keywords are lower case.
- **Opening a chat from the URL always counts as started.** The page sets `hasStartedChat` for any URL id,
  whether or not the chat has messages (`page.tsx:28-30`).
- **Upsert is persisted by the page's save effect.** That effect writes only a non-empty list
  (`page.tsx:77`). An empty list is written only by the navigation bar's delete (`layout.tsx:99`).
- **The two history loads treat a missing key differently.** When the key holds nothing, the page's load empties
  the list (`page.tsx:63-65`), but the sidebar's load keeps the previous list (`layout.tsx:64`). When the text
  does not parse, both keep the previous list, because the exception is caught after the state was left alone.
- **The card-trigger path differs from `handleSend`.** It sends the question untrimmed. It also reports it
  through `onMessageSent` whether or not a user is signed in (`FinanceChat.tsx:326-333`). The page's
  `updateChatHistory` then marks the chat as started (`page.tsx:94`) but, when nobody is signed in, leaves the
  history list alone (`page.tsx:96`).
- **Re-seeding compares counts only.** `initializeKnowledgeBase` re-seeds only when the stored value's `length`
  differs from 27. A stored catalogue with 27 edited entries is kept (`Knowledge.InitializeComparesLength`).
  A stored `null` throws inside the `try` and is kept too.
- **Transcript keys can collide across users.** `financeChat-${email}-${chatId}` does not separate the address
  from the id. Address `a` with chat `b-c` and address `a-b` with chat `c` name the same record
  (`FinanceChatComponent.TranscriptKeysOfTwoUsersCanCoincide`). For one address, distinct chats never share a
  key (`FinanceChatComponent.TranscriptKeyInjective`).

## Model

| member | source | states |
|---|---|---|
| `Knowledge.FinancialKnowledgeBase` | components/finance-chat/FinanceChat.tsx:27-195 | the built-in catalogue has 27 entries |
| `Knowledge.DifficultyNameRoundTrip` | components/finance-chat/FinanceChat.tsx:23 | each difficulty is stored under its name and read back as itself |
| `Knowledge.ItemRoundTrip` | components/finance-chat/FinanceChat.tsx:20-25 | a knowledge entry written as JSON reads back as the same entry |
| `Knowledge.CatalogueRoundTrip` | components/finance-chat/FinanceChat.tsx:204 | a stringified catalogue parses back to the same catalogue |
| `Knowledge.DecodeCatalogue` | components/finance-chat/FinanceChat.tsx:208-209 | a decoded catalogue's parsed `length` is its entry count |
| `Knowledge.InitializeKnowledgeBase` | components/finance-chat/FinanceChat.tsx:200-217 | the store after the call is `Initialized` of the store before it |
| `Knowledge.InitializedTouchesOnlyCatalogue` | components/finance-chat/FinanceChat.tsx:200-217 | seeding leaves the store as it was or writes the built-in catalogue; no other key changes; the catalogue key is then present |
| `Knowledge.InitializeSeedsMissing` | components/finance-chat/FinanceChat.tsx:202-205 | an absent (or empty) key ends up holding the built-in catalogue |
| `Knowledge.InitializeComparesLength` | components/finance-chat/FinanceChat.tsx:207-212 | a stored catalogue is kept exactly when its entry count equals the built-in count, whatever its content, and is overwritten otherwise |
| `Knowledge.InitializeKeepsUnreadable` | components/finance-chat/FinanceChat.tsx:208-216 | stored text that fails to parse, or parses to `null`, is left untouched (the exception is swallowed) |
| `Knowledge.InitializeIdempotent` | components/finance-chat/FinanceChat.tsx:200-217 | running the initialisation twice leaves the same store as running it once |
| `Knowledge.GetKnowledgeBaseCases` | components/finance-chat/FinanceChat.tsx:219-227 | the read catalogue is the stored one when the key is present and parses, and the built-in one when it is absent or unreadable |
| `Knowledge.GetKnowledgeBaseOfStored` | components/finance-chat/FinanceChat.tsx:221-222 | a catalogue written to the key is exactly the one read back |
| `Knowledge.KnowledgeBaseAfterInitialize` | components/finance-chat/FinanceChat.tsx:200-227 | after seeding, the matcher reads the built-in catalogue or a stored one with the same entry count |
| `Matcher.MatchingItemsSpec` | components/finance-chat/FinanceChat.tsx:237-239 | the filtered list holds, in catalogue order, every entry with some keyword contained in the lowercased text, as often as the catalogue lists it, and no other entry |
| `Matcher.SortByDifficulty` | components/finance-chat/FinanceChat.tsx:243-246 | the sorted list is ordered by difficulty rank and is a permutation of its input |
| `Matcher.SortIsStable` | components/finance-chat/FinanceChat.tsx:243-246 | within each difficulty the sorted list keeps the original order (a stable sort) |
| `Matcher.FirstOfSortedMatches` | components/finance-chat/FinanceChat.tsx:241-249 | the head of the sorted matches is a best match of the catalogue |
| `Matcher.ReplyIsBestMatch` | components/finance-chat/FinanceChat.tsx:232-250 | when some entry matches, the reply is the response of a matching entry of minimal difficulty that is the earliest such entry in the catalogue |
| `Matcher.ReplyIsFallback` | components/finance-chat/FinanceChat.tsx:241-253 | when no keyword of any entry is contained in the lowercased text, the reply is exactly the fallback text |
| `Matcher.BestMatchUnique` | components/finance-chat/FinanceChat.tsx:243-249 | the best match is unique, so the reply is determined by the catalogue and the text |
| `Matcher.ReplyIgnoresCase` | components/finance-chat/FinanceChat.tsx:234-238 | inputs that differ only in letter case get the same reply |
| `Matcher.UpperCaseKeywordNeverMatches` | components/finance-chat/FinanceChat.tsx:238 | a keyword containing a capital letter is never contained in lowercased input |
| `Text.LowerProperties` | components/finance-chat/FinanceChat.tsx:234 | lowercasing keeps the length, leaves no capitals, is idempotent and fixes text without capitals |
| `Text.LowerEqualIff` | components/finance-chat/FinanceChat.tsx:234 | two texts lowercase alike exactly when they differ only in letter case |
| `Text.ContainsIff` | components/finance-chat/FinanceChat.tsx:238 | `includes` holds exactly when the piece occurs at some index |
| `Text.TrimSpec` | components/finance-chat/FinanceChat.tsx:338 | `trim` keeps the middle slice between two all-white-space ends, and the result neither starts nor ends with white space |
| `Text.TrimEmptyIff` | components/finance-chat/FinanceChat.tsx:338-339 | a text trims to nothing exactly when it is all white space |
| `Text.NatToStringInjective` | app/page.tsx:43 | distinct millisecond readings print as distinct decimal strings |
| `Json.ParseStringify` | components/finance-chat/FinanceChat.tsx:318 | parsing what `JSON.stringify` wrote gives the value back |
| `Storage.LocalStorage.SetItem` | components/finance-chat/FinanceChat.tsx:318 | `setItem` overwrites one key and nothing else |
| `Storage.LocalStorage.RemoveItem` | app/layout.tsx:102 | `removeItem` deletes one key and nothing else; deleting an absent key changes nothing |
| `FinanceChatComponent.MessageRoundTrip` | components/finance-chat/FinanceChat.tsx:8 | a message, with or without its optional time, reads back as itself from JSON |
| `FinanceChatComponent.MessagesCodecRoundTrip` | components/finance-chat/FinanceChat.tsx:299-318 | a stringified transcript parses back to the same messages |
| `FinanceChatComponent.TranscriptKeyInjective` | components/finance-chat/FinanceChat.tsx:317 | for one address, distinct chat ids have distinct transcript keys |
| `FinanceChatComponent.TranscriptKeysOfTwoUsersCanCoincide` | components/finance-chat/FinanceChat.tsx:299 | two different address/chat pairs can share one transcript key |
| `FinanceChatComponent.LoadTranscriptCases` | components/finance-chat/FinanceChat.tsx:292-310 | loading yields nothing when signed out, when there is no record or when the record does not decode, and otherwise yields the stored list |
| `FinanceChatComponent.SaveTouchesOneKey` | components/finance-chat/FinanceChat.tsx:313-322 | saving is a no-op when signed out or the list is empty, and otherwise changes no key but the transcript key |
| `FinanceChatComponent.LoadAfterSave` | components/finance-chat/FinanceChat.tsx:299-318 | a non-empty saved transcript fully replaces the record, and the next load of the chat gives exactly it back |
| `FinanceChatComponent.Exchange` | components/finance-chat/FinanceChat.tsx:341-342 | one exchange is the user's message carrying the question followed by the bot's message carrying the reply |
| `FinanceChatComponent.SendIgnoresBlank` | components/finance-chat/FinanceChat.tsx:338-339 | a blank input leaves messages and input unchanged and reports nothing |
| `FinanceChatComponent.SendAppendsExchange` | components/finance-chat/FinanceChat.tsx:338-344 | otherwise exactly two messages are appended after the unchanged old ones (the trimmed question, then its reply), and the input is cleared |
| `FinanceChatComponent.SendNotifiesFirstExchange` | components/finance-chat/FinanceChat.tsx:347-349 | `onMessageSent` fires, with the chat id and the trimmed question, exactly for a non-blank send by a signed-in user into an empty conversation |
| `FinanceChatComponent.FinanceChat.constructor` | components/finance-chat/FinanceChat.tsx:261-263 | the widget starts with no messages, an empty input and no user, and always answers from the built-in 27-entry catalogue (which it also seeds the store with) and the fixed fallback text |
| `FinanceChatComponent.FinanceChat.Mount` | components/finance-chat/FinanceChat.tsx:268-270 | the mount effect seeds the knowledge base |
| `FinanceChatComponent.FinanceChat.SetInput` | components/finance-chat/FinanceChat.tsx:399 | typing replaces the input text |
| `FinanceChatComponent.FinanceChat.UserChanged` | components/finance-chat/FinanceChat.tsx:282-289 | a change of identity clears the messages and records the new identity; the same identity changes nothing |
| `FinanceChatComponent.FinanceChat.LoadMessages` | components/finance-chat/FinanceChat.tsx:292-310 | the messages become the loaded transcript of the chat |
| `FinanceChatComponent.FinanceChat.SaveMessages` | components/finance-chat/FinanceChat.tsx:313-322 | the store becomes the saved-transcript store |
| `FinanceChatComponent.FinanceChat.TriggerQuestion` | components/finance-chat/FinanceChat.tsx:325-335 | a non-blank triggered question replaces the messages with exactly its user message and its reply, and is reported; a blank one changes nothing |
| `FinanceChatComponent.FinanceChat.HandleSend` | components/finance-chat/FinanceChat.tsx:337-350 | messages, input and the report are those of `Send` on the state before the call |
| `ChatHistories.HistoryKeyInjective` | app/page.tsx:76 | each address has its own history key |
| `Lists.FilterCounts` | app/layout.tsx:97 | `filter` keeps each passing element as many times as it occurs and drops every failing one |
| `Lists.FilterSpec` | app/layout.tsx:97 | `filter` keeps exactly the elements that pass, each as often as it occurs and in their original order (which determines the result), and returns a list whose elements all pass unchanged |
| `ChatHistories.Find` | app/page.tsx:99 | `find` yields an entry exactly when some entry has the id, and then it is the first entry with the id |
| `ChatHistories.EntryRoundTrip` | app/page.tsx:9-14 | a history entry reads back as itself from JSON |
| `ChatHistories.HistoriesCodecRoundTrip` | app/page.tsx:61-78 | a stringified history list parses back to the same list |
| `AssistantPage.Truncate` | app/page.tsx:109-110 | a text of at most n characters is kept whole; a longer one becomes its first n characters and "...", so never more than n + 3 |
| `AssistantPage.FreshChatIdInjective` | app/page.tsx:43 | chats started at different milliseconds get different ids |
| `AssistantPage.UpsertExisting` | app/page.tsx:99-105 | upserting a listed id keeps the length, the order, and every id, title and preview; only the timestamps of that id's entries become now |
| `AssistantPage.UpsertAbsent` | app/page.tsx:106-114 | upserting an unlisted id prepends one new entry (the id, the truncated title and preview, now) before the unchanged old list |
| `AssistantPage.TitleTruncation` | app/page.tsx:109 | the title is the message when it has at most 30 characters, and the first 30 characters plus "..." otherwise; at most 33 characters |
| `AssistantPage.PreviewTruncation` | app/page.tsx:110 | the preview is the message when it has at most 50 characters, and the first 50 characters plus "..." otherwise; at most 53 characters |
| `AssistantPage.UpsertKeepsIdsDistinct` | app/page.tsx:98-115 | after an upsert the id is listed, and ids that were distinct stay distinct |
| `AssistantPage.UpsertTwice` | app/page.tsx:98-115 | upserting an id twice equals upserting it once at the later time: no second entry, only the timestamp changes |
| `AssistantPage.FirstShortMessageIndexed` | app/page.tsx:106-114 | a new chat whose first message has at most 30 characters is put in front of the list with that message, unshortened, as both title and preview |
| `AssistantPage.LoadedHistoriesCases` | app/page.tsx:51-69 | the page's load gives nothing when signed out or when the key is absent, the stored list when it decodes, and the previous list when it does not |
| `AssistantPage.SavedHistoriesTouchesOneKey` | app/page.tsx:72-83 | the page's save writes only when signed in with a non-empty list, and only the user's history key |
| `AssistantPage.LoadAfterSave` | app/page.tsx:58-78 | a saved non-empty list is exactly what the next load gives |
| `AssistantPage.SaveIsPerUser` | app/page.tsx:72-83 | saving one user's list never changes what another user loads |
| `AssistantPage.Page.constructor` | app/page.tsx:19-23 | the page starts with no trigger, the id `default`, no histories, no user and no chat started |
| `AssistantPage.Page.ChatIdFromUrl` | app/page.tsx:26-35 | a URL chat id becomes the current id and counts as started; without one a fresh `chat-<now>` id is used and nothing counts as started |
| `AssistantPage.Page.UserChanged` | app/page.tsx:38-48 | a change of identity empties the histories, mints `chat-<now>`, records the identity and clears the started flag; the same identity changes nothing |
| `AssistantPage.Page.LoadChatHistories` | app/page.tsx:51-69 | the histories become the page's loaded list |
| `AssistantPage.Page.SaveChatHistories` | app/page.tsx:72-83 | the store becomes the page's saved-histories store |
| `AssistantPage.Page.HandleCardClick` | app/page.tsx:85-89 | a card click mints `chat-<now>`, sets the trigger to the card text and marks the chat started |
| `AssistantPage.Page.ClearTriggerQuestion` | app/page.tsx:90 | the timer clears the trigger |
| `AssistantPage.Page.UpdateChatHistory` | app/page.tsx:93-116 | the chat is marked started in every case; signed out, the histories are unchanged; signed in, they become the upsert of the old list |
| `Navbar.SearchSpec` | app/layout.tsx:113-116 | the search returns, in order, a subsequence of the list holding every entry whose lowercased title or lowercased preview contains the lowercased query, as often as the list holds it, and no other entry |
| `Navbar.SearchEmptyQuery` | app/layout.tsx:113-116 | the empty query returns the whole list |
| `Navbar.SearchIgnoresCase` | app/layout.tsx:113-116 | queries that differ only in letter case give the same result |
| `Navbar.RemoveSpec` | app/layout.tsx:97 | deleting drops every entry with the id and keeps every other entry, as often as it occurs and in its relative order; deleting an unlisted id leaves the list unchanged |
| `Navbar.HistoryKeyIsNotTranscriptKey` | app/layout.tsx:96-101 | a history key is never a transcript key |
| `Navbar.DeleteChatSpec` | app/layout.tsx:89-103 | signed out, nothing changes; signed in, the history key holds the filtered list, the transcript key is gone and every other key is unchanged |
| `Navbar.DeletedTranscriptLoadsEmpty` | app/layout.tsx:101-102 | after a delete, loading that chat's transcript gives the empty conversation |
| `Navbar.LoadedHistoriesCases` | app/layout.tsx:51-70 | the sidebar's load gives nothing when signed out, the stored list when it decodes, and the previous list when the key is absent or unreadable |
| `Navbar.LoadAfterDelete` | app/layout.tsx:96-99 | the sidebar's next load after a delete gives exactly the filtered list |
| `Navbar.NavigationBar.constructor` | app/layout.tsx:23-24 | the sidebar starts with no histories and an empty query |
| `Navbar.NavigationBar.LoadChatHistories` | app/layout.tsx:51-77 | the histories become the sidebar's loaded list |
| `Navbar.NavigationBar.SetSearchQuery` | app/layout.tsx:214 | typing replaces the query |
| `Navbar.NavigationBar.FilteredChats` | app/layout.tsx:113-116 | the shown chats are, in list order, every listed chat that matches the query, as often as it is listed, and no other; all of them for the empty query; computing them changes no state |
| `Navbar.NavigationBar.HandleDeleteChat` | app/layout.tsx:89-111 | the histories and the store become those of `DeleteChat` on the state before the call |

## Left out

- Presentation is not modelled: all JSX and CSS, the message bubbles, sidebar, navbar, cards and icons, scrolling into view and input focus.
- `components/ui/avatar.tsx`, `components/ui/theme-toggle.tsx`, `components/assistant-ui/tool-fallback.tsx`, `components/assistant-ui/welcome-finance.tsx` and `app/assistant.tsx` are not part of this model: they are UI or thin wrappers over next-auth, next-themes and next/image.
- `components/assistant-ui/composer.tsx` is not part of this model. Its trim-and-send duplicates `handleSend`, and its auto-send is a timer.
- The theme preference (`app/layout.tsx:27-48`) is left out. It only toggles a DOM class through storage.
- Authentication is left out: next-auth's `useSession`, `signIn` and `signOut`. Identity is an `Option<string>` argument.
- Routing is left out: `handleNewChat` and the redirect after deleting the chat on screen assign `window.location.href`, and `handleChatSelect` calls `router.push`. A navigation shows up in the model only as the new URL parameter passed to `AssistantPage.Page.ChatIdFromUrl`.
- The 1-second polling interval of the sidebar is left out. Each poll is one call of `Navbar.NavigationBar.LoadChatHistories`.
- The 100 ms timer of `handleCardClick` is an explicit event, `AssistantPage.Page.ClearTriggerQuestion`.
- The order in which React runs effects, and the dependency lists that decide when an effect runs, are not modelled. Each effect is a method the caller invokes.
- `Date.now()` is an argument. Nothing relates two readings, so the model does not assume the clock is monotonic.
- Console logging is left out.
- Exceptions from `localStorage` itself (quota exceeded, storage disabled) are left out: `setItem` always succeeds here. Only `JSON.parse` failures are modelled.
- Concurrent writers are left out: another tab writing the same keys is not modelled.
- JSON is modelled for null, booleans, non-negative integers, strings, arrays and objects. Negative and fractional numbers, and exponents, are parse failures here. Integers are unbounded and always written as plain digits, whereas JavaScript rounds integers above 2^53 and writes numbers from 1e21 up with an exponent; the only numbers stored are `Date.now()` readings, far below both bounds.
- `Json.Parse` rejects a `\u` escape of a UTF-16 surrogate (`\ud800`-`\udfff`), so an escaped surrogate pair such as `"\ud83d\ude00"`, which `JSON.parse` accepts, is a parse failure: the catalogue then falls back to the built-in one, the transcript loads empty and the history keeps its previous list. `JSON.stringify` never writes such an escape for the texts modelled here, so the round trips are unaffected.
- `Knowledge.GetKnowledgeBase`: a stored value that parses but is not an array of well-formed entries is treated like unparseable text (the built-in catalogue is used). The source would hand that value to the matcher as it is.
- `FinanceChatComponent.LoadTranscript`: a stored value that parses but is not an array of messages gives the empty conversation. The source would put that value into its state unchecked.
- `AssistantPage.LoadedHistories` and `Navbar.LoadedHistories`: a stored value that parses but is not an array of history entries keeps the previous list. The source would put that value into its state unchecked.
- `Text.Lower` lowercases ASCII letters only. JavaScript's `toLowerCase` also maps letters outside ASCII.
- `AssistantPage.Truncate` counts characters, not UTF-16 code units as `slice` and `length` do. The two agree on text inside the Basic Multilingual Plane.
