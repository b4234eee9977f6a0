# Chat front end: conversation store and send turn

This project models the `App` component of an Arabic-language companion-chat web
front end. The component keeps:

- a list of conversations, each with an ordered message list, a persona
  (`UserData`) and a `lastUpdated` clock reading;
- the id of the active conversation;
- a screen mode (loading, setup, chat);
- two busy flags (`isLoading`, `isTyping`);
- the id of the message being read aloud;
- the model session bound to the active conversation.

It writes the list, with image fields stripped, to the browser's key-value store
under the key `conversations`.

The modules follow the component's structure:

- `Types` (types.dfy): messages, personas, conversations, and the decimal
  stamps (`convo-<now>`, `user-<now>`, `ai-<now>`, `error-<now>`) used as ids.
- `Reducers` (reducers.dfy): the copy-on-write list updates
  `addMessageToConversation`, `updateLastMessageInConversation`,
  `updateConversation` and the delete filter. Also the stable
  most-recent-first sort, and `LatestIndex`, the reference definition of the
  sorted list's head.
- `Persistence` (persistence.dfy): the stored record, the strip projection
  used on save, and the reverse projection used on load.
- `Turn` (turn.dfy): the closed form of one `handleSendMessage` turn, and the
  step lemmas that tie each write of the turn to that closed form. The
  closed form is `TurnList`/`AfterTurn`: the user's message, then at most one
  AI message holding every delta, then the fallback reply when the stream
  raised.
- `Speech` (speech.dfy): the Arabic voice filter and the voice priority of
  the read-aloud button.
- `ChatApp` (app.dfy): class `App`, with the component's state as fields and
  each handler and effect as a method. Its invariant `Valid()` says the chat
  screen always has a session and an active id naming a conversation of the
  list. Every handler that can reach the chat screen preserves it.

The clock, the random greeting choice, the streamed deltas (each with the clock
reading at which it arrived), the outcome of the image conversion, the stream
failure and the content of the store are all parameters.

Points where the code's behaviour is easy to miss, and how the model follows it:

- The `catch` (App.tsx:375-381) appends the fallback reply in every case,
  including after a partial reply. `AfterTurn` and `TurnFailsWithFallback`
  state this.
- Most list updates are copy-on-write, with four in-place exceptions:
  - the last message object is patched in place (App.tsx:268);
  - the loaded list is sorted in place (App.tsx:123);
  - the previous list is sorted in place when a new chat is created (App.tsx:227);
  - the survivors of a deletion are sorted in place (App.tsx:240).
- Because of the sort at App.tsx:240, after the active conversation is deleted
  the stored list holds the survivors in most-recent-first order, not in their
  previous order. `HandleDeleteConversation` states this.
- The loaded list (App.tsx:122-123) is likewise stored most recent first, as
  `LoadFromStorage` states.
- The send guard (App.tsx:309) rejects a turn when there is no active id. It
  also rejects the empty id `""`, which JavaScript treats as false.
  `SendAccepted` includes both conditions. `handleSaveSettings` (App.tsx:180)
  returns early on the same two cases.

`types.ts`, which declares `Message`, `UserData` and `Conversation`, is not part
of this model. The records in types.dfy are rebuilt from their uses in App.tsx.

## Model

| member | source | states |
|---|---|---|
| Types.Decimal | App.tsx:164 | The decimal text of a clock reading is non-empty, all digits, and has no leading zero unless the reading is 0 |
| Types.DecimalRoundTrip | App.tsx:164 | Reading the decimal text back gives the original clock reading |
| Types.StampInjective | App.tsx:164 | Two stamped ids with the same prefix, such as `convo-<now>`, are equal only when their clock readings are equal |
| Types.ReadAt | App.tsx:103 | A reference helper shared by both filters (App.tsx:103 and App.tsx:234): reading a list at a sequence of positions gives, position by position, the elements at those positions |
| Types.ReadAtSnoc | App.tsx:103 | A reference helper shared by both filters (App.tsx:103 and App.tsx:234): reading a list extended by one element at the old positions, plus the new one when it is kept, extends the reading by that element |
| Reducers.FirstIndex | App.tsx:198 | `find` by id: the result is absent exactly when no conversation has the id; otherwise it is the first position holding the id |
| Reducers.Find | App.tsx:95 | `conversations.find(c => c.id === id)`, also at App.tsx:198: the conversation at `FirstIndex`, or absent when no conversation has the id |
| Reducers.LastIndex | App.tsx:184-192 | The last position holding the id: the match a `map` visits last, whose `startChat` call is the one that stays bound; absent exactly when no conversation has the id |
| Reducers.AddMessage | App.tsx:254-261 | Every conversation with the id gets the message as its new last element and `lastUpdated := now`, keeping its id, title and persona; every other conversation is unchanged; an unknown id changes nothing; the length is kept |
| Reducers.WithLastText | App.tsx:266-269 | The message count is kept and every message but the last is unchanged; the last keeps its id, sender and image fields and takes the new text; an empty list stays empty |
| Reducers.UpdateLastMessage | App.tsx:263-274 | Every conversation with the id has its last message's text replaced, as `WithLastText` states, and is stamped `now`; other conversations are unchanged; an unknown id changes nothing |
| Reducers.Merge | App.tsx:251 | `{ ...c, ...updates, lastUpdated: now }`: each field the patch sets replaces the conversation's, the others are kept, and `lastUpdated` is the clock reading |
| Reducers.UpdateConversation | App.tsx:250-252 | Every conversation with the id takes each field the patch sets and keeps the rest; `lastUpdated` is the clock reading even when the patch sets one; others are unchanged; an unknown id changes nothing |
| Reducers.RemoveById | App.tsx:234 | The survivors are exactly the conversations whose id differs from the removed one; an unknown id changes nothing (order and multiplicity: `RemoveKeepsOrder`) |
| Reducers.RemoveByIdSnoc | App.tsx:234 | Filtering a list extended by one conversation filters the prefix and then keeps the last one exactly when its id differs |
| Reducers.SurvivorPositions | App.tsx:234 | The positions the filter keeps: strictly increasing, each holding an id other than the removed one, and every such position is among them |
| Reducers.RemoveKeepsOrder | App.tsx:234 | The filter's result is the list read at exactly the surviving positions, in increasing order: order and duplicates are kept |
| Reducers.Insert | App.tsx:123 | One insertion step of the stable sort: the result is a permutation of the list plus the inserted conversation |
| Reducers.SortByRecency | App.tsx:123 | The sort by descending `lastUpdated` returns a permutation of its input |
| Reducers.InsertDescending | App.tsx:123 | Inserting into a most-recent-first list keeps it most-recent-first; the head is the inserted conversation when it is at least as recent as the old head |
| Reducers.InsertBounded | App.tsx:123 | Inserting keeps every element under a common bound on `lastUpdated` |
| Reducers.SortDescending | App.tsx:123 | The sorted list is most recent first |
| Reducers.LatestIndex | App.tsx:123 | The reference definition of "latest": the first position whose `lastUpdated` is the greatest of the list |
| Reducers.SortHead | App.tsx:123 | The head of the sorted list, the `[0]` the code takes, is the conversation at `LatestIndex`, the first one in the original order holding the greatest `lastUpdated` |
| Reducers.RemoveKeepsOthers | App.tsx:234 | Removing one id keeps every other id present, and adds none |
| Reducers.LatestSurvivor | App.tsx:239-241 | After a deletion with survivors, the sorted survivors start with the latest survivor; it was in the list before, it does not carry the deleted id, and the sorted survivors are most recent first |
| Reducers.SurvivorHeadKnown | App.tsx:239-241 | After a deletion with survivors, the head of the sorted survivors names a conversation of the list before the deletion, so re-selecting it finds a conversation |
| Reducers.PrependLatest | App.tsx:227 | Putting a conversation at least as recent as all others in front of a most-recent-first list keeps it most recent first |
| Reducers.PrependToSorted | App.tsx:227 | The old list sorted by recency is most recent first, and stays so with a new conversation in front when no old one is later |
| Persistence.StripMessage | App.tsx:147 | A stored message keeps the id, text and sender and drops `imageUrl`, `base64Image` and `mimeType` |
| Persistence.StripConversation | App.tsx:145-148 | A stored conversation keeps every field, with each message stripped as `StripMessage` does |
| Persistence.StripAll | App.tsx:145-148 | The list written to storage: every conversation stripped, in order |
| Persistence.RestoreAll | App.tsx:120 | The list parsed from storage: every conversation in order, each message with its id, text and sender and no image fields |
| Persistence.StripKeeps | App.tsx:145-148 | The saved list keeps every conversation in order, with its id, title, persona and time stamp, and every message's id, text and sender |
| Persistence.SaveThenLoad | App.tsx:145-148 | Saving then loading gives back every conversation with only the three image fields of each message cleared; a list without images comes back unchanged |
| Persistence.LoadThenSave | App.tsx:145-148 | Loading a stored list and saving it again writes exactly what was read |
| Turn.SendAccepted | App.tsx:309 | The turn goes ahead exactly when a session exists, no turn is loading, the active id is present and not `""`, and there is text or a file |
| Turn.UserMessage | App.tsx:329-336 | The optimistic user message: id `user-<now>`, the input as text, sender user, and the upload's URL, bytes and type when there is one |
| Turn.TitleFor | App.tsx:340 | The title is at most 43 characters; an input of at most 40 characters is kept as it is; a longer one is its first 40 characters followed by `...` |
| Turn.TurnTitle | App.tsx:339-341 | A title is set exactly when the active conversation is found and had fewer than 3 messages before the user's message, and the input is not empty; the title is `TitleFor(input)` |
| Turn.RequestParts | App.tsx:349-353 | The request has a text part first exactly when the input is not empty, and ends with an inline image part exactly when the upload's bytes and type are both non-empty; nothing else |
| Turn.ConcatAppend | App.tsx:363 | The running text of two runs of deltas is the running text of the first followed by that of the second |
| Turn.Concat | App.tsx:363 | The running reply `aiResponse`: the texts of the deltas received so far, in order |
| Turn.AiMessage | App.tsx:365-369 | The AI message: id `ai-` stamped with the first delta's clock reading, the running text, sender AI |
| Turn.FallbackMessage | App.tsx:377-381 | The fallback reply: id `error-` stamped with the failure's clock reading, the fixed apology text, sender AI |
| Turn.AiMessageGrows | App.tsx:361-372 | A later delta keeps the AI message's id, fixed by the first delta, and appends the delta to its text |
| Turn.LastTextOfAppend | App.tsx:266-269 | Replacing the last text of a list that ends in a message replaces that message's text only |
| Turn.AfterTurnReply | App.tsx:337-369 | With at least one delta and no failure, the turn appends exactly the user's message and then the AI message, and its last write carries the last delta's clock reading |
| Turn.TurnStarts | App.tsx:337-341 | The optimistic insert, followed by the title update when there is one, is the closed form of the turn with no delta yet |
| Turn.TurnFirstChunk | App.tsx:365-369 | Appending the AI message seeded with the first delta takes the closed form with no delta to the closed form with that one delta |
| Turn.AfterTurnNextChunk | App.tsx:370-371 | On one conversation, rewriting the last message with the longer running text takes the reply of n deltas to the reply of n+1 deltas |
| Turn.TurnNextChunk | App.tsx:370-371 | On the list, `updateLastMessageInConversation` with the running text takes the closed form of n deltas to that of n+1 deltas; nothing is appended |
| Turn.TurnFails | App.tsx:375-381 | Appending the fallback reply after whatever the turn wrote gives the closed form of a failed turn |
| Turn.TurnSucceeds | App.tsx:337-373 | A turn whose stream ends normally adds exactly the user's message, then, when at least one delta arrived, exactly one AI message whose text is all deltas in order; with no delta it adds only the user's message |
| Turn.TurnFailsWithFallback | App.tsx:375-381 | A failed turn ends with the fixed fallback text from the AI, and everything before it is what the turn had written so far, a partial reply included |
| Turn.TurnKeepsIds | App.tsx:337-381 | A turn renames no conversation: an id names a conversation after the turn exactly when it did before |
| Turn.TurnTouchesOnlyTarget | App.tsx:337-381 | A turn keeps the list's length and every id; it changes only the conversations with the id captured at its start; with an unknown id it changes nothing |
| Speech.ArabicVoices | App.tsx:103 | The kept voices are exactly the available voices whose language tag starts with `ar` (order and multiplicity: `ArabicKeepsOrder`) |
| Speech.ArabicVoicesSnoc | App.tsx:103 | Filtering a voice list extended by one voice filters the prefix and then keeps the last voice exactly when its tag starts with `ar` |
| Speech.ArabicPositions | App.tsx:103 | The positions the filter keeps: strictly increasing, each holding an `ar` tag, and every such position is among them |
| Speech.ArabicKeepsOrder | App.tsx:103 | The filter's result is the voice list read at exactly the Arabic positions, in increasing order: order and duplicates are kept |
| Speech.FindExact | App.tsx:286 | `find` with an exact tag: the first voice with the tag, or absent exactly when no voice has it |
| Speech.FindPrefix | App.tsx:286 | `find` with a tag prefix: the first voice whose tag starts with the prefix, or absent exactly when none does |
| Speech.PickVoice | App.tsx:286 | The first `ar-EG` voice when there is one; else the first voice whose tag starts with `ar-`; else none |
| Speech.PlanUtterance | App.tsx:284-296 | The utterance speaks the text with `PickVoice`'s voice; its language is always an `ar-` tag, the voice's own tag when there is a voice and `ar-EG` otherwise; the rate and pitch are the fixed 95 and 100 hundredths |
| ChatApp.Greetings | App.tsx:211-217 | There are exactly four openings to choose from |
| ChatApp.SetupTitle | App.tsx:167 | The first conversation's title: the fixed prefix followed by the AI name |
| ChatApp.SetupGreeting | App.tsx:168 | The first conversation's greeting, built from the user's name and the AI name |
| ChatApp.NewConversation | App.tsx:220-226 | A fresh conversation (also at App.tsx:165-171): the given id, title, persona and clock reading, and one AI message with id `init` and the greeting, no image |
| ChatApp.NeedsChatReset | App.tsx:182 | Saving a persona rebuilds the session exactly when no conversation has the active id or the active conversation's AI name differs from the new one |
| ChatApp.App.constructor | App.tsx:82-92 | The first mount: loading screen, empty list, no active id, no session, flags cleared, the store as it is |
| ChatApp.App.LoadFromStorage | App.tsx:115-138 | An empty or absent store shows the setup screen; unreadable data is cleared first. A non-empty saved list becomes the list, sorted most recent first, and its `LatestIndex` conversation becomes active, with a session on its persona and messages |
| ChatApp.App.Persist | App.tsx:142-154 | Only on the chat screen with a non-empty list is the stripped list written; a failed write leaves the store as it was |
| ChatApp.App.HandleSetupComplete | App.tsx:163-177 | The list becomes exactly one conversation with a fresh `convo-` id, the persona's title and one AI greeting with id `init` and no image; it is active; a session starts on the AI name with no history; the chat screen shows |
| ChatApp.App.HandleSaveSettings | App.tsx:179-195 | No active id, or the empty id: nothing changes. Otherwise every conversation with the active id takes the new persona and is stamped. When the AI name differs from the active conversation's, the session restarts under the new name on the messages of the last conversation with that id |
| ChatApp.App.SelectIn | App.tsx:197-206 | Selecting by `find` on a given list: an id not in it changes nothing; else the speaking slot clears, the id becomes active and the session binds to the found conversation |
| ChatApp.App.HandleSelectConversation | App.tsx:197-206 | Selecting an unknown id changes nothing; a known one becomes active with a session on the first conversation holding it, and the speaking slot clears |
| ChatApp.App.HandleNewChat | App.tsx:208-231 | When, before the call, there is no active conversation, nothing changes; on the chat screen the call is never a no-op. Otherwise a new conversation, with the chosen greeting for the user and the active persona, goes in front of the old list sorted most recent first; the rest of the list is most recent first, and the whole list is when no old conversation is later than the clock; the new one becomes active with a fresh session |
| ChatApp.App.HandleDeleteConversation | App.tsx:233-248 | Deleting another conversation removes it and changes nothing else. Deleting the active one either re-selects the head of the survivors sorted most recent first, which `LatestSurvivor` shows is the latest survivor, with its session taken from the list before the deletion; or, with no survivor, clears the active id and the store and shows the setup screen |
| ChatApp.App.HandleSendMessage | App.tsx:308-389 | A rejected call (no session, already loading, no active id or the empty id, nothing to send) changes nothing. A failed image conversion only clears `isLoading`. Otherwise the list becomes the turn's closed form for the conversation active at the start (user message, title, deltas, fallback); the request holds the text and image parts; both busy flags end cleared |
| ChatApp.App.InsertUserMessage | App.tsx:329-341 | The title is decided on the list as it was before the user's message, and the list becomes the closed form of the turn with no delta |
| ChatApp.App.StreamReply | App.tsx:357-373 | The `for await` loop ends at the closed form with all deltas; `isTyping` is cleared once a delta arrives and untouched otherwise |
| ChatApp.App.AppendFallback | App.tsx:375-381 | The fallback append takes the closed form with no failure to the closed form of a failed turn |
| ChatApp.App.LoadVoices | App.tsx:99-107 | A non-empty voice list from the engine replaces the kept voices with its Arabic ones; an empty one keeps them |
| ChatApp.App.HandlePlayAudio | App.tsx:276-306 | Asking again for the message being spoken clears the slot and speaks nothing; otherwise the text is spoken as `PlanUtterance` plans it, and the slot waits for the start callback |
| ChatApp.App.SpeechStarted | App.tsx:298 | The start callback marks the message as speaking |
| ChatApp.App.SpeechEnded | App.tsx:299-303 | The end and error callbacks clear the speaking slot |

## Left out

- Rendering is not modelled: the splash screen, the setup screen, the header, the history panel, the settings modal, the message list and auto-scrolling (App.tsx:156-161, 391-443). They hold no state logic.
- The sidebar and settings-modal open flags are presentation state and are not modelled.
- components/ChatInput.tsx, components/ChatMessage.tsx and components/TypingIndicator.tsx are presentational. The input's own submit guard repeats the guard of App.tsx:309, which `SendAccepted` models.
- `types.ts`, `utils.ts`, `services/geminiService.ts` and the setup screen's validation are not part of this model.
- The model session is foreign code. It is represented only by the arguments it was started with, `ChatSession(aiName, history)`. Its reply is the parameter `chunks`, optionally followed by the `failure` clock reading.
- `chunk.text` being `undefined` (which JavaScript would append as the word "undefined") is not modelled.
- `localStorage` and `JSON.parse` are the `Storage` value: absent, unreadable, or a parsed list. A parse that yields something other than a list of conversations is not modelled. `localStorage.clear()` is modelled as the key becoming absent.
- `fileToBase64` and `URL.createObjectURL`/`revokeObjectURL` are browser I/O. The conversion outcome is the `image` parameter. Revoking the object URL is not modelled.
- The speech engine (`speak`, `cancel`, `onvoiceschanged`) is foreign. Only the speaking slot, the voice filter and the voice choice are modelled. The callbacks are the methods `SpeechStarted` and `SpeechEnded`.
- The thinking delay (`setTimeout`, `Math.random`) and the 1.5 s start-up delay are timing only. The greeting choice `Math.floor(Math.random() * 4)` is the parameter `pick`.
- Concurrency is not modelled. Each handler runs to completion, a turn is one sequential fold over its deltas, and React's batched state updates are applied immediately.
- `Date.now()` is read once per step. The id and `lastUpdated` written by one step share that reading, and each delta carries its own reading.
- Reducers.UpdateLastMessage: the in-place write to the last message (App.tsx:268) also changes the message object shared with the previous list. The model updates a value, so that aliasing is not captured.
- Reducers.SortByRecency: the in-place sorts (App.tsx:123, 227, 240) are modelled as producing a new sorted list. Their effect on the array held by the previous state is not captured.
- Reducers.SortHead: stability is stated only for the head of the sorted list, which is what the code reads. The order among later equal keys is not stated.
- Turn.TitleFor counts characters, not UTF-16 code units as JavaScript's `substring` and `length` do. Input outside the basic plane can therefore differ.
- Speech.PlanUtterance: the rate 0.95 and pitch 1 are kept as the whole hundredths 95 and 100, because the model has no floating point.
