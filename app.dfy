/** The `App` component's state and its event handlers (App.tsx:81-389): the
    conversation store, the active-conversation pointer, the screen mode, the
    busy flags, the speaking slot, the bound model session and the saved copy
    of the list. Each handler runs to completion; the clock, the random greeting
    choice, the streamed deltas and what the store holds come in as parameters. */
module ChatApp {
  import opened Types
  import opened Reducers
  import opened Persistence
  import opened Turn
  import opened Speech

  datatype AppMode = Loading | Setup | Chat

  /** `startChat(aiName, history)`: a session is fixed by the persona name and
      the history it was started from. */
  datatype ChatSession = ChatSession(aiName: string, history: seq<Message>)

  const InitMessageId: string := "init"
  const NewChatTitle: string := "محادثة جديدة"

  function SetupTitle(data: UserData): string
  {
    "محادثة مع " + data.aiName
  }

  function SetupGreeting(data: UserData): string
  {
    "أهلاً يا " + data.userName + "! أنا " + data.aiName + "، أخيراً بقينا سوا ❤️"
  }

  /** The four openings `handleNewChat` chooses from. */
  function Greetings(userName: string): (r: seq<string>)
    ensures |r| == 4
  {
    [ "يا أهلاً بقلبي " + userName + "! إيه الأخبار؟ وحشتني موت. 😄",
      "يا هلا بـ" + userName + "! وحشتني والله. عامل إيه النهاردة؟ 🤔",
      "إزيك يا " + userName + "! يارب تكون بخير. فيه حاجة معينة على بالك نتكلم فيها؟",
      "أهلاً بيك يا حبيبي " + userName + "! مستعد لدردشة جديدة؟ أنا كلي ليك." ]
  }

  /** A fresh conversation seeded with one AI greeting. */
  function NewConversation(id: string, title: string, greeting: string, data: UserData, now: nat): Conversation
  {
    Conversation(id, title, [TextMessage(InitMessageId, greeting, Ai)], data, now)
  }

  /** Whether saving a persona rebuilds the session: the active conversation's
      AI name differs from the new one, or no conversation has the active id. */
  function NeedsChatReset(s: seq<Conversation>, id: string, data: UserData): bool
  {
    match Find(s, id)
    case None => true
    case Some(c) => c.userData.aiName != data.aiName
  }

  class App {
    var appState: AppMode
    var conversations: seq<Conversation>
    var activeConversationId: Option<string>
    var isLoading: bool
    var isTyping: bool
    var voices: seq<Voice>
    var speakingMessageId: Option<string>
    /** `chatRef.current`. */
    var session: Option<ChatSession>
    /** The `conversations` key of the browser's store. */
    var storage: Storage

    /** The chat screen always has a bound session and an active id that names
        a conversation of the list. */
    ghost predicate Valid()
      reads this
    {
      appState == Chat ==>
        activeConversationId.Some? && HasId(conversations, activeConversationId.value) && session.Some?
    }

    /** The component as first mounted, over whatever the store already holds. */
    constructor (stored: Storage)
      ensures Valid()
      ensures appState == Loading && conversations == [] && activeConversationId == None
      ensures !isLoading && !isTyping && voices == [] && speakingMessageId == None && session == None
      ensures storage == stored
    {
      appState := Loading;
      conversations := [];
      activeConversationId := None;
      isLoading := false;
      isTyping := false;
      voices := [];
      speakingMessageId := None;
      session := None;
      storage := stored;
    }

    /** The start-up effect (App.tsx:115-138): a non-empty saved list opens the
        chat on its most recently updated conversation; anything else shows the
        setup screen, and unreadable data is cleared first. */
    method LoadFromStorage()
      modifies this`appState, this`conversations, this`activeConversationId, this`session, this`storage
      ensures Valid()
      ensures old(storage).Absent? ==> appState == Setup && unchanged(this`conversations, this`activeConversationId, this`session, this`storage)
      ensures old(storage).Corrupt? ==> appState == Setup && storage == Absent && unchanged(this`conversations, this`activeConversationId, this`session)
      ensures old(storage).Saved? && |old(storage).list| == 0 ==>
        appState == Setup && unchanged(this`conversations, this`activeConversationId, this`session, this`storage)
      ensures old(storage).Saved? && |old(storage).list| > 0 ==>
        var loaded := RestoreAll(old(storage).list);
        var k := LatestIndex(loaded);
        appState == Chat && storage == old(storage) &&
        conversations == SortByRecency(loaded) && Descending(conversations) &&
        activeConversationId == Some(loaded[k].id) &&
        session == Some(ChatSession(loaded[k].userData.aiName, loaded[k].messages))
    {
      match storage
      case Absent =>
        appState := Setup;
      case Corrupt =>
        storage := Absent;
        appState := Setup;
      case Saved(list) =>
        if |list| > 0 {
          var loaded := RestoreAll(list);
          conversations := SortByRecency(loaded);
          SortHead(loaded);
          SortDescending(loaded);
          var latest := conversations[0];
          activeConversationId := Some(latest.id);
          session := Some(ChatSession(latest.userData.aiName, latest.messages));
          appState := Chat;
          assert HasId(conversations, latest.id);
        } else {
          appState := Setup;
        }
    }

    /** The save effect (App.tsx:142-154): only on the chat screen with a
        non-empty list, the list is written with every image field stripped; a
        failed write leaves the store as it was. */
    method Persist(writeFails: bool)
      modifies this`storage
      ensures storage == if appState == Chat && |conversations| > 0 && !writeFails
                         then Saved(StripAll(conversations)) else old(storage)
    {
      if appState == Chat && |conversations| > 0 && !writeFails {
        storage := Saved(StripAll(conversations));
      }
    }

    /** `handleSetupComplete`: the list becomes one new conversation, holding
        exactly one AI greeting, and it is the active one. */
    method HandleSetupComplete(data: UserData, now: nat)
      modifies this`conversations, this`activeConversationId, this`session, this`appState
      ensures Valid()
      ensures conversations == [NewConversation(Stamp("convo-", now), SetupTitle(data), SetupGreeting(data), data, now)]
      ensures |conversations| == 1 && activeConversationId == Some(conversations[0].id)
      ensures conversations[0].id == Stamp("convo-", now) && conversations[0].title == SetupTitle(data)
      ensures conversations[0].userData == data && conversations[0].lastUpdated == now
      ensures |conversations[0].messages| == 1 && conversations[0].messages[0].sender == Ai &&
              conversations[0].messages[0].text == SetupGreeting(data)
      ensures session == Some(ChatSession(data.aiName, [])) && appState == Chat
    {
      var c := NewConversation(Stamp("convo-", now), SetupTitle(data), SetupGreeting(data), data, now);
      conversations := [c];
      activeConversationId := Some(c.id);
      session := Some(ChatSession(data.aiName, []));
      appState := Chat;
      assert conversations[0].id == c.id;
    }

    /** `handleSaveSettings`: the active conversation takes the new persona and is
        stamped `now`; when the AI name changed, the session is restarted on that
        conversation's messages under the new name. No active id, or the empty id
        (falsy like a missing one): nothing happens. */
    method HandleSaveSettings(data: UserData, now: nat)
      requires Valid()
      modifies this`conversations, this`session
      ensures Valid()
      ensures activeConversationId.None? || activeConversationId.value == "" ==> unchanged(this`conversations, this`session)
      ensures activeConversationId.Some? && activeConversationId.value != "" ==>
        var id := activeConversationId.value;
        var k := LastIndex(old(conversations), id);
        conversations == UpdateConversation(old(conversations), id, UserDataPatch(data), now) &&
        session == if NeedsChatReset(old(conversations), id, data) && k.Some?
                   then Some(ChatSession(data.aiName, old(conversations)[k.value].messages))
                   else old(session)
    {
      if activeConversationId.None? || activeConversationId.value == "" {
        return;
      }
      var id := activeConversationId.value;
      var reset := NeedsChatReset(conversations, id, data);
      var k := LastIndex(conversations, id);
      if reset && k.Some? {
        session := Some(ChatSession(data.aiName, conversations[k.value].messages));
      }
      var before := conversations;
      conversations := UpdateConversation(conversations, id, UserDataPatch(data), now);
      if appState == Chat {
        var i :| 0 <= i < |before| && before[i].id == id;
        assert conversations[i].id == id;
      }
    }

    /** Makes `id` active and rebinds the session to the conversation `find`
        returns in `snapshot`; an id not in `snapshot` changes nothing. */
    method SelectIn(snapshot: seq<Conversation>, id: string)
      modifies this`speakingMessageId, this`activeConversationId, this`session
      ensures Find(snapshot, id).None? ==> unchanged(this`speakingMessageId, this`activeConversationId, this`session)
      ensures Find(snapshot, id).Some? ==>
        var c := Find(snapshot, id).value;
        speakingMessageId == None && activeConversationId == Some(id) &&
        session == Some(ChatSession(c.userData.aiName, c.messages))
    {
      match Find(snapshot, id)
      case None =>
      case Some(c) =>
        speakingMessageId := None;
        activeConversationId := Some(id);
        session := Some(ChatSession(c.userData.aiName, c.messages));
    }

    /** `handleSelectConversation`: unknown ids are ignored. */
    method HandleSelectConversation(id: string)
      requires Valid()
      modifies this`speakingMessageId, this`activeConversationId, this`session
      ensures Valid()
      ensures !HasId(conversations, id) ==> unchanged(this`speakingMessageId, this`activeConversationId, this`session)
      ensures HasId(conversations, id) ==>
        var c := Find(conversations, id).value;
        c.id == id && c in conversations &&
        speakingMessageId == None && activeConversationId == Some(id) &&
        session == Some(ChatSession(c.userData.aiName, c.messages))
    {
      SelectIn(conversations, id);
    }

    /** `handleNewChat`: a new conversation greeting the active persona's user
        goes in front of the old list sorted most recent first, and becomes
        active. Without an active conversation nothing happens; on the chat screen
        there always is one. When no conversation is stamped later than `now`, the
        whole new list is most recent first. */
    method HandleNewChat(pick: nat, now: nat)
      requires Valid()
      requires pick < 4
      modifies this`conversations, this`activeConversationId, this`session
      ensures Valid()
      ensures old(activeConversationId).None? || Find(old(conversations), old(activeConversationId).value).None? ==>
        unchanged(this`conversations, this`activeConversationId, this`session)
      ensures appState == Chat ==>
        activeConversationId == Some(Stamp("convo-", now)) && |conversations| == |old(conversations)| + 1
      ensures old(activeConversationId).Some? && Find(old(conversations), old(activeConversationId).value).Some? ==>
        var data := Find(old(conversations), old(activeConversationId).value).value.userData;
        var id := Stamp("convo-", now);
        conversations == [NewConversation(id, NewChatTitle, Greetings(data.userName)[pick], data, now)]
                         + SortByRecency(old(conversations)) &&
        Descending(conversations[1..]) &&
        ((forall c :: c in old(conversations) ==> c.lastUpdated <= now) ==> Descending(conversations)) &&
        activeConversationId == Some(id) && session == Some(ChatSession(data.aiName, []))
    {
      if activeConversationId.None? {
        return;
      }
      match Find(conversations, activeConversationId.value)
      case None =>
        return;
      case Some(active) =>
        var data := active.userData;
        var greeting := Greetings(data.userName)[pick];
        var id := Stamp("convo-", now);
        var c := NewConversation(id, NewChatTitle, greeting, data, now);
        var sorted := SortByRecency(conversations);
        PrependToSorted(c, conversations);
        conversations := [c] + sorted;
        assert conversations[1..] == sorted;
        activeConversationId := Some(id);
        session := Some(ChatSession(data.aiName, []));
        assert conversations[0].id == id;
    }

    /** `handleDeleteConversation`: every conversation with `id` is removed.
        Deleting the active one re-selects the most recently updated survivor,
        leaving the list sorted most recent first; with no survivor the active id
        is cleared, the store is emptied and the setup screen returns. Deleting
        another conversation leaves the active id alone. */
    method HandleDeleteConversation(id: string)
      requires Valid()
      modifies this`conversations, this`activeConversationId, this`session, this`speakingMessageId,
               this`storage, this`appState
      ensures Valid()
      ensures old(activeConversationId) != Some(id) ==>
        conversations == RemoveById(old(conversations), id) &&
        unchanged(this`activeConversationId, this`session, this`speakingMessageId, this`storage, this`appState)
      ensures old(activeConversationId) == Some(id) && |RemoveById(old(conversations), id)| > 0 ==>
        conversations == SortByRecency(RemoveById(old(conversations), id)) &&
        speakingMessageId == None && appState == old(appState) && storage == old(storage) &&
        activeConversationId == Some(conversations[0].id) && Find(old(conversations), conversations[0].id).Some? &&
        session == Some(ChatSession(Find(old(conversations), conversations[0].id).value.userData.aiName,
                                    Find(old(conversations), conversations[0].id).value.messages))
      ensures old(activeConversationId) == Some(id) && |RemoveById(old(conversations), id)| == 0 ==>
        conversations == [] && activeConversationId == None && storage == Absent && appState == Setup &&
        unchanged(this`session, this`speakingMessageId)
    {
      var before := conversations;
      var survivors := RemoveById(before, id);
      conversations := survivors;
      if activeConversationId == Some(id) {
        if |survivors| > 0 {
          SurvivorHeadKnown(before, id);
          conversations := SortByRecency(survivors);
          SelectIn(before, conversations[0].id);
          assert conversations[0].id == activeConversationId.value;
          assert HasId(conversations, activeConversationId.value);
        } else {
          activeConversationId := None;
          storage := Absent;
          appState := Setup;
        }
      } else if appState == Chat {
        RemoveKeepsOthers(before, id, activeConversationId.value);
      }
    }

    /** `handleSendMessage` (App.tsx:308-389), one turn from submit to settled.
        `chunks` are the deltas the stream yields and `failure`, when present,
        is the clock reading at which it raised. The guard rejects the call
        without any change; a failed image conversion only clears `isLoading`.
        Otherwise every write goes to the conversation that was active when the
        turn began, the result is the turn's closed form, and both busy flags
        end cleared. `request` is what is sent to the model. */
    method HandleSendMessage(userInput: string, image: Option<ImageUpload>, now: nat,
                             chunks: seq<Chunk>, failure: Option<nat>)
      returns (request: Option<seq<Part>>)
      requires Valid()
      modifies this`conversations, this`isLoading, this`isTyping
      ensures Valid()
      ensures !SendAccepted(old(session).Some?, old(isLoading), activeConversationId, userInput, image) ==>
        request == None && unchanged(this`conversations, this`isLoading, this`isTyping)
      ensures SendAccepted(old(session).Some?, old(isLoading), activeConversationId, userInput, image) &&
              image == Some(ConversionFailed) ==>
        request == None && !isLoading && unchanged(this`conversations, this`isTyping)
      ensures SendAccepted(old(session).Some?, old(isLoading), activeConversationId, userInput, image) &&
              image != Some(ConversionFailed) ==>
        var target := activeConversationId.value;
        var data := if image.Some? then Some(image.value.data) else None;
        conversations == TurnList(old(conversations), target, UserMessage(userInput, data, now),
                                  TurnTitle(old(conversations), target, userInput), now, chunks, failure) &&
        request == Some(RequestParts(userInput, data)) &&
        !isLoading && !isTyping
    {
      request := None;
      if session.None? || isLoading || activeConversationId.None? || activeConversationId.value == "" ||
         (userInput == "" && image.None?) {
        return;
      }
      isLoading := true;
      var target := activeConversationId.value;

      var data: Option<ImageData> := None;
      if image.Some? {
        match image.value
        case ConversionFailed =>
          isLoading := false;
          return;
        case Converted(d) =>
          data := Some(d);
      }

      ghost var s0 := conversations;
      var userMessage := UserMessage(userInput, data, now);
      var title := InsertUserMessage(target, userMessage, userInput, now);

      isTyping := true;
      request := Some(RequestParts(userInput, data));
      StreamReply(target, chunks, s0, userMessage, title, now);

      if failure.Some? {
        AppendFallback(target, failure.value, s0, userMessage, title, now, chunks);
      }
      isLoading := false;
      isTyping := false;
      TurnKeepsIds(s0, target, userMessage, title, now, chunks, failure);
    }

    /** The optimistic insert and the opportunistic title (App.tsx:329-341): the
        title is decided on the list as it was before the user's message. */
    method InsertUserMessage(target: string, u: Message, userInput: string, now: nat) returns (title: Option<string>)
      modifies this`conversations
      ensures title == TurnTitle(old(conversations), target, userInput)
      ensures conversations == TurnList(old(conversations), target, u, title, now, [], None)
    {
      var before := conversations;
      conversations := AddMessage(conversations, target, u, now);
      title := TurnTitle(before, target, userInput);
      if title.Some? {
        conversations := UpdateConversation(conversations, target, TitlePatch(title.value), now);
      }
      TurnStarts(before, target, u, title, now);
    }

    /** The `for await` loop of the turn (App.tsx:357-373): the first delta
        appends an AI message holding it, every later delta overwrites that
        message's text with the running concatenation. Starting from the turn
        with no delta, it ends at the turn with all of `chunks`. */
    method StreamReply(target: string, chunks: seq<Chunk>,
                       ghost s0: seq<Conversation>, ghost u: Message, ghost title: Option<string>, ghost now: nat)
      requires conversations == TurnList(s0, target, u, title, now, [], None)
      modifies this`conversations, this`isTyping
      ensures conversations == TurnList(s0, target, u, title, now, chunks, None)
      ensures |chunks| > 0 ==> !isTyping
      ensures |chunks| == 0 ==> isTyping == old(isTyping)
    {
      var aiResponse := "";
      var aiMessageId: Option<string> := None;
      var isFirstChunk := true;
      var i := 0;
      assert chunks[..0] == [];
      while i < |chunks|
        invariant 0 <= i <= |chunks|
        invariant conversations == TurnList(s0, target, u, title, now, chunks[..i], None)
        invariant aiResponse == Concat(chunks[..i])
        invariant isFirstChunk <==> i == 0
        invariant i > 0 ==> aiMessageId == Some(Stamp("ai-", chunks[0].at)) && !isTyping
        invariant i == 0 ==> isTyping == old(isTyping)
        modifies this`conversations, this`isTyping
      {
        ghost var done := chunks[..i];
        assert chunks[..i + 1] == done + [chunks[i]];
        assert (done + [chunks[i]])[..i] == done;
        aiResponse := aiResponse + chunks[i].text;
        assert aiResponse == Concat(done + [chunks[i]]);
        if isFirstChunk {
          isFirstChunk := false;
          isTyping := false;
          aiMessageId := Some(Stamp("ai-", chunks[i].at));
          assert done == [];
          assert TextMessage(aiMessageId.value, aiResponse, Ai) == AiMessage([chunks[i]]);
          assert chunks[..i + 1] == [chunks[i]];
          TurnFirstChunk(s0, target, u, title, now, chunks[i]);
          conversations := AddMessage(conversations, target, TextMessage(aiMessageId.value, aiResponse, Ai), chunks[i].at);
        } else if aiMessageId.Some? {
          TurnNextChunk(s0, target, u, title, now, done, chunks[i]);
          conversations := UpdateLastMessage(conversations, target, aiResponse, chunks[i].at);
        } else {
          // after the first delta the AI message id is always set
          assert false;
        }
        assert conversations == TurnList(s0, target, u, title, now, chunks[..i + 1], None);
        i := i + 1;
      }
      assert chunks[..i] == chunks;
    }

    /** The `catch` of the turn (App.tsx:375-381): the fixed fallback reply is
        appended after whatever the turn already wrote, a partial reply included. */
    method AppendFallback(target: string, at: nat,
                          ghost s0: seq<Conversation>, ghost u: Message, ghost title: Option<string>, ghost now: nat,
                          ghost chunks: seq<Chunk>)
      requires conversations == TurnList(s0, target, u, title, now, chunks, None)
      modifies this`conversations
      ensures conversations == TurnList(s0, target, u, title, now, chunks, Some(at))
    {
      TurnFails(s0, target, u, title, now, chunks, at);
      conversations := AddMessage(conversations, target, FallbackMessage(at), at);
    }

    /** The voice-list effect (App.tsx:99-107): a non-empty list from the engine
        replaces the kept voices with its Arabic ones. */
    method LoadVoices(available: seq<Voice>)
      modifies this`voices
      ensures voices == if |available| > 0 then ArabicVoices(available) else old(voices)
    {
      if |available| > 0 {
        voices := ArabicVoices(available);
      }
    }

    /** `handlePlayAudio`: asking again for the message that is speaking turns it
        off and speaks nothing; otherwise the text is spoken with the preferred
        voice. The speaking id itself is set by the engine's start callback. */
    method HandlePlayAudio(text: string, messageId: string) returns (spoken: Option<Utterance>)
      modifies this`speakingMessageId
      ensures old(speakingMessageId) == Some(messageId) ==> speakingMessageId == None && spoken == None
      ensures old(speakingMessageId) != Some(messageId) ==>
        speakingMessageId == old(speakingMessageId) && spoken == Some(PlanUtterance(voices, text))
    {
      if speakingMessageId == Some(messageId) {
        speakingMessageId := None;
        return None;
      }
      spoken := Some(PlanUtterance(voices, text));
    }

    /** The utterance's start callback. */
    method SpeechStarted(messageId: string)
      modifies this`speakingMessageId
      ensures speakingMessageId == Some(messageId)
    {
      speakingMessageId := Some(messageId);
    }

    /** The utterance's end and error callbacks. */
    method SpeechEnded()
      modifies this`speakingMessageId
      ensures speakingMessageId == None
    {
      speakingMessageId := None;
    }
  }
}
