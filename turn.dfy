/** One outgoing turn of `handleSendMessage` (App.tsx:308-389), as a closed
    form: what the turn appends to the target conversation, and the one-step
    facts that tie the streaming loop to that closed form. */
module Turn {
  import opened Types
  import opened Reducers

  /** The reply the app substitutes when the stream fails. */
  const FallbackText: string := "حبيبي، شكلي مش مركز دلوقتي. ممكن تجرب تاني كمان شوية؟ أنا آسف."

  /** Longest title kept before the ellipsis is added. */
  const TitleLimit: nat := 40

  /** A text delta of the streamed reply, with the clock reading when it arrived. */
  datatype Chunk = Chunk(text: string, at: nat)

  /** The converted upload: inline bytes, their type, and a local display url. */
  datatype ImageData = ImageData(base64: string, mimeType: string, url: string)

  /** The outcome of converting an attached file. */
  datatype ImageUpload = Converted(data: ImageData) | ConversionFailed

  /** One part of the request sent to the model. */
  datatype Part = TextPart(text: string) | InlineImage(data: string, mimeType: string)

  /** The guard at the top of the turn: a session exists, no turn is in flight,
      a conversation is active under a non-empty id (the empty string is falsy,
      like a missing id), and there is text or an attached file. */
  predicate SendAccepted(hasSession: bool, isLoading: bool, active: Option<string>,
                         input: string, image: Option<ImageUpload>)
  {
    hasSession && !isLoading && active.Some? && active.value != "" && (input != "" || image.Some?)
  }

  /** `userInput.substring(0, 40) + (userInput.length > 40 ? '...' : '')`. */
  function TitleFor(input: string): (r: string)
    ensures |r| <= TitleLimit + 3
    ensures |input| <= TitleLimit ==> r == input
    ensures |input| > TitleLimit ==> |r| == TitleLimit + 3 && r[..TitleLimit] == input[..TitleLimit] && r[TitleLimit..] == "..."
  {
    if |input| <= TitleLimit then input[..|input|] else input[..TitleLimit] + "..."
  }

  /** The title the turn assigns: only when the conversation that was active when
      the turn began had fewer than 3 messages before the user's message, and the
      input is not empty. */
  function TurnTitle(s: seq<Conversation>, target: string, input: string): (r: Option<string>)
    ensures r.Some? <==>
      FirstIndex(s, target).Some? && |s[FirstIndex(s, target).value].messages| < 3 && input != ""
    ensures r.Some? ==> r.value == TitleFor(input)
  {
    match Find(s, target)
    case None => None
    case Some(c) => if |c.messages| < 3 && input != "" then Some(TitleFor(input)) else None
  }

  /** The optimistic user message, carrying the upload's fields when there is one. */
  function UserMessage(input: string, image: Option<ImageData>, now: nat): Message
  {
    match image
    case None => TextMessage(Stamp("user-", now), input, User)
    case Some(d) => Message(Stamp("user-", now), input, User, Some(d.url), Some(d.base64), Some(d.mimeType))
  }

  /** The parts of the request: the text when there is some, then the inline
      image when both its bytes and its type are non-empty. */
  function RequestParts(input: string, image: Option<ImageData>): (r: seq<Part>)
    ensures |r| == (if input != "" then 1 else 0) +
                   (if image.Some? && image.value.base64 != "" && image.value.mimeType != "" then 1 else 0)
    ensures input != "" ==> r[0] == TextPart(input)
    ensures image.Some? && image.value.base64 != "" && image.value.mimeType != "" ==>
      r[|r| - 1] == InlineImage(image.value.base64, image.value.mimeType)
  {
    (if input != "" then [TextPart(input)] else []) +
    (if image.Some? && image.value.base64 != "" && image.value.mimeType != ""
     then [InlineImage(image.value.base64, image.value.mimeType)] else [])
  }

  /** The running concatenation of the deltas received so far. */
  function Concat(cs: seq<Chunk>): string
  {
    if |cs| == 0 then "" else Concat(cs[..|cs| - 1]) + cs[|cs| - 1].text
  }

  lemma {:induction false} ConcatAppend(a: seq<Chunk>, b: seq<Chunk>)
    ensures Concat(a + b) == Concat(a) + Concat(b)
    decreases |b|
  {
    if |b| > 0 {
      assert (a + b)[..|a + b| - 1] == a + b[..|b| - 1];
      ConcatAppend(a, b[..|b| - 1]);
    } else {
      assert a + b == a;
    }
  }

  /** The AI message of the turn: its id comes from the first delta's clock
      reading, its text is every delta received so far. */
  function AiMessage(cs: seq<Chunk>): Message
    requires |cs| > 0
  {
    TextMessage(Stamp("ai-", cs[0].at), Concat(cs), Ai)
  }

  function FallbackMessage(at: nat): Message
  {
    TextMessage(Stamp("error-", at), FallbackText, Ai)
  }

  /** Everything the turn appends to the target conversation, in order. */
  function TurnAppended(u: Message, cs: seq<Chunk>, failure: Option<nat>): seq<Message>
  {
    [u] + (if |cs| > 0 then [AiMessage(cs)] else []) + (if failure.Some? then [FallbackMessage(failure.value)] else [])
  }

  /** The clock reading of the turn's last write. */
  function TurnTime(now: nat, cs: seq<Chunk>, failure: Option<nat>): nat
  {
    if failure.Some? then failure.value else if |cs| > 0 then cs[|cs| - 1].at else now
  }

  /** A conversation with the target id once the turn has taken effect. */
  function AfterTurn(c: Conversation, u: Message, title: Option<string>, now: nat,
                     cs: seq<Chunk>, failure: Option<nat>): Conversation
  {
    c.(title := if title.Some? then title.value else c.title,
       messages := c.messages + TurnAppended(u, cs, failure),
       lastUpdated := TurnTime(now, cs, failure))
  }

  /** The conversation list once the turn has taken effect: only conversations
      with the id captured when the turn began are touched. */
  function TurnList(s: seq<Conversation>, target: string, u: Message, title: Option<string>, now: nat,
                    cs: seq<Chunk>, failure: Option<nat>): seq<Conversation>
  {
    seq(|s|, i requires 0 <= i < |s| => if s[i].id == target then AfterTurn(s[i], u, title, now, cs, failure) else s[i])
  }

  /** The optimistic insert, followed by the title update when there is one,
      is the turn with no delta received yet. */
  lemma TurnStarts(s: seq<Conversation>, target: string, u: Message, title: Option<string>, now: nat)
    ensures (if title.Some? then UpdateConversation(AddMessage(s, target, u, now), target, TitlePatch(title.value), now)
             else AddMessage(s, target, u, now)) == TurnList(s, target, u, title, now, [], None)
  {
    var a := AddMessage(s, target, u, now);
    var r := if title.Some? then UpdateConversation(a, target, TitlePatch(title.value), now) else a;
    var t := TurnList(s, target, u, title, now, [], None);
    forall i | 0 <= i < |s| ensures r[i] == t[i] {
      if s[i].id == target {
        assert TurnAppended(u, [], None) == [u];
      }
    }
  }

  /** The first delta appends the AI message holding that delta. */
  lemma TurnFirstChunk(s: seq<Conversation>, target: string, u: Message, title: Option<string>, now: nat, c: Chunk)
    ensures AddMessage(TurnList(s, target, u, title, now, [], None), target, AiMessage([c]), c.at)
         == TurnList(s, target, u, title, now, [c], None)
  {
    var before := TurnList(s, target, u, title, now, [], None);
    var r := AddMessage(before, target, AiMessage([c]), c.at);
    var t := TurnList(s, target, u, title, now, [c], None);
    forall i | 0 <= i < |s| ensures r[i] == t[i] {
      if s[i].id == target {
        assert TurnAppended(u, [], None) == [u];
        assert TurnAppended(u, [c], None) == [u, AiMessage([c])];
        assert s[i].messages + [u] + [AiMessage([c])] == s[i].messages + [u, AiMessage([c])];
      }
    }
  }

  /** On one conversation: rewriting the last message's text with the longer
      running text turns the reply of `cs` into the reply of `cs + [c]`. */
  lemma AfterTurnNextChunk(conv: Conversation, u: Message, title: Option<string>, now: nat,
                           cs: seq<Chunk>, c: Chunk)
    requires |cs| > 0
    ensures
      var before := AfterTurn(conv, u, title, now, cs, None);
      before.(messages := WithLastText(before.messages, Concat(cs + [c])), lastUpdated := c.at)
        == AfterTurn(conv, u, title, now, cs + [c], None)
  {
    AfterTurnReply(conv, u, title, now, cs);
    AfterTurnReply(conv, u, title, now, cs + [c]);
    AiMessageGrows(cs, c);
    LastTextOfAppend(conv.messages + [u], AiMessage(cs), Concat(cs + [c]));
  }

  /** With at least one delta and no failure, the turn appends the user's message
      and the AI message, and is stamped with the last delta's clock reading. */
  lemma AfterTurnReply(conv: Conversation, u: Message, title: Option<string>, now: nat, cs: seq<Chunk>)
    requires |cs| > 0
    ensures AfterTurn(conv, u, title, now, cs, None).messages == (conv.messages + [u]) + [AiMessage(cs)]
    ensures AfterTurn(conv, u, title, now, cs, None).lastUpdated == cs[|cs| - 1].at
  {
    assert TurnAppended(u, cs, None) == [u, AiMessage(cs)];
  }

  /** One more delta keeps the AI message's id and lengthens its text. */
  lemma AiMessageGrows(cs: seq<Chunk>, c: Chunk)
    requires |cs| > 0
    ensures AiMessage(cs + [c]) == AiMessage(cs).(text := Concat(cs + [c]))
    ensures Concat(cs + [c]) == Concat(cs) + c.text
  {
    assert (cs + [c])[0] == cs[0];
    assert (cs + [c])[..|cs|] == cs;
  }

  lemma LastTextOfAppend(m: seq<Message>, a: Message, text: string)
    ensures WithLastText(m + [a], text) == m + [a.(text := text)]
  {
    var w := WithLastText(m + [a], text);
    forall j | 0 <= j < |w| ensures w[j] == (m + [a.(text := text)])[j] {
      if j < |m| {
        assert w[j] == (m + [a])[j];
      }
    }
  }

  /** A later delta rewrites the last message, the AI message, with the longer
      running text; nothing is appended. */
  lemma TurnNextChunk(s: seq<Conversation>, target: string, u: Message, title: Option<string>, now: nat,
                      cs: seq<Chunk>, c: Chunk)
    requires |cs| > 0
    ensures UpdateLastMessage(TurnList(s, target, u, title, now, cs, None), target, Concat(cs + [c]), c.at)
         == TurnList(s, target, u, title, now, cs + [c], None)
  {
    var before := TurnList(s, target, u, title, now, cs, None);
    var r := UpdateLastMessage(before, target, Concat(cs + [c]), c.at);
    var t := TurnList(s, target, u, title, now, cs + [c], None);
    forall i | 0 <= i < |s| ensures r[i] == t[i] {
      if s[i].id == target {
        AfterTurnNextChunk(s[i], u, title, now, cs, c);
        var b := before[i];
        var w := WithLastText(b.messages, Concat(cs + [c]));
        assert r[i].messages == w by {
          forall j | 0 <= j < |w| ensures r[i].messages[j] == w[j] { }
        }
      }
    }
  }

  /** A failure appends the fallback after whatever the turn already added. */
  lemma TurnFails(s: seq<Conversation>, target: string, u: Message, title: Option<string>, now: nat,
                  cs: seq<Chunk>, at: nat)
    ensures AddMessage(TurnList(s, target, u, title, now, cs, None), target, FallbackMessage(at), at)
         == TurnList(s, target, u, title, now, cs, Some(at))
  {
    var before := TurnList(s, target, u, title, now, cs, None);
    var r := AddMessage(before, target, FallbackMessage(at), at);
    var t := TurnList(s, target, u, title, now, cs, Some(at));
    forall i | 0 <= i < |s| ensures r[i] == t[i] {
      if s[i].id == target {
        assert TurnAppended(u, cs, Some(at)) == TurnAppended(u, cs, None) + [FallbackMessage(at)];
      }
    }
  }

  /** A turn whose stream ends normally adds exactly the user's message and, when
      at least one delta arrived, exactly one AI message holding all deltas in order. */
  lemma TurnSucceeds(c: Conversation, u: Message, title: Option<string>, now: nat, cs: seq<Chunk>)
    ensures |cs| == 0 ==> AfterTurn(c, u, title, now, cs, None).messages == c.messages + [u]
    ensures |cs| > 0 ==>
      var ms := AfterTurn(c, u, title, now, cs, None).messages;
      |ms| == |c.messages| + 2 && ms[..|c.messages|] == c.messages && ms[|c.messages|] == u &&
      ms[|c.messages| + 1].sender == Ai && ms[|c.messages| + 1].text == Concat(cs)
  {
    if |cs| > 0 {
      var ms := AfterTurn(c, u, title, now, cs, None).messages;
      assert ms == c.messages + [u, AiMessage(cs)];
    }
  }

  /** A turn whose stream raises ends with the fixed fallback message, after the
      user's message and any partial AI message, which is kept. */
  lemma TurnFailsWithFallback(c: Conversation, u: Message, title: Option<string>, now: nat, cs: seq<Chunk>, at: nat)
    ensures
      var ms := AfterTurn(c, u, title, now, cs, Some(at)).messages;
      |ms| > 0 && ms[|ms| - 1].text == FallbackText && ms[|ms| - 1].sender == Ai &&
      ms[..|ms| - 1] == AfterTurn(c, u, title, now, cs, None).messages
  {
    var ms := AfterTurn(c, u, title, now, cs, Some(at)).messages;
    assert ms == AfterTurn(c, u, title, now, cs, None).messages + [FallbackMessage(at)];
  }

  /** The turn renames no conversation: every id that named one still does. */
  lemma TurnKeepsIds(s: seq<Conversation>, target: string, u: Message, title: Option<string>, now: nat,
                     cs: seq<Chunk>, failure: Option<nat>)
    ensures forall id :: HasId(TurnList(s, target, u, title, now, cs, failure), id) <==> HasId(s, id)
  {
    var r := TurnList(s, target, u, title, now, cs, failure);
    forall id ensures HasId(r, id) <==> HasId(s, id) {
      if HasId(s, id) {
        var k :| 0 <= k < |s| && s[k].id == id;
        assert r[k].id == id;
      }
      if HasId(r, id) {
        var k :| 0 <= k < |r| && r[k].id == id;
        assert s[k].id == id;
      }
    }
  }

  /** Only conversations with the target id change; the others are left as they were. */
  lemma TurnTouchesOnlyTarget(s: seq<Conversation>, target: string, u: Message, title: Option<string>, now: nat,
                              cs: seq<Chunk>, failure: Option<nat>)
    ensures |TurnList(s, target, u, title, now, cs, failure)| == |s|
    ensures forall i :: 0 <= i < |s| && s[i].id != target ==> TurnList(s, target, u, title, now, cs, failure)[i] == s[i]
    ensures forall i :: 0 <= i < |s| ==> TurnList(s, target, u, title, now, cs, failure)[i].id == s[i].id
    ensures !HasId(s, target) ==> TurnList(s, target, u, title, now, cs, failure) == s
  {
  }
}
