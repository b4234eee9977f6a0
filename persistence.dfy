/** The record kept under the `conversations` key of the browser's key-value
    store, and the projection to and from it (App.tsx:115-154). */
module Persistence {
  import opened Types

  /** A saved message: the image fields are gone from the type itself. */
  datatype StoredMessage = StoredMessage(id: string, text: string, sender: Sender)

  datatype StoredConversation = StoredConversation(
    id: string,
    title: string,
    messages: seq<StoredMessage>,
    userData: UserData,
    lastUpdated: nat)

  /** What the `conversations` key holds: nothing, text that does not parse as a
      list of conversations, or a parsed list. */
  datatype Storage = Absent | Corrupt | Saved(list: seq<StoredConversation>)

  /** `({ imageUrl, base64Image, mimeType, ...rest }) => rest`. */
  function StripMessage(m: Message): StoredMessage
  {
    StoredMessage(m.id, m.text, m.sender)
  }

  function StripConversation(c: Conversation): StoredConversation
  {
    StoredConversation(c.id, c.title, seq(|c.messages|, j requires 0 <= j < |c.messages| => StripMessage(c.messages[j])),
                       c.userData, c.lastUpdated)
  }

  /** The list as it is written to storage. */
  function StripAll(s: seq<Conversation>): seq<StoredConversation>
  {
    seq(|s|, i requires 0 <= i < |s| => StripConversation(s[i]))
  }

  /** A message read back from storage: the image fields are absent. */
  function RestoreMessage(m: StoredMessage): Message
  {
    TextMessage(m.id, m.text, m.sender)
  }

  function RestoreConversation(c: StoredConversation): Conversation
  {
    Conversation(c.id, c.title, seq(|c.messages|, j requires 0 <= j < |c.messages| => RestoreMessage(c.messages[j])),
                 c.userData, c.lastUpdated)
  }

  function RestoreAll(s: seq<StoredConversation>): seq<Conversation>
  {
    seq(|s|, i requires 0 <= i < |s| => RestoreConversation(s[i]))
  }

  /** The message as it would be after a save and a reload: no image fields. */
  function DropImages(m: Message): Message
  {
    m.(imageUrl := None, base64Image := None, mimeType := None)
  }

  predicate NoImages(s: seq<Conversation>)
  {
    forall i, j :: 0 <= i < |s| && 0 <= j < |s[i].messages| ==>
      s[i].messages[j].imageUrl.None? && s[i].messages[j].base64Image.None? && s[i].messages[j].mimeType.None?
  }

  /** Saving keeps every conversation, in order, with its id, title, persona and
      time stamp, and every message with its id, text and sender. */
  lemma StripKeeps(s: seq<Conversation>)
    ensures |StripAll(s)| == |s|
    ensures forall i :: 0 <= i < |s| ==>
      var c, d := s[i], StripAll(s)[i];
      d.id == c.id && d.title == c.title && d.userData == c.userData &&
      d.lastUpdated == c.lastUpdated && |d.messages| == |c.messages| &&
      forall j :: 0 <= j < |c.messages| ==>
        d.messages[j] == StoredMessage(c.messages[j].id, c.messages[j].text, c.messages[j].sender)
  {
  }

  /** Saving then loading gives back the same list with the image fields dropped. */
  lemma SaveThenLoad(s: seq<Conversation>)
    ensures |RestoreAll(StripAll(s))| == |s|
    ensures forall i :: 0 <= i < |s| ==>
      RestoreAll(StripAll(s))[i] == s[i].(messages := seq(|s[i].messages|, j requires 0 <= j < |s[i].messages| => DropImages(s[i].messages[j])))
    ensures NoImages(RestoreAll(StripAll(s)))
    ensures NoImages(s) ==> RestoreAll(StripAll(s)) == s
  {
    var r := RestoreAll(StripAll(s));
    forall i | 0 <= i < |s|
      ensures r[i] == s[i].(messages := seq(|s[i].messages|, j requires 0 <= j < |s[i].messages| => DropImages(s[i].messages[j])))
    {
      var c := s[i];
      assert r[i] == RestoreConversation(StripConversation(c));
      assert r[i].messages == seq(|c.messages|, j requires 0 <= j < |c.messages| => DropImages(c.messages[j]));
    }
    if NoImages(s) {
      forall i | 0 <= i < |s| ensures r[i] == s[i] {
        var c := s[i];
        assert r[i].messages == c.messages by {
          forall j | 0 <= j < |c.messages| ensures r[i].messages[j] == c.messages[j] {
            assert c.messages[j].imageUrl.None? && c.messages[j].base64Image.None? && c.messages[j].mimeType.None?;
          }
        }
      }
    }
  }

  /** Loading then saving writes back exactly what was read. */
  lemma LoadThenSave(s: seq<StoredConversation>)
    ensures StripAll(RestoreAll(s)) == s
  {
    var r := StripAll(RestoreAll(s));
    forall i | 0 <= i < |s| ensures r[i] == s[i] {
      assert r[i].messages == s[i].messages;
    }
  }
}
