/** The copy-on-write updates of the conversation list (App.tsx:233-274) and
    the recency order the app sorts by (App.tsx:123, 227, 240). */
module Reducers {
  import opened Types

  predicate HasId(s: seq<Conversation>, id: string)
  {
    exists i :: 0 <= i < |s| && s[i].id == id
  }

  /** Index of the first conversation with `id`, as `Array.prototype.find` scans. */
  function FirstIndex(s: seq<Conversation>, id: string): (r: Option<nat>)
    ensures r.None? <==> !HasId(s, id)
    ensures r.Some? ==> r.value < |s| && s[r.value].id == id
    ensures r.Some? ==> forall j :: 0 <= j < r.value ==> s[j].id != id
  {
    if |s| == 0 then None
    else if s[0].id == id then Some(0)
    else match FirstIndex(s[1..], id)
      case None => None
      case Some(k) => Some(k + 1)
  }

  /** The conversation `conversations.find(c => c.id === id)` returns. */
  function Find(s: seq<Conversation>, id: string): Option<Conversation>
  {
    match FirstIndex(s, id)
    case None => None
    case Some(k) => Some(s[k])
  }

  /** Index of the last conversation with `id`: the one a `map` visits last. */
  function LastIndex(s: seq<Conversation>, id: string): (r: Option<nat>)
    ensures r.None? <==> !HasId(s, id)
    ensures r.Some? ==> r.value < |s| && s[r.value].id == id
    ensures r.Some? ==> forall j :: r.value < j < |s| ==> s[j].id != id
  {
    if |s| == 0 then None
    else if s[|s| - 1].id == id then Some(|s| - 1)
    else LastIndex(s[..|s| - 1], id)
  }

  /** `addMessageToConversation`: every conversation with `id` gets `m` as its
      new last message and `lastUpdated := now`; the rest are untouched. */
  function AddMessage(s: seq<Conversation>, id: string, m: Message, now: nat): (r: seq<Conversation>)
    ensures |r| == |s|
    ensures forall i :: 0 <= i < |s| && s[i].id != id ==> r[i] == s[i]
    ensures forall i :: 0 <= i < |s| && s[i].id == id ==>
      r[i].id == id && r[i].title == s[i].title && r[i].userData == s[i].userData &&
      r[i].messages == s[i].messages + [m] && r[i].lastUpdated == now
    ensures !HasId(s, id) ==> r == s
  {
    seq(|s|, i requires 0 <= i < |s| =>
      if s[i].id == id then s[i].(messages := s[i].messages + [m], lastUpdated := now) else s[i])
  }

  /** Replaces the text of the last message, if there is one. */
  function WithLastText(msgs: seq<Message>, text: string): (r: seq<Message>)
    ensures |r| == |msgs|
    ensures forall j :: 0 <= j < |msgs| - 1 ==> r[j] == msgs[j]
    ensures |msgs| > 0 ==> r[|msgs| - 1] == msgs[|msgs| - 1].(text := text)
  {
    if |msgs| == 0 then msgs else msgs[|msgs| - 1 := msgs[|msgs| - 1].(text := text)]
  }

  /** `updateLastMessageInConversation`: every conversation with `id` keeps its
      message count and all messages but the last, whose text becomes `text`
      (an empty list stays empty), and is stamped `now`; the rest are untouched. */
  function UpdateLastMessage(s: seq<Conversation>, id: string, text: string, now: nat): (r: seq<Conversation>)
    ensures |r| == |s|
    ensures forall i :: 0 <= i < |s| && s[i].id != id ==> r[i] == s[i]
    ensures forall i :: 0 <= i < |s| && s[i].id == id ==>
      r[i].id == id && r[i].title == s[i].title && r[i].userData == s[i].userData &&
      r[i].messages == WithLastText(s[i].messages, text) && r[i].lastUpdated == now
    ensures !HasId(s, id) ==> r == s
  {
    seq(|s|, i requires 0 <= i < |s| =>
      if s[i].id == id then s[i].(messages := WithLastText(s[i].messages, text), lastUpdated := now) else s[i])
  }

  /** A `Partial<Conversation>`: the fields an update sets. */
  datatype Patch = Patch(
    id: Option<string>,
    title: Option<string>,
    messages: Option<seq<Message>>,
    userData: Option<UserData>,
    lastUpdated: Option<nat>)

  function TitlePatch(title: string): Patch
  {
    Patch(None, Some(title), None, None, None)
  }

  function UserDataPatch(data: UserData): Patch
  {
    Patch(None, None, None, Some(data), None)
  }

  function Pick<T>(given: Option<T>, current: T): T
  {
    if given.Some? then given.value else current
  }

  /** `{ ...c, ...updates, lastUpdated: now }`. */
  function Merge(c: Conversation, p: Patch, now: nat): Conversation
  {
    Conversation(Pick(p.id, c.id), Pick(p.title, c.title), Pick(p.messages, c.messages),
                 Pick(p.userData, c.userData), now)
  }

  /** `updateConversation`: the given fields replace those of every conversation
      with `id`, the others keep their values, and the clock reading wins over any
      `lastUpdated` in the patch. */
  function UpdateConversation(s: seq<Conversation>, id: string, p: Patch, now: nat): (r: seq<Conversation>)
    ensures |r| == |s|
    ensures forall i :: 0 <= i < |s| && s[i].id != id ==> r[i] == s[i]
    ensures forall i :: 0 <= i < |s| && s[i].id == id ==>
      r[i].id == (if p.id.Some? then p.id.value else id) &&
      r[i].title == (if p.title.Some? then p.title.value else s[i].title) &&
      r[i].messages == (if p.messages.Some? then p.messages.value else s[i].messages) &&
      r[i].userData == (if p.userData.Some? then p.userData.value else s[i].userData) &&
      r[i].lastUpdated == now
    ensures !HasId(s, id) ==> r == s
  {
    seq(|s|, i requires 0 <= i < |s| => if s[i].id == id then Merge(s[i], p, now) else s[i])
  }

  /** `conversations.filter(c => c.id !== id)`. */
  function RemoveById(s: seq<Conversation>, id: string): (r: seq<Conversation>)
    ensures |r| <= |s|
    ensures forall c :: c in r <==> c in s && c.id != id
    ensures !HasId(s, id) ==> r == s
  {
    if |s| == 0 then []
    else if s[0].id == id then RemoveById(s[1..], id)
    else [s[0]] + RemoveById(s[1..], id)
  }

  /** Filtering a list with one more conversation at the end filters the list, then
      keeps or drops that conversation. */
  lemma {:induction false} RemoveByIdSnoc(s: seq<Conversation>, x: Conversation, id: string)
    ensures RemoveById(s + [x], id) == RemoveById(s, id) + (if x.id == id then [] else [x])
  {
    var t := s + [x];
    if |s| > 0 {
      assert t[0] == s[0] && t[1..] == s[1..] + [x];
      var rest := RemoveById(t[1..], id);
      assert RemoveById(t, id) == (if s[0].id == id then [] else [s[0]]) + rest;
      RemoveByIdSnoc(s[1..], x, id);
      assert RemoveById(s, id) == (if s[0].id == id then [] else [s[0]]) + RemoveById(s[1..], id);
    } else {
      assert t == [x] && t[1..] == [];
    }
  }

  /** The positions of the conversations whose id differs from `id`, in increasing
      order: the reference the filter's order is checked against. */
  function SurvivorPositions(s: seq<Conversation>, id: string): (ps: seq<nat>)
    ensures forall k :: 0 <= k < |ps| ==> ps[k] < |s| && s[ps[k]].id != id
    ensures forall k, l :: 0 <= k < l < |ps| ==> ps[k] < ps[l]
    ensures forall i :: 0 <= i < |s| && s[i].id != id ==> i in ps
  {
    if |s| == 0 then []
    else SurvivorPositions(s[..|s| - 1], id) + (if s[|s| - 1].id == id then [] else [|s| - 1])
  }

  /** The filter keeps the survivors in their original order, each once: it is
      the list read at `SurvivorPositions`. */
  lemma {:induction false} RemoveKeepsOrder(s: seq<Conversation>, id: string)
    ensures RemoveById(s, id) == ReadAt(s, SurvivorPositions(s, id))
  {
    if |s| > 0 {
      var init, last := s[..|s| - 1], s[|s| - 1];
      assert s == init + [last];
      RemoveKeepsOrder(init, id);
      RemoveByIdSnoc(init, last, id);
      ReadAtSnoc(init, last, SurvivorPositions(init, id), last.id != id);
    }
  }
  /** Most recently updated first. */
  predicate Descending(s: seq<Conversation>)
  {
    forall i, j :: 0 <= i < j < |s| ==> s[i].lastUpdated >= s[j].lastUpdated
  }

  /** `k` is the first position holding the greatest `lastUpdated`. */
  predicate IsFirstLatest(s: seq<Conversation>, k: int)
  {
    0 <= k < |s| &&
    (forall j :: 0 <= j < |s| ==> s[j].lastUpdated <= s[k].lastUpdated) &&
    (forall j :: 0 <= j < k ==> s[j].lastUpdated < s[k].lastUpdated)
  }

  /** Puts `x` before every element it is at least as recent as; equal keys keep
      `x` in front, which is what a stable sort does for an element that came first. */
  function Insert(x: Conversation, t: seq<Conversation>): (r: seq<Conversation>)
    ensures multiset(r) == multiset(t) + multiset{x}
    ensures |r| == |t| + 1
  {
    if |t| == 0 || t[0].lastUpdated <= x.lastUpdated then [x] + t
    else
      assert t == [t[0]] + t[1..];
      [t[0]] + Insert(x, t[1..])
  }

  /** `sort((a, b) => b.lastUpdated - a.lastUpdated)`: the stable sort by
      descending `lastUpdated` that JavaScript engines perform. */
  function SortByRecency(s: seq<Conversation>): (r: seq<Conversation>)
    ensures multiset(r) == multiset(s)
    ensures |r| == |s|
  {
    if |s| == 0 then []
    else
      assert s == [s[0]] + s[1..];
      Insert(s[0], SortByRecency(s[1..]))
  }

  lemma {:induction false} InsertDescending(x: Conversation, t: seq<Conversation>)
    requires Descending(t)
    ensures Descending(Insert(x, t))
    ensures |t| > 0 ==> Insert(x, t)[0] == (if t[0].lastUpdated <= x.lastUpdated then x else t[0])
  {
    if |t| > 0 && t[0].lastUpdated > x.lastUpdated {
      InsertDescending(x, t[1..]);
      InsertBounded(x, t[1..], t[0].lastUpdated);
      var r := Insert(x, t);
      var rest := Insert(x, t[1..]);
      assert r == [t[0]] + rest;
      forall i, j | 0 <= i < j < |r| ensures r[i].lastUpdated >= r[j].lastUpdated {
        if i == 0 {
          assert r[j] == rest[j - 1];
        } else {
          assert r[i] == rest[i - 1] && r[j] == rest[j - 1];
        }
      }
    }
  }

  /** Inserting keeps every element under a common bound on `lastUpdated`. */
  lemma {:induction false} InsertBounded(x: Conversation, t: seq<Conversation>, bound: nat)
    requires x.lastUpdated <= bound
    requires forall k :: 0 <= k < |t| ==> t[k].lastUpdated <= bound
    ensures forall k :: 0 <= k < |Insert(x, t)| ==> Insert(x, t)[k].lastUpdated <= bound
  {
    if |t| > 0 && t[0].lastUpdated > x.lastUpdated {
      InsertBounded(x, t[1..], bound);
      var r := Insert(x, t);
      assert r == [t[0]] + Insert(x, t[1..]);
    }
  }

  lemma {:induction false} SortDescending(s: seq<Conversation>)
    ensures Descending(SortByRecency(s))
  {
    if |s| > 0 {
      SortDescending(s[1..]);
      InsertDescending(s[0], SortByRecency(s[1..]));
    }
  }

  /** The first position holding the greatest `lastUpdated`: the reference
      definition of "most recent" that the sort is checked against. */
  function LatestIndex(s: seq<Conversation>): (k: nat)
    requires |s| > 0
    ensures IsFirstLatest(s, k)
  {
    if |s| == 1 then 0
    else
      var k' := LatestIndex(s[1..]);
      if s[k' + 1].lastUpdated > s[0].lastUpdated then k' + 1 else 0
  }

  /** The head of the sorted list is the first conversation, in the original
      order, that holds the greatest `lastUpdated`. */
  lemma {:induction false} SortHead(s: seq<Conversation>)
    requires |s| > 0
    ensures SortByRecency(s)[0] == s[LatestIndex(s)]
  {
    if |s| > 1 {
      var t := SortByRecency(s[1..]);
      SortHead(s[1..]);
      SortDescending(s[1..]);
      InsertDescending(s[0], t);
    }
  }

  /** Removing one id keeps every other id present. */
  lemma RemoveKeepsOthers(s: seq<Conversation>, id: string, other: string)
    requires other != id
    ensures HasId(RemoveById(s, id), other) <==> HasId(s, other)
  {
    var r := RemoveById(s, id);
    if HasId(s, other) {
      var k :| 0 <= k < |s| && s[k].id == other;
      assert s[k] in r;
    }
    if HasId(r, other) {
      var k :| 0 <= k < |r| && r[k].id == other;
      assert r[k] in s;
    }
  }

  /** After a removal that leaves survivors, the sorted survivors start with the
      latest survivor, which was in the list before and does not carry the
      removed id. */
  lemma LatestSurvivor(s: seq<Conversation>, id: string)
    requires |RemoveById(s, id)| > 0
    ensures var r := RemoveById(s, id);
      var latest := r[LatestIndex(r)];
      latest.id != id && latest in s && HasId(s, latest.id) &&
      SortByRecency(r)[0] == latest && HasId(SortByRecency(r), latest.id) && Descending(SortByRecency(r))
  {
    var r := RemoveById(s, id);
    var latest := r[LatestIndex(r)];
    SortHead(r);
    SortDescending(r);
    assert latest in r;
    var k :| 0 <= k < |s| && s[k] == latest;
    assert s[k].id == latest.id;
    assert SortByRecency(r)[0].id == latest.id;
  }

  /** The shape `handleNewChat` produces: the sorted old list is most recent first,
      and so is the whole list when the new conversation is at least as recent as
      every old one. */
  lemma PrependToSorted(x: Conversation, s: seq<Conversation>)
    ensures Descending(SortByRecency(s))
    ensures (forall c :: c in s ==> c.lastUpdated <= x.lastUpdated) ==> Descending([x] + SortByRecency(s))
  {
    var sorted := SortByRecency(s);
    SortDescending(s);
    if forall c :: c in s ==> c.lastUpdated <= x.lastUpdated {
      forall c | c in sorted ensures c.lastUpdated <= x.lastUpdated {
        assert c in multiset(sorted);
        assert c in multiset(s);
      }
      PrependLatest(x, sorted);
    }
  }

  /** The head of the sorted survivors names a conversation of the list before
      the removal. */
  lemma SurvivorHeadKnown(s: seq<Conversation>, id: string)
    requires |RemoveById(s, id)| > 0
    ensures |SortByRecency(RemoveById(s, id))| > 0
    ensures HasId(s, SortByRecency(RemoveById(s, id))[0].id)
  {
    var r := RemoveById(s, id);
    var h := SortByRecency(r)[0];
    assert h in multiset(SortByRecency(r));
    assert h in r;
    var k :| 0 <= k < |s| && s[k] == h;
    assert s[k].id == h.id;
  }

  /** Prepending a conversation at least as recent as all others keeps a
      descending list descending (the shape `handleNewChat` produces). */
  lemma PrependLatest(x: Conversation, t: seq<Conversation>)
    requires Descending(t)
    requires forall c :: c in t ==> c.lastUpdated <= x.lastUpdated
    ensures Descending([x] + t)
  {
    forall i, j | 0 <= i < j < |[x] + t| ensures ([x] + t)[i].lastUpdated >= ([x] + t)[j].lastUpdated {
      if i == 0 {
        assert ([x] + t)[j] == t[j - 1];
        assert t[j - 1] in t;
      }
    }
  }
}
