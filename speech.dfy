/** Voice handling of the text-to-speech button (App.tsx:99-112, 276-306):
    which voices are kept, and which one an utterance uses. */
module Speech {
  import opened Types

  /** The preferred regional voice tag (Egyptian Arabic). */
  const PreferredLang: string := "ar-EG"

  /** Speaking rate and pitch, in hundredths (0.95 and 1). */
  const RatePercent: nat := 95
  const PitchPercent: nat := 100

  datatype Voice = Voice(name: string, lang: string)

  /** What is handed to the speech engine. */
  datatype Utterance = Utterance(text: string, voice: Option<Voice>, lang: string, ratePercent: nat, pitchPercent: nat)

  predicate StartsWith(s: string, prefix: string)
  {
    |prefix| <= |s| && s[..|prefix|] == prefix
  }

  /** `voices.filter(v => v.lang.startsWith('ar'))`. */
  function ArabicVoices(all: seq<Voice>): (r: seq<Voice>)
    ensures |r| <= |all|
    ensures forall v :: v in r <==> v in all && StartsWith(v.lang, "ar")
  {
    if |all| == 0 then []
    else if StartsWith(all[0].lang, "ar") then [all[0]] + ArabicVoices(all[1..])
    else ArabicVoices(all[1..])
  }

  /** Filtering a list with one more voice at the end filters the list, then keeps
      or drops that voice. */
  lemma {:induction false} ArabicVoicesSnoc(all: seq<Voice>, v: Voice)
    ensures ArabicVoices(all + [v]) == ArabicVoices(all) + (if StartsWith(v.lang, "ar") then [v] else [])
  {
    var t := all + [v];
    if |all| > 0 {
      assert t[0] == all[0] && t[1..] == all[1..] + [v];
      var rest := ArabicVoices(t[1..]);
      assert ArabicVoices(t) == (if StartsWith(all[0].lang, "ar") then [all[0]] else []) + rest;
      ArabicVoicesSnoc(all[1..], v);
      assert ArabicVoices(all) == (if StartsWith(all[0].lang, "ar") then [all[0]] else []) + ArabicVoices(all[1..]);
    } else {
      assert t == [v] && t[1..] == [];
    }
  }

  /** The positions of the Arabic voices, in increasing order: the reference the
      filter's order is checked against. */
  function ArabicPositions(all: seq<Voice>): (ps: seq<nat>)
    ensures forall k :: 0 <= k < |ps| ==> ps[k] < |all| && StartsWith(all[ps[k]].lang, "ar")
    ensures forall k, l :: 0 <= k < l < |ps| ==> ps[k] < ps[l]
    ensures forall i :: 0 <= i < |all| && StartsWith(all[i].lang, "ar") ==> i in ps
  {
    if |all| == 0 then []
    else ArabicPositions(all[..|all| - 1]) + (if StartsWith(all[|all| - 1].lang, "ar") then [|all| - 1] else [])
  }

  /** The kept voices are the Arabic ones in the engine's order, each once: the
      list read at `ArabicPositions`. This order decides which voice `PickVoice`
      meets first. */
  lemma {:induction false} ArabicKeepsOrder(all: seq<Voice>)
    ensures ArabicVoices(all) == ReadAt(all, ArabicPositions(all))
  {
    if |all| > 0 {
      var init, last := all[..|all| - 1], all[|all| - 1];
      assert all == init + [last];
      ArabicKeepsOrder(init);
      ArabicVoicesSnoc(init, last);
      ReadAtSnoc(init, last, ArabicPositions(init), StartsWith(last.lang, "ar"));
    }
  }

  predicate IsFirstExact(vs: seq<Voice>, k: int, lang: string)
  {
    0 <= k < |vs| && vs[k].lang == lang && forall j :: 0 <= j < k ==> vs[j].lang != lang
  }

  predicate IsFirstPrefix(vs: seq<Voice>, k: int, prefix: string)
  {
    0 <= k < |vs| && StartsWith(vs[k].lang, prefix) && forall j :: 0 <= j < k ==> !StartsWith(vs[j].lang, prefix)
  }

  /** `voices.find(v => v.lang === lang)`, as a position. */
  function FindExact(vs: seq<Voice>, lang: string): (r: Option<nat>)
    ensures r.Some? ==> IsFirstExact(vs, r.value, lang)
    ensures r.None? ==> forall j :: 0 <= j < |vs| ==> vs[j].lang != lang
  {
    if |vs| == 0 then None
    else if vs[0].lang == lang then Some(0)
    else match FindExact(vs[1..], lang)
      case None => None
      case Some(k) => Some(k + 1)
  }

  /** `voices.find(v => v.lang.startsWith(prefix))`, as a position. */
  function FindPrefix(vs: seq<Voice>, prefix: string): (r: Option<nat>)
    ensures r.Some? ==> IsFirstPrefix(vs, r.value, prefix)
    ensures r.None? ==> forall j :: 0 <= j < |vs| ==> !StartsWith(vs[j].lang, prefix)
  {
    if |vs| == 0 then None
    else if StartsWith(vs[0].lang, prefix) then Some(0)
    else match FindPrefix(vs[1..], prefix)
      case None => None
      case Some(k) => Some(k + 1)
  }

  /** The voice an utterance uses: the first Egyptian Arabic voice, else the
      first voice of any Arabic region, else none. */
  function PickVoice(vs: seq<Voice>): (r: Option<Voice>)
    ensures (exists i :: 0 <= i < |vs| && vs[i].lang == PreferredLang) ==>
      exists k :: IsFirstExact(vs, k, PreferredLang) && r == Some(vs[k])
    ensures (forall i :: 0 <= i < |vs| ==> vs[i].lang != PreferredLang) ==>
      (exists i :: 0 <= i < |vs| && StartsWith(vs[i].lang, "ar-")) ==>
      exists k :: IsFirstPrefix(vs, k, "ar-") && r == Some(vs[k])
    ensures (forall i :: 0 <= i < |vs| ==> !StartsWith(vs[i].lang, "ar-")) ==> r == None
  {
    match FindExact(vs, PreferredLang)
    case Some(k) => Some(vs[k])
    case None =>
      match FindPrefix(vs, "ar-")
      case Some(k) => Some(vs[k])
      case None => None
  }

  /** The utterance for `text`: its language tag is always an Arabic regional tag,
      the chosen voice's when there is one and Egyptian Arabic otherwise. */
  function PlanUtterance(vs: seq<Voice>, text: string): (u: Utterance)
    ensures u.text == text && u.voice == PickVoice(vs)
    ensures StartsWith(u.lang, "ar-")
    ensures u.voice.Some? ==> u.lang == u.voice.value.lang
    ensures u.voice.None? ==> u.lang == PreferredLang
    ensures u.ratePercent == RatePercent && u.pitchPercent == PitchPercent
  {
    var v := PickVoice(vs);
    if v.Some? then
      assert StartsWith(v.value.lang, "ar-") by {
        if v.value.lang == PreferredLang { assert PreferredLang[..3] == "ar-"; }
      }
      Utterance(text, v, v.value.lang, RatePercent, PitchPercent)
    else
      assert PreferredLang[..3] == "ar-";
      Utterance(text, None, PreferredLang, RatePercent, PitchPercent)
  }
}
