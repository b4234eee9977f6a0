/** Records of the chat front end: messages, personas and conversations,
    plus the decimal time stamps the app uses to build ids. */
module Types {

  datatype Option<+T> = None | Some(value: T)

  datatype Sender = User | Ai

  /** One chat message. The three image fields exist only while an upload is
      shown in the running session; they are never persisted. */
  datatype Message = Message(
    id: string,
    text: string,
    sender: Sender,
    imageUrl: Option<string>,
    base64Image: Option<string>,
    mimeType: Option<string>)

  /** A message without any image field. */
  function TextMessage(id: string, text: string, sender: Sender): Message
  {
    Message(id, text, sender, None, None, None)
  }

  /** The persona: how the user is called, the AI's name, and the two avatar urls. */
  datatype UserData = UserData(userName: string, aiName: string, userAvatar: string, aiAvatar: string)

  /** A conversation; `lastUpdated` is a `Date.now()` reading in milliseconds. */
  datatype Conversation = Conversation(
    id: string,
    title: string,
    messages: seq<Message>,
    userData: UserData,
    lastUpdated: nat)

  predicate IsDigit(ch: char)
  {
    '0' <= ch <= '9'
  }

  function DigitChar(d: nat): (ch: char)
    requires d < 10
    ensures IsDigit(ch)
  {
    "0123456789"[d]
  }

  /** The decimal text JavaScript gives a non-negative integer: no sign, no leading zero. */
  function Decimal(n: nat): (s: string)
    ensures |s| > 0
    ensures forall i :: 0 <= i < |s| ==> IsDigit(s[i])
    ensures s[0] == '0' ==> n == 0
    decreases n
  {
    if n < 10 then [DigitChar(n)] else Decimal(n / 10) + [DigitChar(n % 10)]
  }

  /** Reads back a string of digits; the reference definition `Decimal` is checked against. */
  function DecimalValue(s: string): nat
    requires forall i :: 0 <= i < |s| ==> IsDigit(s[i])
  {
    if |s| == 0 then 0
    else DecimalValue(s[..|s| - 1]) * 10 + DigitValue(s[|s| - 1])
  }

  function DigitValue(ch: char): (d: nat)
    requires IsDigit(ch)
    ensures d < 10
  {
    (ch as int) - ('0' as int)
  }

  lemma {:induction false} DecimalRoundTrip(n: nat)
    ensures DecimalValue(Decimal(n)) == n
    decreases n
  {
    if n >= 10 {
      DecimalRoundTrip(n / 10);
      var s := Decimal(n);
      assert s[..|s| - 1] == Decimal(n / 10);
    }
  }

  /** Ids such as `convo-<now>`, `user-<now>`, `ai-<now>`, `error-<now>`. */
  function Stamp(prefix: string, now: nat): string
  {
    prefix + Decimal(now)
  }

  /** Two readings of the clock give the same stamped id only if they are equal. */
  lemma StampInjective(prefix: string, a: nat, b: nat)
    ensures Stamp(prefix, a) == Stamp(prefix, b) ==> a == b
  {
    if Stamp(prefix, a) == Stamp(prefix, b) {
      assert Decimal(a) == Stamp(prefix, a)[|prefix|..];
      assert Decimal(b) == Stamp(prefix, b)[|prefix|..];
      DecimalRoundTrip(a);
      DecimalRoundTrip(b);
    }
  }

  /** The elements of `s` at the positions `ps`, in the order of `ps`. */
  function ReadAt<T>(s: seq<T>, ps: seq<nat>): (r: seq<T>)
    requires forall k :: 0 <= k < |ps| ==> ps[k] < |s|
    ensures |r| == |ps| && forall k :: 0 <= k < |ps| ==> r[k] == s[ps[k]]
  {
    seq(|ps|, k requires 0 <= k < |ps| => s[ps[k]])
  }

  /** Reading one more position at the end of a list that grew by one element. */
  lemma ReadAtSnoc<T>(init: seq<T>, last: T, qs: seq<nat>, keep: bool)
    requires forall k :: 0 <= k < |qs| ==> qs[k] < |init|
    ensures ReadAt(init + [last], qs + (if keep then [|init|] else []))
         == ReadAt(init, qs) + (if keep then [last] else [])
  {
    var s := init + [last];
    var ps := qs + (if keep then [|init|] else []);
    var a, b := ReadAt(s, ps), ReadAt(init, qs) + (if keep then [last] else []);
    forall k | 0 <= k < |ps| ensures a[k] == b[k] {
      if k < |qs| {
        assert ps[k] == qs[k];
      }
    }
  }
}
