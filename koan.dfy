/** The pure helpers behind the message card of App.tsx: the fallback messages,
    the whole-seconds seed, the time-of-day bucket of the generation request, and
    the text shown once a request settles. */
module Koan {
  import opened Wrappers

  /** `COMFORT_MESSAGES`, the five static fallback messages. */
  const ComfortMessages: seq<string> := [
    "You\U{2019}re in control.",
    "Taking a pause was your choice.",
    "This moment belongs to you.",
    "That was a good place to stop.",
    "You listened to yourself."
  ]

  /** A uniformly random index into the fallback list: `Math.floor(Math.random() * 5)`. */
  type Pick = i: int | 0 <= i < 5

  /** The fallback message at a random index. */
  function Fallback(pick: Pick): (r: string)
    ensures r in ComfortMessages && r != []
  {
    ComfortMessages[pick]
  }

  /** `Math.floor(ms / 1000)`: the whole seconds of a duration, rounded down also
      for negative durations. */
  function WholeSeconds(ms: int): (r: int)
    ensures r * 1000 <= ms < r * 1000 + 1000
    ensures r >= 3 <==> ms >= 3000
  {
    ms / 1000
  }

  /** The coarse time of day sent with a generation request. */
  datatype TimeOfDay = Morning | Day | Night

  /** The bucket of a local hour: night before 6 and after 21, morning until 12,
      day otherwise. */
  function Bucket(hour: int): (r: TimeOfDay)
    ensures r == Night <==> hour < 6 || hour > 21
    ensures r == Morning <==> 6 <= hour < 12
    ensures r == Day <==> 12 <= hour <= 21
  {
    if hour < 6 || hour > 21 then Night else if hour < 12 then Morning else Day
  }

  /** How the bucket reads inside the prompt. */
  function BucketName(b: TimeOfDay): (r: string)
    ensures r == "morning" <==> b == Morning
    ensures r == "day" <==> b == Day
    ensures r == "night" <==> b == Night
  {
    match b
    case Morning => "morning"
    case Day => "day"
    case Night => "night"
  }

  /** The prompt's `context` word, computed from the hour as `generateZenKoan`
      computes it: "day" unless the hour is at night or in the morning. */
  lemma ContextOfHour(hour: int)
    ensures BucketName(Bucket(hour)) ==
      (if hour < 6 || hour > 21 then "night" else if hour < 12 then "morning" else "day")
  {
  }

  /** What is sent to the generator: the whole seconds and the time of day. */
  datatype KoanRequest = KoanRequest(seconds: int, timeOfDay: TimeOfDay)

  /** The characters `String.prototype.trim` removes: ECMAScript's white space and
      line terminators. */
  predicate IsWhitespace(c: char)
  {
    c == '\t' || c == '\n' || c == '\U{000B}' || c == '\U{000C}' || c == '\r' || c == ' ' ||
    c == '\U{00A0}' || c == '\U{1680}' || ('\U{2000}' <= c <= '\U{200A}') ||
    c == '\U{2028}' || c == '\U{2029}' || c == '\U{202F}' || c == '\U{205F}' ||
    c == '\U{3000}' || c == '\U{FEFF}'
  }

  /** `s` without its leading white space. */
  function TrimStart(s: string): (r: string)
    ensures |r| <= |s| && r == s[|s| - |r|..]
    ensures forall i :: 0 <= i < |s| - |r| ==> IsWhitespace(s[i])
    ensures r != [] ==> !IsWhitespace(r[0])
  {
    if s != [] && IsWhitespace(s[0]) then TrimStart(s[1..]) else s
  }

  /** `s` without its trailing white space. */
  function TrimEnd(s: string): (r: string)
    ensures |r| <= |s| && r == s[..|r|]
    ensures forall i :: |r| <= i < |s| ==> IsWhitespace(s[i])
    ensures r != [] ==> !IsWhitespace(r[|r| - 1])
  {
    if s != [] && IsWhitespace(s[|s| - 1]) then TrimEnd(s[..|s| - 1]) else s
  }

  /** `r` is the slice of `s` that starts at `a`, and everything of `s` before
      and after that slice is white space. */
  predicate TrimmedSlice(s: string, a: int, r: string)
  {
    0 <= a && a + |r| <= |s| && r == s[a..a + |r|] &&
    (forall i :: 0 <= i < a ==> IsWhitespace(s[i])) &&
    (forall i :: a + |r| <= i < |s| ==> IsWhitespace(s[i]))
  }

  /** `s.trim()`: the part of `s` between its leading and its trailing white space. */
  function Trim(s: string): (r: string)
    ensures TrimmedSlice(s, |s| - |TrimStart(s)|, r)
    ensures r != [] ==> !IsWhitespace(r[0]) && !IsWhitespace(r[|r| - 1])
  {
    var front := TrimStart(s);
    var r := TrimEnd(front);
    TrimBounds(s, front, r);
    r
  }

  /** Trimming leaves nothing exactly when `s` is all white space. */
  lemma TrimBlank(s: string)
    ensures Trim(s) == [] <==> forall i :: 0 <= i < |s| ==> IsWhitespace(s[i])
  {
    var r, a := Trim(s), |s| - |TrimStart(s)|;
    if r != [] {
      assert r[0] == s[a];
    }
  }

  /** The facts `Trim` promises, from those `TrimStart` and `TrimEnd` promise about
      `front`, the trimmed start of `s`, and `r`, the trimmed end of `front`. */
  lemma TrimBounds(s: string, front: string, r: string)
    requires |front| <= |s| && front == s[|s| - |front|..]
    requires forall i :: 0 <= i < |s| - |front| ==> IsWhitespace(s[i])
    requires front != [] ==> !IsWhitespace(front[0])
    requires |r| <= |front| && r == front[..|r|]
    requires forall i :: |r| <= i < |front| ==> IsWhitespace(front[i])
    requires r != [] ==> !IsWhitespace(r[|r| - 1])
    ensures TrimmedSlice(s, |s| - |front|, r)
    ensures r != [] ==> !IsWhitespace(r[0]) && !IsWhitespace(r[|r| - 1])
  {
    var a := |s| - |front|;
    forall i | a + |r| <= i < |s|
      ensures IsWhitespace(s[i])
    {
      assert s[i] == front[i - a];
    }
    if r != [] {
      assert r[0] == front[0] == s[a];
    }
  }

  /** How a generation request settled: with a response whose text may be
      undefined, or by throwing. */
  datatype KoanOutcome = Responded(text: Option<string>) | Failed

  /** The message `generateZenKoan` returns: the trimmed response when it is not
      empty, the first fallback message when it is empty or undefined, and the
      fallback message at `pick` when the request failed. */
  function KoanText(outcome: KoanOutcome, pick: Pick): (r: string)
    ensures r != []
    ensures outcome.Failed? ==> r == ComfortMessages[pick]
    ensures outcome == Responded(None) ==> r == ComfortMessages[0]
    ensures forall t :: outcome == Responded(Some(t)) ==>
      r == (if Trim(t) != [] then Trim(t) else ComfortMessages[0])
    ensures r in ComfortMessages || (!IsWhitespace(r[0]) && !IsWhitespace(r[|r| - 1]))
  {
    match outcome
    case Failed => Fallback(pick)
    case Responded(None) => ComfortMessages[0]
    case Responded(Some(t)) => if Trim(t) != [] then Trim(t) else ComfortMessages[0]
  }

  /** A response made only of white space shows the first fallback message. */
  lemma BlankResponse(t: string, pick: Pick)
    requires forall i :: 0 <= i < |t| ==> IsWhitespace(t[i])
    ensures KoanText(Responded(Some(t)), pick) == ComfortMessages[0]
  {
  }
}
