/** The Practice screen (src/pages/Practice.tsx): a recording session whose
    confidence, words-per-minute and volume wander by a clamped random walk
    once a second, a live feedback window of at most five entries, newest
    first, and a session record prepended to the stored list on stop. */
module Practice {
  import opened Numbers
  import opened Text
  import opened Records

  const PositiveMessages: seq<string> := [
    "Excellent posture and presence!",
    "Your voice projection is perfect",
    "Great use of hand gestures",
    "Maintaining good eye contact",
    "Your pace is just right",
    "Confident and clear delivery"
  ]

  const WarningMessages: seq<string> := [
    "Try to speak a bit slower",
    "Your volume could be slightly higher",
    "Maintain more eye contact with the camera",
    "Try to reduce filler words",
    "Keep your hands visible and expressive"
  ]

  /** The three entries the screen opens with. */
  const InitialFeedback: seq<Feedback> := [
    Feedback(Positive, "Great eye contact! Keep it up!", "00:15"),
    Feedback(Warning, "Try to slow down a bit", "00:32"),
    Feedback(Positive, "Your tone is engaging and confident", "00:45")
  ]

  const DefaultConfidence: real := 85.0
  const DefaultWpm: real := 145.0
  const DefaultVolume: real := 75.0

  /** The metric ranges and the width of one step of the walk. */
  const ConfidenceLo: real := 70.0
  const ConfidenceHi: real := 98.0
  const ConfidenceSpan: real := 4.0
  const WpmLo: real := 120.0
  const WpmHi: real := 180.0
  const WpmSpan: real := 10.0
  const VolumeLo: real := 50.0
  const VolumeHi: real := 100.0
  const VolumeSpan: real := 8.0

  /** One step of a metric: `Math.max(lo, Math.min(hi, prev + (r - 0.5) * span))`.
      The result is always in range, saturating at the bound the step
      overshoots, and from a value in range it moves by at most half the span. */
  function Walk(prev: real, r: real, span: real, lo: real, hi: real): (v: real)
    requires IsDraw(r) && 0.0 <= span && lo <= hi
    ensures lo <= v <= hi
    ensures lo <= prev <= hi ==> Abs(v - prev) <= span / 2.0
    ensures lo <= prev + (r - 0.5) * span <= hi ==> v == prev + (r - 0.5) * span
    ensures hi < prev + (r - 0.5) * span ==> v == hi
    ensures prev + (r - 0.5) * span < lo ==> v == lo
  {
    var delta := (r - 0.5) * span;
    assert -span / 2.0 <= delta <= span / 2.0 by {
      assert delta == r * span - span / 2.0;
      assert 0.0 <= r * span <= span by {
        assert (1.0 - r) * span >= 0.0;
      }
    }
    Clamp(lo, hi, prev + delta)
  }

  /** `n < 100` is written with at most two digits. */
  lemma DecTwoDigits(n: nat)
    requires n < 100
    ensures |Dec(n)| <= 2
  {
    if n >= 10 {
      assert Dec(n) == Dec(n / 10) + [DigitChar(n % 10)];
    }
  }

  /** `formatTime`, and the inline timestamp of `generateFeedback`: minutes and
      seconds, each zero-padded to two digits, around a colon. The seconds
      field is exactly two characters, the minutes field at least two. */
  function FormatTime(t: nat): (r: string)
    ensures |r| >= 5 && r[|r| - 3] == ':'
    ensures |r| == (if |Dec(t / 60)| >= 2 then |Dec(t / 60)| else 2) + 3
  {
    DecTwoDigits(t % 60);
    PadStart(Dec(t / 60), 2, '0') + ":" + PadStart(Dec(t % 60), 2, '0')
  }

  /** Read back as minutes and seconds, a clock label gives the elapsed time:
      seconds below 60 and 60 * minutes + seconds = t. */
  lemma FormatTimeRoundTrip(t: nat)
    ensures ParseClock(FormatTime(t)).Some?
    ensures var (m, s) := ParseClock(FormatTime(t)).value; s < 60 && 60 * m + s == t
  {
    var mm, ss := PadStart(Dec(t / 60), 2, '0'), PadStart(Dec(t % 60), 2, '0');
    PadZerosValue(Dec(t / 60), 2);
    PadZerosValue(Dec(t % 60), 2);
    DecValue(t / 60);
    DecValue(t % 60);
    ParseClockOf(mm, ss);
  }

  /** `[entry, ...prev.slice(0, 4)]`: the newest entry first, then the four
      most recent earlier ones in their order; the oldest falls off. */
  function PushRecent<T>(entry: T, window: seq<T>): (r: seq<T>)
    ensures |r| == Min(5, |window| + 1)
    ensures r[0] == entry && r[1..] == window[..|r| - 1]
  {
    [entry] + window[..Min(4, |window|)]
  }

  /** The entry `generateFeedback` builds from its two draws at elapsed time
      `t`: positive when the first draw exceeds 0.3, the message the second
      draw picks from that kind's pool, and the `mm:ss` timestamp of `t`. */
  function DrawFeedback(rPositive: real, rPick: real, t: nat): (f: Feedback)
    requires IsDraw(rPositive) && IsDraw(rPick)
    ensures f.kind == Positive <==> rPositive > 0.3
    ensures f.kind == Positive ==> f.message in PositiveMessages
    ensures f.kind == Warning ==> f.message in WarningMessages
    ensures f.kind == Positive <==> f.message in PositiveMessages
    ensures f.message == Pick(if rPositive > 0.3 then PositiveMessages else WarningMessages, rPick)
    ensures f.timestamp == FormatTime(t)
  {
    PoolsDisjoint();
    var isPositive := rPositive > 0.3;
    var pool := if isPositive then PositiveMessages else WarningMessages;
    Feedback(if isPositive then Positive else Warning, Pick(pool, rPick), FormatTime(t))
  }

  /** No message is in both pools, so an entry's kind tells which pool its
      message came from. */
  lemma PoolsDisjoint()
    ensures forall m :: m in PositiveMessages ==> m !in WarningMessages
  {
    forall i, j | 0 <= i < |PositiveMessages| && 0 <= j < |WarningMessages|
      ensures PositiveMessages[i] != WarningMessages[j]
    {
      assert |PositiveMessages[i]| != |WarningMessages[j]| ||
             PositiveMessages[i][0] != WarningMessages[j][0];
    }
  }

  /** The screen's state. `Tick` is one firing of the one-second interval. */
  class PracticeSession {
    var isRecording: bool
    var sessionTime: nat
    var confidenceScore: real
    var wpm: real
    var volume: real
    var feedbackMessages: seq<Feedback>

    /** Every metric in its range and the live window at most five long. */
    ghost predicate Valid()
      reads this`confidenceScore, this`wpm, this`volume, this`feedbackMessages
    {
      && ConfidenceLo <= confidenceScore <= ConfidenceHi
      && WpmLo <= wpm <= WpmHi
      && VolumeLo <= volume <= VolumeHi
      && |feedbackMessages| <= 5
    }

    constructor ()
      ensures Valid()
      ensures !isRecording && sessionTime == 0
      ensures confidenceScore == DefaultConfidence && wpm == DefaultWpm && volume == DefaultVolume
      ensures feedbackMessages == InitialFeedback
    {
      isRecording := false;
      sessionTime := 0;
      confidenceScore := DefaultConfidence;
      wpm := DefaultWpm;
      volume := DefaultVolume;
      feedbackMessages := InitialFeedback;
    }

    /** `generateFeedback`: pushes a drawn entry, stamped with the current
        session time, onto the front of the window. */
    method GenerateFeedback(rPositive: real, rPick: real)
      requires Valid() && IsDraw(rPositive) && IsDraw(rPick)
      modifies this`feedbackMessages
      ensures Valid()
      ensures feedbackMessages == PushRecent(DrawFeedback(rPositive, rPick, sessionTime), old(feedbackMessages))
    {
      feedbackMessages := PushRecent(DrawFeedback(rPositive, rPick, sessionTime), feedbackMessages);
    }

    /** One firing of the interval, with its six `Math.random()` draws in
        the order the callback makes them. The callback closes over the
        `sessionTime` rendered when it was set up, so a feedback entry is
        stamped with the time before this tick's increment. */
    method Tick(rConfidence: real, rWpm: real, rVolume: real, rTrigger: real, rPositive: real, rPick: real)
      requires Valid() && isRecording
      requires IsDraw(rConfidence) && IsDraw(rWpm) && IsDraw(rVolume)
      requires IsDraw(rTrigger) && IsDraw(rPositive) && IsDraw(rPick)
      modifies this
      ensures Valid() && isRecording
      ensures sessionTime == old(sessionTime) + 1
      ensures confidenceScore == Walk(old(confidenceScore), rConfidence, ConfidenceSpan, ConfidenceLo, ConfidenceHi)
      ensures wpm == Walk(old(wpm), rWpm, WpmSpan, WpmLo, WpmHi)
      ensures volume == Walk(old(volume), rVolume, VolumeSpan, VolumeLo, VolumeHi)
      ensures Abs(confidenceScore - old(confidenceScore)) <= 2.0
      ensures Abs(wpm - old(wpm)) <= 5.0
      ensures Abs(volume - old(volume)) <= 4.0
      ensures feedbackMessages ==
        if rTrigger > 0.85
        then PushRecent(DrawFeedback(rPositive, rPick, old(sessionTime)), old(feedbackMessages))
        else old(feedbackMessages)
    {
      confidenceScore := Walk(confidenceScore, rConfidence, ConfidenceSpan, ConfidenceLo, ConfidenceHi);
      wpm := Walk(wpm, rWpm, WpmSpan, WpmLo, WpmHi);
      volume := Walk(volume, rVolume, VolumeSpan, VolumeLo, VolumeHi);
      assert Valid();
      if rTrigger > 0.85 {
        GenerateFeedback(rPositive, rPick);
      }
      assert Valid();
      sessionTime := sessionTime + 1;
    }

    /** `startRecording`: `granted` says whether camera and microphone were
        acquired. Only then does recording start, from time zero; a failure
        is only logged and changes nothing. */
    method StartRecording(granted: bool)
      requires Valid()
      modifies this`isRecording, this`sessionTime
      ensures Valid()
      ensures granted ==> isRecording && sessionTime == 0
      ensures !granted ==> isRecording == old(isRecording) && sessionTime == old(sessionTime)
    {
      if granted {
        isRecording := true;
        sessionTime := 0;
      }
    }

    /** The record `stopRecording` saves: the elapsed time, the rounded
        confidence, the last words-per-minute and volume, the live window. */
    function CurrentRecord(): (r: SessionRecord)
      reads this
      requires Valid()
      ensures r.duration == sessionTime && r.feedback == feedbackMessages
      ensures r.wpm == wpm && r.volume == volume
      ensures 70 <= r.confidenceScore <= 98
      ensures confidenceScore - 0.5 < r.confidenceScore as real <= confidenceScore + 0.5
    {
      SessionRecord(sessionTime, Round(confidenceScore), wpm, volume, feedbackMessages)
    }

    /** `stopRecording`: stops recording and prepends one record to the
        stored list, which otherwise stays as it was. The function itself
        does not check that a recording is running. */
    method StopRecording(store: SessionStore)
      requires Valid()
      modifies this`isRecording, store
      ensures Valid() && !isRecording
      ensures store.sessions == [CurrentRecord()] + old(store.sessions)
      ensures |store.sessions| == |old(store.sessions)| + 1
      ensures store.sessions[1..] == old(store.sessions)
    {
      isRecording := false;
      store.sessions := [CurrentRecord()] + store.sessions;
    }

    /** `resetSession`: the default metrics, time zero, an empty window;
        whether a recording is running is left alone. */
    method ResetSession()
      modifies this`sessionTime, this`confidenceScore, this`wpm, this`volume, this`feedbackMessages
      ensures Valid()
      ensures sessionTime == 0 && feedbackMessages == []
      ensures confidenceScore == DefaultConfidence && wpm == DefaultWpm && volume == DefaultVolume
    {
      sessionTime := 0;
      confidenceScore := DefaultConfidence;
      wpm := DefaultWpm;
      volume := DefaultVolume;
      feedbackMessages := [];
    }
  }
}
