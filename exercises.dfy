/** The Exercises screen (src/pages/Exercises.tsx): a microphone session whose
    confidence is a fresh draw plus a bonus that grows with the session time,
    whose words-per-minute is a flat draw, and whose feedback window keeps
    the newest entry last. */
module Exercises {
  import opened Numbers
  import opened Text
  import opened Seqs
  import Practice

  const FillerMessage: string := "Filler word detected: 'um'"
  const StartedMessage: string := "Recording started. Begin speaking..."
  const DeniedMessage: string := "Microphone access denied. Please allow microphone access."
  const CompletedMessage: string := "Session completed!"

  const TipMessages: seq<string> := [
    "Great eye contact!",
    "Perfect speaking pace",
    "Confident tone detected",
    "Excellent volume level",
    "Good posture maintained"
  ]

  /** `Math.min(sessionTime * 0.5, 10)`: half a point per second, at most ten. */
  function TimeBonus(t: nat): (b: real)
    ensures 0.0 <= b <= 10.0
    ensures b <= t as real * 0.5
    ensures t >= 20 ==> b == 10.0
    ensures b == t as real * 0.5 || b == 10.0
  {
    MinReal(t as real * 0.5, 10.0)
  }

  /** The bonus never shrinks as the session goes on. */
  lemma TimeBonusMonotone(t: nat, u: nat)
    requires t <= u
    ensures TimeBonus(t) <= TimeBonus(u)
  {
  }

  /** `Math.min(95, 65 + Math.random() * 25 + bonus)`: a base draw in
      [65, 90) plus the time bonus, capped at 95. */
  function AnalysisConfidence(r: real, t: nat): (c: real)
    requires IsDraw(r)
    ensures 65.0 <= c <= 95.0
    ensures c <= 65.0 + r * 25.0 + TimeBonus(t)
    ensures c == 95.0 || c == 65.0 + r * 25.0 + TimeBonus(t)
  {
    assert 0.0 <= r * 25.0 < 25.0;
    MinReal(95.0, 65.0 + r * 25.0 + TimeBonus(t))
  }

  /** For the same draw, a later tick never reports a lower confidence. */
  lemma AnalysisConfidenceMonotone(r: real, t: nat, u: nat)
    requires IsDraw(r) && t <= u
    ensures AnalysisConfidence(r, t) <= AnalysisConfidence(r, u)
  {
    TimeBonusMonotone(t, u);
  }

  /** `120 + Math.floor(Math.random() * 40)`: a whole number in [120, 159]. */
  function WpmDraw(r: real): (w: int)
    requires IsDraw(r)
    ensures 120 <= w <= 159
    ensures (w - 120) as real <= r * 40.0 < (w - 119) as real
  {
    120 + ScaledIndex(r, 40)
  }

  /** `[...prev.slice(-4), entry]`: the four most recent earlier entries in
      their order, then the new one last; the oldest falls off. */
  function AppendRecent<T>(window: seq<T>, entry: T): (r: seq<T>)
    ensures |r| == Min(5, |window| + 1)
    ensures r[|r| - 1] == entry && r[..|r| - 1] == window[|window| - (|r| - 1)..]
  {
    window[|window| - Min(4, |window|)..] + [entry]
  }

  /** One position of `WindowsMirror`. */
  lemma MirrorAt<T>(entry: T, window: seq<T>, k: nat)
    requires k < |Practice.PushRecent(entry, window)|
    ensures Reverse(AppendRecent(Reverse(window), entry))[k] == Practice.PushRecent(entry, window)[k]
  {
    var n := |window|;
    var m := Min(4, n);
    var w := Reverse(window);
    var a := AppendRecent(w, entry);
    var p := Practice.PushRecent(entry, window);
    assert a == w[n - m..] + [entry];
    ReverseAt(a, k);
    if k > 0 {
      ReverseAt(window, n - k);
      assert a[m - k] == w[n - k];
      assert p[k] == p[1..][k - 1];
    }
  }

  /** The two screens keep their windows in opposite orders: pushing onto
      the front of a newest-first window is appending to the back of the
      same window read oldest-first. */
  lemma {:induction false} WindowsMirror<T>(entry: T, window: seq<T>)
    ensures Practice.PushRecent(entry, window) == Reverse(AppendRecent(Reverse(window), entry))
  {
    var p := Practice.PushRecent(entry, window);
    var a := AppendRecent(Reverse(window), entry);
    assert |a| == |p| == |Reverse(a)|;
    forall k | 0 <= k < |p|
      ensures Reverse(a)[k] == p[k]
    {
      MirrorAt(entry, window, k);
    }
  }

  /** `formatTime`: minutes unpadded, a colon, seconds padded to two digits. */
  function FormatTime(t: nat): (r: string)
    ensures |r| == |Dec(t / 60)| + 3 && r[|r| - 3] == ':'
  {
    Practice.DecTwoDigits(t % 60);
    Dec(t / 60) + ":" + PadStart(Dec(t % 60), 2, '0')
  }

  /** The minutes are not padded: the label starts with '0' exactly when
      less than a minute has passed. */
  lemma FormatTimeUnpadded(t: nat)
    ensures FormatTime(t)[0] == '0' <==> t < 60
  {
    DecCanonical(t / 60);
    assert FormatTime(t)[0] == Dec(t / 60)[0];
  }

  /** Read back, the label gives the elapsed time: seconds below 60 and
      60 * minutes + seconds = t. */
  lemma FormatTimeRoundTrip(t: nat)
    ensures ParseClock(FormatTime(t)).Some?
    ensures var (m, s) := ParseClock(FormatTime(t)).value; s < 60 && 60 * m + s == t
  {
    var mm, ss := Dec(t / 60), PadStart(Dec(t % 60), 2, '0');
    PadZerosValue(Dec(t % 60), 2);
    DecValue(t / 60);
    DecValue(t % 60);
    ParseClockOf(mm, ss);
  }

  /** The colour class of `getConfidenceColor`. */
  datatype ConfidenceColor = SuccessText | WarningText | DestructiveText {
    function CssClass(): string {
      match this
      case SuccessText => "text-success"
      case WarningText => "text-warning"
      case DestructiveText => "text-destructive"
    }
  }

  /** `getConfidenceColor`: success from 80, warning from 60, else destructive. */
  function GetConfidenceColor(score: real): (c: ConfidenceColor)
    ensures c == SuccessText <==> score >= 80.0
    ensures c == WarningText <==> 60.0 <= score < 80.0
    ensures c == DestructiveText <==> score < 60.0
  {
    if score >= 80.0 then SuccessText
    else if score >= 60.0 then WarningText
    else DestructiveText
  }

  /** The advice of `getWpmFeedback`. */
  datatype WpmAdvice = SpeakFaster | SlowDown | PerfectPace {
    function Message(): string {
      match this
      case SpeakFaster => "Speak a bit faster"
      case SlowDown => "Slow down slightly"
      case PerfectPace => "Perfect pace!"
    }
  }

  /** `getWpmFeedback`: faster below 130, slower above 160, perfect between. */
  function GetWpmFeedback(wpm: int): (a: WpmAdvice)
    ensures a == SpeakFaster <==> wpm < 130
    ensures a == SlowDown <==> wpm > 160
    ensures a == PerfectPace <==> 130 <= wpm <= 160
  {
    if wpm < 130 then SpeakFaster
    else if wpm > 160 then SlowDown
    else PerfectPace
  }

  /** Every drawn rate is at most 159, so the screen never advises slowing down. */
  lemma DrawnWpmNeverTooFast(r: real)
    requires IsDraw(r)
    ensures GetWpmFeedback(WpmDraw(r)) != SlowDown
  {
  }

  /** The screen's state. `AnalysisTick` is one firing of the two-second
      analysis interval, `TimerTick` one firing of the one-second clock. */
  class ExercisesSession {
    var isRecording: bool
    var confidenceScore: real
    var wpm: int
    var fillerCount: nat
    var sessionTime: nat
    var feedback: seq<string>

    /** The metrics are at their initial zero or in their drawn ranges, and
        while recording the window holds at most five entries. */
    ghost predicate Valid()
      reads this`isRecording, this`confidenceScore, this`wpm, this`feedback
    {
      && (confidenceScore == 0.0 || 65.0 <= confidenceScore <= 95.0)
      && (wpm == 0 || 120 <= wpm <= 159)
      && (isRecording ==> |feedback| <= 5)
    }

    constructor ()
      ensures Valid()
      ensures !isRecording && confidenceScore == 0.0 && wpm == 0
      ensures fillerCount == 0 && sessionTime == 0 && feedback == []
    {
      isRecording := false;
      confidenceScore := 0.0;
      wpm := 0;
      fillerCount := 0;
      sessionTime := 0;
      feedback := [];
    }

    /** One firing of the analysis interval with its `Math.random()` draws:
        base confidence, rate, filler trigger, tip trigger, tip choice. A
        filler adds one to the count and appends its message; a tip is
        appended after it, each append keeping the four before it. */
    method AnalysisTick(rBase: real, rWpm: real, rFiller: real, rTip: real, rPick: real)
      requires Valid() && isRecording
      requires IsDraw(rBase) && IsDraw(rWpm) && IsDraw(rFiller) && IsDraw(rTip) && IsDraw(rPick)
      modifies this`confidenceScore, this`wpm, this`fillerCount, this`feedback
      ensures Valid()
      ensures confidenceScore == AnalysisConfidence(rBase, sessionTime)
      ensures wpm == WpmDraw(rWpm)
      ensures fillerCount == old(fillerCount) + (if rFiller < 0.15 then 1 else 0)
      ensures feedback ==
        var afterFiller := if rFiller < 0.15 then AppendRecent(old(feedback), FillerMessage) else old(feedback);
        if rTip < 0.1 then AppendRecent(afterFiller, Pick(TipMessages, rPick)) else afterFiller
      ensures rFiller < 0.15 && rTip >= 0.1 ==> feedback[|feedback| - 1] == FillerMessage
      ensures rFiller >= 0.15 && rTip >= 0.1 ==> feedback == old(feedback)
    {
      confidenceScore := AnalysisConfidence(rBase, sessionTime);
      wpm := WpmDraw(rWpm);
      if rFiller < 0.15 {
        fillerCount := fillerCount + 1;
        feedback := AppendRecent(feedback, FillerMessage);
      }
      if rTip < 0.1 {
        feedback := AppendRecent(feedback, Pick(TipMessages, rPick));
      }
    }

    /** One firing of the session clock. */
    method TimerTick()
      requires isRecording
      modifies this`sessionTime
      ensures sessionTime == old(sessionTime) + 1
    {
      sessionTime := sessionTime + 1;
    }

    /** `startRecording`: `granted` says whether the microphone was acquired.
        On success the clock and filler count restart and the window holds
        only the start message; on failure the window holds only the denial
        message and nothing else changes. */
    method StartRecording(granted: bool)
      requires Valid()
      modifies this`isRecording, this`sessionTime, this`fillerCount, this`feedback
      ensures Valid()
      ensures granted ==> isRecording && sessionTime == 0 && fillerCount == 0 && feedback == [StartedMessage]
      ensures !granted ==> feedback == [DeniedMessage]
      ensures !granted ==> isRecording == old(isRecording)
      ensures !granted ==> sessionTime == old(sessionTime) && fillerCount == old(fillerCount)
    {
      if granted {
        isRecording := true;
        sessionTime := 0;
        fillerCount := 0;
        feedback := [StartedMessage];
      } else {
        feedback := [DeniedMessage];
      }
    }

    /** `stopRecording`: stops and appends the completion message without
        trimming, so a full window of five grows to six. No session record
        is written. */
    method StopRecording()
      requires Valid()
      modifies this`isRecording, this`feedback
      ensures Valid() && !isRecording
      ensures feedback == old(feedback) + [CompletedMessage]
      ensures |feedback| == |old(feedback)| + 1
    {
      isRecording := false;
      feedback := feedback + [CompletedMessage];
    }
  }
}
