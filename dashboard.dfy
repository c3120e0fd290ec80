/** The Dashboard (src/pages/Dashboard.tsx): it loads the stored sessions,
    seeding three example sessions when there are none, computes the count,
    total time and mean confidence and words-per-minute, and shows the five
    most recent sessions twice: newest first in the recent list, oldest of
    them first in the progress chart. */
module Dashboard {
  import opened Numbers
  import opened Text
  import opened Seqs
  import opened Records

  /** The example sessions of the load effect (yesterday, two and three days ago). */
  const SeedSessions: seq<SessionRecord> := [
    SessionRecord(180, 87, 152.0, 78.0, [
      Feedback(Positive, "Great eye contact!", "02:15"),
      Feedback(Warning, "Slow down a bit", "01:30")]),
    SessionRecord(240, 82, 145.0, 85.0, [
      Feedback(Positive, "Confident delivery", "03:20"),
      Feedback(Positive, "Good volume control", "02:45")]),
    SessionRecord(165, 78, 138.0, 72.0, [
      Feedback(Warning, "Increase volume", "01:45"),
      Feedback(Positive, "Good pace", "02:30")])
  ]

  /** The list the load effect puts on screen: the stored list as it is, or
      the three examples when nothing is stored. Never empty. */
  function LoadedSessions(stored: seq<SessionRecord>): (s: seq<SessionRecord>)
    ensures |s| > 0
    ensures stored != [] ==> s == stored
    ensures stored == [] ==> s == SeedSessions
  {
    if |stored| == 0 then SeedSessions else stored
  }

  /** The examples are written back, so loading what a load left behind
      gives the same list again. */
  lemma LoadIsStable(stored: seq<SessionRecord>)
    ensures LoadedSessions(LoadedSessions(stored)) == LoadedSessions(stored)
  {
  }

  /** `sessions.reduce((sum, s) => sum + s.duration, 0)`, folded from the left. */
  function TotalDuration(s: seq<SessionRecord>): nat {
    if s == [] then 0 else TotalDuration(s[..|s| - 1]) + s[|s| - 1].duration
  }

  /** The same fold over `confidenceScore`. */
  function SumConfidence(s: seq<SessionRecord>): int {
    if s == [] then 0 else SumConfidence(s[..|s| - 1]) + s[|s| - 1].confidenceScore
  }

  /** The same fold over `wpm`. */
  function SumWpm(s: seq<SessionRecord>): real {
    if s == [] then 0.0 else SumWpm(s[..|s| - 1]) + s[|s| - 1].wpm
  }

  /** Each session's duration is part of the total; with no negative
      scores or rates, each session's score and rate are part of their sums
      too, and the sums are not negative. */
  lemma {:induction false} FoldsCoverEachSession(s: seq<SessionRecord>, k: nat)
    requires k < |s|
    ensures s[k].duration <= TotalDuration(s)
    ensures (forall i :: 0 <= i < |s| ==> 0 <= s[i].confidenceScore) ==>
      0 <= s[k].confidenceScore <= SumConfidence(s)
    ensures (forall i :: 0 <= i < |s| ==> 0.0 <= s[i].wpm) ==>
      0.0 <= s[k].wpm <= SumWpm(s)
  {
    var init := s[..|s| - 1];
    assert forall i :: 0 <= i < |init| ==> init[i] == s[i];
    if k < |init| {
      FoldsCoverEachSession(init, k);
    } else if init != [] {
      FoldsCoverEachSession(init, 0);
    }
  }

  /** The folds run oldest-to-newest over a list the Practice screen grows
      at the front; a prepended record adds exactly its own fields. */
  lemma {:induction false} PrependSums(r: SessionRecord, s: seq<SessionRecord>)
    ensures TotalDuration([r] + s) == r.duration + TotalDuration(s)
    ensures SumConfidence([r] + s) == r.confidenceScore + SumConfidence(s)
    ensures SumWpm([r] + s) == r.wpm + SumWpm(s)
  {
    var t := [r] + s;
    if s != [] {
      assert t[..|t| - 1] == [r] + s[..|s| - 1];
      PrependSums(r, s[..|s| - 1]);
    }
  }

  /** When every score lies in [lo, hi], so does their sum divided by the count. */
  lemma {:induction false} ConfidenceSumBounds(s: seq<SessionRecord>, lo: int, hi: int)
    requires forall i :: 0 <= i < |s| ==> lo <= s[i].confidenceScore <= hi
    ensures lo * |s| <= SumConfidence(s) <= hi * |s|
  {
    if s != [] {
      var init := s[..|s| - 1];
      assert forall i :: 0 <= i < |init| ==> init[i] == s[i];
      ConfidenceSumBounds(init, lo, hi);
      assert lo * |s| == lo * |init| + lo;
      assert hi * |s| == hi * |init| + hi;
    }
  }

  /** The four figures of the stats cards. */
  datatype Stats = Stats(totalSessions: nat, totalTime: nat, averageConfidence: real, averageWpm: real)

  const InitialStats: Stats := Stats(0, 0, 0.0, 0.0)

  /** The aggregate effect: for a non-empty list, the count, the total
      duration, and means whose product with the count is the sum; an empty
      list leaves the figures as they were. */
  function Aggregate(s: seq<SessionRecord>, prev: Stats): (st: Stats)
    ensures |s| == 0 ==> st == prev
    ensures |s| > 0 ==> st.totalSessions == |s| && st.totalTime == TotalDuration(s)
    ensures |s| > 0 ==> st.averageConfidence * |s| as real == SumConfidence(s) as real
    ensures |s| > 0 ==> st.averageWpm * |s| as real == SumWpm(s)
  {
    if |s| == 0 then prev
    else
      var n := |s| as real;
      Stats(|s|, TotalDuration(s), SumConfidence(s) as real / n, SumWpm(s) / n)
  }

  /** A quotient by a positive count lies between the bounds its
      numerator lies between once scaled by that count. */
  lemma QuotientBounds(sum: real, n: real, lo: real, hi: real)
    requires n > 0.0 && lo * n <= sum <= hi * n
    ensures lo <= sum / n <= hi
  {
    var q := sum / n;
    assert q * n == sum;
    assert (q - lo) * n == sum - lo * n;
    assert (hi - q) * n == hi * n - sum;
  }

  /** Converting a product of integers to a real multiplies the conversions. */
  lemma ScaledBound(a: int, n: nat)
    ensures (a * n) as real == a as real * n as real
  {
  }

  /** The mean confidence lies within the bounds every session's score lies in. */
  lemma AverageConfidenceBounds(s: seq<SessionRecord>, prev: Stats, lo: int, hi: int)
    requires |s| > 0
    requires forall i :: 0 <= i < |s| ==> lo <= s[i].confidenceScore <= hi
    ensures lo as real <= Aggregate(s, prev).averageConfidence <= hi as real
  {
    ConfidenceSumBounds(s, lo, hi);
    var n := |s| as real;
    assert Aggregate(s, prev).averageConfidence == SumConfidence(s) as real / n;
    ScaledBound(lo, |s|);
    ScaledBound(hi, |s|);
    QuotientBounds(SumConfidence(s) as real, n, lo as real, hi as real);
  }

  /** A session the Practice screen has just prepended is what the
      Dashboard shows first, is counted, and adds its duration to the
      total time. */
  lemma NewSessionOnDashboard(r: SessionRecord, stored: seq<SessionRecord>, prev: Stats)
    ensures LoadedSessions([r] + stored) == [r] + stored
    ensures RecentSessions(LoadedSessions([r] + stored))[0] == r
    ensures var st := Aggregate([r] + stored, prev);
      && st.totalSessions == |stored| + 1
      && st.totalTime == r.duration + TotalDuration(stored)
  {
    var t := [r] + stored;
    PrependSums(r, stored);
    assert |t| == |stored| + 1 && t[0] == r;
    assert RecentSessions(t)[0] == t[0];
  }

  /** The three examples give 3 sessions, 585 seconds shown as "9m 45s",
      mean confidence 247/3 shown as 82, and mean rate 145. */
  lemma SeedFigures()
    ensures Aggregate(SeedSessions, InitialStats) == Stats(3, 585, 247.0 / 3.0, 145.0)
    ensures Round(247.0 / 3.0) == 82
    ensures FormatDuration(585) == "9m 45s"
  {
    var s := SeedSessions;
    var s1, s2 := s[..1], s[..2];
    assert s1[..0] == [] && s2[..1] == s1 && s[..|s| - 1] == s2;
    assert TotalDuration(s1) == 180 && SumConfidence(s1) == 87 && SumWpm(s1) == 152.0;
    assert TotalDuration(s2) == 420 && SumConfidence(s2) == 169 && SumWpm(s2) == 297.0;
    assert TotalDuration(s) == 585 && SumConfidence(s) == 247 && SumWpm(s) == 435.0;
    assert Dec(45) == Dec(4) + [DigitChar(5)];
  }

  /** `sessions.slice(0, 5)`: the recent-sessions list, newest first. */
  function RecentSessions(s: seq<SessionRecord>): (r: seq<SessionRecord>)
    ensures |r| == Min(5, |s|)
    ensures r == s[..|r|]
  {
    s[..Min(5, |s|)]
  }

  /** `sessions.slice(0, 5).reverse()`: the same five sessions for the
      progress chart, oldest of them first. */
  function ProgressSessions(s: seq<SessionRecord>): (r: seq<SessionRecord>)
    ensures |r| == Min(5, |s|)
    ensures forall k :: 0 <= k < |r| ==> r[k] == s[|r| - 1 - k]
  {
    var recent := RecentSessions(s);
    forall k | 0 <= k < |recent| ensures Reverse(recent)[k] == s[|recent| - 1 - k] {
      ReverseAt(recent, k);
    }
    Reverse(recent)
  }

  /** Both views hold the same sessions: reading the chart backwards gives
      the recent list. */
  lemma ProgressMirrorsRecent(s: seq<SessionRecord>)
    ensures Reverse(ProgressSessions(s)) == RecentSessions(s)
  {
    ReverseReverse(RecentSessions(s));
  }

  /** `session.feedback.slice(0, 2)`: the entries a recent-session card shows. */
  function KeyFeedback(r: SessionRecord): (f: seq<Feedback>)
    ensures |f| == Min(2, |r.feedback|)
    ensures f == r.feedback[..|f|]
  {
    r.feedback[..Min(2, |r.feedback|)]
  }

  /** `formatDuration`: "<h>h <m>m" from an hour up, else "<m>m <s>s", each
      number written as `toString()` writes it, with no leading zeros. */
  function FormatDuration(seconds: nat): (r: string)
    ensures |r| > 0 && r[|r| - 1] == (if seconds >= 3600 then 'm' else 's')
    ensures |r| == if seconds >= 3600 then |Dec(seconds / 3600)| + |Dec((seconds % 3600) / 60)| + 3
                   else |Dec((seconds % 3600) / 60)| + |Dec(seconds % 60)| + 3
  {
    var hours := seconds / 3600;
    var minutes := (seconds % 3600) / 60;
    if hours > 0 then Dec(hours) + "h " + Dec(minutes) + "m"
    else Dec(minutes) + "m " + Dec(seconds % 60) + "s"
  }

  /** What a duration label says. */
  datatype Shown = HoursMinutes(hours: nat, minutes: nat) | MinutesSeconds(minutes: nat, seconds: nat)

  /** Reads a field "<digits><unit>". */
  function ParseField(f: string, unit: char): Option<nat> {
    if |f| >= 2 && f[|f| - 1] == unit && AllDigits(f[..|f| - 1])
    then Some(Value(f[..|f| - 1]))
    else None
  }

  /** Reads a duration label back: two fields around the first space, with
      units h and m, or m and s. */
  function ParseDuration(s: string): Option<Shown> {
    var i := IndexOf(s, ' ');
    if i < 0 then None
    else
      var left, right := s[..i], s[i + 1..];
      if ParseField(left, 'h').Some? && ParseField(right, 'm').Some? then
        Some(HoursMinutes(ParseField(left, 'h').value, ParseField(right, 'm').value))
      else if ParseField(left, 'm').Some? && ParseField(right, 's').Some? then
        Some(MinutesSeconds(ParseField(left, 'm').value, ParseField(right, 's').value))
      else None
  }

  /** A numeral followed by its unit reads back as the number. */
  lemma ParseFieldOf(n: nat, unit: char)
    ensures ParseField(Dec(n) + [unit], unit) == Some(n)
  {
    var f := Dec(n) + [unit];
    assert f[..|f| - 1] == Dec(n);
    DecValue(n);
  }

  /** Where the first space of "<a><u> <b><v>" is, and what is around it. */
  lemma SplitFields(a: nat, u: char, b: nat, v: char)
    requires u != ' '
    ensures var s := Dec(a) + [u, ' '] + Dec(b) + [v];
      var i := IndexOf(s, ' ');
      i == |Dec(a)| + 1 && s[..i] == Dec(a) + [u] && s[i + 1..] == Dec(b) + [v]
  {
    var da, db := Dec(a), Dec(b);
    var p := da + [u];
    assert forall k :: 0 <= k < |da| ==> IsDigit(da[k]);
    assert forall k :: 0 <= k < |p| ==> p[k] != ' ';
    SplitAtFirst(p, ' ', db + [v]);
    assert da + [u, ' '] + db + [v] == p + [' '] + (db + [v]);
  }

  /** "<h>h <m>m" reads back as hours and minutes. */
  lemma ParseHoursLabel(h: nat, m: nat)
    ensures ParseDuration(Dec(h) + ['h', ' '] + Dec(m) + ['m']) == Some(HoursMinutes(h, m))
  {
    var s := Dec(h) + ['h', ' '] + Dec(m) + ['m'];
    var i := IndexOf(s, ' ');
    SplitFields(h, 'h', m, 'm');
    ParseFieldOf(h, 'h');
    ParseFieldOf(m, 'm');
    assert ParseField(s[..i], 'h') == Some(h) && ParseField(s[i + 1..], 'm') == Some(m);
  }

  /** "<m>m <s>s" reads back as minutes and seconds. */
  lemma ParseMinutesLabel(m: nat, sec: nat)
    ensures ParseDuration(Dec(m) + ['m', ' '] + Dec(sec) + ['s']) == Some(MinutesSeconds(m, sec))
  {
    var s := Dec(m) + ['m', ' '] + Dec(sec) + ['s'];
    var i := IndexOf(s, ' ');
    SplitFields(m, 'm', sec, 's');
    ParseFieldOf(m, 'm');
    ParseFieldOf(sec, 's');
    assert ParseField(s[..i], 'h') == None;
    assert ParseField(s[..i], 'm') == Some(m) && ParseField(s[i + 1..], 's') == Some(sec);
  }

  /** The label reads back as what it was built from. */
  lemma ParseFormatDuration(x: nat)
    ensures ParseDuration(FormatDuration(x)) ==
      if x / 3600 > 0 then Some(HoursMinutes(x / 3600, (x % 3600) / 60))
      else Some(MinutesSeconds((x % 3600) / 60, x % 60))
  {
    var h, m := x / 3600, (x % 3600) / 60;
    if h > 0 {
      assert FormatDuration(x) == Dec(h) + ['h', ' '] + Dec(m) + ['m'];
      ParseHoursLabel(h, m);
    } else {
      assert FormatDuration(x) == Dec(m) + ['m', ' '] + Dec(x % 60) + ['s'];
      ParseMinutesLabel(m, x % 60);
    }
  }

  /** What a duration label means: hours appear from 3600 seconds up, the
      minutes are below 60, a label with seconds gives the exact time, and
      one with hours gives it to the minute, rounded down. */
  lemma FormatDurationMeaning(x: nat)
    ensures ParseDuration(FormatDuration(x)).Some?
    ensures var d := ParseDuration(FormatDuration(x)).value;
      && (d.HoursMinutes? <==> x >= 3600)
      && d.minutes < 60
      && (d.HoursMinutes? ==> d.hours * 3600 + d.minutes * 60 <= x < d.hours * 3600 + d.minutes * 60 + 60)
      && (d.MinutesSeconds? ==> d.seconds < 60 && d.minutes * 60 + d.seconds == x)
  {
    ParseFormatDuration(x);
  }

  /** The colour class of `getScoreColor`; `Rank` orders them worst to best. */
  datatype ScoreColor = Red | Yellow | Green {
    function CssClass(): string {
      match this
      case Green => "text-green-600 dark:text-green-400"
      case Yellow => "text-yellow-600 dark:text-yellow-400"
      case Red => "text-red-600 dark:text-red-400"
    }

    function Rank(): nat {
      match this
      case Red => 0
      case Yellow => 1
      case Green => 2
    }
  }

  /** `getScoreColor`: green from 85, yellow from 70, red below. */
  function GetScoreColor(score: int): (c: ScoreColor)
    ensures c == Green <==> score >= 85
    ensures c == Yellow <==> 70 <= score < 85
    ensures c == Red <==> score < 70
  {
    if score >= 85 then Green
    else if score >= 70 then Yellow
    else Red
  }

  /** A higher score never gets a worse colour. */
  lemma ScoreColorMonotone(a: int, b: int)
    requires a <= b
    ensures GetScoreColor(a).Rank() <= GetScoreColor(b).Rank()
  {
  }

  /** The badge of `getScoreBadge`; `Rank` orders them worst to best. */
  datatype Badge = Improving | Good | Great | Excellent {
    function Label(): string {
      match this
      case Excellent => "\U{1F3C6} Excellent"
      case Great => "\U{2B50} Great"
      case Good => "\U{1F44D} Good"
      case Improving => "\U{1F4C8} Improving"
    }

    function Rank(): nat {
      match this
      case Improving => 0
      case Good => 1
      case Great => 2
      case Excellent => 3
    }
  }

  /** `getScoreBadge`: excellent from 90, great from 80, good from 70,
      improving below. */
  function GetScoreBadge(score: int): (b: Badge)
    ensures b == Excellent <==> score >= 90
    ensures b == Great <==> 80 <= score < 90
    ensures b == Good <==> 70 <= score < 80
    ensures b == Improving <==> score < 70
  {
    if score >= 90 then Excellent
    else if score >= 80 then Great
    else if score >= 70 then Good
    else Improving
  }

  /** A higher score never gets a lower badge. */
  lemma ScoreBadgeMonotone(a: int, b: int)
    requires a <= b
    ensures GetScoreBadge(a).Rank() <= GetScoreBadge(b).Rank()
  {
  }

  /** The page's state: the loaded list and the four figures. */
  class DashboardPage {
    var sessions: seq<SessionRecord>
    var totalSessions: nat
    var totalTime: nat
    var averageConfidence: real
    var averageWpm: real

    function Figures(): Stats
      reads this
    {
      Stats(totalSessions, totalTime, averageConfidence, averageWpm)
    }

    constructor ()
      ensures sessions == [] && Figures() == InitialStats
    {
      sessions := [];
      totalSessions, totalTime := 0, 0;
      averageConfidence, averageWpm := 0.0, 0.0;
    }

    /** The load effect: shows the stored list, or the examples, which it
        also writes to the store when the store is empty. */
    method LoadSessions(store: SessionStore)
      modifies this`sessions, store
      ensures sessions == LoadedSessions(old(store.sessions))
      ensures store.sessions == sessions
    {
      var saved := store.sessions;
      if |saved| == 0 {
        sessions := SeedSessions;
        store.sessions := SeedSessions;
      } else {
        sessions := saved;
      }
    }

    /** The aggregate effect, run whenever `sessions` changes. */
    method UpdateAggregates()
      modifies this`totalSessions, this`totalTime, this`averageConfidence, this`averageWpm
      ensures Figures() == Aggregate(sessions, old(Figures()))
    {
      if |sessions| > 0 {
        var n := |sessions| as real;
        totalSessions := |sessions|;
        totalTime := TotalDuration(sessions);
        averageConfidence := SumConfidence(sessions) as real / n;
        averageWpm := SumWpm(sessions) / n;
      }
    }

    /** Opening the page: the load effect, then the aggregate effect on the
        list it loaded. The figures always count at least one session. */
    method Mount(store: SessionStore)
      modifies this, store
      ensures sessions == LoadedSessions(old(store.sessions)) && store.sessions == sessions
      ensures Figures() == Aggregate(sessions, old(Figures()))
      ensures totalSessions == |sessions| > 0
    {
      LoadSessions(store);
      UpdateAggregates();
    }
  }
}
