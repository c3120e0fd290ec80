# SpeechSense session logic in Dafny

This project models the logic inside the three pages of the SpeechSense
public-speaking trainer. The rest of the pages is React rendering.

- **Practice screen** (`src/pages/Practice.tsx`): a camera and microphone
  session. Each second, confidence, words per minute and volume take one
  step of a clamped random walk. Occasionally a coaching message is pushed
  onto the front of a live window of at most five entries, stamped `mm:ss`
  from the session clock. Stopping prepends one session record to the
  stored list; resetting restores the defaults.
- **Exercises screen** (`src/pages/Exercises.tsx`): a microphone session.
  The analysis tick draws a confidence from a base value plus a time bonus
  (capped at 95) and a flat words-per-minute value. It counts filler words
  and appends filler and tip messages to the back of a window that keeps the
  newest five. Start and stop reset and close the window. The screen also
  has a `m:ss` clock and two threshold helpers.
- **Dashboard** (`src/pages/Dashboard.tsx`): loads the stored sessions, or
  three example sessions when none are stored (and writes them back). It
  computes the count, the total time and the means of confidence and words
  per minute, and formats durations as `Hh Mm` or `Mm Ss`. It buckets
  scores into colours and badges, and shows the five most recent sessions
  newest first and, in the progress chart, oldest first.

Each piece of screen state is a class whose methods change its fields: the
Practice session, the Exercises session, the Dashboard page, and the stored
list (`SessionStore`, standing for the browser storage key
`speechSenseSessions`). The pure helpers are functions. Every call to
`Math.random()` becomes a `real` parameter `r` with `0 <= r < 1`
(`Numbers.IsDraw`), and one firing of a timer is one method call. Metrics
are `real`, so the model has no floating-point rounding. `Math.round` is
`floor(x + 0.5)`, and `Math.floor(r * n)` is `Numbers.ScaledIndex`.

What a rendered label means is stated as a round trip. Small parsers
(`Text.ParseClock`, `Dashboard.ParseDuration`) read a label back, and
lemmas prove that what they read is the number it was built from.

Two behaviours of the code are easy to expect otherwise, and the model
follows the code:

- `stopRecording` in both screens does not check that a recording is
  running; only the button that calls it is hidden when idle. So the stop
  methods have no such precondition. On the Practice screen a stop while
  idle would still prepend a record; the Exercises screen writes no record
  and would append the completion message.
- `resetSession` does not stop a running recording. It only restores the
  metrics, the clock and the window.

## Model

| member | source | states |
|---|---|---|
| Numbers.Clamp | src/pages/Practice.tsx:61-63 | `Math.max(lo, Math.min(hi, x))` lies in [lo, hi]; it is x when x is in range, lo below the range, hi above it |
| Numbers.Round | src/pages/Practice.tsx:98 | `Math.round` lands within half a unit of its argument: x - 0.5 < n <= x + 0.5 |
| Numbers.ScaledIndex | src/pages/Exercises.tsx:26 | `Math.floor(r * n)` for a draw is an index below n, the integer part of r * n |
| Numbers.Pick | src/pages/Practice.tsx:44 | a drawn message is an element of its pool |
| Numbers.PickAt | src/pages/Practice.tsx:44 | the choice is uniform by draw: element i of n is picked exactly for draws with i <= r * n < i + 1 |
| Text.Dec | src/pages/Practice.tsx:119 | `toString()` of a non-negative integer is a non-empty string of digits, one digit exactly when n < 10 |
| Text.DecValue | src/pages/Practice.tsx:119 | reading back the digits `toString()` wrote gives the number |
| Text.DecCanonical | src/pages/Exercises.tsx:86 | `toString()` writes a leading '0' only for 0 |
| Text.PadStart | src/pages/Practice.tsx:119 | `padStart(width, fill)` has length max(width, \|s\|) |
| Text.PadStartShape | src/pages/Practice.tsx:119 | the padded string ends with s and every character before s is the fill |
| Text.PadZerosValue | src/pages/Practice.tsx:119 | zero padding keeps a numeral a numeral of the same value |
| Seqs.Reverse | src/pages/Dashboard.tsx:195 | `reverse()` keeps the length |
| Seqs.ReverseAt | src/pages/Dashboard.tsx:195 | after `reverse()`, position k holds what position \|s\|-1-k held |
| Seqs.ReverseReverse | src/pages/Dashboard.tsx:195 | reversing twice gives the list back |
| Records.SessionStore.constructor | src/pages/Practice.tsx:104 | the store holds the list it was opened with |
| Practice.Walk | src/pages/Practice.tsx:61-63 | one walk step is in [lo, hi] whatever the draw; when prev + (r - 0.5) * span is in range it is exactly that value, above hi it is hi and below lo it is lo; from a value in range it moves by at most half the step width |
| Practice.DecTwoDigits | src/pages/Practice.tsx:118 | a seconds value below 100 takes at most two digits |
| Practice.FormatTime | src/pages/Practice.tsx:116-120 | the label has the colon third from the end and length max(2, digits of the minutes) + 3: seconds exactly two digits, minutes padded to exactly two below 100 minutes and unpadded above |
| Practice.FormatTimeRoundTrip | src/pages/Practice.tsx:116-120 | the `mm:ss` label reads back as (m, s) with s < 60 and 60m + s = t |
| Practice.PushRecent | src/pages/Practice.tsx:47-50 | the window after a push has length min(5, n+1), the new entry first and then the first four earlier entries in order |
| Practice.DrawFeedback | src/pages/Practice.tsx:42-48 | an entry is positive exactly when the first draw exceeds 0.3, and exactly when its message is from the positive pool; warnings come from the warning pool; the message is the one `Pick` selects from that pool with the second draw (element floor(r * n), by `PickAt`); the timestamp is the `mm:ss` label of the clock |
| Practice.PoolsDisjoint | src/pages/Practice.tsx:25-40 | no message is in both pools |
| Practice.PracticeSession.constructor | src/pages/Practice.tsx:8-21 | idle at time 0 with confidence 85, 145 wpm, volume 75 and the three opening entries |
| Practice.PracticeSession.GenerateFeedback | src/pages/Practice.tsx:24-51 | the window becomes the drawn entry, stamped with the current clock, pushed onto the front of the old window; the metric ranges and the bound of five are kept |
| Practice.PracticeSession.Tick | src/pages/Practice.tsx:57-69 | the clock gains exactly one second; each metric takes one walk step and stays in range, confidence moving at most 2, wpm at most 5, volume at most 4; a draw above 0.85 pushes an entry stamped with the time before the increment, and otherwise the window is unchanged |
| Practice.PracticeSession.StartRecording | src/pages/Practice.tsx:74-85 | with media granted, recording starts at time 0; without it, recording flag and clock are unchanged |
| Practice.PracticeSession.CurrentRecord | src/pages/Practice.tsx:95-102 | the saved record carries the clock as duration, the live window, the last wpm and volume, and a whole-number confidence in [70, 98] that is `Math.round` of the live one: c - 0.5 < n <= c + 0.5, halves rounded up |
| Practice.PracticeSession.StopRecording | src/pages/Practice.tsx:87-106 | recording stops and the stored list becomes the current record followed by the old list: one longer, the old list an unchanged suffix |
| Practice.PracticeSession.ResetSession | src/pages/Practice.tsx:108-114 | time 0, confidence 85, 145 wpm, volume 75 and an empty window; the recording flag and the store are not touched |
| Exercises.TimeBonus | src/pages/Exercises.tsx:22 | the bonus is min(t / 2, 10): it is t / 2 or 10, whichever is smaller, so in [0, 10] and exactly 10 from 20 seconds on |
| Exercises.TimeBonusMonotone | src/pages/Exercises.tsx:22 | the bonus never shrinks as time goes on |
| Exercises.AnalysisConfidence | src/pages/Exercises.tsx:21-23 | the drawn confidence is in [65, 95]: the base plus bonus, or the cap 95 when that is lower |
| Exercises.AnalysisConfidenceMonotone | src/pages/Exercises.tsx:21-23 | for the same draw, a later tick never gives a lower confidence |
| Exercises.WpmDraw | src/pages/Exercises.tsx:26 | the drawn rate is 120 + floor(40r): w - 120 <= 40r < w - 119, so a whole number in [120, 159] |
| Exercises.DrawnWpmNeverTooFast | src/pages/Exercises.tsx:26 | a drawn rate never gets the "slow down" advice |
| Exercises.AppendRecent | src/pages/Exercises.tsx:31 | the window after an append has length min(5, n+1), the new entry last, and before it the last earlier entries in order |
| Exercises.MirrorAt | src/pages/Exercises.tsx:43 | one position of the mirror property below |
| Exercises.WindowsMirror | src/pages/Exercises.tsx:43 | pushing to the front of the Practice window equals appending to the back of the same window reversed, then reversing |
| Exercises.FormatTime | src/pages/Exercises.tsx:83-87 | the label is the unpadded minutes numeral, a colon, and exactly two seconds characters: its length is the numeral's length plus 3 |
| Exercises.FormatTimeUnpadded | src/pages/Exercises.tsx:86 | minutes are not padded: the label starts with '0' exactly when less than a minute has passed (with the exact length of `FormatTime`, "0:ss" below a minute) |
| Exercises.FormatTimeRoundTrip | src/pages/Exercises.tsx:83-87 | the `m:ss` label reads back as (m, s) with s < 60 and 60m + s = t |
| Exercises.GetConfidenceColor | src/pages/Exercises.tsx:89-93 | success exactly from 80, warning exactly in [60, 80), destructive exactly below 60 |
| Exercises.GetWpmFeedback | src/pages/Exercises.tsx:95-99 | faster exactly below 130, slower exactly above 160, perfect exactly in [130, 160] |
| Exercises.ExercisesSession.constructor | src/pages/Exercises.tsx:8-13 | idle with zero metrics, count and clock and an empty window |
| Exercises.ExercisesSession.AnalysisTick | src/pages/Exercises.tsx:19-45 | confidence and rate are the two draws; a filler draw below 0.15 adds exactly one to the count and appends the filler message; a tip draw below 0.1 then appends a pool tip; with only a filler the filler message is last, and with neither the window is unchanged; while recording the window stays at most five |
| Exercises.ExercisesSession.TimerTick | src/pages/Exercises.tsx:55-57 | the clock gains exactly one second |
| Exercises.ExercisesSession.StartRecording | src/pages/Exercises.tsx:62-73 | with the microphone granted: recording, clock and count 0, window exactly the start message; without it: window exactly the denial message, recording flag, clock and count unchanged |
| Exercises.ExercisesSession.StopRecording | src/pages/Exercises.tsx:75-81 | recording stops and the completion message is appended untrimmed, so the window grows by one (a full window reaches six) |
| Schedule.TornDownFirst | src/pages/Exercises.tsx:45-50 | an interval whose effect is re-run at least as often as its period never runs |
| Schedule.AnalysisNeverRuns | src/pages/Exercises.tsx:45-50 | as written, the two-second analysis interval is re-created on every one-second clock change and never runs |
| Schedule.IntendedAnalysisRuns | src/pages/Exercises.tsx:19-45 | one interval for the whole recording runs once per two seconds: n runs in a span with 2000n < span <= 2000(n+1), at least one after two seconds |
| Dashboard.LoadedSessions | src/pages/Dashboard.tsx:30-73 | the loaded list is the stored list when one is stored, else exactly the three examples; never empty |
| Dashboard.LoadIsStable | src/pages/Dashboard.tsx:69 | loading again what a load wrote back gives the same list |
| Dashboard.FoldsCoverEachSession | src/pages/Dashboard.tsx:79-81 | the `reduce` folds: each session's duration is at most the total; with no negative scores or rates, each session's score and rate are at most their sums |
| Dashboard.PrependSums | src/pages/Dashboard.tsx:79-81 | the reduce sums of a list with a record prepended are that record's fields plus the sums of the rest |
| Dashboard.ConfidenceSumBounds | src/pages/Dashboard.tsx:80 | when every score is in [lo, hi], the sum of the scores is between lo and hi times the count |
| Dashboard.Aggregate | src/pages/Dashboard.tsx:76-83 | for a non-empty list: count = length, total time = sum of durations, mean confidence times count = sum of scores, and the same for wpm; for an empty list the figures stay as they were |
| Dashboard.AverageConfidenceBounds | src/pages/Dashboard.tsx:80 | the mean confidence lies in every range that contains all the scores |
| Dashboard.NewSessionOnDashboard | src/pages/Dashboard.tsx:241 | a record just prepended by the Practice screen is loaded as is, shown first among the recent sessions, counted, and its duration added to the total time |
| Dashboard.SeedFigures | src/pages/Dashboard.tsx:35-83 | the examples give 3 sessions, 585 s shown as "9m 45s", mean confidence 247/3 shown as 82, and mean rate 145 |
| Dashboard.RecentSessions | src/pages/Dashboard.tsx:241 | the recent list is the first min(5, n) sessions in order |
| Dashboard.ProgressSessions | src/pages/Dashboard.tsx:195 | the chart holds the same min(5, n) sessions with position k holding recent session count-1-k |
| Dashboard.ProgressMirrorsRecent | src/pages/Dashboard.tsx:195 | reading the chart backwards gives the recent list |
| Dashboard.KeyFeedback | src/pages/Dashboard.tsx:272 | a card shows the first min(2, n) feedback entries in order |
| Dashboard.FormatDuration | src/pages/Dashboard.tsx:85-92 | the label ends in 'm' (hours and minutes) exactly from 3600 s, otherwise in 's' (minutes and seconds); its length is the digit counts of its two numbers plus the three unit and space characters, so with the round trip each number is written without leading zeros |
| Dashboard.ParseHoursLabel | src/pages/Dashboard.tsx:90 | a "<h>h <m>m" label reads back as h hours and m minutes |
| Dashboard.ParseMinutesLabel | src/pages/Dashboard.tsx:91 | a "<m>m <s>s" label reads back as m minutes and s seconds |
| Dashboard.ParseFormatDuration | src/pages/Dashboard.tsx:85-92 | the duration label reads back as hours = s div 3600 and minutes = (s mod 3600) div 60 from an hour up, else as those minutes and s mod 60 seconds |
| Dashboard.FormatDurationMeaning | src/pages/Dashboard.tsx:85-92 | hours appear exactly from 3600 s; minutes are below 60; with seconds, 60m + s equals the input with s < 60; with hours, 3600h + 60m <= input < 3600h + 60m + 60 |
| Dashboard.GetScoreColor | src/pages/Dashboard.tsx:103-107 | green exactly from 85, yellow exactly in [70, 85), red exactly below 70 |
| Dashboard.ScoreColorMonotone | src/pages/Dashboard.tsx:103-107 | a higher score never gets a worse colour |
| Dashboard.GetScoreBadge | src/pages/Dashboard.tsx:109-114 | excellent exactly from 90, great in [80, 90), good in [70, 80), improving below 70: one badge per score |
| Dashboard.ScoreBadgeMonotone | src/pages/Dashboard.tsx:109-114 | a higher score never gets a lower badge |
| Dashboard.DashboardPage.constructor | src/pages/Dashboard.tsx:22-26 | no sessions and all four figures 0 |
| Dashboard.DashboardPage.LoadSessions | src/pages/Dashboard.tsx:28-73 | the page shows the loaded list, and the store then holds the same list (the examples are written back only when the store was empty) |
| Dashboard.DashboardPage.UpdateAggregates | src/pages/Dashboard.tsx:75-83 | the figures become the aggregate of the list, or stay as they were when it is empty |
| Dashboard.DashboardPage.Mount | src/pages/Dashboard.tsx:28-83 | after the two effects the page shows the loaded list with its aggregate, and the count is at least one |

## Findings

| source | as written | input that shows it | evidently intended | confidence | as-written member | corrected member |
|---|---|---|---|---|---|---|
| src/pages/Exercises.tsx:19-50 | the analysis effect lists `sessionTime` as a dependency, so the one-second clock tears down and re-creates its two-second interval before the first run | any recording: at 1000 ms the clock changes `sessionTime` and the interval, due at 2000 ms, is cleared | the analysis runs every two seconds while recording (confidence, rate, filler and tip updates) | high, not executed | Schedule.AnalysisNeverRuns | Schedule.IntendedAnalysisRuns |

The rest of the model follows the intended behaviour: `Exercises.ExercisesSession.AnalysisTick`
is one run of the analysis, as if the interval fired, reading the live clock.
Dropping `sessionTime` from the dependency list alone would not give that:
the single interval's callback would keep the `sessionTime` it closed over
(0), so the time bonus would stay 0. The intended fix reads the clock
through a ref (or a functional update), which is what `AnalysisTick`
models.

## Left out

- JSX rendering, CSS, icons, the `Progress` widgets, and `src/pages/Home.tsx` and `src/components/Footer.tsx`, which hold no logic.
- The mute and camera toggles of the Practice screen: they only flip display flags.
- Timer machinery in general: `setInterval` and `clearInterval` lifetimes and effect re-runs. One firing is one method call. The Schedule module counts runs only for the analysis finding; it does not model interleavings.
- Media capture (`getUserMedia`, attaching the stream, stopping tracks) and `console.error`: acquisition is a boolean `granted` parameter.
- `localStorage` and JSON: the stored list is the `SessionStore.sessions` field. A malformed stored value, which `JSON.parse` would throw on, is not modelled.
- Dates: the `date` field of a record and `formatDate` depend on the clock and the locale. Records have no date.
- Floating point: metrics and means are reals, and a mean is stated as mean times count = sum rather than as an IEEE division.
- `Math.random()`: each draw is a parameter in [0, 1).
- Dashboard.TotalDuration, Dashboard.SumConfidence and Dashboard.SumWpm carry no contract of their own (a quantified one makes every proof about the aggregates too costly). Their properties are stated by Dashboard.FoldsCoverEachSession and Dashboard.PrependSums.
- Dashboard.NewSessionOnDashboard: it does not state the new mean. The mean of any list is stated by Dashboard.Aggregate and bounded by Dashboard.AverageConfidenceBounds.
