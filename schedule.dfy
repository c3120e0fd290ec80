/** How often an effect's `setInterval` callback runs when the effect is torn
    down and re-run whenever one of its dependencies changes. Used for the
    analysis interval of the Exercises screen (src/pages/Exercises.tsx),
    whose dependency list includes the session clock. Times are in ms. */
module Schedule {
  import opened Numbers

  /** The clock of the Exercises screen changes `sessionTime` this often. */
  const ClockPeriod: nat := 1000
  /** The period of the analysis interval. */
  const AnalysisPeriod: nat := 2000

  /** Runs of an interval of `period` during `span` when the effect that owns
      it is re-run every `restart`: each incarnation runs at `period`,
      `2 * period`, ... strictly before its teardown, which also comes when
      the span ends. */
  function Firings(span: nat, period: nat, restart: nat): nat
    requires period > 0 && restart > 0
    decreases span
  {
    if span == 0 then 0
    else
      var life := Min(span, restart);
      (life - 1) / period + Firings(span - life, period, restart)
  }

  /** An interval torn down at least as often as its period never runs. */
  lemma {:induction false} TornDownFirst(span: nat, period: nat, restart: nat)
    requires 0 < restart <= period
    ensures Firings(span, period, restart) == 0
    decreases span
  {
    if span > 0 {
      var life := Min(span, restart);
      assert (life - 1) / period == 0;
      TornDownFirst(span - life, period, restart);
    }
  }

  /** As written: the analysis effect depends on `sessionTime`, so it is
      re-run every clock tick and its callback never runs, however long the
      session. */
  lemma AnalysisNeverRuns(span: nat)
    ensures Firings(span, AnalysisPeriod, ClockPeriod) == 0
  {
    TornDownFirst(span, AnalysisPeriod, ClockPeriod);
  }

  /** As intended: one interval for the whole recording, which runs once
      every `AnalysisPeriod`; a session of more than two seconds gets at
      least one analysis. */
  function IntendedAnalysisRuns(span: nat): (n: nat)
    ensures n * AnalysisPeriod < span || span == 0
    ensures span <= (n + 1) * AnalysisPeriod
    ensures span > AnalysisPeriod ==> n >= 1
  {
    if span == 0 then 0
    else
      assert Firings(span, AnalysisPeriod, span) == (span - 1) / AnalysisPeriod + Firings(0, AnalysisPeriod, span);
      Firings(span, AnalysisPeriod, span)
  }
}
