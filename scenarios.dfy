/** Worked examples of the breakout report on concrete series. */
module Scenarios {
  import opened Wrappers
  import opened Breakouts

  /** 25 trading days of volume 1000 and close 100, except the 21st day
      (index 20): volume 5000 and close 103, a 3% rise on a fivefold volume. */
  function SpikeSeries(): (s: seq<Day>)
    ensures |s| == 25 && PositiveCloses(s)
  {
    seq(25, i => if i == 20 then Day(i, 5000.0, 103.0) else Day(i, 1000.0, 100.0))
  }

  function SpikeParams(): Params
  {
    Params(200.0, 2.0, 2)
  }

  /** The spike day passes both thresholds. */
  lemma SpikeDayBreaksOut()
    ensures IsBreakout(SpikeSeries(), SpikeParams(), 20)
  {
    AverageWithinWindowRange(SpikeSeries(), 20, 1000.0, 1000.0);
  }

  /** No other day does: before it the average is undefined, the day after it
      the close falls back, and later the close does not move. */
  lemma OtherDaysDoNotBreakOut(i: nat)
    requires i < 25 && i != 20
    ensures !IsBreakout(SpikeSeries(), SpikeParams(), i)
  {
  }

  /** A series whose only flagged day is d has d as its only breakout day
      (among the first n days: d if it is among them, none otherwise). */
  lemma {:induction false} SingleBreakoutDay(s: seq<Day>, p: Params, d: nat, n: nat)
    requires PositiveCloses(s) && d < |s| && n <= |s| && IsBreakout(s, p, d)
    requires forall i :: 0 <= i < |s| && i != d ==> !IsBreakout(s, p, i)
    ensures BreakoutDays(s, p, n) == if d < n then [d] else []
  {
    if n > 0 {
      SingleBreakoutDay(s, p, d, n - 1);
    }
  }

  /** The spike day is the one breakout of the series. */
  lemma SpikeDayIsTheOnlyBreakoutDay()
    ensures BreakoutDays(SpikeSeries(), SpikeParams(), 25) == [20]
  {
    SpikeDayBreaksOut();
    forall i | 0 <= i < 25 && i != 20 ensures !IsBreakout(SpikeSeries(), SpikeParams(), i) {
      OtherDaysDoNotBreakOut(i);
    }
    SingleBreakoutDay(SpikeSeries(), SpikeParams(), 20, 25);
  }

  /** With T1 = 200, T2 = 2 and H = 2 the report is the spike day alone, with
      return close(day 23) / 103 - 1. */
  lemma SpikeReport()
    ensures TradingReport(SpikeSeries(), SpikeParams())
         == Rows([ReportRow(20, 5000.0, 103.0, Some(100.0 / 103.0 - 1.0))])
  {
    var s, p := SpikeSeries(), SpikeParams();
    SpikeDayIsTheOnlyBreakoutDay();
    assert s[22].close == 100.0 && s[20] == Day(20, 5000.0, 103.0);
    assert ReportRows(s, p) == [RowOf(s, p, 20)];
  }
}
