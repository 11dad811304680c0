/** The breakout-report computation of app.py's generate_trading_report: per
    trading day a lagged 20-day average volume, a daily change and a forward
    return, then the days that pass both thresholds, in date order.

    A price series is a sequence of days in date order; index i is the i-th
    trading day, so "i + H" means H trading days later. pandas' NaN is
    `None`; a comparison against NaN is false. */
module Breakouts {
  import opened Wrappers
  import opened Stats

  /** Length of the rolling volume window. */
  const WINDOW: nat := 20

  /** One row of the downloaded table: the date index, Volume and Close. */
  datatype Day = Day(date: int, volume: real, close: real)

  /** The holding period input is an integer with a minimum of 1. */
  type HoldingPeriod = h: nat | 1 <= h witness 1

  /** Thresholds are percentages: 200.0 means "200 percent". */
  datatype Params = Params(volumeThreshold: real, changeThreshold: real, holdingPeriod: HoldingPeriod)

  /** Columns Date, "Volume on Breakout", "Close Price on Breakout", "Return". */
  datatype ReportRow = ReportRow(date: int, volume: real, close: real, ret: Option<real>)

  /** The report table, or the column-less frame returned when nothing was fetched. */
  datatype Frame = NoColumns | Rows(rows: seq<ReportRow>)

  /** Every close is positive, so every price ratio is defined. */
  predicate PositiveCloses(s: seq<Day>)
  {
    forall j :: 0 <= j < |s| ==> s[j].close > 0.0
  }

  /** The market-data index: dates strictly increasing. */
  predicate DatesIncreasing(s: seq<Day>)
  {
    forall j, k :: 0 <= j < k < |s| ==> s[j].date < s[k].date
  }

  function Volumes(s: seq<Day>): seq<real>
  {
    seq(|s|, j requires 0 <= j < |s| => s[j].volume)
  }

  /** Column "20D_Avg_Volume": Volume shifted by one day, then a 20-day rolling mean. */
  function AvgVolume(s: seq<Day>, i: nat): (a: Option<real>)
    requires i < |s|
    ensures a.Some? <==> WINDOW <= i
  {
    if i < WINDOW then None else Some(Sum(Volumes(s)[i - WINDOW..i]) / (WINDOW as real))
  }

  /** close[i] / close[i-1] - 1; the shifted close is NaN on the first day. */
  function DailyChange(s: seq<Day>, i: nat): (c: Option<real>)
    requires PositiveCloses(s) && i < |s|
    ensures c.Some? <==> 1 <= i
    ensures c.Some? ==> s[i].close == s[i - 1].close * (1.0 + c.value)
  {
    if i == 0 then None else Some(s[i].close / s[i - 1].close - 1.0)
  }

  /** Column "Future_Return_H_days": close shifted back by H, over close, minus 1. */
  function ForwardReturn(s: seq<Day>, h: HoldingPeriod, i: nat): (r: Option<real>)
    requires PositiveCloses(s) && i < |s|
    ensures r.Some? <==> i + h < |s|
    ensures r.Some? ==> s[i + h].close == s[i].close * (1.0 + r.value)
  {
    if i + h < |s| then Some(s[i + h].close / s[i].close - 1.0) else None
  }

  /** Volume - (T1/100) * average > 0: the volume exceeds T1 percent of the
      average; false when the average is NaN. */
  predicate VolumeSpike(avg: Option<real>, volume: real, threshold: real)
    ensures avg.None? ==> !VolumeSpike(avg, volume, threshold)
  {
    avg.Some? && volume - (threshold / 100.0) * avg.value > 0.0
  }

  /** change - T2/100 > 0: the change exceeds T2 percent; false when the change is NaN. */
  predicate PriceJump(change: Option<real>, threshold: real)
    ensures change.None? ==> !PriceJump(change, threshold)
  {
    change.Some? && change.value - threshold / 100.0 > 0.0
  }

  /** Column "Breakout"; only a day with a full window can be flagged. */
  predicate IsBreakout(s: seq<Day>, p: Params, i: nat)
    requires PositiveCloses(s) && i < |s|
    ensures IsBreakout(s, p, i) ==> WINDOW <= i
  {
    VolumeSpike(AvgVolume(s, i), s[i].volume, p.volumeThreshold)
    && PriceJump(DailyChange(s, i), p.changeThreshold)
  }

  /** A breakout day is one with a full window whose volume exceeds T1 percent
      of the window's average and whose close exceeds the previous close raised
      by T2 percent. */
  lemma BreakoutMeansVolumeAndPriceRise(s: seq<Day>, p: Params, i: nat)
    requires PositiveCloses(s) && i < |s|
    ensures IsBreakout(s, p, i) <==>
              && WINDOW <= i
              && s[i].volume > (p.volumeThreshold / 100.0) * AvgVolume(s, i).value
              && s[i].close > s[i - 1].close * (1.0 + p.changeThreshold / 100.0)
  {
    ChangeAboveMeansCloseAbove(s, i, p.changeThreshold / 100.0);
  }

  /** A daily change above t is a close above the previous close raised by t. */
  lemma ChangeAboveMeansCloseAbove(s: seq<Day>, i: nat, t: real)
    requires PositiveCloses(s) && i < |s|
    ensures 1 <= i ==> (DailyChange(s, i).value > t <==> s[i].close > s[i - 1].close * (1.0 + t))
  {
    if 1 <= i {
      var prev, c := s[i - 1].close, DailyChange(s, i).value;
      assert s[i].close == prev * (1.0 + c);
      assert s[i].close - prev * (1.0 + t) == prev * (c - t);
    }
  }

  /** Indices of the breakout days among the first n days: exactly the flagged
      ones, in increasing order. */
  function BreakoutDays(s: seq<Day>, p: Params, n: nat): (idx: seq<nat>)
    requires PositiveCloses(s) && n <= |s|
    ensures forall k :: 0 <= k < |idx| ==> idx[k] < n && IsBreakout(s, p, idx[k])
    ensures forall k, l :: 0 <= k < l < |idx| ==> idx[k] < idx[l]
    ensures forall i :: 0 <= i < n && IsBreakout(s, p, i) ==> i in idx
  {
    if n == 0 then []
    else BreakoutDays(s, p, n - 1) + (if IsBreakout(s, p, n - 1) then [n - 1] else [])
  }

  /** The report's projection of day i: its date, volume and close, and the
      return of holding from its close for H trading days. */
  function RowOf(s: seq<Day>, p: Params, i: nat): (row: ReportRow)
    requires PositiveCloses(s) && i < |s|
    ensures row.date == s[i].date && row.volume == s[i].volume && row.close == s[i].close
    ensures row.ret.Some? <==> i + p.holdingPeriod < |s|
  {
    ReportRow(s[i].date, s[i].volume, s[i].close, ForwardReturn(s, p.holdingPeriod, i))
  }

  /** The rows at the given indices, in the given order. */
  function Project(s: seq<Day>, p: Params, idx: seq<nat>): (rows: seq<ReportRow>)
    requires PositiveCloses(s)
    requires forall k :: 0 <= k < |idx| ==> idx[k] < |s|
    ensures |rows| == |idx|
    ensures forall k :: 0 <= k < |idx| ==> rows[k] == RowOf(s, p, idx[k])
  {
    if idx == [] then [] else Project(s, p, idx[..|idx| - 1]) + [RowOf(s, p, idx[|idx| - 1])]
  }

  /** A strictly increasing sequence drawn from [lo, hi) has at most hi - lo elements. */
  lemma {:induction false} IncreasingWithinRange(xs: seq<nat>, lo: nat, hi: nat)
    requires forall k :: 0 <= k < |xs| ==> lo <= xs[k] < hi
    requires forall k, l :: 0 <= k < l < |xs| ==> xs[k] < xs[l]
    ensures |xs| <= if hi <= lo then 0 else hi - lo
  {
    if xs != [] {
      IncreasingWithinRange(xs[1..], xs[0] + 1, hi);
    }
  }

  /** At most one breakout per day that has a full window. */
  lemma BreakoutsNeedFullWindows(s: seq<Day>, p: Params, n: nat)
    requires PositiveCloses(s) && n <= |s|
    ensures |BreakoutDays(s, p, n)| <= if n <= WINDOW then 0 else n - WINDOW
  {
    var idx := BreakoutDays(s, p, n);
    assert forall k :: 0 <= k < |idx| ==> WINDOW <= idx[k] < n;
    IncreasingWithinRange(idx, WINDOW, n);
  }

  /** The flagged rows, projected: at most one per day with a full window. */
  function ReportRows(s: seq<Day>, p: Params): (rows: seq<ReportRow>)
    requires PositiveCloses(s)
    ensures |rows| <= if |s| <= WINDOW then 0 else |s| - WINDOW
  {
    BreakoutsNeedFullWindows(s, p, |s|);
    Project(s, p, BreakoutDays(s, p, |s|))
  }

  /** generate_trading_report on an already fetched series: the column-less
      frame when the series is empty, otherwise the breakout rows. */
  function TradingReport(s: seq<Day>, p: Params): (f: Frame)
    requires PositiveCloses(s)
    ensures f.NoColumns? <==> s == []
  {
    if s == [] then NoColumns else Rows(ReportRows(s, p))
  }

  // ---------------------------------------------------------------------
  // The lagged 20-day window

  /** The average of day i reads only the volumes of days i-20 .. i-1: two
      series that agree there (whatever day i's own volume) give the same average. */
  lemma AverageReadsOnlyPriorWindow(s: seq<Day>, t: seq<Day>, i: nat)
    requires i < |s| && i < |t|
    requires forall j :: 0 <= j < i && i <= j + WINDOW ==> s[j].volume == t[j].volume
    ensures AvgVolume(s, i) == AvgVolume(t, i)
  {
    if WINDOW <= i {
      assert Volumes(s)[i - WINDOW..i] == Volumes(t)[i - WINDOW..i];
    }
  }

  /** Moving to the next day adds the newest volume and drops the oldest:
      the window is exactly the 20 days before the current one. */
  lemma {:induction false} AverageSlides(s: seq<Day>, i: nat)
    requires WINDOW <= i && i + 1 < |s|
    ensures AvgVolume(s, i + 1).value
         == AvgVolume(s, i).value + (s[i].volume - s[i - WINDOW].volume) / (WINDOW as real)
  {
    var v := Volumes(s);
    var longer := v[i - WINDOW..i + 1];
    SumFront(longer);
    assert longer[1..] == v[i + 1 - WINDOW..i + 1];
    assert longer[..|longer| - 1] == v[i - WINDOW..i];
  }

  /** A window of identical volumes averages to that volume, and in general
      the average lies between the window's smallest and largest volume. */
  lemma AverageWithinWindowRange(s: seq<Day>, i: nat, lo: real, hi: real)
    requires WINDOW <= i < |s|
    requires forall j :: i - WINDOW <= j < i ==> lo <= s[j].volume <= hi
    ensures lo <= AvgVolume(s, i).value <= hi
  {
    var w := Volumes(s)[i - WINDOW..i];
    forall k | 0 <= k < |w| ensures lo <= w[k] <= hi {
      assert w[k] == s[i - WINDOW + k].volume;
    }
    MeanWithinBounds(w, lo, hi);
  }

  // ---------------------------------------------------------------------
  // Boundary days

  /** No day among the first 20 is a breakout: its average is NaN. */
  lemma EarlyDaysNeverBreakOut(s: seq<Day>, p: Params, i: nat)
    requires PositiveCloses(s) && i < |s| && i < WINDOW
    ensures !IsBreakout(s, p, i)
  {
  }

  /** A series of 20 or fewer days yields an empty report. */
  lemma ShortSeriesHasNoBreakouts(s: seq<Day>, p: Params)
    requires PositiveCloses(s) && 0 < |s| <= WINDOW
    ensures TradingReport(s, p) == Rows([])
  {
  }

  /** The last H days never have a forward return. */
  lemma LastDaysHaveNoReturn(s: seq<Day>, h: HoldingPeriod, i: nat)
    requires PositiveCloses(s) && i < |s| && |s| <= i + h
    ensures ForwardReturn(s, h, i) == None
  {
  }

  /** A holding period of one uses the very next close. */
  lemma OneDayHoldingUsesNextClose(s: seq<Day>, i: nat)
    requires PositiveCloses(s) && i + 1 < |s|
    ensures ForwardReturn(s, 1, i) == Some(s[i + 1].close / s[i].close - 1.0)
  {
  }

  // ---------------------------------------------------------------------
  // The filter: soundness, completeness, order

  /** Every report row comes from a day that passed both strict thresholds. */
  lemma ReportedDaysPassBothThresholds(s: seq<Day>, p: Params, k: nat)
    requires PositiveCloses(s) && k < |ReportRows(s, p)|
    ensures var i := BreakoutDays(s, p, |s|)[k];
      && WINDOW <= i < |s|
      && s[i].volume - (p.volumeThreshold / 100.0) * (Sum(Volumes(s)[i - WINDOW..i]) / (WINDOW as real)) > 0.0
      && s[i].close / s[i - 1].close - 1.0 - p.changeThreshold / 100.0 > 0.0
      && ReportRows(s, p)[k] == RowOf(s, p, i)
  {
    var i := BreakoutDays(s, p, |s|)[k];
    assert IsBreakout(s, p, i);
  }

  /** Every day with a full window that passes both strict thresholds is reported. */
  lemma QualifyingDaysAreReported(s: seq<Day>, p: Params, i: nat)
    requires PositiveCloses(s) && WINDOW <= i < |s|
    requires s[i].volume - (p.volumeThreshold / 100.0) * (Sum(Volumes(s)[i - WINDOW..i]) / (WINDOW as real)) > 0.0
    requires s[i].close / s[i - 1].close - 1.0 - p.changeThreshold / 100.0 > 0.0
    ensures RowOf(s, p, i) in ReportRows(s, p)
  {
    assert IsBreakout(s, p, i);
    var idx := BreakoutDays(s, p, |s|);
    var k :| 0 <= k < |idx| && idx[k] == i;
    assert ReportRows(s, p)[k] == RowOf(s, p, i);
  }

  /** The report keeps the input's date order, and each row carries its source
      day's date, volume and close unchanged. */
  lemma ReportKeepsDateOrder(s: seq<Day>, p: Params)
    requires PositiveCloses(s) && DatesIncreasing(s)
    ensures var rows := ReportRows(s, p);
      && (forall k, l :: 0 <= k < l < |rows| ==> rows[k].date < rows[l].date)
      && (forall k :: 0 <= k < |rows| ==> Day(rows[k].date, rows[k].volume, rows[k].close) in s)
  {
  }

  // ---------------------------------------------------------------------
  // The imperative computation

  /** Sum of the (at most 20) volumes before day i. */
  function WindowSum(s: seq<Day>, i: nat): real
    requires i <= |s|
  {
    Sum(Volumes(s)[(if i < WINDOW then 0 else i - WINDOW)..i])
  }

  /** The running window sum gains day i and, once full, loses day i - 20. */
  lemma {:induction false} WindowSumStep(s: seq<Day>, i: nat)
    requires i < |s|
    ensures WindowSum(s, i + 1)
         == WindowSum(s, i) + s[i].volume - (if i < WINDOW then 0.0 else s[i - WINDOW].volume)
  {
    var v := Volumes(s);
    var lo := if i < WINDOW then 0 else i - WINDOW;
    assert v[lo..i + 1][..i - lo] == v[lo..i];
    if WINDOW <= i {
      SumFront(v[lo..i + 1]);
      assert v[lo..i + 1][1..] == v[lo + 1..i + 1];
    }
  }

  /** Scanning one more day appends that day's row exactly when it is flagged. */
  lemma ReportGrows(s: seq<Day>, p: Params, i: nat, rows: seq<ReportRow>, flag: bool, ret: Option<real>)
    requires PositiveCloses(s) && i < |s|
    requires rows == Project(s, p, BreakoutDays(s, p, i))
    requires flag == IsBreakout(s, p, i) && ret == ForwardReturn(s, p.holdingPeriod, i)
    ensures (if flag then rows + [ReportRow(s[i].date, s[i].volume, s[i].close, ret)] else rows)
         == Project(s, p, BreakoutDays(s, p, i + 1))
  {
  }

  /** Column "20D_Avg_Volume": shift(1).rolling(20).mean(), kept as a running
      sum over the window. */
  method AverageVolumeColumn(s: seq<Day>) returns (avgVolume: array<Option<real>>)
    ensures fresh(avgVolume) && avgVolume.Length == |s|
    ensures forall j :: 0 <= j < |s| ==> avgVolume[j] == AvgVolume(s, j)
  {
    avgVolume := new Option<real>[|s|](_ => None);
    var window := 0.0;
    for i := 0 to |s|
      invariant window == WindowSum(s, i)
      invariant forall j :: 0 <= j < i ==> avgVolume[j] == AvgVolume(s, j)
    {
      avgVolume[i] := if i < WINDOW then None else Some(window / (WINDOW as real));
      WindowSumStep(s, i);
      window := window + s[i].volume - (if i < WINDOW then 0.0 else s[i - WINDOW].volume);
    }
  }

  /** Column "Future_Return_H_days": close.shift(-H) / close - 1. */
  method ForwardReturnColumn(s: seq<Day>, h: HoldingPeriod) returns (futureReturn: array<Option<real>>)
    requires PositiveCloses(s)
    ensures fresh(futureReturn) && futureReturn.Length == |s|
    ensures forall j :: 0 <= j < |s| ==> futureReturn[j] == ForwardReturn(s, h, j)
  {
    futureReturn := new Option<real>[|s|](_ => None);
    for i := 0 to |s|
      invariant forall j :: 0 <= j < i ==> futureReturn[j] == ForwardReturn(s, h, j)
    {
      futureReturn[i] := if i + h < |s| then Some(s[i + h].close / s[i].close - 1.0) else None;
    }
  }

  /** Column "Breakout", from the average-volume column and close / close.shift(1) - 1. */
  method BreakoutColumn(s: seq<Day>, p: Params, avgVolume: array<Option<real>>) returns (breakout: array<bool>)
    requires PositiveCloses(s) && avgVolume.Length == |s|
    requires forall j :: 0 <= j < |s| ==> avgVolume[j] == AvgVolume(s, j)
    ensures fresh(breakout) && breakout.Length == |s|
    ensures forall j :: 0 <= j < |s| ==> breakout[j] == IsBreakout(s, p, j)
  {
    breakout := new bool[|s|](_ => false);
    for i := 0 to |s|
      invariant forall j :: 0 <= j < i ==> breakout[j] == IsBreakout(s, p, j)
    {
      var change := if i == 0 then None else Some(s[i].close / s[i - 1].close - 1.0);
      breakout[i] := VolumeSpike(avgVolume[i], s[i].volume, p.volumeThreshold)
                     && PriceJump(change, p.changeThreshold);
    }
  }

  /** historical_data[historical_data["Breakout"]] projected to the report's
      columns: the flagged rows, in order. */
  method KeepFlaggedRows(s: seq<Day>, p: Params, breakout: array<bool>, futureReturn: array<Option<real>>)
    returns (rows: seq<ReportRow>)
    requires PositiveCloses(s) && breakout.Length == |s| && futureReturn.Length == |s|
    requires forall j :: 0 <= j < |s| ==> breakout[j] == IsBreakout(s, p, j)
    requires forall j :: 0 <= j < |s| ==> futureReturn[j] == ForwardReturn(s, p.holdingPeriod, j)
    ensures rows == Project(s, p, BreakoutDays(s, p, |s|))
  {
    rows := [];
    for i := 0 to |s|
      invariant rows == Project(s, p, BreakoutDays(s, p, i))
    {
      ReportGrows(s, p, i, rows, breakout[i], futureReturn[i]);
      if breakout[i] {
        rows := rows + [ReportRow(s[i].date, s[i].volume, s[i].close, futureReturn[i])];
      }
    }
  }

  /** Adds the three columns to the table one after another and then keeps the
      flagged rows, as generate_trading_report does with its DataFrame. */
  method GenerateTradingReport(s: seq<Day>, p: Params) returns (f: Frame)
    requires PositiveCloses(s)
    ensures f == TradingReport(s, p)
  {
    if s == [] {
      return NoColumns;
    }
    var avgVolume := AverageVolumeColumn(s);
    var futureReturn := ForwardReturnColumn(s, p.holdingPeriod);
    var breakout := BreakoutColumn(s, p, avgVolume);
    var rows := KeepFlaggedRows(s, p, breakout, futureReturn);
    return Rows(rows);
  }
}
