/** generate_summary: the number of report rows and the average of their
    returns, NaN returns skipped. */
module Summaries {
  import opened Wrappers
  import opened Stats
  import opened Breakouts

  /** The pair behind "we have N trading days with average profit M". */
  datatype Summary = Summary(tradingDays: nat, averageProfit: Option<real>)

  /** Reading the Return column of a frame that has none raises AttributeError. */
  datatype SummaryError = MissingReturnColumn

  /** The defined returns of the rows, in row order. */
  function DefinedReturns(rows: seq<ReportRow>): (rs: seq<real>)
    ensures |rs| <= |rows|
    ensures rs == [] <==> forall k :: 0 <= k < |rows| ==> rows[k].ret.None?
  {
    if rows == [] then []
    else
      var last := rows[|rows| - 1];
      DefinedReturns(rows[..|rows| - 1]) + (if last.ret.Some? then [last.ret.value] else [])
  }

  /** Indices of the rows whose return is defined: exactly those, in increasing order. */
  function DefinedIndices(rows: seq<ReportRow>): (idx: seq<nat>)
    ensures forall k :: 0 <= k < |idx| ==> idx[k] < |rows| && rows[idx[k]].ret.Some?
    ensures forall k, l :: 0 <= k < l < |idx| ==> idx[k] < idx[l]
    ensures forall i :: 0 <= i < |rows| && rows[i].ret.Some? ==> i in idx
  {
    if rows == [] then []
    else
      var init := rows[..|rows| - 1];
      assert forall k :: 0 <= k < |init| ==> init[k] == rows[k];
      DefinedIndices(init) + (if rows[|rows| - 1].ret.Some? then [|rows| - 1] else [])
  }

  /** The averaged values are the defined returns read off those indices: each
      row with a return contributes it once, in row order. */
  lemma {:induction false} DefinedReturnsFollowIndices(rows: seq<ReportRow>)
    ensures var rs, idx := DefinedReturns(rows), DefinedIndices(rows);
      |rs| == |idx| && forall k :: 0 <= k < |idx| ==> rs[k] == rows[idx[k]].ret.value
  {
    if rows != [] {
      var init := rows[..|rows| - 1];
      DefinedReturnsFollowIndices(init);
      ExtendByLastRow(rows, DefinedReturns(init), DefinedIndices(init));
    }
  }

  /** One step of the induction above: extending both sequences by the last
      row keeps them in step. */
  lemma ExtendByLastRow(rows: seq<ReportRow>, rs0: seq<real>, idx0: seq<nat>)
    requires rows != [] && |rs0| == |idx0|
    requires rs0 == DefinedReturns(rows[..|rows| - 1]) && idx0 == DefinedIndices(rows[..|rows| - 1])
    requires forall k :: 0 <= k < |idx0| ==> rs0[k] == rows[..|rows| - 1][idx0[k]].ret.value
    ensures var rs, idx := DefinedReturns(rows), DefinedIndices(rows);
      |rs| == |idx| && forall k :: 0 <= k < |idx| ==> rs[k] == rows[idx[k]].ret.value
  {
    var last := rows[|rows| - 1];
    var rs := rs0 + (if last.ret.Some? then [last.ret.value] else []);
    var idx := idx0 + (if last.ret.Some? then [|rows| - 1] else []);
    assert DefinedReturns(rows) == rs;
    assert DefinedIndices(rows) == idx;
    forall k | 0 <= k < |idx| ensures rs[k] == rows[idx[k]].ret.value {
      if k < |idx0| {
        assert rs[k] == rs0[k] && idx[k] == idx0[k];
      }
    }
  }

  /** Every defined return is some row's return. */
  lemma {:induction false} DefinedReturnsComeFromRows(rows: seq<ReportRow>, x: real)
    requires x in DefinedReturns(rows)
    ensures exists k :: 0 <= k < |rows| && rows[k].ret == Some(x)
  {
    var init, last := rows[..|rows| - 1], rows[|rows| - 1];
    if x in DefinedReturns(init) {
      DefinedReturnsComeFromRows(init, x);
      var k :| 0 <= k < |init| && init[k].ret == Some(x);
      assert rows[k] == init[k];
    } else {
      assert last.ret == Some(x);
    }
  }

  /** Every row's defined return is among the defined returns. */
  lemma {:induction false} DefinedReturnsCoverRows(rows: seq<ReportRow>, k: nat)
    requires k < |rows| && rows[k].ret.Some?
    ensures rows[k].ret.value in DefinedReturns(rows)
  {
    var init := rows[..|rows| - 1];
    if k < |init| {
      DefinedReturnsCoverRows(init, k);
      assert init[k] == rows[k];
    }
  }

  /** When every row has a return, the defined returns are all of them, in order. */
  lemma {:induction false} AllReturnsDefined(rows: seq<ReportRow>)
    requires forall k :: 0 <= k < |rows| ==> rows[k].ret.Some?
    ensures var rs := DefinedReturns(rows);
      |rs| == |rows| && forall k :: 0 <= k < |rows| ==> rs[k] == rows[k].ret.value
  {
    if rows != [] {
      var init := rows[..|rows| - 1];
      AllReturnsDefined(init);
    }
  }

  /** generate_summary as written: len(df) and df.Return.mean(). On the
      column-less frame of an empty fetch the column lookup raises. */
  function GenerateSummary(f: Frame): (r: Result<Summary, SummaryError>)
    ensures r.Failure? <==> f.NoColumns?
    ensures r.Success? ==> r.value.tradingDays == |f.rows|
    ensures r.Success? ==>
              (r.value.averageProfit.None? <==> forall k :: 0 <= k < |f.rows| ==> f.rows[k].ret.None?)
  {
    match f
    case NoColumns => Failure(MissingReturnColumn)
    case Rows(rows) => Success(Summary(|rows|, Mean(DefinedReturns(rows))))
  }

  /** The summary an empty fetch is meant to produce: zero days, undefined
      average, no exception. Agrees with GenerateSummary wherever that succeeds. */
  function Summarize(f: Frame): (r: Summary)
    ensures f.NoColumns? ==> r == Summary(0, None)
    ensures f.Rows? ==> GenerateSummary(f) == Success(r)
  {
    match f
    case NoColumns => Summary(0, None)
    case Rows(rows) =>
      Summary(|rows|, Mean(DefinedReturns(rows)))
  }

  /** The average profit lies between the smallest and largest defined return. */
  lemma AverageProfitWithinReturns(rows: seq<ReportRow>, lo: real, hi: real)
    requires forall k :: 0 <= k < |rows| && rows[k].ret.Some? ==> lo <= rows[k].ret.value <= hi
    requires exists k :: 0 <= k < |rows| && rows[k].ret.Some?
    ensures var a := Summarize(Rows(rows)).averageProfit; a.Some? && lo <= a.value <= hi
  {
    var rs := DefinedReturns(rows);
    forall j | 0 <= j < |rs| ensures lo <= rs[j] <= hi {
      DefinedReturnsComeFromRows(rows, rs[j]);
    }
    MeanWithinBounds(rs, lo, hi);
  }

  /** The average profit times the number of defined returns is their sum. */
  lemma AverageProfitIsMeanOfDefinedReturns(rows: seq<ReportRow>, a: real)
    requires Summarize(Rows(rows)).averageProfit == Some(a)
    ensures a * (|DefinedReturns(rows)| as real) == Sum(DefinedReturns(rows))
  {
    assert Mean(DefinedReturns(rows)) == Some(a);
  }

  /** An empty fetch reaches generate_summary as a column-less frame, and the
      summary as written raises instead of reporting zero days. */
  lemma EmptyFetchSummaryRaises(p: Params)
    ensures GenerateSummary(TradingReport([], p)) == Failure(MissingReturnColumn)
    ensures Summarize(TradingReport([], p)) == Summary(0, None)
  {
  }

  /** For a fetched series, the summary counts the breakout days. */
  lemma SummaryCountsBreakoutDays(s: seq<Day>, p: Params)
    requires PositiveCloses(s) && s != []
    ensures Summarize(TradingReport(s, p)).tradingDays == |BreakoutDays(s, p, |s|)|
  {
  }
}
