/** The "Generate Report" handler of app.py: validate the date range, then
    generate the report from the fetched series and summarise it. Dates are
    day numbers (ordinals), so comparing them compares calendar dates. */
module App {
  import opened Wrappers
  import opened Breakouts
  import opened Summaries

  /** validate_inputs: rejects a start date after the end date. */
  function ValidateInputs(startDate: int, endDate: int): (ok: bool)
    ensures ok <==> startDate <= endDate
  {
    !(startDate > endDate)
  }

  /** What one press of the button yields: the date-range message, the
      exception raised while summarising, or the report with its summary. */
  datatype Outcome =
    | DateRangeError
    | SummaryRaised(report: Frame)
    | Generated(report: Frame, summary: Summary)

  /** The handler, given what the market-data provider returned for the range
      (an empty series when it had nothing). An empty fetch reaches the summary
      as the column-less frame, and the summary raises there. */
  function OnGenerateReport(startDate: int, endDate: int, fetched: seq<Day>, p: Params): (o: Outcome)
    requires PositiveCloses(fetched)
    ensures o.DateRangeError? <==> endDate < startDate
    ensures o.SummaryRaised? <==> startDate <= endDate && fetched == []
    ensures o.SummaryRaised? ==> o.report == NoColumns
    ensures o.Generated? ==> o.report.Rows? && o.summary.tradingDays == |o.report.rows|
    ensures o.Generated? ==> o.summary.tradingDays == |BreakoutDays(fetched, p, |fetched|)|
  {
    if !ValidateInputs(startDate, endDate) then DateRangeError
    else
      var report := TradingReport(fetched, p);
      match GenerateSummary(report)
      case Failure(_) => SummaryRaised(report)
      case Success(summary) => Generated(report, summary)
  }

  /** The corrected summary agrees with the handler wherever the handler
      produces one, and gives zero days and no average where it raises. */
  lemma CorrectedSummaryCoversRaise(startDate: int, endDate: int, fetched: seq<Day>, p: Params)
    requires PositiveCloses(fetched)
    ensures var o := OnGenerateReport(startDate, endDate, fetched, p);
      && (o.Generated? ==> o.summary == Summarize(o.report))
      && (o.SummaryRaised? ==> Summarize(o.report) == Summary(0, None))
  {
  }
}
