/** The handlers of backend/api/pdf_processing_routes.py: the upload that
    queues a report, the background run that moves its status along, and the
    read routes that answer only for completed reports. The report table's
    status column is the state of a `ReportStatuses` object. */
module PdfProcessingRoutes {
  import opened Wrappers
  import opened Strings
  import Routes
  import AnalysisService
  import PdfProcessor

  type Response<T> = Routes.Response<T>

  /** What `process_annual_report` did before the background task looked at
      its result. */
  datatype RunOutcome =
    | NoSections                              // returned the "error" dict
    | Stored(out: PdfProcessor.StoreOutcome)  // ran up to `store_results`
    | Raised                                  // an earlier step raised

  /** The status a report ends with after a background run that could open
      its database session. */
  function FinalStatus(o: RunOutcome): (r: string)
    ensures r == "failed" <==> o.NoSections? || o.Raised? || (o.Stored? && (o.out.raised || o.out.status == "failed"))
    ensures r != "failed" ==> o.Stored? && !o.out.raised && r == o.out.status
  {
    match o
    case NoSections => "failed"
    case Raised => "failed"
    case Stored(out) => if out.raised then "failed" else out.status
  }

  /** A completed `store_results` leaves "completed", a failed one "failed":
      a finished run never stays "pending" or "processing". */
  lemma FinishedRunsLeaveFinalStatus(o: RunOutcome)
    requires o.Stored? ==> o.out.status in {"completed", "failed"}
    ensures FinalStatus(o) in {"completed", "failed"}
  {
  }

  datatype Accepted = Accepted(reportId: int, status: string, message: string)

  /** The status column of the report table. */
  class ReportStatuses {
    var statuses: map<int, string>

    constructor(initial: map<int, string>)
      ensures statuses == initial
    {
      statuses := initial;
    }

    /** `update_report_status`: a missing report is left alone. */
    method UpdateStatus(reportId: int, status: string)
      modifies this
      ensures statuses == if reportId in old(statuses) then old(statuses)[reportId := status] else old(statuses)
    {
      if reportId in statuses {
        statuses := statuses[reportId := status];
      }
    }

    /** `process_pdf`: a name not ending in ".pdf" raises a 400 inside the
        `try`, which the generic handler turns into a 500; otherwise the report
        `newId` is created "pending" and the answer already says "processing". */
    method ProcessPdf(filename: string, newId: int) returns (r: Response<Accepted>)
      modifies this
      ensures !EndsWith(Lower(filename), ".pdf") ==>
        r == Routes.Failure(500, "Error processing PDF: 400: File must be a PDF") && statuses == old(statuses)
      ensures EndsWith(Lower(filename), ".pdf") ==>
        r == Routes.Success(Accepted(newId, "processing", "Report processing started in the background")) &&
        statuses == old(statuses)[newId := "pending"]
    {
      if !EndsWith(Lower(filename), ".pdf") {
        // `str()` of the HTTPException(400) is "400: File must be a PDF".
        return Routes.Failure(500, "Error processing PDF: 400: File must be a PDF");
      }
      statuses := statuses[newId := "pending"];
      r := Routes.Success(Accepted(newId, "processing", "Report processing started in the background"));
    }

    /** `process_report_background`: "processing", then whatever the run wrote,
        then "failed" when the result has an "error" key or the run raised.
        Without a session nothing is written. */
    method ProcessReportBackground(reportId: int, outcome: RunOutcome, connected: bool)
      modifies this
      ensures statuses == if connected && reportId in old(statuses)
                          then old(statuses)[reportId := FinalStatus(outcome)] else old(statuses)
    {
      if !connected {
        return;
      }
      UpdateStatus(reportId, "processing");
      match outcome {
        case NoSections =>
          UpdateStatus(reportId, "failed");
        case Stored(out) =>
          UpdateStatus(reportId, out.status);
          if out.raised {
            // The processor's own handler, then the background job's.
            UpdateStatus(reportId, "failed");
            UpdateStatus(reportId, "failed");
          }
        case Raised =>
          UpdateStatus(reportId, "failed");
          UpdateStatus(reportId, "failed");
      }
    }
  }

  /** The columns of a report row the read routes use. */
  datatype StoredReport = StoredReport(id: int, companyId: int, year: string, fileName: string,
                                       uploadDate: int, status: string)

  /** `get_processing_status`: the row, or a 404 that is re-raised as is. */
  function GetProcessingStatus(reportId: int, found: Result<Option<StoredReport>, string>): (r: Response<StoredReport>)
    ensures r.Failure? && r.status == 404 <==> found == Ok(None)
    ensures found.Err? ==> r == Routes.Failure(500, "Error getting report status: " + found.error)
    ensures found.Ok? && found.value.Some? ==> r == Routes.Success(found.value.value)
  {
    Routes.NotFoundOr(found, "Report with ID " + IntToString(reportId) + " not found", "Error getting report status: ")
  }

  /** The answer of a read route for a report that exists. */
  datatype Gated<T> =
    | NotCompleted(reportId: int, status: string, message: string)  // with an empty list
    | Completed(reportId: int, status: string, data: T)

  function NotCompletedAnswer<T>(report: StoredReport): (r: Gated<T>)
    ensures r.NotCompleted? && r.status == report.status
  {
    NotCompleted(report.id, report.status, "Report processing status: " + report.status)
  }

  /** `get_report_metrics`: 404 for a missing report, an empty answer unless
      the report is "completed", and otherwise its metrics grouped by
      category with a falsy category under "other". */
  method GetReportMetrics(reportId: int, found: Result<Option<StoredReport>, string>,
                          metrics: seq<AnalysisService.MetricRow>)
    returns (r: Response<Gated<AnalysisService.Groups>>)
    ensures r.Failure? && r.status == 404 <==> found == Ok(None)
    ensures found.Err? ==> r == Routes.Failure(500, "Error getting report metrics: " + found.error)
    ensures found.Ok? && found.value.Some? ==>
      var report := found.value.value;
      r == Routes.Success(if report.status != "completed" then NotCompletedAnswer(report)
                          else Completed(report.id, report.status, AnalysisService.Grouped(metrics, "other")))
  {
    match found {
      case Err(e) =>
        return Routes.Failure(500, "Error getting report metrics: " + e);
      case Ok(None) =>
        return Routes.Failure(404, "Report with ID " + IntToString(reportId) + " not found");
      case Ok(Some(report)) =>
        if report.status != "completed" {
          return Routes.Success(NotCompletedAnswer(report));
        }
        var grouped := AnalysisService.GroupMetrics(metrics, "other");
        r := Routes.Success(Completed(report.id, report.status, grouped));
    }
  }

  /** `get_report_insights`: the same gating, then the summaries by category,
      the last one of a category winning. */
  method GetReportInsights(reportId: int, found: Result<Option<StoredReport>, string>,
                           summaries: seq<AnalysisService.SummaryRow>)
    returns (r: Response<Gated<map<string, string>>>)
    ensures r.Failure? && r.status == 404 <==> found == Ok(None)
    ensures found.Err? ==> r == Routes.Failure(500, "Error getting report insights: " + found.error)
    ensures found.Ok? && found.value.Some? ==>
      var report := found.value.value;
      r == Routes.Success(if report.status != "completed" then NotCompletedAnswer(report)
                          else Completed(report.id, report.status, AnalysisService.SummaryMap(summaries)))
  {
    match found {
      case Err(e) =>
        return Routes.Failure(500, "Error getting report insights: " + e);
      case Ok(None) =>
        return Routes.Failure(404, "Report with ID " + IntToString(reportId) + " not found");
      case Ok(Some(report)) =>
        if report.status != "completed" {
          return Routes.Success(NotCompletedAnswer(report));
        }
        var insights := AnalysisService.MapSummaries(summaries);
        r := Routes.Success(Completed(report.id, report.status, insights));
    }
  }

  /** `get_report`: a generic error hides its message. */
  function GetReport(reportId: int, found: Result<Option<StoredReport>, string>): (r: Response<StoredReport>)
    ensures r.Failure? && r.status == 404 <==> found == Ok(None)
    ensures found.Err? ==> r == Routes.Failure(500, "Internal server error")
    ensures found.Ok? && found.value.Some? ==> r == Routes.Success(found.value.value)
  {
    match found
    case Err(_) => Routes.Failure(500, "Internal server error")
    case Ok(None) => Routes.Failure(404, "Report with ID " + IntToString(reportId) + " not found")
    case Ok(Some(report)) => Routes.Success(report)
  }
}
