/** The request handlers of backend/api/routes.py: the upload checks, the
    comparison guard, the dashboard histograms and the 404 handling. The
    database and the analysis service are collaborators whose answers are
    inputs; a route's answer is a `Response`. */
module Routes {
  import opened Wrappers
  import opened Strings
  import opened Seqs
  import AnalysisService

  type CompanyRow = AnalysisService.CompanyRow

  /** A JSON answer with status 200, or an error status with its detail. */
  datatype Response<T> = Success(body: T) | Failure(status: int, detail: string)

  // ---------------------------------------------------------------------
  // upload_report
  // ---------------------------------------------------------------------

  /** What a processed upload reports back. */
  datatype UploadResult = UploadResult(reportId: int, companyId: int, status: string)

  predicate FilenameOk(filename: string) {
    filename != "" && EndsWith(Lower(filename), ".pdf")
  }

  predicate YearOk(year: int, currentYear: int) {
    1900 <= year <= currentYear + 1
  }

  predicate CompanyNameOk(companyName: string) {
    companyName != "" && |Strip(companyName)| >= 2
  }

  predicate ContentOk(content: seq<bv8>) {
    |content| != 0 && |content| >= 100
  }

  predicate UploadAccepted(filename: string, companyName: string, year: int, currentYear: int, content: seq<bv8>) {
    FilenameOk(filename) && YearOk(year, currentYear) && CompanyNameOk(companyName) && ContentOk(content)
  }

  /** `upload_report`: the four checks in order, each answering 400, then the
      outcome of `process_report` (`processed`), whose error becomes a 500.
      `currentYear` stands for `datetime.now().year`. */
  function UploadReport(filename: string, companyName: string, year: int, currentYear: int,
                        content: seq<bv8>, processed: Result<UploadResult, string>): (r: Response<UploadResult>)
    ensures (r.Failure? && r.status == 400) <==> !UploadAccepted(filename, companyName, year, currentYear, content)
    ensures UploadAccepted(filename, companyName, year, currentYear, content) ==>
      (processed.Ok? ==> r == Success(processed.value)) &&
      (processed.Err? ==> r == Failure(500, "Error processing report: " + processed.error))
  {
    if filename == "" || !EndsWith(Lower(filename), ".pdf") then
      Failure(400, "Only PDF files are supported")
    else if year < 1900 || year > currentYear + 1 then
      Failure(400, "Year must be between 1900 and " + IntToString(currentYear + 1))
    else if companyName == "" || |Strip(companyName)| < 2 then
      Failure(400, "Company name is required and must be at least 2 characters")
    else if |content| == 0 || |content| < 100 then
      Failure(400, "File appears to be empty or corrupt")
    else
      match processed
      case Ok(result) => Success(result)
      case Err(e) => Failure(500, "Error processing report: " + e)
  }

  /** The checks answer in order: the first one that fails decides the detail. */
  lemma UploadCheckOrder(filename: string, companyName: string, year: int, currentYear: int,
                         content: seq<bv8>, processed: Result<UploadResult, string>)
    ensures var r := UploadReport(filename, companyName, year, currentYear, content, processed);
      (!FilenameOk(filename) ==> r == Failure(400, "Only PDF files are supported")) &&
      (FilenameOk(filename) && !YearOk(year, currentYear) ==>
         r == Failure(400, "Year must be between 1900 and " + IntToString(currentYear + 1))) &&
      (FilenameOk(filename) && YearOk(year, currentYear) && !CompanyNameOk(companyName) ==>
         r == Failure(400, "Company name is required and must be at least 2 characters")) &&
      (FilenameOk(filename) && YearOk(year, currentYear) && CompanyNameOk(companyName) && !ContentOk(content) ==>
         r == Failure(400, "File appears to be empty or corrupt"))
  {
  }

  /** An upload the route accepts always passes the service's own checks on
      the content and the file name. */
  lemma AcceptedUploadPassesService(filename: string, companyName: string, year: int, currentYear: int,
                                    content: seq<bv8>)
    requires UploadAccepted(filename, companyName, year, currentYear, content)
    ensures AnalysisService.ValidateUpload(content, filename).Ok?
  {
  }

  // ---------------------------------------------------------------------
  // compare_reports
  // ---------------------------------------------------------------------

  /** `compare_reports`: fewer than two ids answer 400; otherwise the
      service's comparison. */
  method CompareReports(reportIds: seq<int>, fullData: int -> Option<AnalysisService.ReportFullData>)
    returns (r: Response<(seq<AnalysisService.ReportEntry>, map<string, seq<AnalysisService.ComparisonValue>>)>)
    ensures r.Failure? <==> |reportIds| < 2
    ensures r.Failure? ==> r == Failure(400, "At least two reports are required for comparison")
    ensures r.Success? ==>
      var ids := AnalysisService.WithData(reportIds, fullData);
      r.body.0 == AnalysisService.Entries(ids, fullData) &&
      r.body.1.Keys == AnalysisService.RunningCommon(AnalysisService.NameSets(Dedup(ids), fullData)) &&
      forall name :: name in r.body.1 ==> r.body.1[name] == AnalysisService.ValuesFor(r.body.0, name)
  {
    if |reportIds| < 2 {
      return Failure(400, "At least two reports are required for comparison");
    }
    var reports, comparison := AnalysisService.CompareReports(reportIds, fullData);
    r := Success((reports, comparison));
  }

  // ---------------------------------------------------------------------
  // Histograms: a dict from key to count, in key insertion order
  // ---------------------------------------------------------------------

  type Counts<K> = seq<(K, nat)>

  function CountKeys<K>(counts: Counts<K>): (r: seq<K>)
    ensures |r| == |counts|
    ensures forall i :: 0 <= i < |counts| ==> r[i] == counts[i].0
  {
    seq(|counts|, i requires 0 <= i < |counts| => counts[i].0)
  }

  /** The sum of the counts. */
  function Total<K>(counts: Counts<K>): nat {
    if |counts| == 0 then 0 else counts[0].1 + Total(counts[1..])
  }

  /** `counts.get(k, 0)`. */
  function CountOf<K(==)>(counts: Counts<K>, k: K): nat {
    if |counts| == 0 then 0 else if counts[0].0 == k then counts[0].1 else CountOf(counts[1..], k)
  }

  /** `if k not in counts: counts[k] = 0; counts[k] += 1`. */
  function Bump<K(==)>(counts: Counts<K>, k: K): (r: Counts<K>) {
    if |counts| == 0 then [(k, 1)]
    else if counts[0].0 == k then [(k, counts[0].1 + 1)] + counts[1..]
    else [counts[0]] + Bump(counts[1..], k)
  }

  /** The histogram of the keys. */
  function Tallied<K(==)>(keys: seq<K>): Counts<K> {
    if |keys| == 0 then [] else Bump(Tallied(keys[..|keys| - 1]), keys[|keys| - 1])
  }

  lemma {:induction false} BumpTotal<K>(counts: Counts<K>, k: K)
    ensures Total(Bump(counts, k)) == Total(counts) + 1
  {
    if |counts| > 0 && counts[0].0 != k {
      BumpTotal(counts[1..], k);
      assert ([counts[0]] + Bump(counts[1..], k))[1..] == Bump(counts[1..], k);
    }
  }

  lemma {:induction false} BumpKeys<K>(counts: Counts<K>, k: K)
    ensures CountKeys(Bump(counts, k)) == if k in CountKeys(counts) then CountKeys(counts) else CountKeys(counts) + [k]
  {
    if |counts| > 0 {
      assert CountKeys(counts) == [counts[0].0] + CountKeys(counts[1..]);
      if counts[0].0 != k {
        BumpKeys(counts[1..], k);
        var r := [counts[0]] + Bump(counts[1..], k);
        assert CountKeys(r) == [counts[0].0] + CountKeys(Bump(counts[1..], k));
      } else {
        var r := [(k, counts[0].1 + 1)] + counts[1..];
        assert CountKeys(r) == [k] + CountKeys(counts[1..]);
      }
    }
  }

  lemma {:induction false} BumpCountOf<K>(counts: Counts<K>, k: K, j: K)
    ensures CountOf(Bump(counts, k), j) == CountOf(counts, j) + (if j == k then 1 else 0)
  {
    if |counts| > 0 && counts[0].0 != k {
      BumpCountOf(counts[1..], k, j);
      assert ([counts[0]] + Bump(counts[1..], k))[1..] == Bump(counts[1..], k);
    }
  }

  /** The counts sum to the number of keys. */
  lemma {:induction false} TallyTotal<K>(keys: seq<K>)
    ensures Total(Tallied(keys)) == |keys|
  {
    if |keys| > 0 {
      TallyTotal(keys[..|keys| - 1]);
      BumpTotal(Tallied(keys[..|keys| - 1]), keys[|keys| - 1]);
    }
  }

  /** There is one entry per distinct key, in order of first appearance. */
  lemma {:induction false} TallyKeys<K>(keys: seq<K>)
    ensures CountKeys(Tallied(keys)) == Dedup(keys)
  {
    if |keys| > 0 {
      TallyKeys(keys[..|keys| - 1]);
      BumpKeys(Tallied(keys[..|keys| - 1]), keys[|keys| - 1]);
    }
  }

  /** Each key is counted as often as it occurs. */
  lemma {:induction false} TallyCounts<K>(keys: seq<K>, k: K)
    ensures CountOf(Tallied(keys), k) == multiset(keys)[k]
  {
    if |keys| > 0 {
      var prefix := keys[..|keys| - 1];
      TallyCounts(prefix, k);
      BumpCountOf(Tallied(prefix), keys[|keys| - 1], k);
      assert keys == prefix + [keys[|keys| - 1]];
    }
  }

  /** The loop that fills a histogram. */
  method Tally<K(==)>(keys: seq<K>) returns (counts: Counts<K>)
    ensures counts == Tallied(keys)
  {
    counts := [];
    var i := 0;
    while i < |keys|
      invariant 0 <= i <= |keys|
      invariant counts == Tallied(keys[..i])
    {
      assert keys[..i + 1][..i] == keys[..i];
      counts := Bump(counts, keys[i]);
      i := i + 1;
    }
    assert keys[..i] == keys;
  }

  // ---------------------------------------------------------------------
  // get_dashboard_summary and get_sector_distribution
  // ---------------------------------------------------------------------

  /** The default page size of `get_companies` and `get_reports`. */
  const DefaultLimit: nat := 100

  /** The columns of a report row the dashboard reads; the upload date is a
      timestamp. */
  datatype ReportListing = ReportListing(year: string, uploadDate: int, status: string)

  datatype DashboardSummary = DashboardSummary(companyCount: nat, reportCount: nat, latestUploadDate: Option<int>,
                                               statusCounts: Counts<string>, yearCounts: Counts<string>)

  /** `max(...)` of the dates, or `None` without any. */
  function Latest(dates: seq<int>): (r: Option<int>)
    ensures r.None? <==> |dates| == 0
    ensures r.Some? ==> r.value in dates && forall i :: 0 <= i < |dates| ==> dates[i] <= r.value
  {
    if |dates| == 0 then None
    else
      var rest := Latest(dates[..|dates| - 1]);
      if rest.None? then Some(dates[|dates| - 1]) else Some(Max(rest.value, dates[|dates| - 1]))
  }

  function Statuses(reports: seq<ReportListing>): (r: seq<string>)
    ensures |r| == |reports| && forall i :: 0 <= i < |reports| ==> r[i] == reports[i].status
  {
    seq(|reports|, i requires 0 <= i < |reports| => reports[i].status)
  }

  function Years(reports: seq<ReportListing>): (r: seq<string>)
    ensures |r| == |reports| && forall i :: 0 <= i < |reports| ==> r[i] == reports[i].year
  {
    seq(|reports|, i requires 0 <= i < |reports| => reports[i].year)
  }

  function UploadDates(reports: seq<ReportListing>): (r: seq<int>)
    ensures |r| == |reports| && forall i :: 0 <= i < |reports| ==> r[i] == reports[i].uploadDate
  {
    seq(|reports|, i requires 0 <= i < |reports| => reports[i].uploadDate)
  }

  /** `get_dashboard_summary` over the company table and the report table (in
      the newest-first order of `get_reports`); each query reads one page of
      `DefaultLimit` rows. */
  method GetDashboardSummary(companies: seq<CompanyRow>, reports: seq<ReportListing>) returns (d: DashboardSummary)
    ensures var page := Take(reports, DefaultLimit);
      d.companyCount == |Take(companies, DefaultLimit)| && d.reportCount == |page| &&
      d.latestUploadDate == Latest(UploadDates(page)) &&
      d.statusCounts == Tallied(Statuses(page)) && d.yearCounts == Tallied(Years(page))
  {
    var companyPage := Take(companies, DefaultLimit);
    var page := Take(reports, DefaultLimit);
    var latest := None;
    if page != [] {
      latest := Latest(UploadDates(page));
    }
    var statusCounts := Tally(Statuses(page));
    var yearCounts := Tally(Years(page));
    d := DashboardSummary(|companyPage|, |page|, latest, statusCounts, yearCounts);
  }

  /** The dashboard's histograms each add up to its report count, which is at
      most one page. */
  lemma DashboardCounts(companies: seq<CompanyRow>, reports: seq<ReportListing>)
    ensures var page := Take(reports, DefaultLimit);
      Total(Tallied(Statuses(page))) == |page| && Total(Tallied(Years(page))) == |page| && |page| <= DefaultLimit
  {
    var page := Take(reports, DefaultLimit);
    TallyTotal(Statuses(page));
    TallyTotal(Years(page));
  }

  /** `company.sector or "Unknown"`, company by company. */
  function Sectors(companies: seq<CompanyRow>): (r: seq<string>)
    ensures |r| == |companies|
    ensures forall i :: 0 <= i < |companies| ==> r[i] == AnalysisService.CategoryOr(companies[i].sector, "Unknown")
  {
    seq(|companies|, i requires 0 <= i < |companies| => AnalysisService.CategoryOr(companies[i].sector, "Unknown"))
  }

  /** `get_sector_distribution`: the sector histogram of one page of companies. */
  method GetSectorDistribution(companies: seq<CompanyRow>) returns (r: Counts<string>)
    ensures r == Tallied(Sectors(Take(companies, DefaultLimit)))
  {
    r := Tally(Sectors(Take(companies, DefaultLimit)));
  }

  /** One entry per distinct sector, counts adding up to the companies fetched,
      and a company without a sector counted under "Unknown". */
  lemma SectorDistribution(companies: seq<CompanyRow>, i: nat)
    requires i < |companies| <= DefaultLimit
    requires companies[i].sector.None? || companies[i].sector.value == ""
    ensures var r := Tallied(Sectors(companies));
      CountKeys(r) == Dedup(Sectors(companies)) && Total(r) == |companies| && "Unknown" in CountKeys(r)
  {
    TallyKeys(Sectors(companies));
    TallyTotal(Sectors(companies));
    assert Sectors(companies)[i] == "Unknown";
  }

  // ---------------------------------------------------------------------
  // 404 pass-through
  // ---------------------------------------------------------------------

  /** A lookup route: a missing row raises a 404 `HTTPException`, which the
      handler re-raises as is; any other error becomes a 500 with `prefix`. */
  function NotFoundOr<T>(found: Result<Option<T>, string>, notFound: string, prefix: string): (r: Response<T>)
    ensures r.Success? <==> found.Ok? && found.value.Some?
    ensures r.Success? ==> r.body == found.value.value
    ensures r.Failure? ==> (r.status == 404 <==> found == Ok(None))
    ensures found.Err? ==> r == Failure(500, prefix + found.error)
    ensures found == Ok(None) ==> r.detail == notFound
  {
    match found
    case Err(e) => Failure(500, prefix + e)
    case Ok(None) => Failure(404, notFound)
    case Ok(Some(row)) => Success(row)
  }

  /** `get_company`; `found` is the outcome of `DBService.get_company`. */
  function GetCompany(companyId: int, found: Result<Option<CompanyRow>, string>): (r: Response<CompanyRow>)
    ensures r.Failure? && r.status == 404 <==> found == Ok(None)
    ensures found == Ok(None) ==> r.detail == "Company with ID " + IntToString(companyId) + " not found"
    ensures found.Err? ==> r == Failure(500, "Error getting company: " + found.error)
    ensures found.Ok? && found.value.Some? ==> r == Success(found.value.value)
  {
    NotFoundOr(found, "Company with ID " + IntToString(companyId) + " not found", "Error getting company: ")
  }

  /** `update_company`; `updated` is the outcome of `DBService.update_company`. */
  function UpdateCompany(companyId: int, updated: Result<Option<CompanyRow>, string>): (r: Response<CompanyRow>)
    ensures r.Failure? && r.status == 404 <==> updated == Ok(None)
    ensures updated == Ok(None) ==> r.detail == "Company with ID " + IntToString(companyId) + " not found"
    ensures updated.Err? ==> r == Failure(500, "Error updating company: " + updated.error)
    ensures updated.Ok? && updated.value.Some? ==> r == Success(updated.value.value)
  {
    NotFoundOr(updated, "Company with ID " + IntToString(companyId) + " not found", "Error updating company: ")
  }

  /** `get_report_analysis`: the empty analysis of a missing report answers 404;
      an error of the service answers 500. */
  method GetReportAnalysis(reportId: int, data: Option<AnalysisService.ReportFullData>)
    returns (r: Response<AnalysisService.ReportAnalysis>)
    ensures r.Failure? && r.status == 404 <==> data.None?
    ensures data.None? ==> r == Failure(404, "Report with ID " + IntToString(reportId) + " not found")
    ensures data.Some? && data.value.report.Some? && data.value.company.Some? ==>
      r == Success(AnalysisService.ReportAnalysis(data.value.report.value, data.value.company.value,
                                                  AnalysisService.Grouped(data.value.metrics, "financial"),
                                                  AnalysisService.SummaryMap(data.value.summaries)))
    ensures data.Some? && (data.value.report.None? || data.value.company.None?) ==> r.Failure? && r.status == 500
  {
    var result := AnalysisService.GetReportAnalysis(data);
    match result {
      case Err(e) =>
        r := Failure(500, "Error getting report analysis: " + e);
      case Ok(None) =>
        r := Failure(404, "Report with ID " + IntToString(reportId) + " not found");
      case Ok(Some(analysis)) =>
        r := Success(analysis);
    }
  }
}
