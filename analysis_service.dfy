/** The coordinator of backend/services/analysis_service.py: the input checks
    of `process_report`, the records `_store_analysis_results` writes for an
    analysis, the cross-report comparison of `compare_reports`, and the
    category grouping of `get_report_analysis`. The database is a
    collaborator: the rows it returns are inputs. */
module AnalysisService {
  import opened Wrappers
  import opened Strings
  import opened Seqs
  import NlpUtils
  import HuggingFaceService
  import AiService

  type Json = NlpUtils.Json

  // ---------------------------------------------------------------------
  // process_report input validation
  // ---------------------------------------------------------------------

  /** The checks of `process_report` before the file is saved: content of at
      least 100 bytes, then a name ending in ".pdf" in any case. */
  function ValidateUpload(content: seq<bv8>, filename: string): (r: Result<(), string>)
    ensures r.Ok? <==> |content| >= 100 && EndsWith(Lower(filename), ".pdf")
    ensures |content| < 100 ==> r == Err("File content is too small or empty")
  {
    if |content| == 0 || |content| < 100 then Err("File content is too small or empty")
    else if filename == "" || !EndsWith(Lower(filename), ".pdf") then Err("Invalid filename or not a PDF file")
    else Ok(())
  }

  const EmptyTextError: string :=
    "Failed to extract text from PDF: The PDF appears to be empty or could not be properly read"

  /** The check of the extracted text: at least 100 characters once stripped. */
  function ValidateText(text: string): (r: Result<(), string>)
    ensures r.Ok? <==> |Strip(text)| >= 100
  {
    if text == "" || |Strip(text)| < 100 then Err(EmptyTextError)
    else Ok(())
  }

  // ---------------------------------------------------------------------
  // _store_analysis_results
  // ---------------------------------------------------------------------

  /** A `MetricCreate` as built from one metric item of the analysis. */
  datatype AnalysisMetric = AnalysisMetric(name: Json, value: Json, unit: Json, category: Json)

  datatype SummaryRecord = SummaryRecord(category: string, content: string)

  /** `d.get(key, default)` on a JSON object. */
  function GetOr(fields: seq<(string, Json)>, key: string, default: Json): (r: Json)
    ensures (forall i :: 0 <= i < |fields| ==> fields[i].0 != key) ==> r == default
  {
    match HuggingFaceService.Get(fields, key)
    case Some(v) => v
    case None => default
  }

  /** The record of one metric item; an item that is not an object has no
      `get` and raises. */
  function MetricOf(item: Json): (r: Option<AnalysisMetric>)
    ensures r.Some? <==> item.JObj?
  {
    match item
    case JObj(fields) =>
      Some(AnalysisMetric(GetOr(fields, "name", NlpUtils.JStr("")), GetOr(fields, "value", NlpUtils.JStr("")),
                          GetOr(fields, "unit", NlpUtils.JStr("")), GetOr(fields, "category", NlpUtils.JStr("financial"))))
    case _ => None
  }

  /** The records of the first metric items, or `None` once one is not an object. */
  function MetricsOf(items: seq<Json>): (r: Option<seq<AnalysisMetric>>)
    ensures r.Some? <==> forall i :: 0 <= i < |items| ==> items[i].JObj?
    ensures r.Some? ==> |r.value| == |items| && forall i :: 0 <= i < |items| ==> Some(r.value[i]) == MetricOf(items[i])
  {
    if |items| == 0 then Some([])
    else
      var rest := MetricsOf(items[..|items| - 1]);
      var last := MetricOf(items[|items| - 1]);
      if rest.Some? && last.Some? then Some(rest.value + [last.value]) else None
  }

  function LabelName(l: NlpUtils.Label): string {
    match l
    case Positive => "positive"
    case Negative => "negative"
    case Neutral => "neutral"
  }

  /** `str(x)` of a risk item: a string is itself; `repr` renders anything else. */
  function Show(x: Json, repr: Json -> string): string {
    if x.JStr? then x.s else repr(x)
  }

  /** The `"- r"` lines of the risks, in order. */
  function RiskLines(risks: seq<Json>, repr: Json -> string): (r: seq<string>)
    ensures |r| == |risks|
    ensures forall i :: 0 <= i < |risks| ==> r[i] == "- " + Show(risks[i], repr)
  {
    if |risks| == 0 then [] else RiskLines(risks[..|risks| - 1], repr) + ["- " + Show(risks[|risks| - 1], repr)]
  }

  function SentimentContent(s: AiService.SentimentResult): string {
    "Sentiment: " + LabelName(s.sentiment) + "\n\nExplanation: " + s.explanation
  }

  /** The record, when the part it stores is present. */
  function When(present: bool, s: SummaryRecord): seq<SummaryRecord> {
    if present then [s] else []
  }

  /** The summaries stored for an analysis: executive, outlook, risks and
      sentiment, each only when present; the sentiment dict is never empty,
      so its summary is always stored. */
  function AnalysisSummaries(a: AiService.Report, repr: Json -> string): (r: seq<SummaryRecord>)
    ensures 1 <= |r| <= 4 && r[|r| - 1] == SummaryRecord("sentiment", SentimentContent(a.sentiment))
  {
    When(a.executive != "", SummaryRecord("executive", a.executive)) +
    When(a.outlook != "", SummaryRecord("outlook", a.outlook)) +
    When(a.risks != [], SummaryRecord("risks", Join(RiskLines(a.risks, repr), "\n"))) +
    [SummaryRecord("sentiment", SentimentContent(a.sentiment))]
  }

  /** `_store_analysis_results`: the metric and summary batches written, or
      the error a metric item that is not an object raises. */
  method StoreAnalysisResults(analysis: AiService.Report, repr: Json -> string)
    returns (r: Result<(seq<AnalysisMetric>, seq<SummaryRecord>), string>)
    ensures r.Ok? <==> MetricsOf(analysis.metrics).Some?
    ensures r.Ok? ==> r.value == (MetricsOf(analysis.metrics).value, AnalysisSummaries(analysis, repr))
  {
    var metrics := CollectMetrics(analysis.metrics);
    if metrics.None? {
      return Err("object has no attribute 'get'");
    }
    var summaries := When(analysis.executive != "", SummaryRecord("executive", analysis.executive));
    summaries := summaries + When(analysis.outlook != "", SummaryRecord("outlook", analysis.outlook));
    ghost var withoutRisks := summaries;
    if analysis.risks != [] {
      var riskContent := Join(RiskLines(analysis.risks, repr), "\n");
      summaries := summaries + [SummaryRecord("risks", riskContent)];
    }
    assert analysis.risks == [] ==> summaries == withoutRisks + [];
    summaries := summaries + [SummaryRecord("sentiment", SentimentContent(analysis.sentiment))];
    r := Ok((metrics.value, summaries));
  }

  /** The loop that builds the `MetricCreate` list. */
  method CollectMetrics(items: seq<Json>) returns (r: Option<seq<AnalysisMetric>>)
    ensures r == MetricsOf(items)
  {
    var metrics := [];
    var i := 0;
    while i < |items|
      invariant 0 <= i <= |items|
      invariant MetricsOf(items[..i]) == Some(metrics)
    {
      assert items[..i + 1][..i] == items[..i];
      var m := MetricOf(items[i]);
      if m.None? {
        MetricsOfFails(items, i);
        return None;
      }
      metrics := metrics + [m.value];
      i := i + 1;
    }
    assert items[..i] == items;
    r := Some(metrics);
  }

  lemma MetricsOfFails(items: seq<Json>, i: nat)
    requires i < |items| && !items[i].JObj?
    ensures MetricsOf(items).None?
  {
  }

  /** The stored metric of an item without the keys takes the defaults: name,
      value and unit "", category "financial". */
  lemma MetricDefaults()
    ensures MetricOf(NlpUtils.JObj([])) ==
      Some(AnalysisMetric(NlpUtils.JStr(""), NlpUtils.JStr(""), NlpUtils.JStr(""), NlpUtils.JStr("financial")))
  {
  }

  /** The summaries come in the fixed order executive, outlook, risks,
      sentiment, and each of the first three is there exactly when its part
      of the analysis is non-empty. */
  lemma SummaryOrder(a: AiService.Report, repr: Json -> string)
    ensures SummaryCategories(AnalysisSummaries(a, repr)) ==
      (if a.executive != "" then ["executive"] else []) + (if a.outlook != "" then ["outlook"] else []) +
      (if a.risks != [] then ["risks"] else []) + ["sentiment"]
  {
    var w1 := When(a.executive != "", SummaryRecord("executive", a.executive));
    var w2 := When(a.outlook != "", SummaryRecord("outlook", a.outlook));
    var w3 := When(a.risks != [], SummaryRecord("risks", Join(RiskLines(a.risks, repr), "\n")));
    var last := [SummaryRecord("sentiment", SentimentContent(a.sentiment))];
    WhenCategories(a.executive != "", w1, "executive", a.executive);
    WhenCategories(a.outlook != "", w2, "outlook", a.outlook);
    WhenCategories(a.risks != [], w3, "risks", Join(RiskLines(a.risks, repr), "\n"));
    assert SummaryCategories(last) == ["sentiment"];
    SummaryCategoriesAppend(w1, w2);
    SummaryCategoriesAppend(w1 + w2, w3);
    SummaryCategoriesAppend(w1 + w2 + w3, last);
  }

  lemma WhenCategories(present: bool, w: seq<SummaryRecord>, category: string, content: string)
    requires w == When(present, SummaryRecord(category, content))
    ensures SummaryCategories(w) == if present then [category] else []
  {
  }

  /** The categories of the summary records, in order. */
  function SummaryCategories(r: seq<SummaryRecord>): seq<string> {
    seq(|r|, i requires 0 <= i < |r| => r[i].category)
  }

  lemma SummaryCategoriesAppend(a: seq<SummaryRecord>, b: seq<SummaryRecord>)
    ensures SummaryCategories(a + b) == SummaryCategories(a) + SummaryCategories(b)
  {
  }

  // ---------------------------------------------------------------------
  // Rows of get_report_full_data
  // ---------------------------------------------------------------------

  datatype MetricRow = MetricRow(name: string, value: string, unit: Option<string>, category: Option<string>)

  datatype SummaryRow = SummaryRow(category: string, content: string)

  datatype CompanyRow = CompanyRow(id: int, name: string, ticker: Option<string>, sector: Option<string>)

  datatype ReportRow = ReportRow(id: int, year: string, fileName: string, uploadDate: string, pageCount: Option<int>)

  /** What `get_report_full_data` returns for a report that exists. */
  datatype ReportFullData = ReportFullData(company: Option<CompanyRow>, report: Option<ReportRow>,
                                           metrics: seq<MetricRow>, summaries: seq<SummaryRow>)

  // ---------------------------------------------------------------------
  // compare_reports
  // ---------------------------------------------------------------------

  /** The year of a report entry: the report's year, or `0` without a report. */
  datatype Year = YearOf(text: string) | NoYear

  datatype ReportEntry = ReportEntry(reportId: int, companyName: string, year: Year,
                                     metrics: seq<MetricRow>, summaries: seq<SummaryRow>)

  function EntryOf(id: int, d: ReportFullData): ReportEntry {
    ReportEntry(id, if d.company.Some? then d.company.value.name else "",
                if d.report.Some? then YearOf(d.report.value.year) else NoYear, d.metrics, d.summaries)
  }

  /** The report's metrics by name, the last row of a name winning. */
  function MetricsByName(rows: seq<MetricRow>): (m: map<string, (string, Option<string>)>)
    ensures m.Keys == set i | 0 <= i < |rows| :: rows[i].name
  {
    if |rows| == 0 then map[]
    else
      var last := rows[|rows| - 1];
      MetricsByName(rows[..|rows| - 1])[last.name := (last.value, last.unit)]
  }

  /** The report ids with data, in order, duplicates kept. */
  function WithData(ids: seq<int>, fullData: int -> Option<ReportFullData>): (r: seq<int>)
    ensures |r| <= |ids|
    ensures forall i :: 0 <= i < |r| ==> fullData(r[i]).Some? && r[i] in ids
  {
    if |ids| == 0 then []
    else WithData(ids[..|ids| - 1], fullData) + (if fullData(ids[|ids| - 1]).Some? then [ids[|ids| - 1]] else [])
  }

  /** The entries `reports_data` holds. */
  function Entries(ids: seq<int>, fullData: int -> Option<ReportFullData>): (r: seq<ReportEntry>)
    requires forall i :: 0 <= i < |ids| ==> fullData(ids[i]).Some?
    ensures |r| == |ids|
    ensures forall i :: 0 <= i < |r| ==> r[i] == EntryOf(ids[i], fullData(ids[i]).value)
  {
    seq(|ids|, i requires 0 <= i < |ids| => EntryOf(ids[i], fullData(ids[i]).value))
  }

  /** The running "intersection" over the metric-name sets in dict order: an
      empty running set is replaced by the next set instead of intersected. */
  function RunningCommon(sets: seq<set<string>>): set<string> {
    if |sets| == 0 then {}
    else
      var common := RunningCommon(sets[..|sets| - 1]);
      if common == {} then sets[|sets| - 1] else common * sets[|sets| - 1]
  }

  /** The metric-name sets of the reports with data, one per distinct id in
      order of first appearance (the order of `metrics_by_report`). */
  function NameSets(ids: seq<int>, fullData: int -> Option<ReportFullData>): (r: seq<set<string>>)
    requires forall i :: 0 <= i < |ids| ==> fullData(ids[i]).Some?
    ensures |r| == |ids|
  {
    seq(|ids|, i requires 0 <= i < |ids| => MetricsByName(fullData(ids[i]).value.metrics).Keys)
  }

  /** One value of a comparison row. */
  datatype ComparisonValue = ComparisonValue(reportId: int, companyName: string, year: Year,
                                             value: string, unit: Option<string>)

  /** The values of metric `name` across the entries, in entry order. */
  function ValuesFor(entries: seq<ReportEntry>, name: string): (r: seq<ComparisonValue>)
    ensures |r| <= |entries|
  {
    if |entries| == 0 then []
    else
      var e := entries[|entries| - 1];
      var byName := MetricsByName(e.metrics);
      ValuesFor(entries[..|entries| - 1], name) +
      (if name in byName then [ComparisonValue(e.reportId, e.companyName, e.year, byName[name].0, byName[name].1)] else [])
  }

  /** `compare_reports`. The comparison rows are keyed by metric name, since
      they come out in the unspecified order of a Python set. */
  method CompareReports(reportIds: seq<int>, fullData: int -> Option<ReportFullData>)
    returns (reports: seq<ReportEntry>, comparison: map<string, seq<ComparisonValue>>)
    ensures var ids := WithData(reportIds, fullData);
      reports == Entries(ids, fullData) &&
      comparison.Keys == RunningCommon(NameSets(Dedup(ids), fullData)) &&
      forall name :: name in comparison ==> comparison[name] == ValuesFor(reports, name)
  {
    var order;
    reports, order := CollectReports(reportIds, fullData);
    var common := CommonMetrics(order, fullData);
    comparison := BuildComparison(common, reports);
  }

  /** The loop over the ids that fills `reports_data` and the keys of
      `metrics_by_report`. */
  method CollectReports(reportIds: seq<int>, fullData: int -> Option<ReportFullData>)
    returns (reports: seq<ReportEntry>, order: seq<int>)
    ensures reports == Entries(WithData(reportIds, fullData), fullData)
    ensures order == Dedup(WithData(reportIds, fullData))
  {
    reports := [];
    order := [];
    ghost var ids: seq<int> := [];
    var i := 0;
    assert reportIds[..0] == [];
    while i < |reportIds|
      invariant 0 <= i <= |reportIds|
      invariant ids == WithData(reportIds[..i], fullData)
      invariant reports == Entries(ids, fullData)
      invariant order == Dedup(ids)
    {
      CollectStep(reportIds, fullData, i);
      var data := fullData(reportIds[i]);
      if data.Some? {
        reports := reports + [EntryOf(reportIds[i], data.value)];
        if reportIds[i] !in order {
          order := order + [reportIds[i]];
        }
        ids := ids + [reportIds[i]];
      }
      i := i + 1;
    }
    assert reportIds[..i] == reportIds;
  }

  lemma CollectStep(reportIds: seq<int>, fullData: int -> Option<ReportFullData>, i: nat)
    requires i < |reportIds|
    ensures var before := WithData(reportIds[..i], fullData);
      var id := reportIds[i];
      WithData(reportIds[..i + 1], fullData) == before + (if fullData(id).Some? then [id] else []) &&
      (fullData(id).Some? ==>
         Entries(before + [id], fullData) == Entries(before, fullData) + [EntryOf(id, fullData(id).value)] &&
         Dedup(before + [id]) == if id in Dedup(before) then Dedup(before) else Dedup(before) + [id])
  {
    assert reportIds[..i + 1][..i] == reportIds[..i];
    var before := WithData(reportIds[..i], fullData);
    assert (before + [reportIds[i]])[..|before|] == before;
  }

  /** The loop over the common names that builds the comparison rows. */
  method BuildComparison(common: set<string>, reports: seq<ReportEntry>)
    returns (comparison: map<string, seq<ComparisonValue>>)
    ensures comparison.Keys == common
    ensures forall name :: name in comparison ==> comparison[name] == ValuesFor(reports, name)
  {
    comparison := map[];
    var remaining := common;
    while remaining != {}
      invariant remaining <= common
      invariant comparison.Keys == common - remaining
      invariant forall name :: name in comparison ==> comparison[name] == ValuesFor(reports, name)
      decreases |remaining|
    {
      var name :| name in remaining;
      comparison := comparison[name := ValuesFor(reports, name)];
      remaining := remaining - {name};
    }
  }

  /** The loop over `metrics_by_report` that builds the common metric names. */
  method CommonMetrics(order: seq<int>, fullData: int -> Option<ReportFullData>) returns (common: set<string>)
    requires forall i :: 0 <= i < |order| ==> fullData(order[i]).Some?
    ensures common == RunningCommon(NameSets(order, fullData))
  {
    common := {};
    var i := 0;
    while i < |order|
      invariant 0 <= i <= |order|
      invariant common == RunningCommon(NameSets(order[..i], fullData))
    {
      assert NameSets(order[..i + 1], fullData)[..i] == NameSets(order[..i], fullData);
      var names := MetricsByName(fullData(order[i]).value.metrics).Keys;
      if common == {} {
        common := names;
      } else {
        common := common * names;
      }
      i := i + 1;
    }
    assert order[..i] == order;
  }

  /** The intersection of all the sets. */
  function Intersection(sets: seq<set<string>>): set<string>
    requires |sets| > 0
  {
    if |sets| == 1 then sets[0] else Intersection(sets[..|sets| - 1]) * sets[|sets| - 1]
  }

  /** When the reports have some metric name in common, the running set is the
      true intersection. */
  lemma {:induction false} RunningCommonIsIntersection(sets: seq<set<string>>)
    requires |sets| > 0 && Intersection(sets) != {}
    ensures RunningCommon(sets) == Intersection(sets)
  {
    if |sets| > 1 {
      var prefix := sets[..|sets| - 1];
      assert Intersection(prefix) != {};
      RunningCommonIsIntersection(prefix);
      assert prefix[..|prefix| - 1] == sets[..|sets| - 2];
    } else {
      assert sets[..0] == [];
    }
  }

  /** The common names always belong to the last report's names. */
  lemma RunningCommonWithinLast(sets: seq<set<string>>)
    requires |sets| > 0
    ensures RunningCommon(sets) <= sets[|sets| - 1]
  {
  }

  /** The reset: names {"a"}, then {"b"}, then {"a"} give {"a"}, although no
      name is common to all three. */
  lemma RunningCommonResets()
    ensures RunningCommon([{"a"}, {"b"}, {"a"}]) == {"a"}
    ensures Intersection([{"a"}, {"b"}, {"a"}]) == {}
  {
    var sets: seq<set<string>> := [{"a"}, {"b"}, {"a"}];
    assert sets[..1] == [{"a"}] && sets[..2] == [{"a"}, {"b"}];
    assert [{"a"}][..0] == [];
    assert [{"a"}, {"b"}][..1] == [{"a"}];
    assert "a" != "b";
    assert RunningCommon(sets[..1]) == {"a"};
    assert RunningCommon(sets[..2]) == {};
  }

  /** A comparison row lists exactly the entries that have the metric, in
      entry order. */
  lemma {:induction false} ValuesForMembers(entries: seq<ReportEntry>, name: string)
    ensures |ValuesFor(entries, name)| == CountWhere(entries, (e: ReportEntry) => name in MetricsByName(e.metrics))
    ensures forall k :: 0 <= k < |ValuesFor(entries, name)| ==>
      exists i :: (0 <= i < |entries| && ValuesFor(entries, name)[k].reportId == entries[i].reportId &&
        name in MetricsByName(entries[i].metrics) &&
        ValuesFor(entries, name)[k].value == MetricsByName(entries[i].metrics)[name].0)
  {
    if |entries| > 0 {
      var prefix := entries[..|entries| - 1];
      ValuesForMembers(prefix, name);
      var r := ValuesFor(entries, name);
      forall k | 0 <= k < |r|
        ensures exists i :: (0 <= i < |entries| && r[k].reportId == entries[i].reportId &&
          name in MetricsByName(entries[i].metrics) && r[k].value == MetricsByName(entries[i].metrics)[name].0)
      {
        if k < |ValuesFor(prefix, name)| {
          var i :| 0 <= i < |prefix| && ValuesFor(prefix, name)[k].reportId == prefix[i].reportId &&
            name in MetricsByName(prefix[i].metrics) &&
            ValuesFor(prefix, name)[k].value == MetricsByName(prefix[i].metrics)[name].0;
          assert prefix[i] == entries[i];
        } else {
          assert r[k].reportId == entries[|entries| - 1].reportId;
        }
      }
    }
  }

  // ---------------------------------------------------------------------
  // get_report_analysis (and the grouping shared with the report routes)
  // ---------------------------------------------------------------------

  datatype MetricView = MetricView(name: string, value: string, unit: Option<string>)

  function ViewOf(m: MetricRow): MetricView {
    MetricView(m.name, m.value, m.unit)
  }

  /** A falsy category (missing or empty) becomes `default`. */
  function CategoryOr(category: Option<string>, default: string): string {
    if category.Some? && category.value != "" then category.value else default
  }

  /** A dict of lists keyed by category, as `(key, items)` pairs in key
      insertion order. */
  type Groups = seq<(string, seq<MetricView>)>

  function GroupKeys(groups: Groups): (r: seq<string>)
    ensures |r| == |groups|
    ensures forall i :: 0 <= i < |groups| ==> r[i] == groups[i].0
  {
    seq(|groups|, i requires 0 <= i < |groups| => groups[i].0)
  }

  lemma GroupKeysCons(g: (string, seq<MetricView>), rest: Groups)
    ensures GroupKeys([g] + rest) == [g.0] + GroupKeys(rest)
  {
    assert forall i :: 0 < i <= |rest| ==> ([g] + rest)[i] == rest[i - 1];
  }

  /** `groups.setdefault(key, []).append(item)`: the keys stay as they are,
      or gain `key` at the end when it is new. */
  function AddToGroup(groups: Groups, key: string, item: MetricView): (r: Groups)
    ensures GroupKeys(r) == if key in GroupKeys(groups) then GroupKeys(groups) else GroupKeys(groups) + [key]
  {
    if |groups| == 0 then [(key, [item])]
    else
      GroupKeysCons(groups[0], groups[1..]);
      assert [groups[0]] + groups[1..] == groups;
      if groups[0].0 == key then
        GroupKeysCons((key, groups[0].1 + [item]), groups[1..]);
        [(key, groups[0].1 + [item])] + groups[1..]
      else
        var rest := AddToGroup(groups[1..], key, item);
        GroupKeysCons(groups[0], rest);
        [groups[0]] + rest
  }

  /** Adding an item keeps the keys distinct. */
  lemma AddToGroupDistinct(groups: Groups, key: string, item: MetricView)
    requires Distinct(GroupKeys(groups))
    ensures Distinct(GroupKeys(AddToGroup(groups, key, item)))
  {
    if key !in GroupKeys(groups) {
      DistinctSnoc(GroupKeys(groups), key);
    }
  }

  /** The items under `key`, or none. */
  function Group(groups: Groups, key: string): seq<MetricView> {
    if |groups| == 0 then [] else if groups[0].0 == key then groups[0].1 else Group(groups[1..], key)
  }

  lemma GroupAbsent(groups: Groups, key: string)
    requires key !in GroupKeys(groups)
    ensures Group(groups, key) == []
  {
    if |groups| > 0 {
      GroupKeysCons(groups[0], groups[1..]);
      assert [groups[0]] + groups[1..] == groups;
      GroupAbsent(groups[1..], key);
    }
  }

  /** Adding an item appends it to its own group and leaves the others alone. */
  lemma {:induction false} AddToGroupGroup(groups: Groups, key: string, item: MetricView, k: string)
    requires Distinct(GroupKeys(groups))
    ensures Group(AddToGroup(groups, key, item), k) == if k == key then Group(groups, k) + [item] else Group(groups, k)
  {
    if |groups| > 0 {
      GroupKeysCons(groups[0], groups[1..]);
      assert [groups[0]] + groups[1..] == groups;
      if groups[0].0 == key {
        GroupAbsent(groups[1..], key);
      } else {
        AddToGroupGroup(groups[1..], key, item, k);
      }
    }
  }

  /** The grouping of the metric rows by category. */
  function Grouped(rows: seq<MetricRow>, default: string): (r: Groups)
    ensures Distinct(GroupKeys(r))
  {
    if |rows| == 0 then []
    else
      var m := rows[|rows| - 1];
      var prefix := Grouped(rows[..|rows| - 1], default);
      AddToGroupDistinct(prefix, CategoryOr(m.category, default), ViewOf(m));
      AddToGroup(prefix, CategoryOr(m.category, default), ViewOf(m))
  }

  /** The categories of the rows, in order. */
  function Categories(rows: seq<MetricRow>, default: string): (r: seq<string>)
    ensures |r| == |rows|
    ensures forall i :: 0 <= i < |rows| ==> r[i] == CategoryOr(rows[i].category, default)
  {
    seq(|rows|, i requires 0 <= i < |rows| => CategoryOr(rows[i].category, default))
  }

  /** The views of the rows in category `key`, in order. */
  function InCategory(rows: seq<MetricRow>, default: string, key: string): seq<MetricView> {
    if |rows| == 0 then []
    else
      var m := rows[|rows| - 1];
      InCategory(rows[..|rows| - 1], default, key) + (if CategoryOr(m.category, default) == key then [ViewOf(m)] else [])
  }

  /** Each group holds the rows of its category in their order. */
  lemma {:induction false} GroupedGroup(rows: seq<MetricRow>, default: string, key: string)
    ensures Group(Grouped(rows, default), key) == InCategory(rows, default, key)
  {
    if |rows| > 0 {
      var prefix := rows[..|rows| - 1];
      var m := rows[|rows| - 1];
      GroupedGroup(prefix, default, key);
      AddToGroupGroup(Grouped(prefix, default), CategoryOr(m.category, default), ViewOf(m), key);
    }
  }

  /** Each group holds the rows of its category in their order, and the keys
      are the categories in order of first appearance. */
  lemma {:induction false} GroupedSpec(rows: seq<MetricRow>, default: string)
    ensures forall key :: Group(Grouped(rows, default), key) == InCategory(rows, default, key)
    ensures GroupKeys(Grouped(rows, default)) == Dedup(Categories(rows, default))
  {
    forall key {
      GroupedGroup(rows, default, key);
    }
    if |rows| > 0 {
      var prefix := rows[..|rows| - 1];
      GroupedSpec(prefix, default);
      assert Categories(rows, default)[..|rows| - 1] == Categories(prefix, default);
    }
  }

  /** A falsy category is grouped under the default. */
  lemma DefaultCategory(rows: seq<MetricRow>, default: string, i: nat)
    requires i < |rows| && (rows[i].category.None? || rows[i].category.value == "")
    ensures default in GroupKeys(Grouped(rows, default))
  {
    GroupedSpec(rows, default);
    assert Categories(rows, default)[i] == default;
  }

  /** `{s.category: s.content for s in summaries}`: the last summary of a
      category wins. */
  function SummaryMap(summaries: seq<SummaryRow>): (m: map<string, string>)
    ensures m.Keys == set i | 0 <= i < |summaries| :: summaries[i].category
  {
    if |summaries| == 0 then map[]
    else
      var s := summaries[|summaries| - 1];
      SummaryMap(summaries[..|summaries| - 1])[s.category := s.content]
  }

  /** The content kept for a category is that of its last summary. */
  lemma {:induction false} SummaryMapLastWins(summaries: seq<SummaryRow>, i: nat)
    requires i < |summaries|
    requires forall j :: i < j < |summaries| ==> summaries[j].category != summaries[i].category
    ensures SummaryMap(summaries)[summaries[i].category] == summaries[i].content
  {
    if i < |summaries| - 1 {
      SummaryMapLastWins(summaries[..|summaries| - 1], i);
    }
  }

  /** The loop that fills a dict of lists by category. */
  method GroupMetrics(rows: seq<MetricRow>, default: string) returns (groups: Groups)
    ensures groups == Grouped(rows, default)
  {
    groups := [];
    var i := 0;
    while i < |rows|
      invariant 0 <= i <= |rows|
      invariant groups == Grouped(rows[..i], default)
    {
      assert rows[..i + 1][..i] == rows[..i];
      var category := CategoryOr(rows[i].category, default);
      groups := AddToGroup(groups, category, ViewOf(rows[i]));
      i := i + 1;
    }
    assert rows[..i] == rows;
  }

  /** The loop that keeps one summary per category. */
  method MapSummaries(summaries: seq<SummaryRow>) returns (m: map<string, string>)
    ensures m == SummaryMap(summaries)
  {
    m := map[];
    var i := 0;
    while i < |summaries|
      invariant 0 <= i <= |summaries|
      invariant m == SummaryMap(summaries[..i])
    {
      assert summaries[..i + 1][..i] == summaries[..i];
      m := m[summaries[i].category := summaries[i].content];
      i := i + 1;
    }
    assert summaries[..i] == summaries;
  }

  /** The dict `get_report_analysis` returns for a report with data. */
  datatype ReportAnalysis = ReportAnalysis(report: ReportRow, company: CompanyRow, metrics: Groups,
                                           summaries: map<string, string>)

  /** `get_report_analysis`: `None` for the empty dict of a missing report;
      an error when the data lacks the report or the company row. */
  method GetReportAnalysis(data: Option<ReportFullData>) returns (r: Result<Option<ReportAnalysis>, string>)
    ensures data.None? ==> r == Ok(None)
    ensures data.Some? && (data.value.report.None? || data.value.company.None?) ==> r.Err?
    ensures data.Some? && data.value.report.Some? && data.value.company.Some? ==>
      r == Ok(Some(ReportAnalysis(data.value.report.value, data.value.company.value,
                                  Grouped(data.value.metrics, "financial"), SummaryMap(data.value.summaries))))
  {
    if data.None? {
      return Ok(None);
    }
    var metricsByCategory := GroupMetrics(data.value.metrics, "financial");
    var summariesByCategory := MapSummaries(data.value.summaries);
    if data.value.report.None? || data.value.company.None? {
      return Err("'NoneType' object has no attribute 'id'");
    }
    r := Ok(Some(ReportAnalysis(data.value.report.value, data.value.company.value,
                                metricsByCategory, summariesByCategory)));
  }
}
