/** The selective annual-report processor of
    backend/services/pdf_processor.py: which pages hold financial sections,
    the KPIs derived from the figures found in their text, the threshold
    insights used when no model is available, and the metric and summary
    records stored for a report. Reading PDFs, the figure-finding regular
    expressions and the database are collaborators: their results are the
    inputs here. Amounts and ratios are Dafny `real`s. */
module PdfProcessor {
  import opened Wrappers
  import opened Strings
  import opened Seqs

  // ---------------------------------------------------------------------
  // identify_financial_sections
  // ---------------------------------------------------------------------

  /** What the page-set logic needs of a page: its text, whether the
      table-of-contents pattern matches it, the page numbers its
      `keyword ... 123` references give, and whether one of its layout
      tables names a financial term. */
  datatype PdfPage = PdfPage(text: string, isToc: bool, pageRefs: seq<nat>, hasFinancialTable: bool)

  function SectionKeywords(): seq<string> {
    ["financial statements", "consolidated financial",
     "balance sheet", "income statement", "statement of income",
     "cash flow statement", "statement of cash flows",
     "statement of financial position", "notes to financial",
     "financial results", "financial review", "financial performance"]
  }

  /** The lower-cased page text names a financial section. */
  predicate KeywordPage(page: PdfPage) {
    exists k :: 0 <= k < |SectionKeywords()| && Contains(Lower(page.text), SectionKeywords()[k])
  }

  /** How many leading pages are scanned for a table of contents. */
  function TocScanLimit(totalPages: nat): (n: nat)
    ensures n <= 20 && n <= totalPages
  {
    Min(20, totalPages)
  }

  /** The 0-based pages a list of references adds: `p - 1` for each `p` not
      beyond the last page. */
  function RefPages(refs: seq<nat>, totalPages: nat): set<int> {
    if |refs| == 0 then {}
    else
      var p := refs[|refs| - 1];
      RefPages(refs[..|refs| - 1], totalPages) + (if p <= totalPages then {p as int - 1} else {})
  }

  /** Page `x` is `p - 1` for a reference `p` not beyond the last page. */
  predicate RefPage(refs: seq<nat>, totalPages: nat, x: int) {
    exists k :: 0 <= k < |refs| && refs[k] <= totalPages && x == refs[k] as int - 1
  }

  lemma {:induction false} RefPagesMembers(refs: seq<nat>, totalPages: nat, x: int)
    ensures x in RefPages(refs, totalPages) <==> RefPage(refs, totalPages, x)
  {
    if |refs| > 0 {
      var front := refs[..|refs| - 1];
      RefPagesMembers(front, totalPages, x);
      assert forall k :: 0 <= k < |front| ==> front[k] == refs[k];
      if RefPage(refs, totalPages, x) && !RefPage(front, totalPages, x) {
        var k :| 0 <= k < |refs| && refs[k] <= totalPages && x == refs[k] as int - 1;
        assert k == |refs| - 1;
      }
    }
  }

  /** The TOC pages among the first `m` pages. */
  function TocPagesUpTo(pages: seq<PdfPage>, m: nat): (r: seq<nat>)
    requires m <= |pages|
    ensures forall i :: 0 <= i < |r| ==> r[i] < m && pages[r[i]].isToc
  {
    if m == 0 then [] else TocPagesUpTo(pages, m - 1) + (if pages[m - 1].isToc then [m - 1] else [])
  }

  /** The pages the TOC references of the first `m` pages add. */
  function TocRefsUpTo(pages: seq<PdfPage>, m: nat): set<int>
    requires m <= |pages|
  {
    if m == 0 then {}
    else TocRefsUpTo(pages, m - 1) + (if pages[m - 1].isToc then RefPages(pages[m - 1].pageRefs, |pages|) else {})
  }

  /** The pages `i` to `i + j - 1` that exist. */
  function FollowingPages(i: nat, totalPages: nat, j: nat): (s: set<int>)
    ensures forall x :: x in s <==> i <= x < i + j && x < totalPages
  {
    if j == 0 then {} else FollowingPages(i, totalPages, j - 1) + (if i + j - 1 < totalPages then {i + j - 1} else {})
  }

  /** The pages the keyword scan of the first `m` pages adds. */
  function KeywordPagesUpTo(pages: seq<PdfPage>, m: nat): set<int>
    requires m <= |pages|
  {
    if m == 0 then {}
    else KeywordPagesUpTo(pages, m - 1) + (if KeywordPage(pages[m - 1]) then FollowingPages(m - 1, |pages|, 5) else {})
  }

  /** The pages among the first `m` whose tables look financial. */
  function TablePagesUpTo(pages: seq<PdfPage>, m: nat): set<int>
    requires m <= |pages|
  {
    if m == 0 then {}
    else TablePagesUpTo(pages, m - 1) + (if pages[m - 1].hasFinancialTable then {m - 1} else {})
  }

  /** The TOC pages and the financial pages `identify_financial_sections`
      returns: TOC references of the first 20 pages; the keyword scan of all
      pages only when those give fewer than 5; then every page with a
      financial-looking table. */
  function FinancialSections(pages: seq<PdfPage>): (seq<nat>, set<int>) {
    var n := TocScanLimit(|pages|);
    var fromToc := TocRefsUpTo(pages, n);
    var scanned := if |fromToc| < 5 then fromToc + KeywordPagesUpTo(pages, |pages|) else fromToc;
    (TocPagesUpTo(pages, n), scanned + TablePagesUpTo(pages, |pages|))
  }

  /** The TOC scan of the first `limit` pages. */
  method ScanToc(pages: seq<PdfPage>, limit: nat) returns (tocPages: seq<nat>, financialPages: set<int>)
    requires limit <= |pages|
    ensures tocPages == TocPagesUpTo(pages, limit) && financialPages == TocRefsUpTo(pages, limit)
  {
    var totalPages := |pages|;
    financialPages := {};
    tocPages := [];
    var i := 0;
    while i < limit
      invariant 0 <= i <= limit
      invariant tocPages == TocPagesUpTo(pages, i)
      invariant financialPages == TocRefsUpTo(pages, i)
    {
      if pages[i].isToc {
        tocPages := tocPages + [i];
        financialPages := AddPageRefs(financialPages, pages[i].pageRefs, totalPages);
      }
      i := i + 1;
    }
  }

  /** The inner loop of the TOC scan: the pages one TOC page references. */
  method AddPageRefs(found: set<int>, refs: seq<nat>, totalPages: nat) returns (financialPages: set<int>)
    ensures financialPages == found + RefPages(refs, totalPages)
  {
    financialPages := found;
    var k := 0;
    while k < |refs|
      invariant 0 <= k <= |refs|
      invariant financialPages == found + RefPages(refs[..k], totalPages)
    {
      assert refs[..k + 1][..k] == refs[..k];
      var pageNum := refs[k];
      if pageNum <= totalPages {
        financialPages := financialPages + {pageNum - 1};
      }
      k := k + 1;
    }
    assert refs[..k] == refs;
  }

  /** The keyword scan of every page, adding to `found`. */
  method ScanKeywords(pages: seq<PdfPage>, found: set<int>) returns (financialPages: set<int>)
    ensures financialPages == found + KeywordPagesUpTo(pages, |pages|)
  {
    var totalPages := |pages|;
    financialPages := found;
    var i := 0;
    while i < totalPages
      invariant 0 <= i <= totalPages
      invariant financialPages == found + KeywordPagesUpTo(pages, i)
    {
      if KeywordPage(pages[i]) {
        financialPages := financialPages + {i};
        var j := 1;
        while j < 5
          invariant 1 <= j <= 5
          invariant financialPages == found + KeywordPagesUpTo(pages, i) + FollowingPages(i, totalPages, j)
        {
          if i + j < totalPages {
            financialPages := financialPages + {i + j};
          }
          j := j + 1;
        }
      }
      i := i + 1;
    }
  }

  /** The table pass over every page, skipping pages already in `found`. */
  method ScanTables(pages: seq<PdfPage>, found: set<int>) returns (financialPages: set<int>)
    ensures financialPages == found + TablePagesUpTo(pages, |pages|)
  {
    financialPages := found;
    var i := 0;
    while i < |pages|
      invariant 0 <= i <= |pages|
      invariant financialPages == found + TablePagesUpTo(pages, i)
    {
      if i !in financialPages && pages[i].hasFinancialTable {
        financialPages := financialPages + {i};
      }
      i := i + 1;
    }
  }

  /** `identify_financial_sections` over the pages' extracted facts. */
  method IdentifyFinancialSections(pages: seq<PdfPage>) returns (tocPages: seq<nat>, financialPages: set<int>)
    ensures (tocPages, financialPages) == FinancialSections(pages)
  {
    tocPages, financialPages := ScanToc(pages, Min(20, |pages|));
    if |financialPages| < 5 {
      financialPages := ScanKeywords(pages, financialPages);
    }
    financialPages := ScanTables(pages, financialPages);
  }

  /** Page `x` is referenced by a TOC page among the first `m`. */
  predicate TocRef(pages: seq<PdfPage>, m: nat, x: int)
    requires m <= |pages|
  {
    exists i, k :: 0 <= i < m && pages[i].isToc && 0 <= k < |pages[i].pageRefs| &&
      pages[i].pageRefs[k] <= |pages| && x == pages[i].pageRefs[k] as int - 1
  }

  lemma {:induction false} TocRefsMembers(pages: seq<PdfPage>, m: nat, x: int)
    requires m <= |pages|
    ensures x in TocRefsUpTo(pages, m) <==> TocRef(pages, m, x)
  {
    if m > 0 {
      TocRefsMembers(pages, m - 1, x);
      RefPagesMembers(pages[m - 1].pageRefs, |pages|, x);
      if TocRef(pages, m, x) && !TocRef(pages, m - 1, x) {
        var i, k :| 0 <= i < m && pages[i].isToc && 0 <= k < |pages[i].pageRefs| &&
          pages[i].pageRefs[k] <= |pages| && x == pages[i].pageRefs[k] as int - 1;
        assert i == m - 1;
      }
    }
  }

  /** Page `x` is one of the five pages from a keyword page among the first `m`. */
  predicate KeywordFollow(pages: seq<PdfPage>, m: nat, x: int)
    requires m <= |pages|
  {
    exists i :: 0 <= i < m && KeywordPage(pages[i]) && i <= x < i + 5 && x < |pages|
  }

  lemma {:induction false} KeywordPagesMembers(pages: seq<PdfPage>, m: nat, x: int)
    requires m <= |pages|
    ensures x in KeywordPagesUpTo(pages, m) <==> KeywordFollow(pages, m, x)
  {
    if m > 0 {
      KeywordPagesMembers(pages, m - 1, x);
    }
  }

  lemma {:induction false} TablePagesMembers(pages: seq<PdfPage>, m: nat, x: int)
    requires m <= |pages|
    ensures x in TablePagesUpTo(pages, m) <==> 0 <= x < m && pages[x].hasFinancialTable
  {
    if m > 0 {
      TablePagesMembers(pages, m - 1, x);
    }
  }

  /** A page is financial exactly when a TOC page among the first 20
      references it, or the fewer-than-5 rule ran the keyword scan and it is
      one of the five pages from a keyword page, or its tables look financial. */
  lemma FinancialPagesMembers(pages: seq<PdfPage>, x: int)
    ensures var n := TocScanLimit(|pages|);
      x in FinancialSections(pages).1 <==>
        TocRef(pages, n, x) ||
        (|TocRefsUpTo(pages, n)| < 5 && KeywordFollow(pages, |pages|, x)) ||
        (0 <= x < |pages| && pages[x].hasFinancialTable)
  {
    var n := TocScanLimit(|pages|);
    TocRefsMembers(pages, n, x);
    KeywordPagesMembers(pages, |pages|, x);
    TablePagesMembers(pages, |pages|, x);
  }

  /** Every financial page is below the page count and at least -1. */
  lemma FinancialPagesRange(pages: seq<PdfPage>, x: int)
    requires x in FinancialSections(pages).1
    ensures -1 <= x < |pages|
  {
    FinancialPagesMembers(pages, x);
  }

  /** Page -1 is among the financial pages exactly when a scanned TOC page
      references page 0. */
  lemma PageZeroReference(pages: seq<PdfPage>)
    ensures -1 in FinancialSections(pages).1 <==>
      exists i, k :: 0 <= i < TocScanLimit(|pages|) && pages[i].isToc &&
        0 <= k < |pages[i].pageRefs| && pages[i].pageRefs[k] == 0
  {
    FinancialPagesMembers(pages, -1);
  }

  // ---------------------------------------------------------------------
  // calculate_financial_kpis
  // ---------------------------------------------------------------------

  /** The eleven figures `find_value` looks for, each `None` when its pattern
      does not match or the match does not parse. */
  datatype Extracted = Extracted(
    revenue: Option<real>, netIncome: Option<real>, totalAssets: Option<real>,
    totalLiabilities: Option<real>, totalEquity: Option<real>,
    currentAssets: Option<real>, currentLiabilities: Option<real>,
    inventory: Option<real>, cash: Option<real>,
    operatingIncome: Option<real>, interestExpense: Option<real>)

  /** The `extracted_values` dict, in its key order. */
  function ExtractedItems(v: Extracted): (items: seq<(string, Option<real>)>)
    ensures |items| == 11
  {
    [("revenue", v.revenue), ("net_income", v.netIncome), ("total_assets", v.totalAssets),
     ("total_liabilities", v.totalLiabilities), ("total_equity", v.totalEquity),
     ("current_assets", v.currentAssets), ("current_liabilities", v.currentLiabilities),
     ("inventory", v.inventory), ("cash", v.cash),
     ("operating_income", v.operatingIncome), ("interest_expense", v.interestExpense)]
  }

  /** Python truthiness of an optional figure: present and non-zero. */
  predicate Truthy(x: Option<real>) {
    x.Some? && x.value != 0.0
  }

  /** The ratio keys, in the order the dict receives them. */
  function KpiNames(): seq<string> {
    ["roe", "roa", "net_profit_margin", "current_ratio", "quick_ratio", "working_capital",
     "asset_turnover", "inventory_turnover", "debt_to_equity", "interest_coverage", "cash_ratio"]
  }

  /** The value of the `k`-th ratio key, present exactly when every figure
      it uses is truthy (interest coverage also needs a positive interest
      expense). */
  function RatioValue(v: Extracted, k: nat): Option<real>
    requires k < 11
  {
    var ni, te, ta, rev := v.netIncome, v.totalEquity, v.totalAssets, v.revenue;
    var ca, cl, inv := v.currentAssets, v.currentLiabilities, v.inventory;
    match k
    case 0 => if Truthy(ni) && Truthy(te) then Some(ni.value / te.value * 100.0) else None
    case 1 => if Truthy(ni) && Truthy(ta) then Some(ni.value / ta.value * 100.0) else None
    case 2 => if Truthy(ni) && Truthy(rev) then Some(ni.value / rev.value * 100.0) else None
    case 3 => if Truthy(ca) && Truthy(cl) then Some(ca.value / cl.value) else None
    case 4 => if Truthy(ca) && Truthy(cl) && Truthy(inv) then Some((ca.value - inv.value) / cl.value) else None
    case 5 => if Truthy(ca) && Truthy(cl) then Some(ca.value - cl.value) else None
    case 6 => if Truthy(rev) && Truthy(ta) then Some(rev.value / ta.value) else None
    case 7 => if Truthy(rev) && Truthy(inv) then Some(rev.value / inv.value) else None
    case 8 => if Truthy(v.totalLiabilities) && Truthy(te) then Some(v.totalLiabilities.value / te.value) else None
    case 9 =>
      if Truthy(v.operatingIncome) && Truthy(v.interestExpense) && v.interestExpense.value > 0.0
      then Some(v.operatingIncome.value / v.interestExpense.value) else None
    case 10 => if Truthy(v.cash) && Truthy(cl) then Some(v.cash.value / cl.value) else None
  }

  /** The present ratios among the first `k` keys, in key order. */
  function RatiosUpTo(v: Extracted, k: nat): seq<(string, real)>
    requires k <= 11
  {
    if k == 0 then []
    else RatiosUpTo(v, k - 1) + RatioEntry(v, k - 1)
  }

  /** The entry the `k`-th ratio key adds, if any. */
  function RatioEntry(v: Extracted, k: nat): seq<(string, real)>
    requires k < 11
  {
    if RatioValue(v, k).Some? then [(KpiNames()[k], RatioValue(v, k).value)] else []
  }

  /** The KPI dict: `extracted_values` first, then the present ratios. */
  datatype Kpis = Kpis(extracted: Extracted, ratios: seq<(string, real)>)

  /** The value the dict holds for `key`: the last entry written under it. */
  function Lookup(entries: seq<(string, real)>, key: string): (r: Option<real>) {
    if |entries| == 0 then None
    else if entries[|entries| - 1].0 == key then Some(entries[|entries| - 1].1)
    else Lookup(entries[..|entries| - 1], key)
  }

  /** Writing `e` last makes it the value of its key and leaves the others alone. */
  lemma LookupSnoc(entries: seq<(string, real)>, e: (string, real), key: string)
    ensures Lookup(entries + [e], key) == if e.0 == key then Some(e.1) else Lookup(entries, key)
  {
    assert (entries + [e])[..|entries|] == entries;
  }

  /** A key has a value exactly when some entry was written under it. */
  lemma {:induction false} LookupPresent(entries: seq<(string, real)>, key: string)
    ensures Lookup(entries, key).Some? <==> exists i :: 0 <= i < |entries| && entries[i].0 == key
  {
    if |entries| > 0 {
      var front := entries[..|entries| - 1];
      LookupPresent(front, key);
      assert forall i :: 0 <= i < |front| ==> front[i] == entries[i];
    }
  }

  /** `calculate_financial_kpis` over the figures found; the `None` filter at
      its end removes nothing, since no entry it writes is `None`. */
  method CalculateFinancialKpis(v: Extracted) returns (kpis: Kpis)
    ensures kpis == Kpis(v, RatiosUpTo(v, 11))
  {
    var ratios := ProfitabilityRatios(v);
    ratios := LiquidityRatios(v, ratios);
    ratios := SolvencyRatios(v, ratios);
    kpis := Kpis(v, ratios);
  }

  /** Return on equity, return on assets and net profit margin. */
  method ProfitabilityRatios(v: Extracted) returns (ratios: seq<(string, real)>)
    ensures ratios == RatiosUpTo(v, 3)
  {
    var ni, te, ta, rev := v.netIncome, v.totalEquity, v.totalAssets, v.revenue;
    ratios := [];
    if Truthy(ni) && Truthy(te) {
      ratios := ratios + [("roe", ni.value / te.value * 100.0)];
    }
    assert ratios == RatiosUpTo(v, 1);
    if Truthy(ni) && Truthy(ta) {
      ratios := ratios + [("roa", ni.value / ta.value * 100.0)];
    }
    assert ratios == RatiosUpTo(v, 2);
    if Truthy(ni) && Truthy(rev) {
      ratios := ratios + [("net_profit_margin", ni.value / rev.value * 100.0)];
    }
  }

  /** The current ratio block (quick ratio and working capital only inside
      it), then asset and inventory turnover. */
  method LiquidityRatios(v: Extracted, before: seq<(string, real)>) returns (ratios: seq<(string, real)>)
    requires before == RatiosUpTo(v, 3)
    ensures ratios == RatiosUpTo(v, 8)
  {
    var ca, cl, inv, rev := v.currentAssets, v.currentLiabilities, v.inventory, v.revenue;
    ratios := before;
    if Truthy(ca) && Truthy(cl) {
      ratios := ratios + [("current_ratio", ca.value / cl.value)];
      assert ratios == RatiosUpTo(v, 4);
      if Truthy(inv) && Truthy(ca) && Truthy(cl) {
        ratios := ratios + [("quick_ratio", (ca.value - inv.value) / cl.value)];
      }
      assert ratios == RatiosUpTo(v, 5);
      ratios := ratios + [("working_capital", ca.value - cl.value)];
    } else {
      assert ratios == RatiosUpTo(v, 4);
      assert ratios == RatiosUpTo(v, 5);
    }
    assert ratios == RatiosUpTo(v, 6);
    if Truthy(rev) && Truthy(v.totalAssets) {
      ratios := ratios + [("asset_turnover", rev.value / v.totalAssets.value)];
    }
    assert ratios == RatiosUpTo(v, 7);
    if Truthy(rev) && Truthy(inv) {
      ratios := ratios + [("inventory_turnover", rev.value / inv.value)];
    }
  }

  /** Debt to equity, interest coverage and the cash ratio. */
  method SolvencyRatios(v: Extracted, before: seq<(string, real)>) returns (ratios: seq<(string, real)>)
    requires before == RatiosUpTo(v, 8)
    ensures ratios == RatiosUpTo(v, 11)
  {
    ratios := before;
    if Truthy(v.totalLiabilities) && Truthy(v.totalEquity) {
      ratios := ratios + [("debt_to_equity", v.totalLiabilities.value / v.totalEquity.value)];
    }
    assert ratios == RatiosUpTo(v, 9);
    var oi, ie := v.operatingIncome, v.interestExpense;
    if Truthy(oi) && Truthy(ie) && ie.value > 0.0 {
      ratios := ratios + [("interest_coverage", oi.value / ie.value)];
    }
    assert ratios == RatiosUpTo(v, 10);
    if Truthy(v.cash) && Truthy(v.currentLiabilities) {
      ratios := ratios + [("cash_ratio", v.cash.value / v.currentLiabilities.value)];
    }
  }

  lemma KpiNamesDistinct()
    ensures Distinct(KpiNames())
  {
  }

  lemma KpiNameDiffers(i: nat, j: nat)
    requires i < 11 && j < 11 && i != j
    ensures KpiNames()[i] != KpiNames()[j]
  {
    KpiNamesDistinct();
  }

  /** Looking a key up after the `j`-th ratio key's entry. */
  lemma LookupEntry(v: Extracted, prev: seq<(string, real)>, j: nat, key: string)
    requires j < 11
    ensures Lookup(prev + RatioEntry(v, j), key) ==
      if key == KpiNames()[j] && RatioValue(v, j).Some? then RatioValue(v, j) else Lookup(prev, key)
  {
    if RatioValue(v, j).Some? {
      LookupSnoc(prev, (KpiNames()[j], RatioValue(v, j).value), key);
    } else {
      assert prev + RatioEntry(v, j) == prev;
    }
  }

  lemma {:induction false} LookupUpTo(v: Extracted, m: nat, k: nat)
    requires m <= 11 && k < 11
    ensures Lookup(RatiosUpTo(v, m), KpiNames()[k]) == if k < m then RatioValue(v, k) else None
  {
    if m > 0 {
      LookupUpTo(v, m - 1, k);
      LookupEntry(v, RatiosUpTo(v, m - 1), m - 1, KpiNames()[k]);
      if k != m - 1 {
        KpiNameDiffers(k, m - 1);
      }
    }
  }

  /** The dict holds each ratio key with its guarded value, and nothing else. */
  lemma KpiLookup(v: Extracted, k: nat)
    requires k < 11
    ensures Lookup(RatiosUpTo(v, 11), KpiNames()[k]) == RatioValue(v, k)
  {
    LookupUpTo(v, 11, k);
  }

  /** The dependencies between the ratio keys: quick ratio and working
      capital only with the current ratio, working capital being
      `current assets - current liabilities`; interest coverage only with a
      positive interest expense; the profitability ratios in percent. */
  lemma KpiGuards(v: Extracted)
    ensures var r := RatiosUpTo(v, 11);
      (Lookup(r, "quick_ratio").Some? ==> Lookup(r, "current_ratio").Some?) &&
      (Lookup(r, "working_capital").Some? <==> Lookup(r, "current_ratio").Some?) &&
      (Lookup(r, "working_capital") ==
        if Truthy(v.currentAssets) && Truthy(v.currentLiabilities)
        then Some(v.currentAssets.value - v.currentLiabilities.value) else None) &&
      (Lookup(r, "interest_coverage").Some? ==> v.interestExpense.Some? && v.interestExpense.value > 0.0) &&
      (Lookup(r, "roe").Some? <==> Truthy(v.netIncome) && Truthy(v.totalEquity))
  {
    assert KpiNames()[0] == "roe" && KpiNames()[3] == "current_ratio" && KpiNames()[4] == "quick_ratio";
    assert KpiNames()[5] == "working_capital" && KpiNames()[9] == "interest_coverage";
    KpiLookup(v, 0);
    KpiLookup(v, 3);
    KpiLookup(v, 4);
    KpiLookup(v, 5);
    KpiLookup(v, 9);
  }

  // ---------------------------------------------------------------------
  // _generate_fallback_insights
  // ---------------------------------------------------------------------

  /** The liquidity word for a current ratio. */
  function Liquidity(currentRatio: real): (w: string)
    ensures w == "strong" <==> currentRatio > 2.0
    ensures w == "adequate" <==> 1.0 < currentRatio <= 2.0
    ensures w == "concerning" <==> currentRatio <= 1.0
  {
    if currentRatio > 2.0 then "strong" else if currentRatio > 1.0 then "adequate" else "concerning"
  }

  /** The profitability word for a net profit margin in percent. */
  function Profitability(margin: real): (w: string)
    ensures w == "excellent" <==> margin > 20.0
    ensures w == "good" <==> 10.0 < margin <= 20.0
    ensures w == "average" <==> 5.0 < margin <= 10.0
    ensures w == "below average" <==> margin <= 5.0
  {
    if margin > 20.0 then "excellent"
    else if margin > 10.0 then "good"
    else if margin > 5.0 then "average"
    else "below average"
  }

  /** The leverage phrase for a debt-to-equity ratio. */
  function Leverage(debtToEquity: real): (w: string)
    ensures w == "highly leveraged, which may present financial risk" <==> debtToEquity > 2.0
    ensures w == "moderately leveraged" <==> 1.0 < debtToEquity <= 2.0
    ensures w == "conservatively financed" <==> debtToEquity <= 1.0
  {
    if debtToEquity > 2.0 then "highly leveraged, which may present financial risk"
    else if debtToEquity > 1.0 then "moderately leveraged"
    else "conservatively financed"
  }

  const NoHealthData := "Insufficient data to assess financial health."
  const NoTrendsData := "Insufficient data to identify key trends."
  const NoRiskData := "Insufficient data to assess financial risks."
  const DefaultRecommendation := "More financial data needed for meaningful recommendations."
  const GenericRecommendation := "Consider a more detailed analysis with complete financial statements."

  function DefaultInsights(): seq<(string, string)> {
    [("financial_health", NoHealthData), ("key_trends", NoTrendsData),
     ("risk_assessment", NoRiskData), ("recommendations", DefaultRecommendation)]
  }

  lemma RecommendationsDiffer()
    ensures DefaultRecommendation != GenericRecommendation
  {
    assert |DefaultRecommendation| != |GenericRecommendation|;
  }

  /** The insight texts; `fmt` renders a number with two decimals (`:.2f`). */
  function HealthText(liquidity: string, shown: string): string {
    "The company shows " + liquidity + " liquidity with a current ratio of " + shown + "."
  }

  function TrendsText(profitability: string, shown: string): string {
    "The company shows " + profitability + " profitability with a net profit margin of " + shown + "%."
  }

  function RiskText(leverage: string, shown: string): string {
    "The company is " + leverage + " with a debt-to-equity ratio of " + shown + "."
  }

  function HealthEntry(cr: Option<real>, fmt: real -> string): seq<(string, string)> {
    if cr.Some? then [("financial_health", HealthText(Liquidity(cr.value), fmt(cr.value)))] else []
  }

  function TrendsEntry(npm: Option<real>, fmt: real -> string): seq<(string, string)> {
    if npm.Some? then [("key_trends", TrendsText(Profitability(npm.value), fmt(npm.value)))] else []
  }

  function RiskEntry(de: Option<real>, fmt: real -> string): seq<(string, string)> {
    if de.Some? then [("risk_assessment", RiskText(Leverage(de.value), fmt(de.value)))] else []
  }

  /** The insights of the KPIs present among the three assessed, in the
      order health, trends, risk. */
  function AssessedInsights(ratios: seq<(string, real)>, fmt: real -> string): (r: seq<(string, string)>)
    ensures |r| <= 3
    ensures r == [] <==>
      Lookup(ratios, "current_ratio").None? && Lookup(ratios, "net_profit_margin").None? &&
      Lookup(ratios, "debt_to_equity").None?
  {
    HealthEntry(Lookup(ratios, "current_ratio"), fmt) + TrendsEntry(Lookup(ratios, "net_profit_margin"), fmt) +
    RiskEntry(Lookup(ratios, "debt_to_equity"), fmt)
  }

  /** The insights dict `_generate_fallback_insights` returns. */
  function FallbackInsights(ratios: seq<(string, real)>, fmt: real -> string): seq<(string, string)> {
    var assessed := AssessedInsights(ratios, fmt);
    if assessed == [] then DefaultInsights() else assessed + [("recommendations", GenericRecommendation)]
  }

  /** `_generate_fallback_insights`, filling the dict key by key. */
  method GenerateFallbackInsights(ratios: seq<(string, real)>, fmt: real -> string) returns (insights: seq<(string, string)>)
    ensures insights == FallbackInsights(ratios, fmt)
  {
    var health := LiquidityAssessment(Lookup(ratios, "current_ratio"), fmt);
    var trends := ProfitabilityAssessment(Lookup(ratios, "net_profit_margin"), fmt);
    var risk := LeverageAssessment(Lookup(ratios, "debt_to_equity"), fmt);
    insights := health + trends + risk;
    if insights == [] {
      insights := DefaultInsights();
    } else {
      insights := insights + [("recommendations", GenericRecommendation)];
    }
  }

  /** The financial-health step of `_generate_fallback_insights`. */
  method LiquidityAssessment(cr: Option<real>, fmt: real -> string) returns (entry: seq<(string, string)>)
    ensures entry == HealthEntry(cr, fmt)
  {
    entry := [];
    if cr.Some? {
      var liquidity;
      if cr.value > 2.0 {
        liquidity := "strong";
      } else if cr.value > 1.0 {
        liquidity := "adequate";
      } else {
        liquidity := "concerning";
      }
      entry := [("financial_health", HealthText(liquidity, fmt(cr.value)))];
    }
  }

  /** The key-trends step of `_generate_fallback_insights`. */
  method ProfitabilityAssessment(npm: Option<real>, fmt: real -> string) returns (entry: seq<(string, string)>)
    ensures entry == TrendsEntry(npm, fmt)
  {
    entry := [];
    if npm.Some? {
      var profitability;
      if npm.value > 20.0 {
        profitability := "excellent";
      } else if npm.value > 10.0 {
        profitability := "good";
      } else if npm.value > 5.0 {
        profitability := "average";
      } else {
        profitability := "below average";
      }
      entry := [("key_trends", TrendsText(profitability, fmt(npm.value)))];
    }
  }

  /** The risk-assessment step of `_generate_fallback_insights`. */
  method LeverageAssessment(de: Option<real>, fmt: real -> string) returns (entry: seq<(string, string)>)
    ensures entry == RiskEntry(de, fmt)
  {
    entry := [];
    if de.Some? {
      var leverage;
      if de.value > 2.0 {
        leverage := "highly leveraged, which may present financial risk";
      } else if de.value > 1.0 {
        leverage := "moderately leveraged";
      } else {
        leverage := "conservatively financed";
      }
      entry := [("risk_assessment", RiskText(leverage, fmt(de.value)))];
    }
  }

  /** The result always carries a recommendation, as its last entry; it is
      the four-entry default exactly when none of the three KPIs is present. */
  lemma FallbackRecommends(ratios: seq<(string, real)>, fmt: real -> string)
    ensures var r := FallbackInsights(ratios, fmt);
      |r| > 0 && r[|r| - 1].0 == "recommendations" &&
      (r == DefaultInsights() <==>
        Lookup(ratios, "current_ratio").None? && Lookup(ratios, "net_profit_margin").None? &&
        Lookup(ratios, "debt_to_equity").None?)
  {
    var assessed := AssessedInsights(ratios, fmt);
    if assessed != [] {
      var r := assessed + [("recommendations", GenericRecommendation)];
      RecommendationsDiffer();
      assert r[|r| - 1].1 == GenericRecommendation != DefaultInsights()[3].1;
    }
  }

  /** A present current ratio always yields a health insight built from its
      liquidity word, and likewise for the margin and the leverage. */
  lemma FallbackAssesses(ratios: seq<(string, real)>, fmt: real -> string)
    requires Lookup(ratios, "current_ratio").Some?
    ensures FallbackInsights(ratios, fmt)[0] ==
      ("financial_health", HealthText(Liquidity(Lookup(ratios, "current_ratio").value), fmt(Lookup(ratios, "current_ratio").value)))
  {
  }

  // ---------------------------------------------------------------------
  // store_results
  // ---------------------------------------------------------------------

  /** A `MetricCreate`: the value is stored as `str(round(value, decimals))`. */
  datatype MetricRecord = MetricRecord(name: string, value: real, decimals: nat, category: string)

  /** A `SummaryCreate`. */
  datatype SummaryRecord = SummaryRecord(category: string, content: string)

  /** What `store_results` leaves behind: the records written, the report
      status set, and whether the error was re-raised. */
  datatype StoreOutcome = StoreOutcome(metrics: seq<MetricRecord>, summaries: seq<SummaryRecord>,
                                       status: string, raised: bool)

  /** The ratio records, category "financial", in dict order. */
  function RatioRecords(ratios: seq<(string, real)>): (r: seq<MetricRecord>)
    ensures |r| == |ratios|
    ensures forall i :: 0 <= i < |r| ==> r[i] == MetricRecord(ratios[i].0, ratios[i].1, 4, "financial")
  {
    if |ratios| == 0 then []
    else RatioRecords(ratios[..|ratios| - 1]) + [MetricRecord(ratios[|ratios| - 1].0, ratios[|ratios| - 1].1, 4, "financial")]
  }

  /** The records of the extracted figures that are present, category "extracted". */
  function ExtractedRecords(items: seq<(string, Option<real>)>): (r: seq<MetricRecord>)
    ensures |r| <= |items|
    ensures forall i :: 0 <= i < |r| ==>
      r[i].category == "extracted" && r[i].decimals == 2 && (r[i].name, Some(r[i].value)) in items
  {
    if |items| == 0 then []
    else
      var (name, value) := items[|items| - 1];
      ExtractedRecords(items[..|items| - 1]) + (if value.Some? then [MetricRecord(name, value.value, 2, "extracted")] else [])
  }

  /** The summary records of the insights with a non-empty text. */
  function InsightRecords(insights: seq<(string, string)>): (r: seq<SummaryRecord>)
    ensures |r| <= |insights|
    ensures forall i :: 0 <= i < |r| ==> r[i].content != "" && (r[i].category, r[i].content) in insights
  {
    if |insights| == 0 then []
    else
      var (key, value) := insights[|insights| - 1];
      InsightRecords(insights[..|insights| - 1]) + (if value != "" then [SummaryRecord(key, value)] else [])
  }

  /** `store_results`; `metricsStored` and `summariesStored` say whether the
      two batch writes succeed. A failed write sets the status to "failed"
      and re-raises. */
  method StoreResults(kpis: Kpis, insights: seq<(string, string)>, metricsStored: bool, summariesStored: bool)
    returns (out: StoreOutcome)
    ensures var metrics := RatioRecords(kpis.ratios) + ExtractedRecords(ExtractedItems(kpis.extracted));
      var summaries := InsightRecords(insights);
      var metricsFail := metrics != [] && !metricsStored;
      var summariesFail := summaries != [] && !summariesStored;
      out == if metricsFail then StoreOutcome([], [], "failed", true)
             else if summariesFail then StoreOutcome(metrics, [], "failed", true)
             else StoreOutcome(metrics, summaries, "completed", false)
  {
    var metricsToCreate := CollectRatioRecords(kpis.ratios);
    metricsToCreate := CollectExtractedRecords(metricsToCreate, ExtractedItems(kpis.extracted));
    if metricsToCreate != [] && !metricsStored {
      return StoreOutcome([], [], "failed", true);
    }
    var summariesToCreate := CollectInsightRecords(insights);
    if summariesToCreate != [] && !summariesStored {
      return StoreOutcome(metricsToCreate, [], "failed", true);
    }
    out := StoreOutcome(metricsToCreate, summariesToCreate, "completed", false);
  }

  /** The loop over the ratios of `store_results`. */
  method CollectRatioRecords(ratios: seq<(string, real)>) returns (records: seq<MetricRecord>)
    ensures records == RatioRecords(ratios)
  {
    records := [];
    var i := 0;
    while i < |ratios|
      invariant 0 <= i <= |ratios|
      invariant records == RatioRecords(ratios[..i])
    {
      assert ratios[..i + 1][..i] == ratios[..i];
      records := records + [MetricRecord(ratios[i].0, ratios[i].1, 4, "financial")];
      i := i + 1;
    }
    assert ratios[..i] == ratios;
  }

  /** The loop over the extracted figures of `store_results`, appending to `before`. */
  method CollectExtractedRecords(before: seq<MetricRecord>, items: seq<(string, Option<real>)>)
    returns (records: seq<MetricRecord>)
    ensures records == before + ExtractedRecords(items)
  {
    records := before;
    var j := 0;
    while j < |items|
      invariant 0 <= j <= |items|
      invariant records == before + ExtractedRecords(items[..j])
    {
      assert items[..j + 1][..j] == items[..j];
      if items[j].1.Some? {
        records := records + [MetricRecord(items[j].0, items[j].1.value, 2, "extracted")];
      }
      j := j + 1;
    }
    assert items[..j] == items;
  }

  /** The loop over the insights of `store_results`. */
  method CollectInsightRecords(insights: seq<(string, string)>) returns (records: seq<SummaryRecord>)
    ensures records == InsightRecords(insights)
  {
    records := [];
    var k := 0;
    while k < |insights|
      invariant 0 <= k <= |insights|
      invariant records == InsightRecords(insights[..k])
    {
      assert insights[..k + 1][..k] == insights[..k];
      if insights[k].1 != "" {
        records := records + [SummaryRecord(insights[k].0, insights[k].1)];
      }
      k := k + 1;
    }
    assert insights[..k] == insights;
  }

  lemma {:induction false} ExtractedRecordsCount(items: seq<(string, Option<real>)>)
    ensures |ExtractedRecords(items)| == CountWhere(items, (e: (string, Option<real>)) => e.1.Some?)
  {
    if |items| > 0 {
      ExtractedRecordsCount(items[..|items| - 1]);
    }
  }

  /** After the KPIs of `calculate_financial_kpis`, the stored metrics are one
      "financial" record per present ratio, named by its key, followed by one
      "extracted" record per figure found. */
  lemma StoredMetricsShape(v: Extracted)
    ensures var ratios := RatiosUpTo(v, 11);
      var metrics := RatioRecords(ratios) + ExtractedRecords(ExtractedItems(v));
      |metrics| == |ratios| + CountWhere(ExtractedItems(v), (e: (string, Option<real>)) => e.1.Some?) &&
      forall i :: 0 <= i < |metrics| ==>
        (metrics[i].category == "financial" <==> i < |ratios|) &&
        (i < |ratios| ==> metrics[i].name in KpiNames() && Lookup(ratios, metrics[i].name) == Some(metrics[i].value))
  {
    ExtractedRecordsCount(ExtractedItems(v));
    var ratios := RatiosUpTo(v, 11);
    forall i | 0 <= i < |ratios|
      ensures ratios[i].0 in KpiNames() && Lookup(ratios, ratios[i].0) == Some(ratios[i].1)
    {
      RatiosUpToEntries(v, 11, i);
      var k :| 0 <= k < 11 && ratios[i].0 == KpiNames()[k] && RatioValue(v, k) == Some(ratios[i].1);
      KpiLookup(v, k);
    }
  }

  /** Every entry of the ratios is a key with its guarded value. */
  lemma {:induction false} RatiosUpToEntries(v: Extracted, m: nat, i: nat)
    requires m <= 11 && i < |RatiosUpTo(v, m)|
    ensures var r := RatiosUpTo(v, m);
      exists k :: 0 <= k < m && r[i].0 == KpiNames()[k] && RatioValue(v, k) == Some(r[i].1)
  {
    var prev := RatiosUpTo(v, m - 1);
    if i < |prev| {
      RatiosUpToEntries(v, m - 1, i);
    } else {
      assert RatiosUpTo(v, m)[i] == (KpiNames()[m - 1], RatioValue(v, m - 1).value);
    }
  }
}
