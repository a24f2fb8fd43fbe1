/** The PDF text service (backend/services/pdf_service.py): the line- and
    sentence-aware chunker and the selection of tables holding financial
    data. `PDFService` keeps no state, so its operations are module-level
    methods here; PDF parsing itself is not part of this model. */
module PdfService {
  import opened Strings
  import opened Seqs

  // ---------------------------------------------------------------------
  // chunk_text
  // ---------------------------------------------------------------------

  /** The settings under which the loop makes progress: a positive chunk size
      and an overlap of at most half of it. */
  predicate ChunkParams(chunkSize: int, overlap: int) {
    chunkSize >= 1 && overlap <= chunkSize / 2
  }

  /** Where the chunk starting at `start` ends: the window of `chunkSize`
      characters, cut back to just after the last newline, or else just after
      the last ". ", when that break lies beyond the window's first half. */
  function BreakEnd(text: string, chunkSize: int, start: nat): (end: nat)
    requires chunkSize >= 1 && start < |text|
    ensures start < end <= |text| && end - start <= chunkSize
    ensures end < |text| ==> end - start > chunkSize / 2
  {
    var windowEnd := Min(start + chunkSize, |text|);
    if windowEnd < |text| then
      var newlinePos := RFind(text, "\n", start, windowEnd);
      var periodPos := RFind(text, ". ", start, windowEnd);
      if newlinePos > start + chunkSize / 2 then newlinePos + 1
      else if periodPos > start + chunkSize / 2 then periodPos + 2
      else windowEnd
    else windowEnd
  }

  /** The start of the chunk after one ending at `end`. */
  function NextStart(text: string, overlap: int, start: nat, end: nat): (next: nat)
    requires start < end <= |text| && (end < |text| ==> end - start > overlap)
    ensures next > start
  {
    if end < |text| then end - overlap else |text|
  }

  /** The `[start, end)` spans of the chunks taken from `start` on. */
  function Spans(text: string, chunkSize: int, overlap: int, start: nat): (sp: seq<(nat, nat)>)
    requires ChunkParams(chunkSize, overlap)
    ensures |sp| > 0 <==> start < |text|
    ensures |sp| > 0 ==> sp[0].0 == start
    ensures forall k :: 0 <= k < |sp| ==>
      start <= sp[k].0 < sp[k].1 <= |text| && sp[k].1 - sp[k].0 <= chunkSize
    decreases |text| - start
  {
    if start >= |text| then []
    else
      var end := BreakEnd(text, chunkSize, start);
      [(start, end)] + Spans(text, chunkSize, overlap, NextStart(text, overlap, start, end))
  }

  /** The chunks taken from `start` on. */
  function ChunksFrom(text: string, chunkSize: int, overlap: int, start: nat): seq<string>
    requires ChunkParams(chunkSize, overlap)
    decreases |text| - start
  {
    if start >= |text| then []
    else
      var end := BreakEnd(text, chunkSize, start);
      [text[start..end]] + ChunksFrom(text, chunkSize, overlap, NextStart(text, overlap, start, end))
  }

  /** The chunks `chunk_text(text, chunkSize, overlap)` returns. */
  function Chunks(text: string, chunkSize: int, overlap: int): seq<string>
    requires ChunkParams(chunkSize, overlap)
  {
    ChunksFrom(text, chunkSize, overlap, 0)
  }

  /** `PDFService.chunk_text`. */
  method ChunkText(text: string, chunkSize: int, overlap: int) returns (chunks: seq<string>)
    requires ChunkParams(chunkSize, overlap)
    ensures chunks == Chunks(text, chunkSize, overlap)
  {
    if |text| == 0 {
      return [];
    }
    chunks := [];
    var start: nat := 0;
    var textLength := |text|;
    while start < textLength
      invariant textLength == |text|
      invariant chunks + ChunksFrom(text, chunkSize, overlap, start) == Chunks(text, chunkSize, overlap)
      decreases textLength - start
    {
      var end := ChunkEnd(text, chunkSize, start);
      ghost var before, from := chunks, start;
      chunks := chunks + [text[start..end]];
      start := if end < textLength then end - overlap else textLength;
      ChunksFromStep(text, chunkSize, overlap, before, from, start);
    }
  }

  /** The end of the chunk starting at `start`, as the loop body of `chunk_text` finds it. */
  method ChunkEnd(text: string, chunkSize: int, start: nat) returns (end: nat)
    requires chunkSize >= 1 && start < |text|
    ensures end == BreakEnd(text, chunkSize, start)
  {
    end := Min(start + chunkSize, |text|);
    if end < |text| {
      var newlinePos := RFind(text, "\n", start, end);
      var periodPos := RFind(text, ". ", start, end);
      if newlinePos > start + chunkSize / 2 {
        end := newlinePos + 1;
      } else if periodPos > start + chunkSize / 2 {
        end := periodPos + 2;
      }
    }
  }

  lemma {:induction false} ChunksFromStep(text: string, chunkSize: int, overlap: int, before: seq<string>, start: nat, next: nat)
    requires ChunkParams(chunkSize, overlap) && start < |text|
    requires next == NextStart(text, overlap, start, BreakEnd(text, chunkSize, start))
    ensures before + ChunksFrom(text, chunkSize, overlap, start)
         == (before + [text[start..BreakEnd(text, chunkSize, start)]]) + ChunksFrom(text, chunkSize, overlap, next)
  {
  }

  /** The chunks are the slices the spans select. */
  lemma {:induction false} ChunksFromSpans(text: string, chunkSize: int, overlap: int, start: nat)
    requires ChunkParams(chunkSize, overlap)
    ensures var sp := Spans(text, chunkSize, overlap, start);
      var r := ChunksFrom(text, chunkSize, overlap, start);
      |r| == |sp| && forall k :: 0 <= k < |sp| ==> r[k] == text[sp[k].0..sp[k].1]
    decreases |text| - start
  {
    if start < |text| {
      var end := BreakEnd(text, chunkSize, start);
      var next := NextStart(text, overlap, start, end);
      ChunksFromSpans(text, chunkSize, overlap, next);
      var sp := Spans(text, chunkSize, overlap, start);
      var rest := Spans(text, chunkSize, overlap, next);
      var r := ChunksFrom(text, chunkSize, overlap, start);
      assert sp == [(start, end)] + rest;
      forall k | 0 <= k < |sp| ensures r[k] == text[sp[k].0..sp[k].1] {
        if k > 0 { assert sp[k] == rest[k - 1]; }
      }
    }
  }

  /** Empty text gives no chunk and every chunk has 1 to `chunkSize` characters. */
  lemma ChunksShape(text: string, chunkSize: int, overlap: int)
    requires ChunkParams(chunkSize, overlap)
    ensures var r := Chunks(text, chunkSize, overlap);
      (r == [] <==> text == []) && forall k :: 0 <= k < |r| ==> 0 < |r[k]| <= chunkSize
  {
    ChunksFromSpans(text, chunkSize, overlap, 0);
  }

  /** Each span is the one `BreakEnd` and `NextStart` produce from the previous
      one, and the spans stop exactly when the next start reaches the end. */
  lemma {:induction false} SpansStep(text: string, chunkSize: int, overlap: int, start: nat, k: nat)
    requires ChunkParams(chunkSize, overlap)
    requires k < |Spans(text, chunkSize, overlap, start)|
    ensures var sp := Spans(text, chunkSize, overlap, start);
      sp[k].1 == BreakEnd(text, chunkSize, sp[k].0) &&
      var next := NextStart(text, overlap, sp[k].0, sp[k].1);
      (k + 1 < |sp| <==> next < |text|) &&
      (k + 1 < |sp| ==> sp[k + 1].0 == next)
    decreases k
  {
    var end := BreakEnd(text, chunkSize, start);
    var next := NextStart(text, overlap, start, end);
    if k > 0 {
      SpansStep(text, chunkSize, overlap, next, k - 1);
    }
  }

  /** No occurrence of the one-character string `c` in `[lo, hi)`. */
  predicate NoCharIn(text: string, c: char, lo: int, hi: int) {
    forall i :: lo <= i < hi && 0 <= i < |text| ==> text[i] != c
  }

  /** The one-character string `[c]` occurs at `i` exactly when `text[i] == c`. */
  lemma CharOccurs(text: string, c: char, i: int)
    requires 0 <= i < |text|
    ensures OccursAt(text, [c], i) <==> text[i] == c
  {
    assert text[i..i + 1] == [text[i]];
  }

  lemma NoCharAfter(text: string, c: char, lo: int, hi: int, r: int)
    requires 0 <= lo && hi <= |text|
    requires r == RFind(text, [c], lo, hi)
    ensures NoCharIn(text, c, if r == -1 then lo else r + 1, hi)
  {
    forall i | (if r == -1 then lo else r + 1) <= i < hi && 0 <= i < |text| ensures text[i] != c {
      CharOccurs(text, c, i);
    }
  }

  /** No ". " starts in `(lo, hi - 2]`. */
  predicate NoPeriodAfter(text: string, lo: int, hi: int) {
    forall i :: lo < i && i + 2 <= hi ==> !OccursAt(text, ". ", i)
  }

  /** The window `[.., w)` ends at `e` just after its last newline, which lies
      beyond `half`. */
  predicate NewlineBreak(text: string, half: int, w: int, e: int) {
    half < e - 1 && 0 < e <= |text| && text[e - 1] == '\n' && NoCharIn(text, '\n', e, w)
  }

  /** No newline beyond `half`; the window ends at `e` just after its last
      ". ", which lies beyond `half`. */
  predicate PeriodBreak(text: string, half: int, w: int, e: int) {
    NoCharIn(text, '\n', half + 1, w) && half < e - 2 && OccursAt(text, ". ", e - 2) && NoPeriodAfter(text, e - 2, w)
  }

  /** Neither break lies beyond `half`: the window is cut at its full width. */
  predicate WindowBreak(text: string, half: int, w: int, e: int) {
    e == w && NoCharIn(text, '\n', half + 1, w) && NoPeriodAfter(text, half, w)
  }

  /** The break preference for a window that stops short of the end of the
      text: after its last newline if that lies beyond the window's first
      half; failing that, after its last ". " beyond the first half; failing
      both, at the full window. */
  lemma BreakEndRule(text: string, chunkSize: int, s: nat)
    requires chunkSize >= 1 && s < |text|
    ensures var e := BreakEnd(text, chunkSize, s);
      var half, w := s + chunkSize / 2, s + chunkSize;
      (w >= |text| ==> e == |text|) &&
      (w < |text| ==> NewlineBreak(text, half, w, e) || PeriodBreak(text, half, w, e) || WindowBreak(text, half, w, e))
  {
    var half, w := s + chunkSize / 2, s + chunkSize;
    if w < |text| {
      if RFind(text, "\n", s, w) > half {
        NewlineCase(text, chunkSize, s);
      } else if RFind(text, ". ", s, w) > half {
        PeriodCase(text, chunkSize, s);
      } else {
        WindowCase(text, chunkSize, s);
      }
    }
  }

  lemma NewlineCase(text: string, chunkSize: int, s: nat)
    requires chunkSize >= 1 && s + chunkSize < |text|
    requires RFind(text, "\n", s, s + chunkSize) > s + chunkSize / 2
    ensures NewlineBreak(text, s + chunkSize / 2, s + chunkSize, BreakEnd(text, chunkSize, s))
  {
    var newlinePos := RFind(text, "\n", s, s + chunkSize);
    NoCharAfter(text, '\n', s, s + chunkSize, newlinePos);
    CharOccurs(text, '\n', newlinePos);
  }

  lemma PeriodCase(text: string, chunkSize: int, s: nat)
    requires chunkSize >= 1 && s + chunkSize < |text|
    requires RFind(text, "\n", s, s + chunkSize) <= s + chunkSize / 2 < RFind(text, ". ", s, s + chunkSize)
    ensures PeriodBreak(text, s + chunkSize / 2, s + chunkSize, BreakEnd(text, chunkSize, s))
  {
    NoCharAfter(text, '\n', s, s + chunkSize, RFind(text, "\n", s, s + chunkSize));
  }

  lemma WindowCase(text: string, chunkSize: int, s: nat)
    requires chunkSize >= 1 && s + chunkSize < |text|
    requires RFind(text, "\n", s, s + chunkSize) <= s + chunkSize / 2
    requires RFind(text, ". ", s, s + chunkSize) <= s + chunkSize / 2
    ensures WindowBreak(text, s + chunkSize / 2, s + chunkSize, BreakEnd(text, chunkSize, s))
  {
    NoCharAfter(text, '\n', s, s + chunkSize, RFind(text, "\n", s, s + chunkSize));
  }

  /** The break preference for every chunk of the text. */
  lemma BreakRule(text: string, chunkSize: int, overlap: int, k: nat)
    requires ChunkParams(chunkSize, overlap)
    requires k < |Spans(text, chunkSize, overlap, 0)|
    ensures var sp := Spans(text, chunkSize, overlap, 0);
      sp[k].1 == BreakEnd(text, chunkSize, sp[k].0)
  {
    SpansStep(text, chunkSize, overlap, 0, k);
  }

  /** A chunk that stops short of the end is followed by one that starts
      `overlap` characters before its end and reaches at least as far. */
  lemma NextChunkReaches(text: string, chunkSize: int, overlap: int, s: nat)
    requires ChunkParams(chunkSize, overlap) && overlap >= 0 && s < |text|
    requires BreakEnd(text, chunkSize, s) < |text|
    ensures var e := BreakEnd(text, chunkSize, s);
      e - s > overlap && e - overlap < |text| && BreakEnd(text, chunkSize, e - overlap) >= e
  {
  }

  /** The chunk after one that stops short of the end of the text starts
      exactly `overlap` characters before that end and reaches at least as far. */
  lemma NextSpan(text: string, chunkSize: int, overlap: int, k: nat)
    requires ChunkParams(chunkSize, overlap) && overlap >= 0
    requires k < |Spans(text, chunkSize, overlap, 0)|
    requires Spans(text, chunkSize, overlap, 0)[k].1 < |text|
    ensures var sp := Spans(text, chunkSize, overlap, 0);
      k + 1 < |sp| && sp[k + 1].0 == sp[k].1 - overlap && sp[k + 1].1 >= sp[k].1 &&
      sp[k].1 - sp[k].0 >= overlap
  {
    var sp := Spans(text, chunkSize, overlap, 0);
    SpansStep(text, chunkSize, overlap, 0, k);
    NextChunkReaches(text, chunkSize, overlap, sp[k].0);
    SpansStep(text, chunkSize, overlap, 0, k + 1);
  }

  /** A chunk that stops short of the end of the text is always followed by
      another, which begins with the chunk's last `overlap` characters. */
  lemma ExactOverlap(text: string, chunkSize: int, overlap: int, k: nat)
    requires ChunkParams(chunkSize, overlap) && overlap >= 0
    requires k < |Spans(text, chunkSize, overlap, 0)|
    requires Spans(text, chunkSize, overlap, 0)[k].1 < |text|
    ensures var sp := Spans(text, chunkSize, overlap, 0);
      k + 1 < |sp| && sp[k].1 - sp[k].0 >= overlap &&
      sp[k + 1].0 == sp[k].1 - overlap && sp[k + 1].1 >= sp[k].1 &&
      text[sp[k].0..sp[k].1][sp[k].1 - sp[k].0 - overlap..] == text[sp[k + 1].0..sp[k + 1].1][..overlap]
  {
    var sp := Spans(text, chunkSize, overlap, 0);
    NextSpan(text, chunkSize, overlap, k);
    SliceOverlap(text, sp[k].0, sp[k + 1].0, sp[k].1, sp[k + 1].1);
  }

  /** The tail of `text[s..e]` from `n` on is the head of `text[n..e2]`. */
  lemma SliceOverlap(text: string, s: int, n: int, e: int, e2: int)
    requires 0 <= s <= n <= e <= e2 <= |text|
    ensures text[s..e][n - s..] == text[n..e2][..e - n]
  {
    assert text[s..e][n - s..] == text[n..e];
    assert text[n..e2][..e - n] == text[n..e];
  }

  /** With a non-negative overlap the chunks cover the text: the first starts
      at 0 and the last ends at the end of the text. */
  lemma ChunksCover(text: string, chunkSize: int, overlap: int)
    requires ChunkParams(chunkSize, overlap) && overlap >= 0 && |text| > 0
    ensures var sp := Spans(text, chunkSize, overlap, 0);
      sp[0].0 == 0 && sp[|sp| - 1].1 == |text|
  {
    var sp := Spans(text, chunkSize, overlap, 0);
    SpansStep(text, chunkSize, overlap, 0, |sp| - 1);
  }

  /** The chunks after the first, each without its first `overlap` characters,
      concatenated (`c[overlap:]` in Python). */
  function DropOverlapJoin(chunks: seq<string>, overlap: nat): string {
    if |chunks| == 0 then [] else Drop(chunks[0], overlap) + DropOverlapJoin(chunks[1..], overlap)
  }

  /** The text rebuilt from its chunks: the first chunk whole, the others
      without their overlap. */
  function Reassemble(chunks: seq<string>, overlap: nat): string {
    if |chunks| == 0 then [] else chunks[0] + DropOverlapJoin(chunks[1..], overlap)
  }

  lemma {:induction false} ReassembleFrom(text: string, chunkSize: int, overlap: nat, start: nat)
    requires ChunkParams(chunkSize, overlap) && start < |text|
    ensures var r := ChunksFrom(text, chunkSize, overlap, start);
      |r| > 0 && |r[0]| >= Min(overlap, |text| - start) && Reassemble(r, overlap) == text[start..]
    decreases |text| - start
  {
    var end := BreakEnd(text, chunkSize, start);
    var next := NextStart(text, overlap, start, end);
    var rest := ChunksFrom(text, chunkSize, overlap, next);
    assert ChunksFrom(text, chunkSize, overlap, start) == [text[start..end]] + rest;
    if end < |text| {
      ReassembleFrom(text, chunkSize, overlap, next);
      ReassembleStep(text, overlap, start, end, rest);
    } else {
      assert rest == [] && end == |text|;
      assert Reassemble([text[start..end]], overlap) == text[start..];
    }
  }

  /** A chunk `text[start..end]` followed by chunks that rebuild the text from
      `end - overlap` on rebuilds the text from `start` on. */
  lemma ReassembleStep(text: string, overlap: nat, start: nat, end: nat, rest: seq<string>)
    requires start < end < |text| && overlap <= end - start
    requires |rest| > 0 && |rest[0]| >= overlap && Reassemble(rest, overlap) == text[end - overlap..]
    ensures Reassemble([text[start..end]] + rest, overlap) == text[start..]
  {
    var next := end - overlap;
    var head, tail := rest[0], DropOverlapJoin(rest[1..], overlap);
    assert head + tail == text[next..];
    DropConcat(head, tail, overlap);
    DropDrop(text, next, overlap);
    DropOverlapJoinCons(rest, overlap);
    assert DropOverlapJoin(rest, overlap) == text[end..];
    ReassembleCons(text[start..end], rest, overlap);
    SliceJoin(text, start, end);
  }

  lemma DropOverlapJoinCons(chunks: seq<string>, overlap: nat)
    requires |chunks| > 0 && |chunks[0]| >= overlap
    ensures DropOverlapJoin(chunks, overlap) == chunks[0][overlap..] + DropOverlapJoin(chunks[1..], overlap)
  {
  }

  lemma ReassembleCons(first: string, rest: seq<string>, overlap: nat)
    ensures Reassemble([first] + rest, overlap) == first + DropOverlapJoin(rest, overlap)
  {
    assert ([first] + rest)[1..] == rest;
  }

  /** Dropping the overlap from every chunk after the first and concatenating
      gives back the text. */
  lemma ChunksReassemble(text: string, chunkSize: int, overlap: nat)
    requires ChunkParams(chunkSize, overlap)
    ensures Reassemble(Chunks(text, chunkSize, overlap), overlap) == text
  {
    if |text| > 0 {
      ReassembleFrom(text, chunkSize, overlap, 0);
      assert text[0..] == text;
    }
  }

  // ---------------------------------------------------------------------
  // extract_financial_tables
  // ---------------------------------------------------------------------

  /** A table as the layout extraction gives it: rows of cell strings. */
  type Table = seq<seq<string>>

  datatype Page = Page(pageNumber: int, tables: seq<Table>)

  datatype FinancialTable = FinancialTable(pageNumber: int, table: Table)

  function FinancialKeywords(): seq<string> {
    ["revenue", "income", "profit", "loss", "earnings", "ebitda",
     "assets", "liabilities", "equity", "cash flow", "balance sheet",
     "statement of operations", "financial", "fiscal", "quarter", "annual"]
  }

  /** The lower-cased cell contains a financial keyword. */
  predicate MentionsKeyword(cellLower: string) {
    exists k :: 0 <= k < |FinancialKeywords()| && Contains(cellLower, FinancialKeywords()[k])
  }

  predicate CellIsFinancial(cell: string) {
    MentionsKeyword(Lower(cell))
  }

  predicate TableIsFinancial(table: Table) {
    exists r, c :: 0 <= r < |table| && 0 <= c < |table[r]| && CellIsFinancial(table[r][c])
  }

  /** The entries of one page's financial tables, in table order. */
  function PageFinancialTables(pageNumber: int, tables: seq<Table>): (r: seq<FinancialTable>)
    ensures |r| <= |tables|
  {
    if |tables| == 0 then []
    else
      var t := tables[|tables| - 1];
      PageFinancialTables(pageNumber, tables[..|tables| - 1]) +
      (if TableIsFinancial(t) then [FinancialTable(pageNumber, t)] else [])
  }

  /** The entries of all financial tables, page by page. */
  function FinancialTables(pages: seq<Page>): seq<FinancialTable> {
    if |pages| == 0 then []
    else
      var p := pages[|pages| - 1];
      FinancialTables(pages[..|pages| - 1]) + PageFinancialTables(p.pageNumber, p.tables)
  }

  /** `extract_financial_tables`: the `is_financial` flag is raised by the
      first cell that mentions a keyword, ending the scan of the table. */
  method ExtractFinancialTables(pages: seq<Page>) returns (financialTables: seq<FinancialTable>)
    ensures financialTables == FinancialTables(pages)
  {
    financialTables := [];
    var p := 0;
    while p < |pages|
      invariant 0 <= p <= |pages|
      invariant financialTables == FinancialTables(pages[..p])
    {
      assert pages[..p + 1][..p] == pages[..p];
      var page := pages[p];
      var t := 0;
      while t < |page.tables|
        invariant 0 <= t <= |page.tables|
        invariant financialTables == FinancialTables(pages[..p]) + PageFinancialTables(page.pageNumber, page.tables[..t])
      {
        assert page.tables[..t + 1][..t] == page.tables[..t];
        var table := page.tables[t];
        var isFinancial := TableScan(table);
        if isFinancial {
          financialTables := financialTables + [FinancialTable(page.pageNumber, table)];
        }
        t := t + 1;
      }
      assert page.tables[..t] == page.tables;
      p := p + 1;
    }
    assert pages[..p] == pages;
  }

  /** The row and cell scan for one table, stopping at the first financial cell. */
  method TableScan(table: Table) returns (isFinancial: bool)
    ensures isFinancial <==> TableIsFinancial(table)
  {
    isFinancial := false;
    var r := 0;
    while r < |table|
      invariant 0 <= r <= |table|
      invariant !isFinancial
      invariant forall r', c :: 0 <= r' < r && 0 <= c < |table[r']| ==> !CellIsFinancial(table[r'][c])
    {
      var row := table[r];
      var c := 0;
      while c < |row|
        invariant 0 <= c <= |row|
        invariant !isFinancial
        invariant forall c' :: 0 <= c' < c ==> !CellIsFinancial(row[c'])
      {
        var cellLower := Lower(row[c]);
        if MentionsKeyword(cellLower) {
          isFinancial := true;
          break;
        }
        c := c + 1;
      }
      if isFinancial {
        break;
      }
      r := r + 1;
    }
  }

  lemma {:induction false} PageFinancialTablesMembers(pageNumber: int, tables: seq<Table>, x: FinancialTable)
    ensures x in PageFinancialTables(pageNumber, tables) <==>
      x.pageNumber == pageNumber && TableIsFinancial(x.table) &&
      exists t :: 0 <= t < |tables| && tables[t] == x.table
  {
    if |tables| > 0 {
      var front := tables[..|tables| - 1];
      PageFinancialTablesMembers(pageNumber, front, x);
      if exists t :: 0 <= t < |tables| && tables[t] == x.table {
        var t :| 0 <= t < |tables| && tables[t] == x.table;
        if t < |tables| - 1 {
          assert front[t] == x.table;
        }
      }
      forall t | 0 <= t < |front| && front[t] == x.table
        ensures exists t' :: 0 <= t' < |tables| && tables[t'] == x.table
      {
        assert tables[t] == x.table;
      }
    }
  }

  lemma {:induction false} FinancialTablesMembers(pages: seq<Page>, x: FinancialTable)
    ensures x in FinancialTables(pages) <==>
      TableIsFinancial(x.table) &&
      exists p, t :: 0 <= p < |pages| && 0 <= t < |pages[p].tables| &&
        pages[p].pageNumber == x.pageNumber && pages[p].tables[t] == x.table
  {
    if |pages| > 0 {
      var front := pages[..|pages| - 1];
      var last := pages[|pages| - 1];
      FinancialTablesMembers(front, x);
      PageFinancialTablesMembers(last.pageNumber, last.tables, x);
      if exists p, t :: 0 <= p < |pages| && 0 <= t < |pages[p].tables| &&
                        pages[p].pageNumber == x.pageNumber && pages[p].tables[t] == x.table {
        var p, t :| 0 <= p < |pages| && 0 <= t < |pages[p].tables| &&
                    pages[p].pageNumber == x.pageNumber && pages[p].tables[t] == x.table;
        if p < |pages| - 1 {
          assert front[p] == pages[p];
        }
      }
      forall p, t | 0 <= p < |front| && 0 <= t < |front[p].tables| &&
                    front[p].pageNumber == x.pageNumber && front[p].tables[t] == x.table
        ensures exists p', t' :: 0 <= p' < |pages| && 0 <= t' < |pages[p'].tables| &&
                                 pages[p'].pageNumber == x.pageNumber && pages[p'].tables[t'] == x.table
      {
        assert pages[p] == front[p];
      }
    }
  }

  /** A table is kept exactly when one of its cells, lower-cased, contains a
      financial keyword, and it is kept with the number of its page. */
  lemma FinancialTablesKept(pages: seq<Page>, p: nat, t: nat)
    requires p < |pages| && t < |pages[p].tables|
    ensures FinancialTable(pages[p].pageNumber, pages[p].tables[t]) in FinancialTables(pages)
        <==> TableIsFinancial(pages[p].tables[t])
  {
    FinancialTablesMembers(pages, FinancialTable(pages[p].pageNumber, pages[p].tables[t]));
  }
}
