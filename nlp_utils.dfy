/** Text-processing helpers shared by the analysis services
    (backend/services/nlp_utils.py): the sentence-aware chunker, the
    regex-based metric, risk and entity extraction, the retrying call to the
    hosted inference API, and the keyword sentiment fallback. */
module NlpUtils {
  import opened Wrappers
  import opened Strings
  import opened Seqs

  // ---------------------------------------------------------------------
  // chunk_text
  // ---------------------------------------------------------------------

  /** The overlap actually used between chunks: `min(overlap_size, chunk_size // 10)`. */
  function EffectiveOverlap(chunkSize: int, overlapSize: int): int {
    Min(overlapSize, chunkSize / 10)
  }

  /** Where the chunk starting at `start` ends: the window of `chunkSize`
      characters, cut back to just after the last ". " that starts at or after
      80% of the window, unless the window already reaches the end of the text.
      `int(chunk_size * 0.8)` is `4 * chunkSize / 5` for a positive size. */
  function SentenceChunkEnd(text: string, chunkSize: int, start: nat): (end: nat)
    requires chunkSize >= 1 && start < |text|
    ensures start < end <= |text| && end - start <= chunkSize
  {
    var windowEnd := Min(start + chunkSize, |text|);
    if windowEnd < |text| then
      var boundary := RFind(text, ". ", Max(start + 4 * chunkSize / 5, start), windowEnd);
      if boundary != -1 then boundary + 2 else windowEnd
    else windowEnd
  }

  /** The start of the chunk after `[start, end)`. */
  function SentenceNextStart(chunkSize: int, overlapSize: int, start: nat, end: nat): (next: nat)
    requires start < end
    ensures next > start
  {
    var overlap := EffectiveOverlap(chunkSize, overlapSize);
    if end - overlap > start then end - overlap else end
  }

  /** The `[start, end)` spans of the chunks taken from `start` on. */
  function SentenceSpans(text: string, chunkSize: int, overlapSize: int, start: nat): (sp: seq<(nat, nat)>)
    requires chunkSize >= 1
    ensures |sp| > 0 <==> start < |text|
    ensures |sp| > 0 ==> sp[0].0 == start
    ensures forall k :: 0 <= k < |sp| ==>
      start <= sp[k].0 < sp[k].1 <= |text| && sp[k].1 - sp[k].0 <= chunkSize
    decreases |text| - start
  {
    if start >= |text| then []
    else
      var end := SentenceChunkEnd(text, chunkSize, start);
      [(start, end)] + SentenceSpans(text, chunkSize, overlapSize, SentenceNextStart(chunkSize, overlapSize, start, end))
  }

  predicate IncreasingStarts(sp: seq<(nat, nat)>) {
    forall k, l :: 0 <= k < l < |sp| ==> sp[k].0 < sp[l].0
  }

  /** Spans whose starts increase stay so with a span in front that starts earlier than all of them. */
  lemma {:induction false} IncreasingCons(head: (nat, nat), rest: seq<(nat, nat)>)
    requires IncreasingStarts(rest) && forall k :: 0 <= k < |rest| ==> head.0 < rest[k].0
    ensures IncreasingStarts([head] + rest)
  {
    var sp := [head] + rest;
    forall k, l | 0 <= k < l < |sp| ensures sp[k].0 < sp[l].0 {
      assert sp[l] == rest[l - 1];
      if k > 0 {
        assert sp[k] == rest[k - 1];
      }
    }
  }

  /** The chunks start at strictly increasing positions. */
  lemma {:induction false} SentenceSpansIncreasing(text: string, chunkSize: int, overlapSize: int, start: nat)
    requires chunkSize >= 1
    ensures IncreasingStarts(SentenceSpans(text, chunkSize, overlapSize, start))
    decreases |text| - start
  {
    if start < |text| {
      var end := SentenceChunkEnd(text, chunkSize, start);
      var next := SentenceNextStart(chunkSize, overlapSize, start, end);
      SentenceSpansIncreasing(text, chunkSize, overlapSize, next);
      IncreasingCons((start, end), SentenceSpans(text, chunkSize, overlapSize, next));
    }
  }

  predicate SpansWithin(text: string, sp: seq<(nat, nat)>) {
    forall k :: 0 <= k < |sp| ==> sp[k].0 <= sp[k].1 <= |text|
  }

  /** The pieces of `text` the spans select. */
  function Slices(text: string, sp: seq<(nat, nat)>): (r: seq<string>)
    requires SpansWithin(text, sp)
    ensures |r| == |sp|
    ensures forall k :: 0 <= k < |sp| ==> r[k] == text[sp[k].0..sp[k].1]
  {
    seq(|sp|, k requires 0 <= k < |sp| => text[sp[k].0..sp[k].1])
  }

  /** The chunks taken from `start` on. */
  function ChunksFrom(text: string, chunkSize: int, overlapSize: int, start: nat): seq<string>
    requires chunkSize >= 1
    decreases |text| - start
  {
    if start >= |text| then []
    else
      var end := SentenceChunkEnd(text, chunkSize, start);
      [text[start..end]] + ChunksFrom(text, chunkSize, overlapSize, SentenceNextStart(chunkSize, overlapSize, start, end))
  }

  /** The chunks `chunk_text(text, chunkSize, overlapSize)` returns. */
  function SentenceChunks(text: string, chunkSize: int, overlapSize: int): seq<string>
    requires chunkSize >= 1
  {
    ChunksFrom(text, chunkSize, overlapSize, 0)
  }

  /** Slicing distributes over a leading span. */
  lemma {:induction false} SlicesCons(text: string, head: (nat, nat), rest: seq<(nat, nat)>)
    requires head.0 <= head.1 <= |text| && SpansWithin(text, rest)
    ensures SpansWithin(text, [head] + rest)
    ensures Slices(text, [head] + rest) == [text[head.0..head.1]] + Slices(text, rest)
  {
    var sp := [head] + rest;
    assert forall k :: 0 < k < |sp| ==> sp[k] == rest[k - 1];
  }

  /** The chunks are the slices of the text the spans select. */
  lemma {:induction false} ChunksFromSpans(text: string, chunkSize: int, overlapSize: int, start: nat)
    requires chunkSize >= 1
    ensures ChunksFrom(text, chunkSize, overlapSize, start) == Slices(text, SentenceSpans(text, chunkSize, overlapSize, start))
    decreases |text| - start
  {
    if start < |text| {
      var end := SentenceChunkEnd(text, chunkSize, start);
      var next := SentenceNextStart(chunkSize, overlapSize, start, end);
      ChunksFromSpans(text, chunkSize, overlapSize, next);
      SlicesCons(text, (start, end), SentenceSpans(text, chunkSize, overlapSize, next));
    }
  }

  /** There is no chunk exactly for the empty text, and each chunk has between
      1 and `chunkSize` characters. */
  lemma {:induction false} SentenceChunksShape(text: string, chunkSize: int, overlapSize: int)
    requires chunkSize >= 1
    ensures var r := SentenceChunks(text, chunkSize, overlapSize);
      (r == [] <==> text == []) && forall k :: 0 <= k < |r| ==> 0 < |r[k]| <= chunkSize
  {
    ChunksFromSpans(text, chunkSize, overlapSize, 0);
  }

  /** Split `text` into chunks of at most `chunkSize` characters, preferring to
      cut after a sentence end, with consecutive chunks sharing
      `EffectiveOverlap` characters. */
  method ChunkText(text: string, chunkSize: int, overlapSize: int) returns (chunks: seq<string>)
    requires chunkSize >= 1
    ensures chunks == SentenceChunks(text, chunkSize, overlapSize)
  {
    if |text| == 0 {
      return [];
    }
    chunks := [];
    var start: nat := 0;
    while start < |text|
      invariant chunks + ChunksFrom(text, chunkSize, overlapSize, start) == SentenceChunks(text, chunkSize, overlapSize)
      decreases |text| - start
    {
      var end := ChunkEnd(text, chunkSize, start);
      ghost var before := chunks;
      ghost var from := start;
      chunks := chunks + [text[start..end]];
      var overlap := Min(overlapSize, chunkSize / 10);
      start := if end - overlap > start then end - overlap else end;
      ChunksFromStep(text, chunkSize, overlapSize, before, from, start);
    }
  }

  /** The end of the chunk starting at `start`, as the loop body of `chunk_text` finds it. */
  method ChunkEnd(text: string, chunkSize: int, start: nat) returns (end: nat)
    requires chunkSize >= 1 && start < |text|
    ensures end == SentenceChunkEnd(text, chunkSize, start)
  {
    end := Min(start + chunkSize, |text|);
    if end < |text| {
      var boundarySearchStart := Max(start + 4 * chunkSize / 5, start);
      var sentenceBoundary := RFind(text, ". ", boundarySearchStart, end);
      if sentenceBoundary != -1 {
        end := sentenceBoundary + 2;
      }
    }
  }

  lemma {:induction false} ChunksFromStep(text: string, chunkSize: int, overlapSize: int, before: seq<string>, start: nat, next: nat)
    requires chunkSize >= 1 && start < |text|
    requires next == SentenceNextStart(chunkSize, overlapSize, start, SentenceChunkEnd(text, chunkSize, start))
    ensures before + ChunksFrom(text, chunkSize, overlapSize, start)
         == (before + [text[start..SentenceChunkEnd(text, chunkSize, start)]]) + ChunksFrom(text, chunkSize, overlapSize, next)
  {
  }

  /** Each span is the one `SentenceChunkEnd` and `SentenceNextStart` produce from
      the previous one, and the spans stop exactly when the next start passes
      the end of the text. */
  lemma {:induction false} SentenceSpansStep(text: string, chunkSize: int, overlapSize: int, start: nat, k: nat)
    requires chunkSize >= 1
    requires k < |SentenceSpans(text, chunkSize, overlapSize, start)|
    ensures var sp := SentenceSpans(text, chunkSize, overlapSize, start);
      sp[k].1 == SentenceChunkEnd(text, chunkSize, sp[k].0) &&
      var next := SentenceNextStart(chunkSize, overlapSize, sp[k].0, sp[k].1);
      (k + 1 < |sp| <==> next < |text|) &&
      (k + 1 < |sp| ==> sp[k + 1].0 == next)
  {
    var sp := SentenceSpans(text, chunkSize, overlapSize, start);
    var s := sp[k].0;
    SentenceSpansSuffix(text, chunkSize, overlapSize, start, k);
    SentenceSpansUnfold(text, chunkSize, overlapSize, s);
    var next := SentenceNextStart(chunkSize, overlapSize, s, SentenceChunkEnd(text, chunkSize, s));
    var rest := SentenceSpans(text, chunkSize, overlapSize, next);
    assert sp[k..] == [(s, SentenceChunkEnd(text, chunkSize, s))] + rest;
    assert sp[k] == sp[k..][0];
    assert |sp| == k + 1 + |rest|;
    if k + 1 < |sp| {
      assert sp[k + 1] == sp[k..][1] == rest[0];
    }
  }

  lemma {:induction false} SpanEndIsChunkEnd(text: string, chunkSize: int, overlapSize: int, start: nat, k: nat)
    requires chunkSize >= 1
    requires k < |SentenceSpans(text, chunkSize, overlapSize, start)|
    ensures var sp := SentenceSpans(text, chunkSize, overlapSize, start);
      sp[k].1 == SentenceChunkEnd(text, chunkSize, sp[k].0)
  {
    var sp := SentenceSpans(text, chunkSize, overlapSize, start);
    var s := sp[k].0;
    SentenceSpansSuffix(text, chunkSize, overlapSize, start, k);
    SentenceSpansUnfold(text, chunkSize, overlapSize, s);
    assert sp[k] == sp[k..][0];
  }

  /** The spans from the k-th on are the spans taken from the k-th start. */
  lemma {:induction false} SentenceSpansSuffix(text: string, chunkSize: int, overlapSize: int, start: nat, k: nat)
    requires chunkSize >= 1
    requires k < |SentenceSpans(text, chunkSize, overlapSize, start)|
    ensures var sp := SentenceSpans(text, chunkSize, overlapSize, start);
      sp[k..] == SentenceSpans(text, chunkSize, overlapSize, sp[k].0)
    decreases k
  {
    if k > 0 {
      var end := SentenceChunkEnd(text, chunkSize, start);
      var next := SentenceNextStart(chunkSize, overlapSize, start, end);
      SentenceSpansUnfold(text, chunkSize, overlapSize, start);
      var sp := SentenceSpans(text, chunkSize, overlapSize, start);
      var rest := SentenceSpans(text, chunkSize, overlapSize, next);
      SentenceSpansSuffix(text, chunkSize, overlapSize, next, k - 1);
      ConsDrop((start, end), rest, k);
    }
  }

  lemma {:induction false} SentenceSpansUnfold(text: string, chunkSize: int, overlapSize: int, start: nat)
    requires chunkSize >= 1 && start < |text|
    ensures var end := SentenceChunkEnd(text, chunkSize, start);
      SentenceSpans(text, chunkSize, overlapSize, start)
        == [(start, end)] + SentenceSpans(text, chunkSize, overlapSize, SentenceNextStart(chunkSize, overlapSize, start, end))
  {
  }

  /** The end of a chunk, given its start: a window that reaches the end of the
      text ends there; otherwise the chunk ends right after the last ". " in
      the final fifth of its window, or at the full window when there is none. */
  lemma {:induction false} ChunkEndRule(text: string, chunkSize: int, s: nat)
    requires chunkSize >= 1 && s < |text|
    ensures var e := SentenceChunkEnd(text, chunkSize, s);
      var lo := s + 4 * chunkSize / 5;
      (s + chunkSize >= |text| ==> e == |text|) &&
      (s + chunkSize < |text| ==>
        (e == s + chunkSize && forall i :: lo <= i <= s + chunkSize - 2 ==> !OccursAt(text, ". ", i)) ||
        (lo <= e - 2 && OccursAt(text, ". ", e - 2) &&
         forall i :: e - 2 < i <= s + chunkSize - 2 ==> !OccursAt(text, ". ", i)))
  {
  }

  /** A chunk that stops before the end of the text is longer than a tenth of
      the chunk size. */
  lemma {:induction false} ChunkEndLong(text: string, chunkSize: int, s: nat)
    requires chunkSize >= 1 && s < |text| && SentenceChunkEnd(text, chunkSize, s) < |text|
    ensures SentenceChunkEnd(text, chunkSize, s) - s > chunkSize / 10
  {
    var e := SentenceChunkEnd(text, chunkSize, s);
    assert e - s >= 4 * chunkSize / 5 + 2 || e - s == chunkSize;
    assert chunkSize / 10 < 4 * chunkSize / 5 + 2;
  }

  /** A chunk that stops before the end of the text is followed by one that
      starts `EffectiveOverlap` characters before its end, exactly when that
      start is still inside the text. */
  lemma {:induction false} SentenceOverlap(text: string, chunkSize: int, overlapSize: int, k: nat)
    requires chunkSize >= 1
    requires k < |SentenceSpans(text, chunkSize, overlapSize, 0)|
    requires SentenceSpans(text, chunkSize, overlapSize, 0)[k].1 < |text|
    ensures var sp := SentenceSpans(text, chunkSize, overlapSize, 0);
      var ov := EffectiveOverlap(chunkSize, overlapSize);
      var next := sp[k].1 - ov;
      next > sp[k].0 &&
      (k + 1 < |sp| <==> next < |text|) &&
      (k + 1 < |sp| ==> sp[k + 1].0 == next)
  {
    var sp := SentenceSpans(text, chunkSize, overlapSize, 0);
    SentenceSpansStep(text, chunkSize, overlapSize, 0, k);
    ChunkOverlap(text, chunkSize, overlapSize, sp[k].0);
  }

  /** With a non-negative overlap, the last characters of one chunk are the
      first characters of the next. */
  lemma {:induction false} SentenceOverlapText(text: string, chunkSize: int, overlapSize: int, k: nat)
    requires chunkSize >= 1 && overlapSize >= 0
    requires k < |SentenceSpans(text, chunkSize, overlapSize, 0)|
    requires SentenceSpans(text, chunkSize, overlapSize, 0)[k].1 < |text|
    ensures var sp := SentenceSpans(text, chunkSize, overlapSize, 0);
      var ov := EffectiveOverlap(chunkSize, overlapSize);
      k + 1 < |sp| && sp[k].0 < sp[k + 1].0 == sp[k].1 - ov &&
      text[sp[k + 1].0..sp[k].1] == text[sp[k].0..sp[k].1][sp[k].1 - sp[k].0 - ov..]
  {
    var sp := SentenceSpans(text, chunkSize, overlapSize, 0);
    var s, e := sp[k].0, sp[k].1;
    var ov := EffectiveOverlap(chunkSize, overlapSize);
    SentenceOverlap(text, chunkSize, overlapSize, k);
    SliceSuffix(text, s, e - ov, e);
  }

  /** The start after a chunk that stops before the end of the text, given the chunk's start. */
  lemma {:induction false} ChunkOverlap(text: string, chunkSize: int, overlapSize: int, s: nat)
    requires chunkSize >= 1 && s < |text| && SentenceChunkEnd(text, chunkSize, s) < |text|
    ensures var e := SentenceChunkEnd(text, chunkSize, s);
      var ov := EffectiveOverlap(chunkSize, overlapSize);
      e - ov > s && SentenceNextStart(chunkSize, overlapSize, s, e) == e - ov
  {
    ChunkEndLong(text, chunkSize, s);
  }

  /** With a non-negative overlap the chunks leave no gap: the first starts at 0,
      each starts no later than the previous one ends, and the last ends at the
      end of the text. */
  lemma {:induction false} SentenceChunksCover(text: string, chunkSize: int, overlapSize: int)
    requires chunkSize >= 1 && overlapSize >= 0 && |text| > 0
    ensures var sp := SentenceSpans(text, chunkSize, overlapSize, 0);
      sp[0].0 == 0 && sp[|sp| - 1].1 == |text| &&
      forall k :: 0 <= k < |sp| - 1 ==> sp[k + 1].0 <= sp[k].1
  {
    var sp := SentenceSpans(text, chunkSize, overlapSize, 0);
    SentenceSpansStep(text, chunkSize, overlapSize, 0, |sp| - 1);
    forall k | 0 <= k < |sp| - 1
      ensures sp[k + 1].0 <= sp[k].1
    {
      SentenceSpansStep(text, chunkSize, overlapSize, 0, k);
    }
  }

  /** After the chunk that reaches the end of the text comes one more chunk made
      of its last `EffectiveOverlap` characters, when that overlap is positive
      and shorter than the chunk; otherwise it is the last chunk. */
  lemma {:induction false} SentenceTrailingChunk(text: string, chunkSize: int, overlapSize: int, k: nat)
    requires chunkSize >= 1
    requires k < |SentenceSpans(text, chunkSize, overlapSize, 0)|
    requires SentenceSpans(text, chunkSize, overlapSize, 0)[k].1 == |text|
    ensures var sp := SentenceSpans(text, chunkSize, overlapSize, 0);
      var ov := EffectiveOverlap(chunkSize, overlapSize);
      if ov > 0 && |text| - sp[k].0 > ov then |sp| == k + 2 && sp[k + 1] == (|text| - ov, |text|)
      else |sp| == k + 1
  {
    var sp := SentenceSpans(text, chunkSize, overlapSize, 0);
    var s := sp[k].0;
    SentenceSpansStep(text, chunkSize, overlapSize, 0, k);
    SentenceSpansSuffix(text, chunkSize, overlapSize, 0, k);
    TailSpans(text, chunkSize, overlapSize, s);
    assert |sp| == k + |sp[k..]|;
    if |sp[k..]| == 2 {
      assert sp[k + 1] == sp[k..][1];
    }
  }

  /** The spans taken from a start whose chunk reaches the end of the text. */
  lemma {:induction false} TailSpans(text: string, chunkSize: int, overlapSize: int, s: nat)
    requires chunkSize >= 1 && s < |text| && SentenceChunkEnd(text, chunkSize, s) == |text|
    ensures var ov := EffectiveOverlap(chunkSize, overlapSize);
      SentenceSpans(text, chunkSize, overlapSize, s)
        == if ov > 0 && |text| - s > ov then [(s, |text|), (|text| - ov, |text|)] else [(s, |text|)]
  {
    var ov := EffectiveOverlap(chunkSize, overlapSize);
    SentenceSpansUnfold(text, chunkSize, overlapSize, s);
    var next := SentenceNextStart(chunkSize, overlapSize, s, |text|);
    if ov > 0 && |text| - s > ov {
      assert next == |text| - ov;
      ChunkEndAtTail(text, chunkSize, next);
      SentenceSpansUnfold(text, chunkSize, overlapSize, next);
      assert SentenceNextStart(chunkSize, overlapSize, next, |text|) == |text|;
    } else {
      assert next >= |text|;
    }
  }

  /** A window that reaches the end of the text is not cut. */
  lemma {:induction false} ChunkEndAtTail(text: string, chunkSize: int, s: nat)
    requires chunkSize >= 1 && s < |text| <= s + chunkSize
    ensures SentenceChunkEnd(text, chunkSize, s) == |text|
  {
  }

  // ---------------------------------------------------------------------
  // extract_metrics_with_regex
  // ---------------------------------------------------------------------

  /** The four metric patterns, in the order they are searched. */
  datatype MetricKind = Revenue | NetIncome | EarningsPerShare | Profit

  function MetricKinds(): seq<MetricKind> {
    [Revenue, NetIncome, EarningsPerShare, Profit]
  }

  function MetricName(kind: MetricKind): string {
    match kind
    case Revenue => "Revenue"
    case NetIncome => "Net Income"
    case EarningsPerShare => "EPS"
    case Profit => "Profit"
  }

  function MetricCategory(kind: MetricKind): string {
    if kind == EarningsPerShare then "Financial Ratios" else "Income Statement"
  }

  /** One regex match of a metric pattern over the lower-cased text: the number
      (group 1), the optional unit word (group 2, absent from the EPS pattern)
      and the match's bounds. */
  datatype MetricMatch = MetricMatch(number: string, unit: Option<string>, start: nat, end: nat)

  datatype Metric = Metric(name: string, value: string, valueNumeric: real, unit: string,
                           category: string, context: string)

  predicate AllDigits(s: string) {
    forall i :: 0 <= i < |s| ==> IsDigit(s[i])
  }

  /** `\d+(\.\d+)?`, the shape of group 1. */
  predicate IsDecimalLiteral(s: string) {
    if '.' in s then
      var d := IndexOf(s, '.');
      0 < d < |s| - 1 && AllDigits(s[..d]) && AllDigits(s[d + 1..])
    else |s| > 0 && AllDigits(s)
  }

  /** Python's `float(s)` on a decimal literal. */
  function DecimalValue(s: string): real
    requires IsDecimalLiteral(s)
  {
    if '.' in s then
      var d := IndexOf(s, '.');
      DigitsValue(s[..d]) as real + DigitsValue(s[d + 1..]) as real / Pow10(|s| - d - 1) as real
    else DigitsValue(s) as real
  }

  /** The multiplier a normalised unit stands for. */
  function UnitScale(unit: string): real {
    if unit == "million" then 1000000.0
    else if unit == "billion" then 1000000000.0
    else if unit == "thousand" then 1000.0
    else 1.0
  }

  /** The unit recorded for a match: "" without a unit group, otherwise the
      lower-cased unit with its abbreviations spelled out. */
  function NormalizeUnit(kind: MetricKind, unit: Option<string>): string {
    var group := if kind != EarningsPerShare && unit.Some? && unit.value != "" then unit.value else "";
    var u := Lower(group);
    if group == "" then ""
    else if u == "m" || u == "million" then "million"
    else if u == "b" || u == "billion" then "billion"
    else if u == "k" || u == "thousand" then "thousand"
    else u
  }

  /** No unit without a unit group; the abbreviations and the spelled-out
      words of a unit group map to the spelled-out unit. */
  lemma {:induction false} NormalizeUnitCases(kind: MetricKind, unit: Option<string>)
    ensures var r := NormalizeUnit(kind, unit);
      (kind == EarningsPerShare || unit.None? || unit == Some("") ==> r == "") &&
      (kind != EarningsPerShare && (unit == Some("m") || unit == Some("million")) ==> r == "million") &&
      (kind != EarningsPerShare && (unit == Some("b") || unit == Some("billion")) ==> r == "billion") &&
      (kind != EarningsPerShare && (unit == Some("k") || unit == Some("thousand")) ==> r == "thousand")
  {
    if kind != EarningsPerShare && unit.Some? {
      var g := unit.value;
      if g == "m" || g == "million" || g == "b" || g == "billion" || g == "k" || g == "thousand" {
        LowerUnchanged(g);
      }
    }
  }

  /** The match together with up to 50 characters on each side. */
  function MatchContext(text: string, start: nat, end: nat): (r: string)
    requires start <= end <= |text|
    ensures var lo := Max(0, start - 50);
      lo <= start && end - lo <= |r| <= end - start + 100 &&
      r[start - lo..end - lo] == text[start..end]
  {
    var lo, hi := Max(0, start - 50), Min(|text|, end + 50);
    SliceOfSlice(text, lo, hi, start, end);
    text[lo..hi]
  }

  lemma {:induction false} SliceOfSlice(text: string, lo: nat, hi: nat, i: nat, j: nat)
    requires lo <= i <= j <= hi <= |text|
    ensures text[lo..hi][i - lo..j - lo] == text[i..j]
  {
    var a, b := text[lo..hi][i - lo..j - lo], text[i..j];
    assert |a| == |b|;
    forall t | 0 <= t < |a| ensures a[t] == b[t] {
      assert a[t] == text[lo..hi][i - lo + t] == text[i + t];
    }
  }

  /** The metric record built from one match. */
  function NormalizeMetric(text: string, kind: MetricKind, m: MetricMatch): Metric
    requires m.start <= m.end <= |text| && IsDecimalLiteral(m.number)
  {
    var unit := NormalizeUnit(kind, m.unit);
    Metric(MetricName(kind), m.number, DecimalValue(m.number) * UnitScale(unit), unit, MetricCategory(kind),
           MatchContext(text, m.start, m.end))
  }

  /** A record keeps the matched number and its context, is filed under the
      pattern's name, under "Financial Ratios" exactly for EPS, and its numeric
      value is the number scaled by the unit: EPS and a missing unit are not
      scaled, "m"/"million" multiply by a million, "b"/"billion" by a
      billion, "k"/"thousand" by a thousand. */
  lemma {:induction false} NormalizeMetricFields(text: string, kind: MetricKind, m: MetricMatch)
    requires m.start <= m.end <= |text| && IsDecimalLiteral(m.number)
    ensures var r := NormalizeMetric(text, kind, m);
      var v := DecimalValue(m.number);
      var plain := kind == EarningsPerShare || m.unit.None? || m.unit == Some("");
      r.name == MetricName(kind) && r.value == m.number && r.context == MatchContext(text, m.start, m.end) &&
      (r.category == "Financial Ratios" <==> kind == EarningsPerShare) &&
      (plain ==> r.unit == "" && r.valueNumeric == v) &&
      (!plain && (m.unit == Some("m") || m.unit == Some("million")) ==> r.unit == "million" && r.valueNumeric == v * 1000000.0) &&
      (!plain && (m.unit == Some("b") || m.unit == Some("billion")) ==> r.unit == "billion" && r.valueNumeric == v * 1000000000.0) &&
      (!plain && (m.unit == Some("k") || m.unit == Some("thousand")) ==> r.unit == "thousand" && r.valueNumeric == v * 1000.0)
  {
    NormalizeUnitCases(kind, m.unit);
  }

  /** Every match of one pattern lies within the text and has a decimal number. */
  predicate WellFormedPattern(text: string, ms: seq<MetricMatch>) {
    forall j :: 0 <= j < |ms| ==> ms[j].start <= ms[j].end <= |text| && IsDecimalLiteral(ms[j].number)
  }

  predicate WellFormedMatches(text: string, matches: seq<seq<MetricMatch>>) {
    forall i :: 0 <= i < |matches| ==> WellFormedPattern(text, matches[i])
  }

  /** The records of one pattern's matches, in order. */
  function MetricsOfPattern(text: string, kind: MetricKind, ms: seq<MetricMatch>): (r: seq<Metric>)
    requires WellFormedPattern(text, ms)
    ensures |r| == |ms|
  {
    if |ms| == 0 then []
    else
      var front := ms[..|ms| - 1];
      assert forall j :: 0 <= j < |front| ==> front[j] == ms[j];
      MetricsOfPattern(text, kind, front) + [NormalizeMetric(text, kind, ms[|ms| - 1])]
  }

  /** Every record of a pattern is built from one of its matches. */
  lemma {:induction false} MetricsOfPatternSound(text: string, kind: MetricKind, ms: seq<MetricMatch>, x: Metric)
    requires WellFormedPattern(text, ms) && x in MetricsOfPattern(text, kind, ms)
    ensures exists j :: 0 <= j < |ms| && x == NormalizeMetric(text, kind, ms[j])
  {
    var n := |ms| - 1;
    var front := ms[..n];
    assert forall j :: 0 <= j < |front| ==> front[j] == ms[j];
    if x != NormalizeMetric(text, kind, ms[n]) {
      MetricsOfPatternSound(text, kind, front, x);
      var j :| 0 <= j < |front| && x == NormalizeMetric(text, kind, front[j]);
      assert ms[j] == front[j];
    }
  }

  /** The metrics of the first `p` patterns, pattern by pattern, each pattern's
      matches in text order. */
  function MetricsUpTo(text: string, matches: seq<seq<MetricMatch>>, p: nat): seq<Metric>
    requires p <= |matches| <= 4 && WellFormedMatches(text, matches)
  {
    if p == 0 then []
    else MetricsUpTo(text, matches, p - 1) + MetricsOfPattern(text, MetricKinds()[p - 1], matches[p - 1])
  }

  function MetricsFound(text: string, matches: seq<seq<MetricMatch>>): seq<Metric>
    requires |matches| <= 4 && WellFormedMatches(text, matches)
  {
    MetricsUpTo(text, matches, |matches|)
  }

  /** `extract_metrics_with_regex`: `matches[i]` are the matches of the i-th
      pattern over the lower-cased text, in text order. */
  method ExtractMetricsWithRegex(text: string, matches: seq<seq<MetricMatch>>) returns (results: seq<Metric>)
    requires |matches| == 4 && WellFormedMatches(text, matches)
    ensures results == MetricsFound(text, matches)
  {
    results := [];
    var p := 0;
    while p < 4
      invariant 0 <= p <= 4
      invariant results == MetricsUpTo(text, matches, p)
    {
      var found := NormalizeMatches(text, MetricKinds()[p], matches[p]);
      results := results + found;
      p := p + 1;
    }
  }

  /** The inner loop of `extract_metrics_with_regex`: one record per match of a pattern. */
  method NormalizeMatches(text: string, kind: MetricKind, ms: seq<MetricMatch>) returns (found: seq<Metric>)
    requires WellFormedPattern(text, ms)
    ensures found == MetricsOfPattern(text, kind, ms)
  {
    found := [];
    var j := 0;
    while j < |ms|
      invariant 0 <= j <= |ms|
      invariant found == MetricsOfPattern(text, kind, ms[..j])
    {
      MetricsOfPatternSnoc(text, kind, ms, j);
      found := found + [NormalizeMetric(text, kind, ms[j])];
      j := j + 1;
    }
    assert ms[..j] == ms;
  }

  lemma {:induction false} MetricsOfPatternSnoc(text: string, kind: MetricKind, ms: seq<MetricMatch>, j: nat)
    requires j < |ms| && WellFormedPattern(text, ms)
    ensures WellFormedPattern(text, ms[..j]) && WellFormedPattern(text, ms[..j + 1])
    ensures MetricsOfPattern(text, kind, ms[..j + 1]) == MetricsOfPattern(text, kind, ms[..j]) + [NormalizeMetric(text, kind, ms[j])]
  {
    var prefix := ms[..j + 1];
    assert forall t :: 0 <= t < |prefix| ==> prefix[t] == ms[t];
    assert prefix[..j] == ms[..j];
    assert prefix[j] == ms[j];
  }

  lemma {:induction false} MetricsUpToSound(text: string, matches: seq<seq<MetricMatch>>, p: nat, x: Metric)
    requires p <= |matches| <= 4 && WellFormedMatches(text, matches)
    requires x in MetricsUpTo(text, matches, p)
    ensures exists i, j :: 0 <= i < p && 0 <= j < |matches[i]| &&
                          x == NormalizeMetric(text, MetricKinds()[i], matches[i][j])
  {
    var ms := matches[p - 1];
    assert WellFormedPattern(text, ms);
    if x in MetricsOfPattern(text, MetricKinds()[p - 1], ms) {
      MetricsOfPatternSound(text, MetricKinds()[p - 1], ms, x);
      var j :| 0 <= j < |ms| && x == NormalizeMetric(text, MetricKinds()[p - 1], ms[j]);
      assert 0 <= p - 1 < p && x == NormalizeMetric(text, MetricKinds()[p - 1], matches[p - 1][j]);
    } else {
      MetricsUpToSound(text, matches, p - 1, x);
    }
  }

  /** Every metric found is the record of one match of one pattern: it carries
      that pattern's name and category, and its numeric value is the matched
      number times its unit's multiplier (the contract of `NormalizeMetric`). */
  lemma {:induction false} MetricsFoundSound(text: string, matches: seq<seq<MetricMatch>>, x: Metric)
    requires |matches| <= 4 && WellFormedMatches(text, matches)
    requires x in MetricsFound(text, matches)
    ensures exists i, j :: 0 <= i < |matches| && 0 <= j < |matches[i]| &&
                          x == NormalizeMetric(text, MetricKinds()[i], matches[i][j])
  {
    MetricsUpToSound(text, matches, |matches|, x);
  }

  /** There are exactly as many metrics as matches. */
  lemma {:induction false} MetricsUpToCount(text: string, matches: seq<seq<MetricMatch>>, p: nat)
    requires p <= |matches| <= 4 && WellFormedMatches(text, matches)
    ensures |MetricsUpTo(text, matches, p)| == |Flatten(matches[..p])|
  {
    if p > 0 {
      assert matches[..p][..p - 1] == matches[..p - 1];
      MetricsUpToCount(text, matches, p - 1);
    }
  }

  // ---------------------------------------------------------------------
  // extract_risk_factors_with_regex
  // ---------------------------------------------------------------------

  /** The first index at or after `i` that is not white space. */
  function SkipSpaces(s: string, i: nat): (j: nat)
    requires i <= |s|
    ensures i <= j <= |s| && (j == |s| || !IsSpace(s[j]))
    ensures forall t :: i <= t < j ==> IsSpace(s[t])
    decreases |s| - i
  {
    if i < |s| && IsSpace(s[i]) then SkipSpaces(s, i + 1) else i
  }

  /** The first index at or after `i` that is not a digit. */
  function SkipDigits(s: string, i: nat): (j: nat)
    requires i <= |s|
    ensures i <= j <= |s| && (j == |s| || !IsDigit(s[j]))
    ensures forall t :: i <= t < j ==> IsDigit(s[t])
    decreases |s| - i
  {
    if i < |s| && IsDigit(s[i]) then SkipDigits(s, i + 1) else i
  }

  /** `(?:Item|ITEM)\s+\d+[AB]?\.` matches at index `i` of `s`. The greedy runs
      of spaces and digits cannot give back characters, so checking the longest
      runs decides the match. */
  predicate ItemHeaderAt(s: string, i: nat) {
    (OccursAt(s, "Item", i) || OccursAt(s, "ITEM", i)) &&
    var a := SkipSpaces(s, i + 4);
    a > i + 4 &&
    var b := SkipDigits(s, a);
    b > a &&
    ((b < |s| && s[b] == '.') || (b + 1 < |s| && (s[b] == 'A' || s[b] == 'B') && s[b + 1] == '.'))
  }

  /** `re.search` of the next-section pattern: the leftmost match at or after `i`. */
  function FindItemHeader(s: string, i: nat): (r: Option<nat>)
    ensures r.Some? ==> i <= r.value < |s| && ItemHeaderAt(s, r.value)
    ensures forall t :: i <= t && (r.None? || t < r.value) ==> !ItemHeaderAt(s, t)
    decreases |s| - i
  {
    if i >= |s| then None
    else if ItemHeaderAt(s, i) then Some(i)
    else FindItemHeader(s, i + 1)
  }

  /** The risk section after a header that ends at `sectionStart`: up to the
      next "Item N." heading, or at most 20000 characters. */
  function RiskSection(text: string, sectionStart: nat): (r: string)
    requires sectionStart <= |text|
    ensures |r| <= 20000 || FindItemHeader(text[sectionStart..], 0).Some?
  {
    var after := text[sectionStart..];
    match FindItemHeader(after, 0)
    case Some(n) => after[..n]
    case None => after[..Min(20000, |after|)]
  }

  /** The risk section found with the first header pattern that matches, or
      "" when none does. */
  function FirstRiskSection(text: string, headerEnds: seq<Option<nat>>): string
    requires forall i :: 0 <= i < |headerEnds| && headerEnds[i].Some? ==> headerEnds[i].value <= |text|
  {
    if |headerEnds| == 0 then ""
    else if headerEnds[0].Some? then RiskSection(text, headerEnds[0].value)
    else FirstRiskSection(text, headerEnds[1..])
  }

  predicate PlausibleRisk(r: string) {
    20 < |r| < 500
  }

  /** The stripped candidates of plausible length, in order. */
  function KeptRisks(candidates: seq<string>): (r: seq<string>)
    ensures forall i :: 0 <= i < |r| ==> PlausibleRisk(r[i])
  {
    if |candidates| == 0 then []
    else
      var risk := Strip(candidates[|candidates| - 1]);
      KeptRisks(candidates[..|candidates| - 1]) + (if PlausibleRisk(risk) then [risk] else [])
  }

  /** The stripped candidates, in order. */
  function StrippedAll(candidates: seq<string>): (r: seq<string>)
    ensures |r| == |candidates|
    ensures forall i :: 0 <= i < |candidates| ==> r[i] == Strip(candidates[i])
  {
    seq(|candidates|, i requires 0 <= i < |candidates| => Strip(candidates[i]))
  }

  lemma {:induction false} StrippedAllSnoc(candidates: seq<string>)
    requires |candidates| > 0
    ensures var n := |candidates| - 1;
      StrippedAll(candidates) == StrippedAll(candidates[..n]) + [Strip(candidates[n])]
  {
    var n := |candidates| - 1;
    var a, b := StrippedAll(candidates), StrippedAll(candidates[..n]) + [Strip(candidates[n])];
    forall j | 0 <= j < |a| ensures a[j] == b[j] {
      if j < n {
        assert candidates[..n][j] == candidates[j];
      }
    }
  }

  /** A risk is kept exactly when it is a stripped candidate of plausible length. */
  lemma {:induction false} KeptRisksMembers(candidates: seq<string>, x: string)
    ensures x in KeptRisks(candidates) <==> PlausibleRisk(x) && x in StrippedAll(candidates)
  {
    if |candidates| > 0 {
      KeptRisksMembers(candidates[..|candidates| - 1], x);
      StrippedAllSnoc(candidates);
    }
  }

  function RiskFactors(text: string, headerEnds: seq<Option<nat>>, candidates: seq<string>): seq<string>
    requires forall i :: 0 <= i < |headerEnds| && headerEnds[i].Some? ==> headerEnds[i].value <= |text|
  {
    if FirstRiskSection(text, headerEnds) == "" then [] else DistinctCapped(KeptRisks(candidates), 20)
  }

  /** `extract_risk_factors_with_regex`: `headerEnds[i]` is where the first match
      of the i-th header pattern ends, and `candidates` are the captured texts of
      the four risk patterns over the section, pattern by pattern. */
  method ExtractRiskFactorsWithRegex(text: string, headerEnds: seq<Option<nat>>, candidates: seq<string>)
    returns (risks: seq<string>)
    requires forall i :: 0 <= i < |headerEnds| && headerEnds[i].Some? ==> headerEnds[i].value <= |text|
    ensures risks == RiskFactors(text, headerEnds, candidates)
  {
    var section := FindRiskSection(text, headerEnds);
    if section == "" {
      return [];
    }
    var kept := KeepPlausible(candidates);
    risks := DistinctCapped(kept, 20);
  }

  /** The first loop of `extract_risk_factors_with_regex`: the section of the
      first header pattern that matched. */
  method FindRiskSection(text: string, headerEnds: seq<Option<nat>>) returns (section: string)
    requires forall i :: 0 <= i < |headerEnds| && headerEnds[i].Some? ==> headerEnds[i].value <= |text|
    ensures section == FirstRiskSection(text, headerEnds)
  {
    section := "";
    var h := 0;
    while h < |headerEnds|
      invariant 0 <= h <= |headerEnds|
      invariant FirstRiskSection(text, headerEnds) == FirstRiskSection(text, headerEnds[h..])
      decreases |headerEnds| - h
    {
      assert headerEnds[h..][1..] == headerEnds[h + 1..];
      if headerEnds[h].Some? {
        section := RiskSection(text, headerEnds[h].value);
        break;
      }
      h := h + 1;
    }
    if h == |headerEnds| {
      assert section == FirstRiskSection(text, headerEnds);
    }
  }

  /** The candidate loop: the stripped candidates of plausible length. */
  method KeepPlausible(candidates: seq<string>) returns (kept: seq<string>)
    ensures kept == KeptRisks(candidates)
  {
    kept := [];
    var c := 0;
    while c < |candidates|
      invariant 0 <= c <= |candidates|
      invariant kept == KeptRisks(candidates[..c])
    {
      KeptRisksSnoc(candidates, c);
      var risk := Strip(candidates[c]);
      if 20 < |risk| < 500 {
        kept := kept + [risk];
      }
      c := c + 1;
    }
    assert candidates[..c] == candidates;
  }

  lemma {:induction false} KeptRisksSnoc(candidates: seq<string>, c: nat)
    requires c < |candidates|
    ensures var risk := Strip(candidates[c]);
      KeptRisks(candidates[..c + 1]) == KeptRisks(candidates[..c]) + if PlausibleRisk(risk) then [risk] else []
  {
    var prefix := candidates[..c + 1];
    assert prefix[..c] == candidates[..c];
    assert prefix[c] == candidates[c];
  }

  /** At most 20 distinct risks, and none without a section. */
  lemma {:induction false} RiskFactorsBounded(text: string, headerEnds: seq<Option<nat>>, candidates: seq<string>)
    requires forall i :: 0 <= i < |headerEnds| && headerEnds[i].Some? ==> headerEnds[i].value <= |text|
    ensures var r := RiskFactors(text, headerEnds, candidates);
      |r| <= 20 && Distinct(r) && (FirstRiskSection(text, headerEnds) == "" ==> r == [])
  {
  }

  /** Each risk is a stripped candidate of plausible length. */
  lemma {:induction false} RiskFactorsKept(text: string, headerEnds: seq<Option<nat>>, candidates: seq<string>, k: nat)
    requires forall i :: 0 <= i < |headerEnds| && headerEnds[i].Some? ==> headerEnds[i].value <= |text|
    requires k < |RiskFactors(text, headerEnds, candidates)|
    ensures var x := RiskFactors(text, headerEnds, candidates)[k];
      PlausibleRisk(x) && x in StrippedAll(candidates)
  {
    KeptRisksMembers(candidates, RiskFactors(text, headerEnds, candidates)[k]);
  }

  /** With a section and at most 20 distinct plausible candidates, every
      plausible stripped candidate is reported. */
  lemma {:induction false} RiskFactorsComplete(text: string, headerEnds: seq<Option<nat>>, candidates: seq<string>, i: nat)
    requires forall i :: 0 <= i < |headerEnds| && headerEnds[i].Some? ==> headerEnds[i].value <= |text|
    requires FirstRiskSection(text, headerEnds) != "" && |Dedup(KeptRisks(candidates))| <= 20
    requires i < |candidates| && PlausibleRisk(Strip(candidates[i]))
    ensures Strip(candidates[i]) in RiskFactors(text, headerEnds, candidates)
  {
    assert StrippedAll(candidates)[i] == Strip(candidates[i]);
    KeptRisksMembers(candidates, Strip(candidates[i]));
  }

  // ---------------------------------------------------------------------
  // extract_basic_entities
  // ---------------------------------------------------------------------

  /** `extract_basic_entities`: `orgMatches[i]` and `locMatches[i]` are what
      `re.findall` returns for the i-th organisation and location pattern. */
  method ExtractBasicEntities(orgMatches: seq<seq<string>>, locMatches: seq<seq<string>>)
    returns (organizations: seq<string>, locations: seq<string>)
    ensures organizations == DistinctCapped(Flatten(orgMatches), 10)
    ensures locations == DistinctCapped(Flatten(locMatches), 10)
  {
    var orgs: seq<string> := [];
    var i := 0;
    while i < |orgMatches|
      invariant 0 <= i <= |orgMatches|
      invariant orgs == Flatten(orgMatches[..i])
    {
      assert orgMatches[..i + 1][..i] == orgMatches[..i];
      orgs := orgs + orgMatches[i];
      i := i + 1;
    }
    assert orgMatches[..i] == orgMatches;
    organizations := DistinctCapped(orgs, 10);
    var locs: seq<string> := [];
    i := 0;
    while i < |locMatches|
      invariant 0 <= i <= |locMatches|
      invariant locs == Flatten(locMatches[..i])
    {
      assert locMatches[..i + 1][..i] == locMatches[..i];
      locs := locs + locMatches[i];
      i := i + 1;
    }
    assert locMatches[..i] == locMatches;
    locations := DistinctCapped(locs, 10);
  }

  // ---------------------------------------------------------------------
  // call_huggingface_api
  // ---------------------------------------------------------------------

  /** A JSON document as `response.json()` decodes it. */
  datatype Json =
    | JNull
    | JBool(b: bool)
    | JNum(n: real)
    | JStr(s: string)
    | JArr(items: seq<Json>)
    | JObj(fields: seq<(string, Json)>)

  /** What one POST to the inference endpoint gives: a response with its status
      code and its body when the body is valid JSON, a timeout, or another
      transport failure. */
  datatype Outcome = Http(status: int, json: Option<Json>) | Timeout | RequestError

  /** The error `call_huggingface_api` raises. */
  datatype ApiError =
    | InvalidApiKey            // ValueError on 401
    | RateLimited              // 429
    | ApiStatus(status: int)   // any other status on the last attempt
    | InvalidJson              // a 200 whose body is not JSON
    | TimedOut(attempts: nat)  // TimeoutError on the last attempt
    | RequestFailed            // another transport failure on the last attempt
    | AllAttemptsFailed(maxRetries: int)

  /** The result of a call, with the timeout each request used and the seconds
      slept after each request (0 when there was no sleep). */
  datatype ApiCall = ApiCall(result: Result<Json, ApiError>, timeouts: seq<real>, sleeps: seq<nat>)

  predicate IsSuccess(o: Outcome) {
    o.Http? && o.status == 200 && o.json.Some?
  }

  /** Prefix a request's timeout and sleep to the rest of the call. */
  function Then(timeout: real, sleep: nat, rest: ApiCall): ApiCall {
    ApiCall(rest.result, [timeout] + rest.timeouts, [sleep] + rest.sleeps)
  }

  /** The error a failed request raises inside the `try` block, if it raises one. */
  function RaisedError(o: Outcome): Option<ApiError> {
    match o
    case Http(status, json) =>
      if status == 200 then (if json.Some? then None else Some(InvalidJson))
      else if status == 401 then Some(InvalidApiKey)
      else if status == 503 then None
      else if status == 429 then Some(RateLimited)
      else Some(ApiStatus(status))
    case Timeout => None
    case RequestError => Some(RequestFailed)
  }

  /** The rest of the call after `attempts` requests, the current timeout being
      `timeout`; `net(k)` is the outcome of request number k. */
  function CallFrom(net: nat -> Outcome, maxRetries: int, attempts: nat, timeout: real): (c: ApiCall)
    ensures |c.sleeps| == |c.timeouts|
    ensures attempts < maxRetries ==> 1 <= |c.timeouts| <= maxRetries - attempts
    ensures attempts >= maxRetries ==> c == ApiCall(Err(AllAttemptsFailed(maxRetries)), [], [])
    decreases maxRetries - attempts
  {
    if attempts >= maxRetries then ApiCall(Err(AllAttemptsFailed(maxRetries)), [], [])
    else
      var a := attempts + 1;
      var o := net(a);
      if IsSuccess(o) then ApiCall(Ok(o.json.value), [timeout], [0])
      else if o.Http? && o.status == 503 then Then(timeout, 5 * a, CallFrom(net, maxRetries, a, timeout))
      else if o.Timeout? then
        (if a < maxRetries then Then(timeout, 0, CallFrom(net, maxRetries, a, timeout * 1.5))
         else ApiCall(Err(TimedOut(a)), [timeout], [0]))
      else if a < maxRetries then Then(timeout, 3 * a, CallFrom(net, maxRetries, a, timeout))
      else ApiCall(Err(RaisedError(o).value), [timeout], [0])
  }

  lemma {:induction false} ThenPrefix(ts: seq<real>, ss: seq<nat>, t: real, w: nat, c: ApiCall)
    ensures var d := Then(t, w, c);
      ApiCall(d.result, ts + d.timeouts, ss + d.sleeps) == ApiCall(c.result, (ts + [t]) + c.timeouts, (ss + [w]) + c.sleeps)
  {
    assert ts + ([t] + c.timeouts) == (ts + [t]) + c.timeouts;
    assert ss + ([w] + c.sleeps) == (ss + [w]) + c.sleeps;
  }

  function CallSpec(net: nat -> Outcome, maxRetries: int): ApiCall {
    CallFrom(net, maxRetries, 0, 30.0)
  }

  /** `call_huggingface_api(api_key, model_url, text, max_retries)`: the
      request itself is `net`, the k-th request's outcome. */
  method CallHuggingFaceApi(net: nat -> Outcome, maxRetries: int) returns (call: ApiCall)
    ensures call == CallSpec(net, maxRetries)
  {
    var timeoutSeconds := 30.0;
    var attempts: nat := 0;
    var timeouts: seq<real> := [];
    var sleeps: seq<nat> := [];
    while attempts < maxRetries
      invariant var rest := CallFrom(net, maxRetries, attempts, timeoutSeconds);
        ApiCall(rest.result, timeouts + rest.timeouts, sleeps + rest.sleeps) == CallSpec(net, maxRetries)
      decreases maxRetries - attempts
    {
      var done, sleep, nextTimeout := Attempt(net, maxRetries, attempts, timeoutSeconds);
      if done.Some? {
        return ApiCall(done.value, timeouts + [timeoutSeconds], sleeps + [0]);
      }
      ThenPrefix(timeouts, sleeps, timeoutSeconds, sleep, CallFrom(net, maxRetries, attempts + 1, nextTimeout));
      timeouts, sleeps := timeouts + [timeoutSeconds], sleeps + [sleep];
      attempts, timeoutSeconds := attempts + 1, nextTimeout;
    }
    call := ApiCall(Err(AllAttemptsFailed(maxRetries)), timeouts, sleeps);
  }

  /** One pass of the retry loop: request number `attempts + 1` with the
      current timeout. It either ends the call with `done`, or says how long
      to sleep and which timeout the next request uses. */
  method Attempt(net: nat -> Outcome, maxRetries: int, attempts: nat, timeout: real)
    returns (done: Option<Result<Json, ApiError>>, sleep: nat, nextTimeout: real)
    requires attempts < maxRetries
    ensures done.Some? ==> CallFrom(net, maxRetries, attempts, timeout) == ApiCall(done.value, [timeout], [0])
    ensures done.None? ==>
      CallFrom(net, maxRetries, attempts, timeout) == Then(timeout, sleep, CallFrom(net, maxRetries, attempts + 1, nextTimeout))
  {
    var a := attempts + 1;
    var outcome := net(a);
    var raised: Option<ApiError> := None;
    done, sleep, nextTimeout := None, 0, timeout;
    match outcome {
      case Http(status, json) =>
        if status == 200 {
          if json.Some? {
            return Some(Ok(json.value)), 0, timeout;
          }
          raised := Some(InvalidJson);
        } else if status == 401 {
          raised := Some(InvalidApiKey);
        } else if status == 503 {
          sleep := 5 * a;
        } else if status == 429 {
          raised := Some(RateLimited);
        } else if a < maxRetries {
          sleep := 3 * a;
        } else {
          raised := Some(ApiStatus(status));
        }
      case Timeout =>
        if a < maxRetries {
          nextTimeout := timeout * 1.5;
        } else {
          return Some(Err(TimedOut(a))), 0, timeout;
        }
      case RequestError =>
        raised := Some(RequestFailed);
    }
    if raised.Some? {
      if a < maxRetries {
        sleep := 3 * a;
      } else {
        done := Some(Err(raised.value));
      }
    }
  }

  /** No request succeeded among numbers `lo + 1 .. hi`. */
  predicate NoSuccessBetween(net: nat -> Outcome, lo: nat, hi: nat) {
    forall k :: lo < k <= hi ==> !IsSuccess(net(k))
  }

  /** The error raised when request number `maxRetries` is the last one and
      fails with `o`: a timeout is reported as such, a 503 falls out of the
      loop, every other failure is re-raised. */
  function LastAttemptError(o: Outcome, maxRetries: nat): ApiError {
    if o.Timeout? then TimedOut(maxRetries)
    else if o.Http? && o.status == 503 then AllAttemptsFailed(maxRetries)
    else if RaisedError(o).Some? then RaisedError(o).value
    else AllAttemptsFailed(maxRetries)
  }

  lemma {:induction false} CallFromSucceeds(net: nat -> Outcome, maxRetries: int, a: nat, t: real, k: nat)
    requires a < k <= maxRetries && IsSuccess(net(k)) && NoSuccessBetween(net, a, k - 1)
    ensures CallFrom(net, maxRetries, a, t).result == Ok(net(k).json.value)
    ensures |CallFrom(net, maxRetries, a, t).timeouts| == k - a
    decreases k - a
  {
    if a + 1 < k {
      assert !IsSuccess(net(a + 1));
      CallFromSucceeds(net, maxRetries, a + 1, t, k);
      CallFromSucceeds(net, maxRetries, a + 1, t * 1.5, k);
    }
  }

  lemma {:induction false} CallFromExhausts(net: nat -> Outcome, maxRetries: nat, a: nat, t: real)
    requires a < maxRetries && NoSuccessBetween(net, a, maxRetries)
    ensures CallFrom(net, maxRetries, a, t).result == Err(LastAttemptError(net(maxRetries), maxRetries))
    ensures |CallFrom(net, maxRetries, a, t).timeouts| == maxRetries - a
    decreases maxRetries - a
  {
    assert !IsSuccess(net(a + 1));
    if a + 1 < maxRetries {
      CallFromExhausts(net, maxRetries, a + 1, t);
      CallFromExhausts(net, maxRetries, a + 1, t * 1.5);
    }
  }

  /** The call returns the body of the first request that comes back with
      status 200 and a JSON body, after exactly that many requests, provided it
      is within the attempt budget: every earlier failure, whether a 401, a
      429, another status, a timeout or a transport error, is retried. */
  lemma {:induction false} CallSucceedsAtFirstSuccess(net: nat -> Outcome, maxRetries: int, k: nat)
    requires 1 <= k <= maxRetries && IsSuccess(net(k)) && NoSuccessBetween(net, 0, k - 1)
    ensures CallSpec(net, maxRetries).result == Ok(net(k).json.value)
    ensures |CallSpec(net, maxRetries).timeouts| == k
  {
    CallFromSucceeds(net, maxRetries, 0, 30.0, k);
  }

  /** Without a success within the budget, exactly `maxRetries` requests are
      made and the error is decided by the last one. */
  lemma {:induction false} CallFailsAfterBudget(net: nat -> Outcome, maxRetries: nat)
    requires maxRetries >= 1 && NoSuccessBetween(net, 0, maxRetries)
    ensures CallSpec(net, maxRetries).result == Err(LastAttemptError(net(maxRetries), maxRetries))
    ensures |CallSpec(net, maxRetries).timeouts| == maxRetries
  {
    CallFromExhausts(net, maxRetries, 0, 30.0);
  }

  /** The seconds slept after request `k`: 5k while the model loads, none after
      a timeout or a success, 3k after any other failure that is not the last. */
  function SleepAfter(o: Outcome, k: nat, maxRetries: int): nat {
    if IsSuccess(o) || o.Timeout? then 0
    else if o.Http? && o.status == 503 then 5 * k
    else if k < maxRetries then 3 * k
    else 0
  }

  /** Request `a + 1` fails and another request, or the end of the loop, follows. */
  predicate Retried(net: nat -> Outcome, maxRetries: int, a: nat) {
    var o := net(a + 1);
    a < maxRetries && !IsSuccess(o) && (a + 1 < maxRetries || (o.Http? && o.status == 503))
  }

  function NextTimeout(o: Outcome, t: real): real {
    if o.Timeout? then t * 1.5 else t
  }

  lemma {:induction false} CallFromRetried(net: nat -> Outcome, maxRetries: int, a: nat, t: real)
    requires Retried(net, maxRetries, a)
    ensures CallFrom(net, maxRetries, a, t)
         == Then(t, SleepAfter(net(a + 1), a + 1, maxRetries), CallFrom(net, maxRetries, a + 1, NextTimeout(net(a + 1), t)))
  {
  }

  lemma {:induction false} CallFromEnds(net: nat -> Outcome, maxRetries: int, a: nat, t: real)
    requires a < maxRetries && !Retried(net, maxRetries, a)
    ensures var c := CallFrom(net, maxRetries, a, t);
      c.timeouts == [t] && c.sleeps == [SleepAfter(net(a + 1), a + 1, maxRetries)]
  {
  }

  lemma {:induction false} CallFromSleeps(net: nat -> Outcome, maxRetries: int, a: nat, t: real)
    ensures var c := CallFrom(net, maxRetries, a, t);
      forall j :: 0 <= j < |c.sleeps| ==> c.sleeps[j] == SleepAfter(net(a + j + 1), a + j + 1, maxRetries)
    decreases maxRetries - a
  {
    if a < maxRetries {
      if Retried(net, maxRetries, a) {
        var t' := NextTimeout(net(a + 1), t);
        CallFromRetried(net, maxRetries, a, t);
        CallFromSleeps(net, maxRetries, a + 1, t');
        var c := CallFrom(net, maxRetries, a, t);
        var rest := CallFrom(net, maxRetries, a + 1, t');
        forall j | 0 < j < |c.sleeps|
          ensures c.sleeps[j] == SleepAfter(net(a + j + 1), a + j + 1, maxRetries)
        {
          ConsDrop(SleepAfter(net(a + 1), a + 1, maxRetries), rest.sleeps, j);
          assert a + 1 + (j - 1) + 1 == a + j + 1;
        }
      } else {
        CallFromEnds(net, maxRetries, a, t);
      }
    }
  }

  lemma {:induction false} CallFromTimeouts(net: nat -> Outcome, maxRetries: int, a: nat, t: real)
    ensures var c := CallFrom(net, maxRetries, a, t);
      (|c.timeouts| > 0 ==> c.timeouts[0] == t) &&
      forall j :: 0 <= j < |c.timeouts| - 1 ==> c.timeouts[j + 1] == NextTimeout(net(a + j + 1), c.timeouts[j])
    decreases maxRetries - a
  {
    if a < maxRetries {
      if Retried(net, maxRetries, a) {
        var t' := NextTimeout(net(a + 1), t);
        CallFromRetried(net, maxRetries, a, t);
        CallFromTimeouts(net, maxRetries, a + 1, t');
        var c := CallFrom(net, maxRetries, a, t);
        var rest := CallFrom(net, maxRetries, a + 1, t');
        forall j | 0 < j < |c.timeouts| - 1
          ensures c.timeouts[j + 1] == NextTimeout(net(a + j + 1), c.timeouts[j])
        {
          ConsDrop(t, rest.timeouts, j);
          ConsDrop(t, rest.timeouts, j + 1);
          assert a + 1 + (j - 1) + 1 == a + j + 1;
        }
      } else {
        CallFromEnds(net, maxRetries, a, t);
      }
    }
  }

  /** The first request waits 30 seconds; each timeout that is retried makes the
      next request wait 1.5 times longer. After request k the call sleeps 5k
      seconds on a 503 and 3k seconds on any other retried failure. */
  lemma {:induction false} CallSchedule(net: nat -> Outcome, maxRetries: int)
    ensures var c := CallSpec(net, maxRetries);
      (|c.timeouts| > 0 ==> c.timeouts[0] == 30.0) &&
      (forall j :: 0 <= j < |c.sleeps| ==> c.sleeps[j] == SleepAfter(net(j + 1), j + 1, maxRetries)) &&
      (forall j :: 0 <= j < |c.timeouts| - 1 ==> c.timeouts[j + 1] == NextTimeout(net(j + 1), c.timeouts[j]))
  {
    CallFromSleeps(net, maxRetries, 0, 30.0);
    CallFromTimeouts(net, maxRetries, 0, 30.0);
  }

  // ---------------------------------------------------------------------
  // fallback_sentiment_analysis
  // ---------------------------------------------------------------------

  datatype Label = Positive | Negative | Neutral

  /** A sentiment verdict. `score` and `rawScores` are present only for the
      model-based analysis, `confidence` only for the fallbacks that set it. */
  datatype Sentiment = Sentiment(verdict: Label, explanation: string, score: Option<real>,
                                 confidence: Option<real>, rawScores: Option<(real, real, real)>,
                                 analysisMethod: string)

  function PositiveWords(): seq<string> {
    ["increase", "growth", "profit", "success", "improve", "positive",
     "advantage", "opportunity", "strong", "exceed", "gain"]
  }

  function NegativeWords(): seq<string> {
    ["decrease", "decline", "loss", "risk", "challenge", "negative",
     "difficult", "weak", "fail", "threat", "liability"]
  }

  /** `sum(s.count(w) for w in words)`. */
  function KeywordCount(s: string, words: seq<string>): nat
    requires forall i :: 0 <= i < |words| ==> |words[i]| > 0
  {
    if |words| == 0 then 0 else Count(s, words[0]) + KeywordCount(s, words[1..])
  }

  function PositiveCount(text: string): nat {
    KeywordCount(Lower(text), PositiveWords())
  }

  function NegativeCount(text: string): nat {
    KeywordCount(Lower(text), NegativeWords())
  }

  /** `fallback_sentiment_analysis`. The explanation of a negative verdict is
      the source's own wording. */
  function FallbackSentiment(text: string): (r: Sentiment)
    ensures r.confidence == Some(0.6) && r.analysisMethod == "fallback" && r.score.None? && r.rawScores.None?
  {
    var pos := PositiveCount(text) as real;
    var neg := NegativeCount(text) as real;
    if pos > neg * 1.5 then
      Sentiment(Positive, "More positive terms than negative terms", None, Some(0.6), None, "fallback")
    else if neg > pos * 1.5 then
      Sentiment(Negative, "More negative terms than negative terms", None, Some(0.6), None, "fallback")
    else
      Sentiment(Neutral, "Balance of positive and negative terms", None, Some(0.6), None, "fallback")
  }

  /** The verdict is positive exactly when positive words outnumber negative
      ones by more than half again, negative in the mirror case, and neutral
      otherwise; in particular equal counts are neutral. */
  lemma {:induction false} FallbackSentimentRule(text: string)
    ensures var p, n := PositiveCount(text), NegativeCount(text);
      var r := FallbackSentiment(text);
      (r.verdict == Positive <==> 2 * p > 3 * n) &&
      (r.verdict == Negative <==> 2 * n > 3 * p) &&
      (r.verdict == Neutral <==> 2 * p <= 3 * n && 2 * n <= 3 * p) &&
      (p == n ==> r.verdict == Neutral)
  {
  }

  lemma {:induction false} CountWithoutOccurrence(s: string, w: string)
    requires |w| > 0 && !Contains(s, w)
    ensures Count(s, w) == 0
    decreases |s|
  {
    if |s| >= |w| {
      assert !OccursAt(s, w, 0);
      forall i | 0 <= i <= |s[1..]| - |w|
        ensures !OccursAt(s[1..], w, i)
      {
        assert !OccursAt(s, w, i + 1);
        assert s[1..][i..i + |w|] == s[i + 1..i + 1 + |w|];
      }
      CountWithoutOccurrence(s[1..], w);
    }
  }

  lemma {:induction false} KeywordCountZero(s: string, words: seq<string>)
    requires forall i :: 0 <= i < |words| ==> |words[i]| > 0 && !Contains(s, words[i])
    ensures KeywordCount(s, words) == 0
  {
    if |words| > 0 {
      CountWithoutOccurrence(s, words[0]);
      KeywordCountZero(s, words[1..]);
    }
  }

  /** A text that contains none of the keywords, in any letter case, is neutral. */
  lemma {:induction false} FallbackNeutralWithoutKeywords(text: string)
    requires forall i :: 0 <= i < |PositiveWords()| ==> !Contains(Lower(text), PositiveWords()[i])
    requires forall i :: 0 <= i < |NegativeWords()| ==> !Contains(Lower(text), NegativeWords()[i])
    ensures FallbackSentiment(text).verdict == Neutral
    ensures FallbackSentiment(text).explanation == "Balance of positive and negative terms"
  {
    KeywordCountZero(Lower(text), PositiveWords());
    KeywordCountZero(Lower(text), NegativeWords());
  }
}
