/** The report analyser of backend/services/ai_service.py: a local
    summarisation model and a Claude client, both optional; the
    line-aware chunker; and `analyze_report`, which routes chunks to the
    metric, summary, risk, outlook and sentiment steps. The models and the
    Claude client are collaborators: what they return for a given input is
    a parameter of the operations. */
module AiService {
  import opened Wrappers
  import opened Strings
  import opened Seqs
  import opened PdfService
  import NlpUtils

  type Json = NlpUtils.Json
  type Label = NlpUtils.Label

  /** The `{"sentiment", "explanation"}` dict of `analyze_sentiment`. */
  datatype SentimentResult = SentimentResult(sentiment: Label, explanation: string)

  /** The messages of the `ValueError`s raised without a collaborator. */
  const NoSummarizer := "Summarizer not initialized. Please check your Hugging Face API key."
  const NoModel := "Model not initialized. Please check your Hugging Face API key."
  const NoClaudeClient := "Claude API client not initialized. Please check your Claude API key."

  /** The dict `analyze_report` returns. Metrics and risks are whatever JSON
      items the Claude replies held. */
  datatype Report = Report(metrics: seq<Json>, executive: string, outlook: string,
                           risks: seq<Json>, sentiment: SentimentResult)

  /** The dict returned when any step of `analyze_report` raises. */
  function DefaultReport(): (r: Report)
    ensures r.metrics == [] && r.risks == [] && r.executive == "" && r.outlook == ""
    ensures r.sentiment == SentimentResult(NlpUtils.Neutral, "")
  {
    Report([], "", "", [], SentimentResult(NlpUtils.Neutral, ""))
  }

  /** The label rule of `analyze_sentiment`: "positive" anywhere in the
      lower-cased generated text wins, then "negative", else neutral. */
  function SentimentLabel(result: string): (l: Label)
    ensures l == NlpUtils.Positive <==> Contains(Lower(result), "positive")
    ensures l == NlpUtils.Negative <==> !Contains(Lower(result), "positive") && Contains(Lower(result), "negative")
    ensures l == NlpUtils.Neutral <==> !Contains(Lower(result), "positive") && !Contains(Lower(result), "negative")
  {
    if Contains(Lower(result), "positive") then NlpUtils.Positive
    else if Contains(Lower(result), "negative") then NlpUtils.Negative
    else NlpUtils.Neutral
  }

  const SentimentInstruction := "Analyze the sentiment of this text and classify it as positive, negative, or neutral: "

  /** The prompt `analyze_sentiment` hands to the model. */
  function SentimentPrompt(text: string): (p: string)
    ensures EndsWith(p, text)
  {
    SentimentInstruction + text
  }

  /** The concatenation, in order, of what `f` gives for each of `xs`. */
  function Gathered(f: string -> seq<Json>, xs: seq<string>): (r: seq<Json>)
    ensures |xs| == 0 ==> r == []
  {
    if |xs| == 0 then [] else Gathered(f, xs[..|xs| - 1]) + f(xs[|xs| - 1])
  }

  lemma {:induction false} GatheredAppend(f: string -> seq<Json>, a: seq<string>, b: seq<string>)
    ensures Gathered(f, a + b) == Gathered(f, a) + Gathered(f, b)
    decreases |b|
  {
    if |b| == 0 {
      assert a + b == a;
    } else {
      assert (a + b)[..|a + b| - 1] == a + b[..|b| - 1];
      GatheredAppend(f, a, b[..|b| - 1]);
    }
  }

  /** Each chunk's items appear in the gathered list, at the position the
      items of the chunks before it end. */
  lemma GatheredHolds(f: string -> seq<Json>, xs: seq<string>, i: nat)
    requires i < |xs|
    ensures var g := Gathered(f, xs[..i]);
      |g| + |f(xs[i])| <= |Gathered(f, xs)| &&
      Gathered(f, xs)[|g|..|g| + |f(xs[i])|] == f(xs[i])
  {
    assert xs == xs[..i] + [xs[i]] + xs[i + 1..];
    GatheredAppend(f, xs[..i] + [xs[i]], xs[i + 1..]);
    GatheredAppend(f, xs[..i], [xs[i]]);
    assert Gathered(f, [xs[i]]) == Gathered(f, []) + f(xs[i]);
  }

  /** Stopping as soon as ten items are gathered keeps the first ten of all. */
  lemma CapAtPrefix(f: string -> seq<Json>, xs: seq<string>, i: nat)
    requires i <= |xs| && |Gathered(f, xs[..i])| >= 10
    ensures Gathered(f, xs[..i])[..10] == Take(Gathered(f, xs), 10)
  {
    assert xs == xs[..i] + xs[i..];
    GatheredAppend(f, xs[..i], xs[i..]);
  }

  /** The Claude calls and the local model, as their results for each input;
      a failed call or a reply without the expected JSON is already folded
      into the result as the source's own `except` clauses fold it:
      `claudeMetrics` and `claudeRisks` give `[]`, `claudeOutlook` and
      `summarizer` give `None` and `generate` gives `None`. */
  datatype Collaborators = Collaborators(
    claudeMetrics: string -> seq<Json>,
    claudeRisks: string -> seq<Json>,
    claudeOutlook: string -> Option<string>,
    summarizer: (string, int, int) -> Option<string>,
    generate: string -> Option<string>)

  /** The metric loop of `analyze_report`: the items of the first three
      chunks, extended in chunk order. */
  method GatherMetrics(claudeMetrics: string -> seq<Json>, chunks: seq<string>) returns (metrics: seq<Json>)
    ensures metrics == Gathered(claudeMetrics, Take(chunks, 3))
  {
    var firstChunks := Take(chunks, 3);
    metrics := [];
    var i := 0;
    while i < |firstChunks|
      invariant 0 <= i <= |firstChunks|
      invariant metrics == Gathered(claudeMetrics, firstChunks[..i])
    {
      assert firstChunks[..i + 1][..i] == firstChunks[..i];
      metrics := metrics + claudeMetrics(firstChunks[i]);
      i := i + 1;
    }
    assert firstChunks[..i] == firstChunks;
  }

  /** The risk loop of `analyze_report`: the items of the chunks from the
      fourth on, the loop leaving with the first ten once ten are gathered. */
  method GatherRisks(claudeRisks: string -> seq<Json>, chunks: seq<string>) returns (risks: seq<Json>)
    ensures risks == Take(Gathered(claudeRisks, Drop(chunks, 3)), 10)
  {
    var laterChunks := Drop(chunks, 3);
    risks := [];
    var j := 0;
    while j < |laterChunks|
      invariant 0 <= j <= |laterChunks|
      invariant risks == Gathered(claudeRisks, laterChunks[..j]) && |risks| < 10
    {
      assert laterChunks[..j + 1][..j] == laterChunks[..j];
      risks := risks + claudeRisks(laterChunks[j]);
      j := j + 1;
      if |risks| >= 10 {
        CapAtPrefix(claudeRisks, laterChunks, j);
        risks := risks[..10];
        return;
      }
    }
    assert laterChunks[..j] == laterChunks;
  }

  class AIService {
    const chunkSize: int
    const overlapSize: int
    /** The tokenizer, model, summarizer and question-answering pipeline are
        all set or all `None`. */
    const modelReady: bool
    const claudeReady: bool

    /** `AIService.__init__`, with the environment and the outcome of loading
        the model and building the client as parameters. */
    constructor(huggingfaceApiKey: Option<string>, modelLoads: bool,
                claudeApiKey: Option<string>, clientBuilds: bool,
                chunkSize: int, overlapSize: int)
      ensures this.chunkSize == chunkSize && this.overlapSize == overlapSize
      ensures modelReady <==> huggingfaceApiKey.Some? && huggingfaceApiKey.value != "" && modelLoads
      ensures claudeReady <==> claudeApiKey.Some? && claudeApiKey.value != "" && clientBuilds
    {
      this.chunkSize := chunkSize;
      this.overlapSize := overlapSize;
      modelReady := huggingfaceApiKey.Some? && huggingfaceApiKey.value != "" && modelLoads;
      claudeReady := claudeApiKey.Some? && claudeApiKey.value != "" && clientBuilds;
    }

    /** `_chunk_text`: the same loop as `PDFService.chunk_text`, run with the
        service's chunk and overlap sizes. */
    method ChunkText(text: string) returns (chunks: seq<string>)
      requires ChunkParams(chunkSize, overlapSize)
      ensures chunks == Chunks(text, chunkSize, overlapSize)
    {
      chunks := PdfService.ChunkText(text, chunkSize, overlapSize);
    }

    /** The text `summarize_text` hands to the summarizer: `text[:chunk_size]`
        when the text is longer than the chunk size. A negative size counts
        from the end, as Python's slice does. */
    function SummarizerInput(text: string): (t: string)
      reads this
      ensures StartsWith(text, t)
      ensures chunkSize >= 0 ==> |t| == Min(|text|, chunkSize)
      ensures chunkSize < 0 ==> |t| == Max(0, |text| + chunkSize)
    {
      if |text| <= chunkSize then text
      else if chunkSize >= 0 then text[..chunkSize]
      else text[..Max(0, |text| + chunkSize)]
    }

    /** `summarize_text`: a `ValueError` without a summarizer, the empty string
        when the summarizer fails. */
    function SummarizeText(summarizer: (string, int, int) -> Option<string>,
                           text: string, maxLength: int, minLength: int): (r: Result<string, string>)
      reads this
      ensures r.Err? <==> !modelReady
      ensures r.Ok? ==> r.value == match summarizer(SummarizerInput(text), maxLength, minLength)
        case Some(s) => s
        case None => ""
    {
      if !modelReady then Err(NoSummarizer)
      else
        match summarizer(SummarizerInput(text), maxLength, minLength)
        case Some(s) => Ok(s)
        case None => Ok("")
    }

    /** `analyze_sentiment`: a `ValueError` without a model; on a failed
        generation, neutral with a fixed explanation. */
    function AnalyzeSentiment(generate: string -> Option<string>, text: string): (r: Result<SentimentResult, string>)
      reads this
      ensures r.Err? <==> !modelReady
      ensures r.Ok? && generate(SentimentPrompt(text)).Some? ==>
        r.value == SentimentResult(SentimentLabel(generate(SentimentPrompt(text)).value),
                                   generate(SentimentPrompt(text)).value)
      ensures r.Ok? && generate(SentimentPrompt(text)).None? ==>
        r.value == SentimentResult(NlpUtils.Neutral, "Error analyzing sentiment")
    {
      if !modelReady then Err(NoModel)
      else
        match generate(SentimentPrompt(text))
        case Some(result) => Ok(SentimentResult(SentimentLabel(result), result))
        case None => Ok(SentimentResult(NlpUtils.Neutral, "Error analyzing sentiment"))
    }

    /** `generate_business_outlook`: the stripped reply, or "" on failure. */
    function BusinessOutlook(claudeOutlook: string -> Option<string>, text: string): (r: Result<string, string>)
      reads this
      ensures r.Err? <==> !claudeReady
      ensures r.Ok? ==> r.value == if claudeOutlook(text).Some? then Strip(claudeOutlook(text).value) else ""
    {
      if !claudeReady then Err(NoClaudeClient)
      else if claudeOutlook(text).Some? then Ok(Strip(claudeOutlook(text).value))
      else Ok("")
    }

    /** Whether `analyze_report` falls back to the default dict: an index
        error for fewer than two chunks, or a `ValueError` from a step whose
        collaborator is missing. */
    predicate ReportFails(chunkCount: nat)
      reads this
    {
      chunkCount < 2 || !claudeReady || !modelReady
    }

    /** `analyze_report`. Metrics come from the first three chunks, risks
        from the fourth chunk on, cut to ten as soon as ten are gathered;
        chunk 0 is summarised, the last chunk gives the outlook and chunk 1
        the sentiment. */
    method AnalyzeReport(text: string, c: Collaborators) returns (r: Report)
      requires ChunkParams(chunkSize, overlapSize)
      ensures var chunks := Chunks(text, chunkSize, overlapSize);
        ReportFails(|chunks|) ==> r == DefaultReport()
      ensures var chunks := Chunks(text, chunkSize, overlapSize);
        !ReportFails(|chunks|) ==>
          r.metrics == Gathered(c.claudeMetrics, Take(chunks, 3)) &&
          r.risks == Take(Gathered(c.claudeRisks, Drop(chunks, 3)), 10) &&
          Ok(r.executive) == SummarizeText(c.summarizer, chunks[0], 200, 100) &&
          Ok(r.outlook) == BusinessOutlook(c.claudeOutlook, chunks[|chunks| - 1]) &&
          Ok(r.sentiment) == AnalyzeSentiment(c.generate, chunks[1])
    {
      var chunks := ChunkText(text);
      if |chunks| == 0 || !claudeReady {
        // chunks[0] raises, or the first metric extraction raises
        return DefaultReport();
      }
      var metrics := GatherMetrics(c.claudeMetrics, chunks);
      var executive := SummarizeText(c.summarizer, chunks[0], 200, 100);
      if executive.Err? {
        return DefaultReport();
      }
      var risks := GatherRisks(c.claudeRisks, chunks);
      var outlook := BusinessOutlook(c.claudeOutlook, chunks[|chunks| - 1]);
      if |chunks| < 2 {
        return DefaultReport();
      }
      var sentiment := AnalyzeSentiment(c.generate, chunks[1]);
      if outlook.Err? || sentiment.Err? {
        return DefaultReport();
      }
      r := Report(metrics, executive.value, outlook.value, risks, sentiment.value);
    }
  }

  /** With two or more chunks and both collaborators present, the metrics
      hold each of the first three chunks' items at consecutive positions. */
  lemma MetricsRouting(f: string -> seq<Json>, chunks: seq<string>, i: nat)
    requires i < Min(3, |chunks|)
    ensures var g := Gathered(f, Take(chunks, 3));
      var before := Gathered(f, chunks[..i]);
      |before| + |f(chunks[i])| <= |g| && g[|before|..|before| + |f(chunks[i])|] == f(chunks[i])
  {
    var first := Take(chunks, 3);
    assert first[..i] == chunks[..i] && first[i] == chunks[i];
    GatheredHolds(f, first, i);
  }

  /** `"This is a test. " * n`. */
  function Repeat(s: string, n: nat): (r: string)
    ensures |r| == |s| * n
  {
    if n == 0 then [] else s + Repeat(s, n - 1)
  }

  /** With chunk size 1000 and overlap 100, any text longer than 1000
      characters yields more than one chunk, and the last 50 characters of the
      first chunk occur in the second. */
  lemma ChunkOverlap(text: string)
    requires |text| > 1000
    ensures var chunks := Chunks(text, 1000, 100);
      |chunks| > 1 && |chunks[0]| >= 50 && StartsWith(text, chunks[0]) &&
      Contains(chunks[1], chunks[0][|chunks[0]| - 50..])
  {
    var sp := Spans(text, 1000, 100, 0);
    var chunks := Chunks(text, 1000, 100);
    ChunksFromSpans(text, 1000, 100, 0);
    SpansStep(text, 1000, 100, 0, 0);
    ExactOverlap(text, 1000, 100, 0);
    var c0, c1 := chunks[0], chunks[1];
    assert c0 == text[0..sp[0].1] && c1 == text[sp[1].0..sp[1].1];
    assert c0[|c0| - 100..] == c1[..100];
    assert c0[|c0| - 50..] == c1[50..100] by {
      assert c0[|c0| - 50..] == c0[|c0| - 100..][50..];
      assert c1[50..100] == c1[..100][50..];
    }
    assert OccursAt(c1, c0[|c0| - 50..], 50);
  }

  lemma StartsWithRepeat(s: string, n: nat)
    requires n >= 1
    ensures StartsWith(Repeat(s, n), s)
  {
    assert Repeat(s, n) == s + Repeat(s, n - 1);
  }

  /** The chunker case of the service's tests: `"This is a test. " * 100`
      gives several chunks, the first starting with "This is a test.", and
      the first chunk's last 50 characters occur in the second. */
  lemma ChunkTextTestCase()
    ensures var text := Repeat("This is a test. ", 100);
      var chunks := Chunks(text, 1000, 100);
      |chunks| > 1 && StartsWith(chunks[0], "This is a test.") &&
      Contains(chunks[1], chunks[0][|chunks[0]| - 50..])
  {
    var s := "This is a test. ";
    var text := Repeat(s, 100);
    ChunkOverlap(text);
    StartsWithRepeat(s, 100);
    var q := "This is a test.";
    assert s[..15] == q;
    assert text[..15] == q by {
      assert text[..15] == text[..|s|][..15];
    }
    FirstChunkStarts(text, q);
  }

  /** With chunk size 1000, a text longer than 1000 characters has a first
      chunk of more than 500 characters, so it keeps any prefix of at most 500. */
  lemma FirstChunkStarts(text: string, q: string)
    requires |text| > 1000 && |q| <= 500 && StartsWith(text, q)
    ensures |Chunks(text, 1000, 100)| > 0 && StartsWith(Chunks(text, 1000, 100)[0], q)
  {
    var sp := Spans(text, 1000, 100, 0);
    ChunksFromSpans(text, 1000, 100, 0);
    SpansStep(text, 1000, 100, 0, 0);
    var c0 := Chunks(text, 1000, 100)[0];
    assert c0 == text[0..sp[0].1] && |c0| > 500;
    assert c0[..|q|] == text[..|q|];
  }
}
