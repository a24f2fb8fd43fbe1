/** The hosted-model analysis service (backend/services/huggingface_service.py):
    API key validation, the gated API call, sentiment averaging over chunks,
    B-/I- entity merging, risk sampling and scoring, and abstractive or
    extractive summaries. The network is a parameter: `nets(k, request)` is the
    outcome sequence the k-th request of a loop meets, which
    `NlpUtils.CallHuggingFaceApi` consumes, so every request is a fresh call
    even when two chunks have the same text. */
module HuggingFaceService {
  import opened Wrappers
  import opened Strings
  import opened Seqs
  import opened NlpUtils

  const FinbertModelUrl: string := "https://api-inference.huggingface.co/models/ProsusAI/finbert"
  const BartModelUrl: string := "https://api-inference.huggingface.co/models/facebook/bart-large-cnn"
  const T5ModelUrl: string := "https://api-inference.huggingface.co/models/google/flan-t5-xl"
  const NerModelUrl: string := "https://api-inference.huggingface.co/models/dslim/bert-base-NER"

  /** The defaults of the CHUNK_SIZE and OVERLAP_SIZE settings. */
  const DefaultChunkSize: int := 4000
  const DefaultOverlapSize: int := 200

  // ---------------------------------------------------------------------
  // _validate_api_key and _call_api
  // ---------------------------------------------------------------------

  /** The local checks on the key: present, non-empty and at least 8 characters. */
  predicate KeyPrecheck(key: Option<string>) {
    key.Some? && key.value != "" && |key.value| >= 8
  }

  datatype KeyCheck = KeyCheck(valid: bool, probed: bool)

  /** `_validate_api_key`: `probeStatus` is the status of the probe request, or
      None when it raised. `probed` says whether the probe was sent at all. */
  function ValidateApiKey(key: Option<string>, probeStatus: Option<int>): (r: KeyCheck)
    ensures !KeyPrecheck(key) ==> r == KeyCheck(false, false)
    ensures KeyPrecheck(key) ==> r.probed && (r.valid <==> probeStatus == Some(200))
  {
    if key.None? || key.value == "" then KeyCheck(false, false)
    else if |key.value| < 8 then KeyCheck(false, false)
    else if probeStatus == Some(200) then KeyCheck(true, true)
    else KeyCheck(false, true)
  }

  /** What `_call_api` raises or returns. */
  datatype CallError = KeyNotConfigured | Failed(error: ApiError)

  function CallResult(keyValid: bool, net: nat -> Outcome): (r: Result<Json, CallError>)
    ensures !keyValid ==> r == Err(KeyNotConfigured)
    ensures keyValid && CallSpec(net, 3).result.Ok? ==> r == Ok(CallSpec(net, 3).result.value)
    ensures keyValid && CallSpec(net, 3).result.Err? ==> r == Err(Failed(CallSpec(net, 3).result.error))
  {
    if !keyValid then Err(KeyNotConfigured)
    else match CallSpec(net, 3).result
      case Ok(j) => Ok(j)
      case Err(e) => Err(Failed(e))
  }

  // ---------------------------------------------------------------------
  // JSON access as the service's code performs it
  // ---------------------------------------------------------------------

  /** `d.get(key)` on a decoded object; a repeated key keeps its last value. */
  function Get(fields: seq<(string, Json)>, key: string): (r: Option<Json>)
    ensures r.Some? ==> exists i :: 0 <= i < |fields| && fields[i] == (key, r.value)
    ensures r.None? ==> forall i :: 0 <= i < |fields| ==> fields[i].0 != key
  {
    if |fields| == 0 then None
    else if fields[|fields| - 1].0 == key then Some(fields[|fields| - 1].1)
    else Get(fields[..|fields| - 1], key)
  }

  /** `x[0]` on a decoded value, when it does not raise. */
  function First(j: Json): Option<Json> {
    match j
    case JArr(items) => if |items| > 0 then Some(items[0]) else None
    case JStr(s) => if |s| > 0 then Some(JStr([s[0]])) else None
    case _ => None
  }

  /** The elements Python's iteration over a decoded value yields: list items,
      object keys or string characters; None when the value is not iterable. */
  function Elements(j: Json): (r: Option<seq<Json>>)
    ensures j.JArr? ==> r == Some(j.items)
  {
    match j
    case JArr(items) => Some(items)
    case JObj(fields) => Some(seq(|fields|, i requires 0 <= i < |fields| => JStr(fields[i].0)))
    case JStr(s) => Some(seq(|s|, i requires 0 <= i < |s| => JStr([s[i]])))
    case _ => None
  }

  /** A number as `+=` accepts it (a JSON boolean counts as 0 or 1). */
  function Number(j: Json): Option<real> {
    match j
    case JNum(n) => Some(n)
    case JBool(b) => Some(if b then 1.0 else 0.0)
    case _ => None
  }

  // ---------------------------------------------------------------------
  // _get_mock_response
  // ---------------------------------------------------------------------

  function LabelScoreJson(name: string, score: real): Json {
    JObj([("label", JStr(name)), ("score", JNum(score))])
  }

  function NerTokenJson(entity: string, score: real, word: string): Json {
    JObj([("entity", JStr(entity)), ("score", JNum(score)), ("word", JStr(word))])
  }

  /** The canned FinBERT label scores. */
  function MockLabelScores(): seq<Json> {
    [LabelScoreJson("positive", 0.75), LabelScoreJson("neutral", 0.20), LabelScoreJson("negative", 0.05)]
  }

  /** `_get_mock_response`: a canned reply chosen by which model the URL names. */
  function MockResponse(modelUrl: string, text: string): (r: Json)
    ensures Contains(modelUrl, "finbert") ==> r.JArr? && |r.items| == 1
    ensures !Contains(modelUrl, "finbert") && (Contains(modelUrl, "bart") || Contains(modelUrl, "t5")) ==>
      r == JArr([JObj([("summary_text", JStr("Mock summary of the text: " + Take(text, 100) + "..."))])])
  {
    if Contains(modelUrl, "finbert") then JArr([JArr(MockLabelScores())])
    else if Contains(modelUrl, "bart") || Contains(modelUrl, "t5") then
      JArr([JObj([("summary_text", JStr("Mock summary of the text: " + Take(text, 100) + "..."))])])
    else if Contains(modelUrl, "NER") then
      JArr([NerTokenJson("B-ORG", 0.95, "Company"), NerTokenJson("I-ORG", 0.90, "Inc"),
            NerTokenJson("B-LOC", 0.85, "New"), NerTokenJson("I-LOC", 0.80, "York")])
    else JObj([("result", JStr("Mock response for testing purposes"))])
  }

  // ---------------------------------------------------------------------
  // analyze_sentiment
  // ---------------------------------------------------------------------

  /** Per-label sums: positive, neutral (everything not positive or negative),
      negative. */
  datatype Totals = Totals(positive: real, neutral: real, negative: real)

  /** Add one `{"label", "score"}` entry to the totals; None when the entry
      would make the code raise. */
  function AddLabelScore(t: Totals, item: Json): Option<Totals> {
    if !item.JObj? then None
    else
      var tag := Get(item.fields, "label");
      var score := Get(item.fields, "score");
      if tag.None? || !tag.value.JStr? || score.None? || Number(score.value).None? then None
      else
        var l := Lower(tag.value.s);
        var x := Number(score.value).value;
        if l == "positive" then Some(t.(positive := t.positive + x))
        else if l == "negative" then Some(t.(negative := t.negative + x))
        else Some(t.(neutral := t.neutral + x))
  }

  function AddItems(t: Totals, items: seq<Json>): Option<Totals> {
    if |items| == 0 then Some(t)
    else match AddItems(t, items[..|items| - 1])
      case None => None
      case Some(t') => AddLabelScore(t', items[|items| - 1])
  }

  /** Add the label scores of one chunk's reply, `result[0]`. */
  function AddResult(t: Totals, result: Json): Option<Totals> {
    match First(result)
    case None => None
    case Some(first) =>
      match Elements(first)
      case None => None
      case Some(items) => AddItems(t, items)
  }

  function SumResults(results: seq<Json>): Option<Totals> {
    if |results| == 0 then Some(Totals(0.0, 0.0, 0.0))
    else match SumResults(results[..|results| - 1])
      case None => None
      case Some(t) => AddResult(t, results[|results| - 1])
  }

  /** The verdict on the averaged label scores: a label wins only when it is
      strictly above both others; otherwise neutral. */
  function Decide(avg: Totals): (r: Sentiment)
    ensures r.analysisMethod == "finbert" && r.confidence.None?
    ensures r.rawScores == Some((avg.positive, avg.neutral, avg.negative))
  {
    var raw := Some((avg.positive, avg.neutral, avg.negative));
    if avg.positive > avg.negative && avg.positive > avg.neutral then
      Sentiment(Positive, "The text contains predominantly positive financial language.", Some(avg.positive), None, raw, "finbert")
    else if avg.negative > avg.positive && avg.negative > avg.neutral then
      Sentiment(Negative, "The text contains predominantly negative financial language.", Some(avg.negative), None, raw, "finbert")
    else
      Sentiment(Neutral, "The text contains balanced or neutral financial language.", Some(avg.neutral), None, raw, "finbert")
  }

  /** The sentiment from the successful chunk replies, or the keyword fallback
      when there is none or a reply cannot be read. */
  function SentimentOf(text: string, results: seq<Json>): Sentiment {
    if |results| == 0 then FallbackSentiment(text)
    else match SumResults(results)
      case None => FallbackSentiment(text)
      case Some(t) =>
        var n := |results| as real;
        Decide(Totals(t.positive / n, t.neutral / n, t.negative / n))
  }

  /** The replies of the calls that succeeded, in input order. */
  function Successes(keyValid: bool, nets: (nat, string) -> (nat -> Outcome), inputs: seq<string>): (r: seq<Json>)
    ensures |r| <= |inputs|
    ensures !keyValid ==> r == []
  {
    if |inputs| == 0 then []
    else
      var call := CallResult(keyValid, nets(|inputs| - 1, inputs[|inputs| - 1]));
      Successes(keyValid, nets, inputs[..|inputs| - 1]) + (if call.Ok? then [call.value] else [])
  }

  lemma SuccessesStep(keyValid: bool, nets: (nat, string) -> (nat -> Outcome), inputs: seq<string>, i: nat)
    requires i < |inputs|
    ensures var call := CallResult(keyValid, nets(i, inputs[i]));
      Successes(keyValid, nets, inputs[..i + 1]) ==
      Successes(keyValid, nets, inputs[..i]) + (if call.Ok? then [call.value] else [])
  {
    assert inputs[..i + 1][..i] == inputs[..i];
  }

  lemma {:induction false} SumResultsStuck(results: seq<Json>, n: nat)
    requires n <= |results| && SumResults(results[..n]).None?
    ensures SumResults(results).None?
    decreases |results| - n
  {
    if n < |results| {
      assert results[..n + 1][..n] == results[..n];
      SumResultsStuck(results, n + 1);
    } else {
      assert results[..n] == results;
    }
  }

  lemma {:induction false} AddItemsStuck(t: Totals, items: seq<Json>, n: nat)
    requires n <= |items| && AddItems(t, items[..n]).None?
    ensures AddItems(t, items).None?
    decreases |items| - n
  {
    if n < |items| {
      assert items[..n + 1][..n] == items[..n];
      AddItemsStuck(t, items, n + 1);
    } else {
      assert items[..n] == items;
    }
  }

  /** A label strictly above both others wins, with its average as the score;
      any tie for the top gives neutral with the neutral average. */
  lemma DecideRule(avg: Totals)
    ensures var r := Decide(avg);
      (r.verdict == Positive <==> avg.positive > avg.negative && avg.positive > avg.neutral) &&
      (r.verdict == Negative <==> avg.negative > avg.positive && avg.negative > avg.neutral) &&
      (r.verdict == Positive ==> r.score == Some(avg.positive)) &&
      (r.verdict == Negative ==> r.score == Some(avg.negative)) &&
      (r.verdict == Neutral ==> r.score == Some(avg.neutral)) &&
      (avg.positive == avg.negative ==> r.verdict == Neutral)
  {
  }

  lemma LabelScoreFields(name: string, score: real)
    ensures Get(LabelScoreJson(name, score).fields, "label") == Some(JStr(name))
    ensures Get(LabelScoreJson(name, score).fields, "score") == Some(JNum(score))
  {
    var fields := LabelScoreJson(name, score).fields;
    assert fields[..1] == [("label", JStr(name))];
  }

  /** One `{"label", "score"}` entry adds its score to the total its label names. */
  lemma AddLabelScoreJson(t: Totals, name: string, score: real)
    ensures AddLabelScore(t, LabelScoreJson(name, score)) ==
      Some(if Lower(name) == "positive" then t.(positive := t.positive + score)
           else if Lower(name) == "negative" then t.(negative := t.negative + score)
           else t.(neutral := t.neutral + score))
  {
    LabelScoreFields(name, score);
  }

  lemma AddItemsSnoc(t: Totals, items: seq<Json>, item: Json)
    ensures AddItems(t, items + [item]) ==
      match AddItems(t, items)
      case None => None
      case Some(t') => AddLabelScore(t', item)
  {
    assert (items + [item])[..|items|] == items;
  }

  lemma LowerLabels()
    ensures Lower("positive") == "positive" && Lower("neutral") == "neutral" && Lower("negative") == "negative"
  {
  }

  lemma MockLabelScoresTotals()
    ensures AddItems(Totals(0.0, 0.0, 0.0), MockLabelScores()) == Some(Totals(0.75, 0.20, 0.05))
  {
    var p, u, n := LabelScoreJson("positive", 0.75), LabelScoreJson("neutral", 0.20), LabelScoreJson("negative", 0.05);
    var zero := Totals(0.0, 0.0, 0.0);
    LowerLabels();
    assert AddItems(zero, [p]) == Some(Totals(0.75, 0.0, 0.0)) by {
      AddItemsSnoc(zero, [], p);
      assert [] + [p] == [p];
      AddLabelScoreJson(zero, "positive", 0.75);
    }
    assert AddItems(zero, [p, u]) == Some(Totals(0.75, 0.20, 0.0)) by {
      AddItemsSnoc(zero, [p], u);
      assert [p] + [u] == [p, u];
      AddLabelScoreJson(Totals(0.75, 0.0, 0.0), "neutral", 0.20);
    }
    AddItemsSnoc(zero, [p, u], n);
    assert [p, u] + [n] == [p, u, n];
    AddLabelScoreJson(Totals(0.75, 0.20, 0.0), "negative", 0.05);
  }

  lemma MockFinbertReply(url: string, input: string)
    requires url == FinbertModelUrl
    ensures MockResponse(url, input) == JArr([JArr(MockLabelScores())])
  {
    assert OccursAt(url, "finbert", 53);
  }

  lemma SumOne(j: Json)
    ensures SumResults([j]) == AddResult(Totals(0.0, 0.0, 0.0), j)
  {
    assert [j][..0] == [];
  }

  lemma AddResultNested(t: Totals, items: seq<Json>)
    ensures AddResult(t, JArr([JArr(items)])) == AddItems(t, items)
  {
  }

  lemma MockFinbertTotals(input: string)
    ensures SumResults([MockResponse(FinbertModelUrl, input)]) == Some(Totals(0.75, 0.20, 0.05))
  {
    MockFinbertReply(FinbertModelUrl, input);
    SumOne(MockResponse(FinbertModelUrl, input));
    AddResultNested(Totals(0.0, 0.0, 0.0), MockLabelScores());
    MockLabelScoresTotals();
  }

  /** With one reply, the verdict is taken on that reply's totals. */
  lemma SentimentOfOne(text: string, j: Json, t: Totals)
    requires SumResults([j]) == Some(t)
    ensures SentimentOf(text, [j]) == Decide(t)
  {
    assert t == Totals(t.positive / 1.0, t.neutral / 1.0, t.negative / 1.0);
  }

  /** The canned FinBERT reply reads as positive with score 0.75. */
  lemma MockSentimentIsPositive(text: string, input: string)
    ensures var r := SentimentOf(text, [MockResponse(FinbertModelUrl, input)]);
      r.verdict == Positive && r.score == Some(0.75) && r.analysisMethod == "finbert"
  {
    MockFinbertTotals(input);
    SentimentOfOne(text, MockResponse(FinbertModelUrl, input), Totals(0.75, 0.20, 0.05));
  }

  // ---------------------------------------------------------------------
  // extract_entities
  // ---------------------------------------------------------------------

  /** One NER token: its tag (`entity`, default "") and its `word` (default ""). */
  datatype Token = Token(entity: string, word: string)

  /** The token a reply element stands for; None when reading it would raise.
      The tag is always read; the word only for a "B-" or "I-" tag, so the
      word of any other token may be of any kind. */
  function TokenOf(j: Json): (r: Option<Token>)
    ensures r.Some? && !StartsWith(r.value.entity, "B-") && !StartsWith(r.value.entity, "I-") ==> r.value.word == ""
  {
    if !j.JObj? then None
    else
      var e := Get(j.fields, "entity");
      var w := Get(j.fields, "word");
      if e.Some? && !e.value.JStr? then None
      else
        var tag := if e.Some? then e.value.s else "";
        if !StartsWith(tag, "B-") && !StartsWith(tag, "I-") then Some(Token(tag, ""))
        else if w.Some? && !w.value.JStr? then None
        else Some(Token(tag, if w.Some? then w.value.s else ""))
  }

  /** A token outside the B-/I- scheme is read whatever its word holds. */
  lemma OtherTokenRead(tag: string, word: Json)
    requires !StartsWith(tag, "B-") && !StartsWith(tag, "I-")
    ensures TokenOf(JObj([("entity", JStr(tag)), ("word", word)])) == Some(Token(tag, ""))
  {
    assert Get([("entity", JStr(tag)), ("word", word)], "entity") == Some(JStr(tag));
  }

  function TokensOf(js: seq<Json>): (r: Option<seq<Token>>)
    ensures r.Some? ==> |r.value| == |js|
  {
    if |js| == 0 then Some([])
    else match TokensOf(js[..|js| - 1])
      case None => None
      case Some(ts) => match TokenOf(js[|js| - 1])
        case None => None
        case Some(t) => Some(ts + [t])
  }

  /** The merge buffer and the three entity lists. */
  datatype Merge = Merge(current: string, currentType: Option<string>,
                         organizations: seq<string>, locations: seq<string>, people: seq<string>)

  /** Save the buffered entity under its type, if both are non-empty and the
      type is ORG, LOC or PER. */
  function Flush(m: Merge): (r: Merge)
    ensures r.current == m.current && r.currentType == m.currentType
  {
    if m.current == "" || m.currentType.None? || m.currentType.value == "" then m
    else if m.currentType.value == "ORG" then m.(organizations := m.organizations + [Strip(m.current)])
    else if m.currentType.value == "LOC" then m.(locations := m.locations + [Strip(m.current)])
    else if m.currentType.value == "PER" then m.(people := m.people + [Strip(m.current)])
    else m
  }

  /** One token of the B-/I- merge. */
  function MergeStep(m: Merge, t: Token): Merge {
    if StartsWith(t.entity, "B-") then
      Flush(m).(current := t.word, currentType := Some(t.entity[2..]))
    else if StartsWith(t.entity, "I-") then
      if m.currentType == Some(t.entity[2..]) then m.(current := m.current + " " + t.word) else m
    else m
  }

  function MergeAll(tokens: seq<Token>): Merge {
    if |tokens| == 0 then Merge("", None, [], [], [])
    else MergeStep(MergeAll(tokens[..|tokens| - 1]), tokens[|tokens| - 1])
  }

  /** The entity lists the merge produces, before de-duplication. */
  function MergedEntities(tokens: seq<Token>): Merge {
    Flush(MergeAll(tokens))
  }

  /** A `B-` token saves the buffered entity and starts a new one from its word. */
  lemma BeginFlushes(m: Merge, t: Token)
    requires StartsWith(t.entity, "B-")
    ensures var r := MergeStep(m, t);
      r.current == t.word && r.currentType == Some(t.entity[2..]) &&
      r.organizations == Flush(m).organizations && r.locations == Flush(m).locations && r.people == Flush(m).people
  {
  }

  /** An `I-` token of another type than the buffer's is ignored; one of the
      same type appends a space and its word, and neither saves anything. */
  lemma InsideExtends(m: Merge, t: Token)
    requires StartsWith(t.entity, "I-") && !StartsWith(t.entity, "B-")
    ensures m.currentType != Some(t.entity[2..]) ==> MergeStep(m, t) == m
    ensures m.currentType == Some(t.entity[2..]) ==> MergeStep(m, t) == m.(current := m.current + " " + t.word)
  {
  }

  lemma StripUnchanged(s: string)
    requires |s| > 0 && !IsSpace(s[0]) && !IsSpace(s[|s| - 1])
    ensures Strip(s) == s
  {
    assert LStrip(s) == s;
  }

  /** The tokens of the canned NER reply. */
  function MockTokens(): seq<Token> {
    [Token("B-ORG", "Company"), Token("I-ORG", "Inc"), Token("B-LOC", "New"), Token("I-LOC", "York")]
  }

  lemma MergeAllSnoc(ts: seq<Token>, t: Token)
    ensures MergeAll(ts + [t]) == MergeStep(MergeAll(ts), t)
  {
    assert (ts + [t])[..|ts|] == ts;
  }

  lemma BeginToken(m: Merge, tag: string, w: string)
    ensures MergeStep(m, Token("B-" + tag, w)) == Flush(m).(current := w, currentType := Some(tag))
  {
    var e := "B-" + tag;
    assert e[..2] == "B-" && e[2..] == tag;
  }

  lemma InsideToken(m: Merge, tag: string, w: string)
    requires m.currentType == Some(tag)
    ensures MergeStep(m, Token("I-" + tag, w)) == m.(current := m.current + " " + w)
  {
    var e := "I-" + tag;
    assert e[..2] == "I-" && e[2..] == tag && e[0] == 'I';
  }

  /** An organisation in two tokens followed by a location in two tokens
      merges into one entity of each kind, the words joined by a space. */
  lemma TwoEntitiesMerge(o1: string, o2: string, l1: string, l2: string)
    requires Strip(o1 + " " + o2) == o1 + " " + o2 && Strip(l1 + " " + l2) == l1 + " " + l2
    requires o1 != "" && l1 + " " + l2 != ""
    ensures MergedEntities([Token("B-" + "ORG", o1), Token("I-" + "ORG", o2), Token("B-" + "LOC", l1), Token("I-" + "LOC", l2)])
         == Merge(l1 + " " + l2, Some("LOC"), [o1 + " " + o2], [l1 + " " + l2], [])
  {
    var t0, t1, t2, t3 := Token("B-" + "ORG", o1), Token("I-" + "ORG", o2), Token("B-" + "LOC", l1), Token("I-" + "LOC", l2);
    var m1 := Merge(o1, Some("ORG"), [], [], []);
    var m2 := Merge(o1 + " " + o2, Some("ORG"), [], [], []);
    var m3 := Merge(l1, Some("LOC"), [o1 + " " + o2], [], []);
    assert MergeAll([t0]) == m1 by {
      MergeAllSnoc([], t0);
      assert [] + [t0] == [t0];
      BeginToken(MergeAll([]), "ORG", o1);
    }
    assert MergeAll([t0, t1]) == m2 by {
      MergeAllSnoc([t0], t1);
      assert [t0] + [t1] == [t0, t1];
      InsideToken(m1, "ORG", o2);
    }
    assert MergeAll([t0, t1, t2]) == m3 by {
      MergeAllSnoc([t0, t1], t2);
      assert [t0, t1] + [t2] == [t0, t1, t2];
      BeginToken(m2, "LOC", l1);
    }
    MergeAllSnoc([t0, t1, t2], t3);
    assert [t0, t1, t2] + [t3] == [t0, t1, t2, t3];
    InsideToken(m3, "LOC", l2);
  }

  lemma MockWords()
    ensures Strip("Company" + " " + "Inc") == "Company" + " " + "Inc"
    ensures Strip("New" + " " + "York") == "New" + " " + "York"
  {
    StripUnchanged("Company" + " " + "Inc");
    StripUnchanged("New" + " " + "York");
  }

  lemma MockTokensSpelled()
    ensures MockTokens() == [Token("B-" + "ORG", "Company"), Token("I-" + "ORG", "Inc"), Token("B-" + "LOC", "New"), Token("I-" + "LOC", "York")]
  {
    assert "B-" + "ORG" == "B-ORG";
    assert "I-" + "ORG" == "I-ORG";
    assert "B-" + "LOC" == "B-LOC";
    assert "I-" + "LOC" == "I-LOC";
  }

  /** The canned NER reply merges into one organisation and one location. */
  lemma MockEntities()
    ensures var r := MergedEntities(MockTokens());
      r.organizations == ["Company" + " " + "Inc"] && r.locations == ["New" + " " + "York"] && r.people == []
  {
    MockWords();
    MockTokensSpelled();
    TwoEntitiesMerge("Company", "Inc", "New", "York");
  }

  /** The elements gathered from the successful replies, each reply that is
      iterable contributing its elements; a reply that is not is skipped. */
  function GatherElements(results: seq<Json>): seq<Json> {
    if |results| == 0 then []
    else
      var e := Elements(results[|results| - 1]);
      GatherElements(results[..|results| - 1]) + (if e.Some? then e.value else [])
  }

  datatype Entities = Entities(organizations: seq<string>, locations: seq<string>,
                               people: Option<seq<string>>, analysisMethod: string)

  /** The fallback: `extract_basic_entities` on the whole text, whose regex
      matches are `orgMatches` and `locMatches`. */
  lemma GatherSnoc(results: seq<Json>, j: Json)
    ensures GatherElements(results + [j]) ==
      GatherElements(results) + (if Elements(j).Some? then Elements(j).value else [])
  {
    assert (results + [j])[..|results|] == results;
  }

  function BasicEntities(orgMatches: seq<seq<string>>, locMatches: seq<seq<string>>): Entities {
    Entities(DistinctCapped(Flatten(orgMatches), 10), DistinctCapped(Flatten(locMatches), 10), None, "fallback")
  }

  function EntitiesOf(elements: seq<Json>, orgMatches: seq<seq<string>>, locMatches: seq<seq<string>>): Entities {
    if |elements| == 0 then BasicEntities(orgMatches, locMatches)
    else match TokensOf(elements)
      case None => BasicEntities(orgMatches, locMatches)
      case Some(tokens) =>
        var m := MergedEntities(tokens);
        Entities(DistinctCapped(m.organizations, 15), DistinctCapped(m.locations, 15),
                 Some(DistinctCapped(m.people, 15)), "huggingface_ner")
  }

  /** Each kind of entity is listed at most once and at most 15 times, and the
      lists hold exactly the merged entities when there are few enough. */
  lemma EntitiesBounds(elements: seq<Json>, orgMatches: seq<seq<string>>, locMatches: seq<seq<string>>)
    ensures var r := EntitiesOf(elements, orgMatches, locMatches);
      Distinct(r.organizations) && Distinct(r.locations) &&
      (r.analysisMethod == "huggingface_ner" ==>
         |r.organizations| <= 15 && |r.locations| <= 15 && r.people.Some? &&
         |r.people.value| <= 15 && Distinct(r.people.value)) &&
      (r.analysisMethod == "fallback" ==> |r.organizations| <= 10 && |r.locations| <= 10 && r.people.None?) &&
      (elements == [] ==> r == BasicEntities(orgMatches, locMatches))
  {
  }

  /** The reply `[{"entity": "B-ORG", "word": w}, {"entity": "O", "word": 5}]`. */
  function OutsideTokenReply(w: string): seq<Json> {
    [JObj([("entity", JStr("B-" + "ORG")), ("word", JStr(w))]), JObj([("entity", JStr("O")), ("word", JNum(5.0))])]
  }

  lemma OutsideTokenReplyRead(w: string)
    ensures TokensOf(OutsideTokenReply(w)) == Some([Token("B-" + "ORG", w), Token("O", "")])
  {
    var js := OutsideTokenReply(w);
    var t0 := Token("B-" + "ORG", w);
    assert TokenOf(js[0]) == Some(t0) by {
      assert Get(js[0].fields, "word") == Some(JStr(w));
      assert Get(js[0].fields, "entity") == Some(JStr("B-" + "ORG"));
      assert StartsWith("B-" + "ORG", "B-");
    }
    OtherTokenRead("O", JNum(5.0));
    assert TokenOf(js[1]) == Some(Token("O", ""));
    assert TokensOf(js[..1]) == Some([t0]) by {
      assert js[..1][..0] == [];
      assert [] + [t0] == [t0];
    }
    assert js[..|js| - 1] == js[..1];
    assert [t0] + [Token("O", "")] == [t0, Token("O", "")];
  }

  lemma OutsideTokenMerged(w: string)
    requires |w| > 0 && !IsSpace(w[0]) && !IsSpace(w[|w| - 1])
    ensures MergedEntities([Token("B-" + "ORG", w), Token("O", "")]) == Merge(w, Some("ORG"), [w], [], [])
  {
    var t0, t1 := Token("B-" + "ORG", w), Token("O", "");
    var empty := Merge("", None, [], [], []);
    BeginToken(empty, "ORG", w);
    var m1 := Merge(w, Some("ORG"), [], [], []);
    assert MergeAll([t0]) == m1 by {
      MergeAllSnoc([], t0);
      assert [] + [t0] == [t0];
    }
    assert MergeAll([t0, t1]) == m1 by {
      MergeAllSnoc([t0], t1);
      assert [t0] + [t1] == [t0, t1];
    }
    StripUnchanged(w);
  }

  lemma DistinctCappedOne(w: string)
    ensures DistinctCapped([w], 15) == [w]
  {
    var d := DistinctCapped([w], 15);
    assert |Dedup([w])| == 1 by {
      assert w in Dedup([w]);
    }
    assert |d| == 1 && d[0] in [w];
  }

  /** The word of an "O" token is never read: the reply
      `[{"entity": "B-ORG", "word": w}, {"entity": "O", "word": 5}]` gives
      the one organisation `w` from the NER model. */
  lemma OutsideTokenNotRead(w: string, orgMatches: seq<seq<string>>, locMatches: seq<seq<string>>)
    requires |w| > 0 && !IsSpace(w[0]) && !IsSpace(w[|w| - 1])
    ensures EntitiesOf(OutsideTokenReply(w), orgMatches, locMatches) == Entities([w], [], Some([]), "huggingface_ner")
  {
    OutsideTokenReplyRead(w);
    OutsideTokenMerged(w);
    DistinctCappedOne(w);
  }

  // ---------------------------------------------------------------------
  // _calculate_risk_score
  // ---------------------------------------------------------------------

  function RiskKeywords(): seq<(string, real)> {
    [("high", 1.0), ("significant", 0.9), ("substantial", 0.9), ("major", 0.8),
     ("critical", 1.0), ("severe", 1.0), ("moderate", 0.6), ("potential", 0.5),
     ("possible", 0.4), ("minor", 0.3), ("limited", 0.2), ("unlikely", 0.1), ("rare", 0.1)]
  }

  /** The score of one factor after the first `n` keywords: 0.5 raised to the
      largest weight of a keyword the lower-cased factor contains. */
  function FactorScoreUpTo(lowered: string, n: nat): (r: real)
    requires n <= |RiskKeywords()|
    ensures 0.5 <= r <= 1.0
  {
    if n == 0 then 0.5
    else
      var prev := FactorScoreUpTo(lowered, n - 1);
      var kw := RiskKeywords()[n - 1];
      if Contains(lowered, kw.0) && kw.1 > prev then kw.1 else prev
  }

  function FactorScore(risk: string): (r: real)
    ensures 0.5 <= r <= 1.0
  {
    FactorScoreUpTo(Lower(risk), |RiskKeywords()|)
  }

  function TotalRiskScore(risks: seq<string>): (r: real)
    ensures 0.5 * |risks| as real <= r <= 1.0 * |risks| as real
  {
    if |risks| == 0 then 0.0 else TotalRiskScore(risks[..|risks| - 1]) + FactorScore(risks[|risks| - 1])
  }

  /** `_calculate_risk_score`. */
  function RiskScore(risks: seq<string>): real {
    if |risks| == 0 then 0.0
    else
      var s := TotalRiskScore(risks) / (|risks| as real * 2.0);
      if s < 1.0 then s else 1.0
  }

  /** The inner loop of `_calculate_risk_score`: the largest weight of a
      keyword the lower-cased factor contains, 0.5 when there is none above it. */
  method ScoreFactor(risk: string) returns (factorScore: real)
    ensures factorScore == FactorScore(risk)
  {
    var riskLower := Lower(risk);
    var keywords := RiskKeywords();
    factorScore := 0.5;
    var k := 0;
    while k < |keywords|
      invariant 0 <= k <= |keywords|
      invariant factorScore == FactorScoreUpTo(riskLower, k)
    {
      var (keyword, weight) := keywords[k];
      if Contains(riskLower, keyword) {
        factorScore := if factorScore >= weight then factorScore else weight;
      }
      k := k + 1;
    }
  }

  /** `_calculate_risk_score` as the loop the source runs. Every factor scores
      between 0.5 and 1, so a non-empty list lands in [0.25, 0.5]. */
  method CalculateRiskScore(risks: seq<string>) returns (score: real)
    ensures score == RiskScore(risks)
    ensures risks == [] ==> score == 0.0
    ensures risks != [] ==> 0.25 <= score <= 0.5
  {
    var total := 0.0;
    var i := 0;
    while i < |risks|
      invariant 0 <= i <= |risks|
      invariant total == TotalRiskScore(risks[..i])
    {
      assert risks[..i + 1][..i] == risks[..i];
      var factorScore := ScoreFactor(risks[i]);
      total := total + factorScore;
      i := i + 1;
    }
    assert risks[..i] == risks;
    if |risks| == 0 {
      return 0.0;
    }
    RiskScoreBounds(risks);
    var normalized := total / (|risks| as real * 2.0);
    score := if normalized <= 1.0 then normalized else 1.0;
  }

  // ---------------------------------------------------------------------
  // analyze_risk
  // ---------------------------------------------------------------------

  const RiskPrompt: string := "Identify the top risk factors mentioned in this financial report: "

  /** The text sent for risk analysis: first, middle and last chunk when there
      are more than three, all chunks otherwise. */
  function RiskSample(chunks: seq<string>): (r: string)
    ensures |chunks| > 3 ==> r == chunks[0] + "\n...\n" + chunks[|chunks| / 2] + "\n...\n" + chunks[|chunks| - 1]
    ensures |chunks| <= 3 ==> r == Join(chunks, "\n")
  {
    if |chunks| > 3 then chunks[0] + "\n...\n" + chunks[|chunks| / 2] + "\n...\n" + chunks[|chunks| - 1]
    else Join(chunks, "\n")
  }

  /** The model input: the prompt and at most 4000 characters of the sample. */
  function RiskInput(chunks: seq<string>): (r: string)
    ensures StartsWith(r, RiskPrompt) && |r| <= |RiskPrompt| + 4000
    ensures r[|RiskPrompt|..] == Take(RiskSample(chunks), 4000)
  {
    RiskPrompt + Take(RiskSample(chunks), 4000)
  }

  /** The non-empty stripped lines of the generated text, or the text itself
      when there is none. */
  function RiskLines(generated: string): (r: seq<string>)
    ensures |r| >= 1
  {
    var lines := Filter(MapStrip(Split(generated, '\n')), (l: string) => l != "");
    if |lines| == 0 then [generated] else lines
  }

  function MapStrip(xs: seq<string>): (r: seq<string>)
    ensures |r| == |xs| && forall i :: 0 <= i < |xs| ==> r[i] == Strip(xs[i])
  {
    seq(|xs|, i requires 0 <= i < |xs| => Strip(xs[i]))
  }

  datatype RiskAnalysis = RiskAnalysis(risks: seq<string>, riskScore: real, analysisMethod: string)

  /** The generated text in a reply, `result[0].get("generated_text", "")`,
      when reading it and splitting it would not raise. */
  function GeneratedText(result: Json): Option<string> {
    match First(result)
    case Some(JObj(fields)) =>
      var g := Get(fields, "generated_text");
      if g.None? then Some("") else if g.value.JStr? then Some(g.value.s) else None
    case _ => None
  }

  /** The regex fallback with its count-based score. */
  function RiskFallback(text: string, headerEnds: seq<Option<nat>>, candidates: seq<string>): RiskAnalysis
    requires forall i :: 0 <= i < |headerEnds| && headerEnds[i].Some? ==> headerEnds[i].value <= |text|
  {
    var risks := RiskFactors(text, headerEnds, candidates);
    RiskAnalysis(risks, |risks| as real / 10.0, "fallback_regex")
  }

  /** Either the T5 lines scored by `RiskScore`, or the regex fallback scored
      one tenth per risk; the score is within [0.25, 0.5] for the model and
      within [0, 2] for the fallback. */
  lemma RiskAnalysisScore(text: string, reply: Result<Json, CallError>, headerEnds: seq<Option<nat>>, candidates: seq<string>)
    requires forall i :: 0 <= i < |headerEnds| && headerEnds[i].Some? ==> headerEnds[i].value <= |text|
    ensures var r := RiskOf(text, reply, headerEnds, candidates);
      (r.analysisMethod == "t5" ==> r.riskScore == RiskScore(r.risks) && |r.risks| >= 1 && 0.25 <= r.riskScore <= 0.5) &&
      (r.analysisMethod != "t5" ==>
         r.analysisMethod == "fallback_regex" && r.riskScore == |r.risks| as real / 10.0 && 0.0 <= r.riskScore <= 2.0)
  {
    var r := RiskOf(text, reply, headerEnds, candidates);
    if r.analysisMethod == "t5" {
      RiskScoreBounds(r.risks);
    } else {
      RiskFactorsBounded(text, headerEnds, candidates);
    }
  }

  lemma RiskScoreBounds(risks: seq<string>)
    requires |risks| >= 1
    ensures 0.25 <= RiskScore(risks) <= 0.5
  {
    HalfRatio(TotalRiskScore(risks), |risks| as real);
  }

  /** A total between half and all of `n` is, over `2 n`, between a quarter and a half. */
  lemma HalfRatio(t: real, n: real)
    requires n >= 1.0 && 0.5 * n <= t <= n
    ensures 0.25 <= t / (n * 2.0) <= 0.5
  {
    var d := n * 2.0;
    var s := t / d;
    assert s * d == t;
    if s < 0.25 {
      assert s * d < 0.25 * d;
    }
    if s > 0.5 {
      assert s * d > 0.5 * d;
    }
  }

  function RiskOf(text: string, reply: Result<Json, CallError>, headerEnds: seq<Option<nat>>, candidates: seq<string>): RiskAnalysis
    requires forall i :: 0 <= i < |headerEnds| && headerEnds[i].Some? ==> headerEnds[i].value <= |text|
  {
    if reply.Err? then RiskFallback(text, headerEnds, candidates)
    else match GeneratedText(reply.value)
      case None => RiskFallback(text, headerEnds, candidates)
      case Some(g) =>
        var risks := RiskLines(g);
        RiskAnalysis(risks, RiskScore(risks), "t5")
  }

  // ---------------------------------------------------------------------
  // generate_summary and _fallback_summary_generation
  // ---------------------------------------------------------------------

  /** A metrics value as the summary code sees it: the kinds it formats
      (`bool` is an `int` in Python), with a float carried as the text
      `str()` gives for it, and anything else. */
  datatype MetricValue = IntValue(i: int) | BoolValue(b: bool) | FloatValue(repr: string) | StrValue(s: string) | OtherValue

  function FormatValue(v: MetricValue): string
    requires !v.OtherValue?
  {
    match v
    case IntValue(i) => IntToString(i)
    case BoolValue(b) => if b then "True" else "False"
    case FloatValue(repr) => repr
    case StrValue(s) => s
  }

  /** `key.replace('_', ' ').title()`. */
  function MetricLabel(key: string): string {
    Title(ReplaceChar(key, '_', ' '))
  }

  /** The "- Label: value" lines of the formattable entries, in order. */
  function MetricLines(metrics: seq<(string, MetricValue)>): string {
    if |metrics| == 0 then ""
    else
      var (k, v) := metrics[|metrics| - 1];
      MetricLines(metrics[..|metrics| - 1]) +
      (if v.OtherValue? then "" else "- " + MetricLabel(k) + ": " + FormatValue(v) + "\n")
  }

  const MetricsHeader: string := "Key financial metrics from the report:\n"

  /** The metrics preamble; empty when no metrics are given (`None` or `{}`). */
  function MetricsPreamble(metrics: seq<(string, MetricValue)>): (r: string)
    ensures metrics == [] ==> r == ""
    ensures metrics != [] ==> StartsWith(r, MetricsHeader) && EndsWith(r, "\n\n")
  {
    if |metrics| == 0 then ""
    else
      var r := MetricsHeader + MetricLines(metrics) + "\n";
      assert r[..|MetricsHeader|] == MetricsHeader;
      assert MetricLines(metrics) == "" || EndsWith(MetricLines(metrics), "\n") by { MetricLinesEnd(metrics); }
      r
  }

  lemma {:induction false} MetricLinesEnd(metrics: seq<(string, MetricValue)>)
    ensures MetricLines(metrics) == "" || EndsWith(MetricLines(metrics), "\n")
  {
    if |metrics| > 0 {
      MetricLinesEnd(metrics[..|metrics| - 1]);
    }
  }

  const SummarizePrefix: string := "Summarize the following text: "

  /** The prompt for chunk `i`: the preamble goes before the first chunk only. */
  function SummaryPrompt(preamble: string, i: nat, chunk: string): (r: string)
    ensures i > 0 || preamble == "" ==> r == SummarizePrefix + chunk
    ensures i == 0 ==> r == preamble + SummarizePrefix + chunk
  {
    if i == 0 && preamble != "" then preamble + SummarizePrefix + chunk else SummarizePrefix + chunk
  }

  /** The summary in a reply, `result[0]["summary_text"]`, when reading it does
      not raise. */
  function SummaryText(result: Json): Option<Json> {
    match First(result)
    case Some(JObj(fields)) => Get(fields, "summary_text")
    case _ => None
  }

  datatype Summary = Summary(summary: string, analysisMethod: string)

  /** The summaries of the chunks whose call succeeded and whose reply has a
      summary, in chunk order. */
  function ChunkSummaries(keyValid: bool, nets: (nat, string) -> (nat -> Outcome), preamble: string, chunks: seq<string>): (r: seq<Json>)
    ensures |r| <= |chunks|
    ensures !keyValid ==> r == []
    decreases |chunks|
  {
    if |chunks| == 0 then []
    else
      var n := |chunks| - 1;
      var call := CallResult(keyValid, nets(n, SummaryPrompt(preamble, n, chunks[n])));
      var s := if call.Ok? then SummaryText(call.value) else None;
      ChunkSummaries(keyValid, nets, preamble, chunks[..n]) + (if s.Some? then [s.value] else [])
  }

  lemma ChunkSummariesStep(keyValid: bool, nets: (nat, string) -> (nat -> Outcome), preamble: string,
                           chunks: seq<string>, i: nat)
    requires i < |chunks|
    ensures var call := CallResult(keyValid, nets(i, SummaryPrompt(preamble, i, chunks[i])));
      var s := if call.Ok? then SummaryText(call.value) else None;
      ChunkSummaries(keyValid, nets, preamble, chunks[..i + 1]) ==
      ChunkSummaries(keyValid, nets, preamble, chunks[..i]) + (if s.Some? then [s.value] else [])
  {
    assert chunks[..i + 1][..i] == chunks[..i];
  }

  /** The texts of the summaries, when every one is a string. */
  function SummaryStrings(js: seq<Json>): (r: Option<seq<string>>)
    ensures r.Some? ==> |r.value| == |js|
  {
    if |js| == 0 then Some([])
    else match SummaryStrings(js[..|js| - 1])
      case None => None
      case Some(ss) => if js[|js| - 1].JStr? then Some(ss + [js[|js| - 1].s]) else None
  }

  // --- the extractive fallback

  /** `re.split(r'(?<=[.!?])\s+', text)`: cut at each run of white space that
      directly follows '.', '!' or '?'. `pieceStart` is where the current
      piece began and `i` the next index to look at. */
  function SplitSentencesFrom(text: string, pieceStart: nat, i: nat): (r: seq<string>)
    requires pieceStart <= i <= |text|
    ensures |r| >= 1
    decreases |text| - i
  {
    if i == |text| then [text[pieceStart..]]
    else if i > 0 && IsSpace(text[i]) && text[i - 1] in {'.', '!', '?'} then
      var j := SkipSpaces(text, i);
      [text[pieceStart..i]] + SplitSentencesFrom(text, j, j)
    else SplitSentencesFrom(text, pieceStart, i + 1)
  }

  function SplitSentences(text: string): (r: seq<string>)
    ensures |r| >= 1
  {
    SplitSentencesFrom(text, 0, 0)
  }

  function ImportantKeywords(): seq<string> {
    ["key", "important", "significant", "highlight", "report", "financial",
     "revenue", "profit", "loss", "growth", "decline", "increase", "decrease",
     "billion", "million", "percent", "quarterly", "annual", "fiscal", "year"]
  }

  /** How many of the first `n` keywords the lower-cased sentence contains. */
  function KeywordHitsUpTo(lowered: string, n: nat): (r: nat)
    requires n <= |ImportantKeywords()|
    ensures r <= n
  {
    if n == 0 then 0
    else KeywordHitsUpTo(lowered, n - 1) + (if Contains(lowered, ImportantKeywords()[n - 1]) then 1 else 0)
  }

  function SentenceScore(sentence: string): (r: nat)
    ensures r <= 20
  {
    KeywordHitsUpTo(Lower(sentence), |ImportantKeywords()|)
  }

  predicate KeptSentence(s: string) {
    10 <= |s| <= 200
  }

  /** The stripped sentences of acceptable length with their scores, in
      document order. */
  function ScoredSentences(sentences: seq<string>): (r: seq<(string, nat)>)
    ensures forall i :: 0 <= i < |r| ==> KeptSentence(r[i].0) && r[i].1 == SentenceScore(r[i].0) && r[i].1 <= 20
  {
    if |sentences| == 0 then []
    else
      var s := Strip(sentences[|sentences| - 1]);
      ScoredSentences(sentences[..|sentences| - 1]) + (if KeptSentence(s) then [(s, SentenceScore(s))] else [])
  }

  /** The entries with score exactly `s`, in order. */
  function WithScore(xs: seq<(string, nat)>, s: nat): (r: seq<(string, nat)>)
    ensures |r| <= |xs|
  {
    if |xs| == 0 then []
    else WithScore(xs[..|xs| - 1], s) + (if xs[|xs| - 1].1 == s then [xs[|xs| - 1]] else [])
  }

  /** Python's stable `list.sort(key=score, reverse=True)` for scores of at most
      `top`: the entries of score `top`, then `top - 1`, and so on, each group
      in its original order. */
  function SortByScoreDesc(xs: seq<(string, nat)>, top: nat): (r: seq<(string, nat)>)
    decreases top
  {
    WithScore(xs, top) + (if top == 0 then [] else SortByScoreDesc(xs, top - 1))
  }

  /** Every entry `WithScore` keeps has the score asked for. */
  lemma {:induction false} WithScoreScores(xs: seq<(string, nat)>, s: nat)
    ensures forall i :: 0 <= i < |WithScore(xs, s)| ==> WithScore(xs, s)[i].1 == s
  {
    if |xs| > 0 {
      WithScoreScores(xs[..|xs| - 1], s);
    }
  }

  /** The sort keeps only scores up to `top`. */
  lemma {:induction false} SortByScoreDescBounded(xs: seq<(string, nat)>, top: nat)
    ensures forall i :: 0 <= i < |SortByScoreDesc(xs, top)| ==> SortByScoreDesc(xs, top)[i].1 <= top
    decreases top
  {
    WithScoreScores(xs, top);
    var a := WithScore(xs, top);
    if top > 0 {
      SortByScoreDescBounded(xs, top - 1);
      var b := SortByScoreDesc(xs, top - 1);
      var r: seq<(string, nat)> := a + b;
      forall i | 0 <= i < |r| ensures r[i].1 <= top {
        if i >= |a| {
          assert r[i] == b[i - |a|];
        }
      }
    } else {
      assert SortByScoreDesc(xs, top) == a + [];
      assert a + [] == a;
    }
  }

  predicate SortedDesc(xs: seq<(string, nat)>) {
    forall i, j :: 0 <= i < j < |xs| ==> xs[i].1 >= xs[j].1
  }

  lemma {:induction false} SortByScoreDescSorted(xs: seq<(string, nat)>, top: nat)
    ensures SortedDesc(SortByScoreDesc(xs, top))
    decreases top
  {
    var a := WithScore(xs, top);
    WithScoreScores(xs, top);
    if top == 0 {
      assert SortByScoreDesc(xs, 0) == a + [];
      SortedConcat(a, [], 0);
    } else {
      SortByScoreDescSorted(xs, top - 1);
      SortByScoreDescBounded(xs, top - 1);
      SortedConcat(a, SortByScoreDesc(xs, top - 1), top);
    }
  }

  /** Entries of score `top` followed by a sorted run of scores up to `top` are sorted. */
  lemma SortedConcat(a: seq<(string, nat)>, b: seq<(string, nat)>, top: nat)
    requires forall i :: 0 <= i < |a| ==> a[i].1 == top
    requires forall i :: 0 <= i < |b| ==> b[i].1 <= top
    requires SortedDesc(b)
    ensures SortedDesc(a + b)
  {
    var r := a + b;
    forall i, j | 0 <= i < j < |r| ensures r[i].1 >= r[j].1 {
      if j < |a| {
        assert r[i] == a[i] && r[j] == a[j];
      } else if i < |a| {
        assert r[i] == a[i] && r[j] == b[j - |a|];
      } else {
        assert r[i] == b[i - |a|] && r[j] == b[j - |a|];
      }
    }
  }

  /** How many times `x` occurs in `xs`. */
  function Occurrences(xs: seq<(string, nat)>, x: (string, nat)): nat {
    if |xs| == 0 then 0 else Occurrences(xs[..|xs| - 1], x) + (if xs[|xs| - 1] == x then 1 else 0)
  }

  lemma {:induction false} OccurrencesAppend(a: seq<(string, nat)>, b: seq<(string, nat)>, x: (string, nat))
    ensures Occurrences(a + b, x) == Occurrences(a, x) + Occurrences(b, x)
    decreases |b|
  {
    if |b| == 0 {
      assert a + b == a;
    } else {
      assert (a + b)[..|a + b| - 1] == a + b[..|b| - 1];
      OccurrencesAppend(a, b[..|b| - 1], x);
    }
  }

  lemma {:induction false} OccurrencesMultiset(xs: seq<(string, nat)>, x: (string, nat))
    ensures Occurrences(xs, x) == multiset(xs)[x]
  {
    if |xs| > 0 {
      OccurrencesMultiset(xs[..|xs| - 1], x);
      assert xs == xs[..|xs| - 1] + [xs[|xs| - 1]];
    }
  }

  lemma {:induction false} WithScoreCount(xs: seq<(string, nat)>, s: nat, x: (string, nat))
    ensures Occurrences(WithScore(xs, s), x) == if x.1 == s then Occurrences(xs, x) else 0
  {
    if |xs| > 0 {
      var front := xs[..|xs| - 1];
      var last := xs[|xs| - 1];
      WithScoreCount(front, s, x);
      OccurrencesAppend(WithScore(front, s), if last.1 == s then [last] else [], x);
      assert [last][..0] == [];
    }
  }

  /** How many copies of `x` the sort down from `top` keeps. */
  function KeptOccurrences(xs: seq<(string, nat)>, top: nat, x: (string, nat)): nat {
    if x.1 <= top then Occurrences(xs, x) else 0
  }

  lemma {:induction false} SortByScoreDescCount(xs: seq<(string, nat)>, top: nat, x: (string, nat))
    ensures Occurrences(SortByScoreDesc(xs, top), x) == KeptOccurrences(xs, top, x)
    decreases top
  {
    if top == 0 {
      SortCountBase(xs, x);
    } else {
      SortByScoreDescCount(xs, top - 1, x);
      SortCountStep(xs, top, x);
    }
  }

  lemma SortCountBase(xs: seq<(string, nat)>, x: (string, nat))
    ensures Occurrences(SortByScoreDesc(xs, 0), x) == KeptOccurrences(xs, 0, x)
  {
    var a := WithScore(xs, 0);
    WithScoreCount(xs, 0, x);
    assert SortByScoreDesc(xs, 0) == a + [];
    OccurrencesAppend(a, [], x);
  }

  lemma SortCountStep(xs: seq<(string, nat)>, top: nat, x: (string, nat))
    requires top > 0
    requires Occurrences(SortByScoreDesc(xs, top - 1), x) == KeptOccurrences(xs, top - 1, x)
    ensures Occurrences(SortByScoreDesc(xs, top), x) == KeptOccurrences(xs, top, x)
  {
    WithScoreCount(xs, top, x);
    OccurrencesAppend(WithScore(xs, top), SortByScoreDesc(xs, top - 1), x);
  }

  lemma {:induction false} WithScoreAppend(a: seq<(string, nat)>, b: seq<(string, nat)>, s: nat)
    ensures WithScore(a + b, s) == WithScore(a, s) + WithScore(b, s)
    decreases |b|
  {
    if |b| == 0 {
      assert a + b == a;
    } else {
      assert (a + b)[..|a + b| - 1] == a + b[..|b| - 1];
      WithScoreAppend(a, b[..|b| - 1], s);
    }
  }

  lemma {:induction false} WithScoreOfWithScore(xs: seq<(string, nat)>, s: nat, t: nat)
    ensures WithScore(WithScore(xs, s), t) == if s == t then WithScore(xs, s) else []
  {
    if |xs| > 0 {
      var front := xs[..|xs| - 1];
      var last := xs[|xs| - 1];
      WithScoreOfWithScore(front, s, t);
      WithScoreAppend(WithScore(front, s), if last.1 == s then [last] else [], t);
    }
  }

  /** The entries of score `s` the sort down from `top` keeps. */
  function KeptWithScore(xs: seq<(string, nat)>, top: nat, s: nat): seq<(string, nat)> {
    if s <= top then WithScore(xs, s) else []
  }

  lemma {:induction false} SortByScoreDescStable(xs: seq<(string, nat)>, top: nat, s: nat)
    ensures WithScore(SortByScoreDesc(xs, top), s) == KeptWithScore(xs, top, s)
    decreases top
  {
    if top == 0 {
      SortStableBase(xs, s);
    } else {
      SortByScoreDescStable(xs, top - 1, s);
      SortStableStep(xs, top, s);
    }
  }

  lemma SortStableBase(xs: seq<(string, nat)>, s: nat)
    ensures WithScore(SortByScoreDesc(xs, 0), s) == if s == 0 then WithScore(xs, s) else []
  {
    var a := WithScore(xs, 0);
    assert SortByScoreDesc(xs, 0) == a + [];
    assert a + [] == a;
    WithScoreOfWithScore(xs, 0, s);
  }

  lemma SortStableStep(xs: seq<(string, nat)>, top: nat, s: nat)
    requires top > 0
    requires WithScore(SortByScoreDesc(xs, top - 1), s) == if s <= top - 1 then WithScore(xs, s) else []
    ensures WithScore(SortByScoreDesc(xs, top), s) == if s <= top then WithScore(xs, s) else []
  {
    var a := WithScore(xs, top);
    var b := SortByScoreDesc(xs, top - 1);
    WithScoreAppend(a, b, s);
    WithScoreOfWithScore(xs, top, s);
    if s == top {
      assert WithScore(a, s) + WithScore(b, s) == a + [];
    } else {
      assert WithScore(a, s) + WithScore(b, s) == [] + WithScore(b, s);
    }
  }

  lemma {:induction false} CountAboveTop(xs: seq<(string, nat)>, x: (string, nat))
    requires forall i :: 0 <= i < |xs| ==> xs[i].1 <= 20
    requires x.1 > 20
    ensures Occurrences(xs, x) == 0
  {
    if |xs| > 0 {
      CountAboveTop(xs[..|xs| - 1], x);
    }
  }

  lemma {:induction false} WithScoreAboveTop(xs: seq<(string, nat)>, s: nat)
    requires forall i :: 0 <= i < |xs| ==> xs[i].1 <= 20
    requires s > 20
    ensures WithScore(xs, s) == []
  {
    if |xs| > 0 {
      WithScoreAboveTop(xs[..|xs| - 1], s);
    }
  }

  /** The sort behind the extractive summary is a permutation of the scored
      sentences. */
  lemma SentenceSortPermutes(xs: seq<(string, nat)>)
    requires forall i :: 0 <= i < |xs| ==> xs[i].1 <= 20
    ensures multiset(SortByScoreDesc(xs, 20)) == multiset(xs)
  {
    SortCounts(xs);
  }

  lemma SortCounts(xs: seq<(string, nat)>)
    requires forall i :: 0 <= i < |xs| ==> xs[i].1 <= 20
    ensures forall x :: multiset(SortByScoreDesc(xs, 20))[x] == multiset(xs)[x]
  {
    forall x {
      SortCountAt(xs, x);
    }
  }

  lemma SortCountAt(xs: seq<(string, nat)>, x: (string, nat))
    requires forall i :: 0 <= i < |xs| ==> xs[i].1 <= 20
    ensures multiset(SortByScoreDesc(xs, 20))[x] == multiset(xs)[x]
  {
    SortByScoreDescCount(xs, 20, x);
    OccurrencesMultiset(xs, x);
    OccurrencesMultiset(SortByScoreDesc(xs, 20), x);
    if x.1 > 20 {
      CountAboveTop(xs, x);
    }
  }

  /** The sort orders by descending score, is a permutation of the scored
      sentences, and keeps sentences of equal score in document order. */
  lemma SentenceSortCorrect(xs: seq<(string, nat)>)
    requires forall i :: 0 <= i < |xs| ==> xs[i].1 <= 20
    ensures var r := SortByScoreDesc(xs, 20);
      SortedDesc(r) && multiset(r) == multiset(xs) &&
      forall s :: WithScore(r, s) == WithScore(xs, s)
  {
    var r := SortByScoreDesc(xs, 20);
    SortByScoreDescSorted(xs, 20);
    SentenceSortPermutes(xs);
    forall s ensures WithScore(r, s) == WithScore(xs, s) {
      SortByScoreDescStable(xs, 20, s);
      if s > 20 {
        WithScoreAboveTop(xs, s);
      }
    }
  }

  function Firsts(xs: seq<(string, nat)>): (r: seq<string>)
    ensures |r| == |xs| && forall i :: 0 <= i < |xs| ==> r[i] == xs[i].0
  {
    seq(|xs|, i requires 0 <= i < |xs| => xs[i].0)
  }

  /** The "Label: value, " pieces of the metrics line. */
  function MetricPairs(metrics: seq<(string, MetricValue)>): string {
    if |metrics| == 0 then ""
    else
      var (k, v) := metrics[|metrics| - 1];
      MetricPairs(metrics[..|metrics| - 1]) +
      (if v.OtherValue? then "" else MetricLabel(k) + ": " + FormatValue(v) + ", ")
  }

  const MetricsLead: string := "Key financial metrics: "

  /** The metrics line put before the sentences, trailing commas and spaces
      removed. */
  function MetricsLine(metrics: seq<(string, MetricValue)>): (r: string)
    ensures StartsWith(r, "Key financial metrics:")
  {
    var line := RStripChars(MetricsLead + MetricPairs(metrics), {',', ' '});
    assert StartsWith(line, "Key financial metrics:") by {
      var full := MetricsLead + MetricPairs(metrics);
      assert full[..22] == "Key financial metrics:";
      assert full[21] == ':';
      RStripCharsKeeps(full, {',', ' '}, 22);
    }
    line
  }

  lemma {:induction false} RStripCharsKeeps(s: string, chars: set<char>, n: nat)
    requires 0 < n <= |s| && s[n - 1] !in chars
    ensures |RStripChars(s, chars)| >= n && RStripChars(s, chars)[..n] == s[..n]
    decreases |s|
  {
    if |s| > n && s[|s| - 1] in chars {
      RStripCharsKeeps(s[..|s| - 1], chars, n);
    }
  }

  /** The sentences `_fallback_summary_generation` picks: the ten best by score,
      ties in document order. */
  function TopSentences(text: string): (r: seq<string>) {
    Firsts(Take(SortByScoreDesc(ScoredSentences(SplitSentences(text)), 20), 10))
  }

  /** At most ten sentences are picked, each of acceptable length. */
  lemma TopSentencesKept(text: string)
    ensures |TopSentences(text)| <= 10
    ensures forall i :: 0 <= i < |TopSentences(text)| ==> KeptSentence(TopSentences(text)[i])
  {
    var scored := ScoredSentences(SplitSentences(text));
    SortedKept(scored);
    FirstTenKept(SortByScoreDesc(scored, 20));
  }

  lemma FirstTenKept(sorted: seq<(string, nat)>)
    requires forall i :: 0 <= i < |sorted| ==> KeptSentence(sorted[i].0)
    ensures |Firsts(Take(sorted, 10))| <= 10
    ensures forall i :: 0 <= i < |Firsts(Take(sorted, 10))| ==> KeptSentence(Firsts(Take(sorted, 10))[i])
  {
    var top := Take(sorted, 10);
    assert forall i :: 0 <= i < |top| ==> top[i] == sorted[i];
  }

  lemma SortedKept(scored: seq<(string, nat)>)
    requires forall i :: 0 <= i < |scored| ==> KeptSentence(scored[i].0) && scored[i].1 <= 20
    ensures forall i :: 0 <= i < |SortByScoreDesc(scored, 20)| ==> KeptSentence(SortByScoreDesc(scored, 20)[i].0)
  {
    var sorted := SortByScoreDesc(scored, 20);
    SentenceSortPermutes(scored);
    forall i | 0 <= i < |sorted| ensures KeptSentence(sorted[i].0) {
      assert sorted[i] in multiset(sorted);
      assert sorted[i] in multiset(scored);
      assert sorted[i] in scored;
    }
  }

  function FallbackSummary(text: string, metrics: seq<(string, MetricValue)>): (r: Summary)
    ensures r.analysisMethod == "fallback_extraction"
  {
    var top := TopSentences(text);
    var parts := if |metrics| > 0 then [MetricsLine(metrics)] + top else top;
    Summary(Join(parts, " "), "fallback_extraction")
  }

  /** No scored sentence left out of the summary scores higher than one in it. */
  lemma TopSentencesAreBest(text: string)
    ensures var sorted := SortByScoreDesc(ScoredSentences(SplitSentences(text)), 20);
      TopSentences(text) == Firsts(Take(sorted, 10)) &&
      forall i, j :: 0 <= i < 10 <= j < |sorted| ==> sorted[i].1 >= sorted[j].1
  {
    SortByScoreDescSorted(ScoredSentences(SplitSentences(text)), 20);
  }

  /** With metrics, the extractive summary opens with the metrics line. */
  lemma FallbackSummaryLeadsWithMetrics(text: string, metrics: seq<(string, MetricValue)>)
    requires |metrics| > 0
    ensures StartsWith(FallbackSummary(text, metrics).summary, "Key financial metrics:")
  {
    var line := MetricsLine(metrics);
    var parts := [line] + TopSentences(text);
    assert FallbackSummary(text, metrics).summary == Join(parts, " ");
    JoinStartsWithFirst(parts, " ");
    StartsWithTrans(Join(parts, " "), line, "Key financial metrics:");
  }

  lemma StartsWithTrans(a: string, b: string, c: string)
    requires StartsWith(a, b) && StartsWith(b, c)
    ensures StartsWith(a, c)
  {
    assert a[..|c|] == a[..|b|][..|c|];
  }

  lemma JoinStartsWithFirst(parts: seq<string>, sep: string)
    requires |parts| > 0
    ensures StartsWith(Join(parts, sep), parts[0])
  {
  }

  /** One token of the merge loop: a `B-` tag saves the buffered entity and
      starts a new one, an `I-` tag of the buffered type extends it. */
  method MergeToken(m: Merge, t: Token) returns (r: Merge)
    ensures r == MergeStep(m, t)
  {
    r := m;
    if StartsWith(t.entity, "B-") {
      if m.current != "" && m.currentType.Some? && m.currentType.value != "" {
        if m.currentType.value == "ORG" {
          r := m.(organizations := m.organizations + [Strip(m.current)]);
        } else if m.currentType.value == "LOC" {
          r := m.(locations := m.locations + [Strip(m.current)]);
        } else if m.currentType.value == "PER" {
          r := m.(people := m.people + [Strip(m.current)]);
        }
      }
      r := r.(current := t.word, currentType := Some(t.entity[2..]));
    } else if StartsWith(t.entity, "I-") {
      if m.currentType == Some(t.entity[2..]) {
        r := m.(current := m.current + " " + t.word);
      }
    }
  }

  /** The B-/I- merge loop of `extract_entities` over the gathered reply
      elements, with the final save; None when an element cannot be read. */
  method MergeEntityTokens(allEntities: seq<Json>) returns (r: Option<Merge>)
    ensures TokensOf(allEntities).None? ==> r.None?
    ensures TokensOf(allEntities).Some? ==> r == Some(MergedEntities(TokensOf(allEntities).value))
  {
    var m := Merge("", None, [], [], []);
    var k := 0;
    ghost var tokens: seq<Token> := [];
    while k < |allEntities|
      invariant 0 <= k <= |allEntities|
      invariant TokensOf(allEntities[..k]) == Some(tokens)
      invariant m == MergeAll(tokens)
    {
      assert allEntities[..k + 1][..k] == allEntities[..k];
      var token := TokenOf(allEntities[k]);
      if token.None? {
        TokensStuck(allEntities, k + 1);
        return None;
      }
      var t := token.value;
      m := MergeToken(m, t);
      MergeAllSnoc(tokens, t);
      tokens := tokens + [t];
      k := k + 1;
    }
    assert allEntities[..k] == allEntities;
    r := Some(Flush(m));
  }

  /** The label-score sums over the replies of `analyze_sentiment`; None
      as soon as a reply cannot be read. */
  method SumReplies(results: seq<Json>) returns (r: Option<Totals>)
    ensures r == SumResults(results)
  {
    var totals := Totals(0.0, 0.0, 0.0);
    var k := 0;
    while k < |results|
      invariant 0 <= k <= |results|
      invariant SumResults(results[..k]) == Some(totals)
    {
      assert results[..k + 1][..k] == results[..k];
      var first := First(results[k]);
      if first.None? || Elements(first.value).None? {
        SumResultsStuck(results, k + 1);
        return None;
      }
      var next := AddReplyItems(totals, Elements(first.value).value);
      if next.None? {
        SumResultsStuck(results, k + 1);
        return None;
      }
      totals := next.value;
      k := k + 1;
    }
    assert results[..k] == results;
    r := Some(totals);
  }

  /** The label scores of one reply added to the running sums. */
  method AddReplyItems(totals: Totals, items: seq<Json>) returns (r: Option<Totals>)
    ensures r == AddItems(totals, items)
  {
    var t := totals;
    var j := 0;
    while j < |items|
      invariant 0 <= j <= |items|
      invariant AddItems(totals, items[..j]) == Some(t)
    {
      assert items[..j + 1][..j] == items[..j];
      var next := AddLabelScore(t, items[j]);
      if next.None? {
        AddItemsStuck(totals, items, j + 1);
        return None;
      }
      t := next.value;
      j := j + 1;
    }
    assert items[..j] == items;
    r := Some(t);
  }

  /** The scoring loop of `_fallback_summary_generation`: the stripped
      sentences of acceptable length with their keyword counts. */
  method ScoreSentences(sentences: seq<string>) returns (sentenceScores: seq<(string, nat)>)
    ensures sentenceScores == ScoredSentences(sentences)
  {
    sentenceScores := [];
    var i := 0;
    while i < |sentences|
      invariant 0 <= i <= |sentences|
      invariant sentenceScores == ScoredSentences(sentences[..i])
    {
      ScoredStep(sentences, i);
      var sentence := Strip(sentences[i]);
      if KeptSentence(sentence) {
        var score := CountKeywords(sentence);
        sentenceScores := sentenceScores + [(sentence, score)];
      }
      i := i + 1;
    }
    assert sentences[..i] == sentences;
  }

  lemma ScoredStep(sentences: seq<string>, i: nat)
    requires i < |sentences|
    ensures var s := Strip(sentences[i]);
      ScoredSentences(sentences[..i + 1]) ==
      ScoredSentences(sentences[..i]) + (if KeptSentence(s) then [(s, SentenceScore(s))] else [])
  {
    assert sentences[..i + 1][..i] == sentences[..i];
  }

  /** How many of the important keywords the lower-cased sentence contains. */
  method CountKeywords(sentence: string) returns (score: nat)
    ensures score == SentenceScore(sentence)
  {
    score := 0;
    var lowered := Lower(sentence);
    var keywords := ImportantKeywords();
    var k := 0;
    while k < |keywords|
      invariant 0 <= k <= |keywords|
      invariant score == KeywordHitsUpTo(lowered, k)
    {
      if Contains(lowered, keywords[k]) {
        score := score + 1;
      }
      k := k + 1;
    }
  }

  class HuggingFaceService {
    const apiKey: Option<string>
    const isApiKeyValid: bool
    const chunkSize: int
    const overlapSize: int

    /** `__init__`: the key and the chunk settings come from the environment,
        `probeStatus` is how the validation probe went. */
    constructor(apiKey: Option<string>, probeStatus: Option<int>, chunkSize: int, overlapSize: int)
      requires chunkSize >= 1
      ensures this.apiKey == apiKey && this.chunkSize == chunkSize && this.overlapSize == overlapSize
      ensures this.isApiKeyValid == ValidateApiKey(apiKey, probeStatus).valid
    {
      this.apiKey := apiKey;
      this.isApiKeyValid := ValidateApiKey(apiKey, probeStatus).valid;
      this.chunkSize := chunkSize;
      this.overlapSize := overlapSize;
    }

    /** `_call_api`: refuses without a valid key, otherwise runs the retrying call. */
    method CallApi(net: nat -> Outcome) returns (r: Result<Json, CallError>)
      ensures r == CallResult(isApiKeyValid, net)
      ensures !isApiKeyValid ==> r == Err(KeyNotConfigured)
    {
      if !isApiKeyValid {
        return Err(KeyNotConfigured);
      }
      var call := CallHuggingFaceApi(net, 3);
      r := if call.result.Ok? then Ok(call.result.value) else Err(Failed(call.result.error));
    }

    /** `analyze_sentiment`: the first five chunks are sent, the label scores of
        the replies averaged over the replies received. */
    method AnalyzeSentiment(text: string, nets: (nat, string) -> (nat -> Outcome)) returns (r: Sentiment)
      requires chunkSize >= 1
      ensures r == SentimentOf(text, Successes(isApiKeyValid, nets, Take(SentenceChunks(text, chunkSize, overlapSize), 5)))
      ensures !isApiKeyValid ==> r == FallbackSentiment(text)
    {
      var chunks := ChunkText(text, chunkSize, overlapSize);
      var firstChunks := Take(chunks, 5);
      var results := CollectReplies(nets, firstChunks);
      if |results| == 0 {
        return FallbackSentiment(text);
      }
      var totals := SumReplies(results);
      if totals.None? {
        return FallbackSentiment(text);
      }
      var n := |results| as real;
      var t := totals.value;
      r := Decide(Totals(t.positive / n, t.neutral / n, t.negative / n));
    }

    /** The model calls of `analyze_sentiment`, one per input, keeping the
        replies that came back. */
    method CollectReplies(nets: (nat, string) -> (nat -> Outcome), inputs: seq<string>) returns (results: seq<Json>)
      ensures results == Successes(isApiKeyValid, nets, inputs)
    {
      results := [];
      var i := 0;
      while i < |inputs|
        invariant 0 <= i <= |inputs|
        invariant results == Successes(isApiKeyValid, nets, inputs[..i])
      {
        SuccessesStep(isApiKeyValid, nets, inputs, i);
        var result := CallApi(nets(i, inputs[i]));
        if result.Ok? {
          results := results + [result.value];
        }
        i := i + 1;
      }
      assert inputs[..i] == inputs;
    }

    /** `extract_entities`: the first three chunks are sent, the replies'
        elements gathered and merged. */
    method ExtractEntities(text: string, nets: (nat, string) -> (nat -> Outcome),
                           orgMatches: seq<seq<string>>, locMatches: seq<seq<string>>) returns (r: Entities)
      requires chunkSize >= 1
      ensures r == EntitiesOf(GatherElements(Successes(isApiKeyValid, nets, Take(SentenceChunks(text, chunkSize, overlapSize), 3))),
                              orgMatches, locMatches)
      ensures !isApiKeyValid ==> r == BasicEntities(orgMatches, locMatches)
    {
      var chunks := ChunkText(text, chunkSize, overlapSize);
      var firstChunks := Take(chunks, 3);
      var allEntities := CollectEntities(nets, firstChunks);
      if |allEntities| == 0 {
        var orgs, locs := ExtractBasicEntities(orgMatches, locMatches);
        return Entities(orgs, locs, None, "fallback");
      }
      var merged := MergeEntityTokens(allEntities);
      if merged.None? {
        var orgs, locs := ExtractBasicEntities(orgMatches, locMatches);
        return Entities(orgs, locs, None, "fallback");
      }
      var m := merged.value;
      r := Entities(DistinctCapped(m.organizations, 15), DistinctCapped(m.locations, 15),
                    Some(DistinctCapped(m.people, 15)), "huggingface_ner");
    }

    /** The call loop of `extract_entities`: the elements of every reply
        that came back, in order. */
    method CollectEntities(nets: (nat, string) -> (nat -> Outcome), inputs: seq<string>) returns (allEntities: seq<Json>)
      ensures allEntities == GatherElements(Successes(isApiKeyValid, nets, inputs))
    {
      ghost var results: seq<Json> := [];
      allEntities := [];
      var i := 0;
      while i < |inputs|
        invariant 0 <= i <= |inputs|
        invariant results == Successes(isApiKeyValid, nets, inputs[..i])
        invariant allEntities == GatherElements(results)
      {
        SuccessesStep(isApiKeyValid, nets, inputs, i);
        var result := CallApi(nets(i, inputs[i]));
        if result.Ok? {
          GatherSnoc(results, result.value);
          results := results + [result.value];
          var elements := Elements(result.value);
          if elements.Some? {
            allEntities := allEntities + elements.value;
          }
        }
        i := i + 1;
      }
      assert inputs[..i] == inputs;
    }

    /** `analyze_risk`: one model call on the sampled text; the regex fallback
        when it fails or its reply cannot be read. */
    method AnalyzeRisk(text: string, net: string -> (nat -> Outcome),
                       headerEnds: seq<Option<nat>>, candidates: seq<string>) returns (r: RiskAnalysis)
      requires chunkSize >= 1
      requires forall i :: 0 <= i < |headerEnds| && headerEnds[i].Some? ==> headerEnds[i].value <= |text|
      ensures r == RiskOf(text, CallResult(isApiKeyValid, net(RiskInput(SentenceChunks(text, chunkSize, overlapSize)))),
                          headerEnds, candidates)
    {
      var chunks := ChunkText(text, chunkSize, overlapSize);
      var sampleText := "";
      if |chunks| > 3 {
        sampleText := chunks[0] + "\n...\n" + chunks[|chunks| / 2] + "\n...\n" + chunks[|chunks| - 1];
      } else {
        sampleText := Join(chunks, "\n");
      }
      var inputText := RiskPrompt + Take(sampleText, 4000);
      var result := CallApi(net(inputText));
      var generated := if result.Ok? then GeneratedText(result.value) else None;
      if generated.None? {
        var risks := ExtractRiskFactorsWithRegex(text, headerEnds, candidates);
        return RiskAnalysis(risks, |risks| as real / 10.0, "fallback_regex");
      }
      var riskFactors := RiskLines(generated.value);
      var score := CalculateRiskScore(riskFactors);
      r := RiskAnalysis(riskFactors, score, "t5");
    }

    /** `generate_summary`: every chunk is summarised, the preamble going with
        the first; the summaries are joined in chunk order, and the extractive
        fallback is used when none comes back. */
    method GenerateSummary(text: string, metrics: seq<(string, MetricValue)>, nets: (nat, string) -> (nat -> Outcome))
      returns (r: Summary)
      requires chunkSize >= 1
      ensures var found := ChunkSummaries(isApiKeyValid, nets, MetricsPreamble(metrics), SentenceChunks(text, chunkSize, overlapSize));
        var texts := SummaryStrings(found);
        r == if |found| > 0 && texts.Some? then Summary(Join(texts.value, " "), "bart") else FallbackSummary(text, metrics)
      ensures !isApiKeyValid ==> r == FallbackSummary(text, metrics)
    {
      var chunks := ChunkText(text, chunkSize, overlapSize);
      var metricsText := MetricsPreamble(metrics);
      var summaries := SummarizeChunks(nets, metricsText, chunks);
      if |summaries| == 0 {
        r := FallbackSummaryGeneration(text, metrics);
        return;
      }
      var texts := SummaryStrings(summaries);
      if texts.None? {
        r := FallbackSummaryGeneration(text, metrics);
        return;
      }
      r := Summary(Join(texts.value, " "), "bart");
    }

    /** The call loop of `generate_summary`: one call per chunk, the metrics
        preamble going with the first, keeping the summaries that came back. */
    method SummarizeChunks(nets: (nat, string) -> (nat -> Outcome), metricsText: string, chunks: seq<string>)
      returns (summaries: seq<Json>)
      ensures summaries == ChunkSummaries(isApiKeyValid, nets, metricsText, chunks)
    {
      summaries := [];
      var i := 0;
      while i < |chunks|
        invariant 0 <= i <= |chunks|
        invariant summaries == ChunkSummaries(isApiKeyValid, nets, metricsText, chunks[..i])
      {
        ChunkSummariesStep(isApiKeyValid, nets, metricsText, chunks, i);
        var prompt := if i == 0 && metricsText != "" then metricsText + SummarizePrefix + chunks[i]
                      else SummarizePrefix + chunks[i];
        assert prompt == SummaryPrompt(metricsText, i, chunks[i]);
        var result := CallApi(nets(i, prompt));
        var summaryText := if result.Ok? then SummaryText(result.value) else None;
        if summaryText.Some? {
          summaries := summaries + [summaryText.value];
        }
        i := i + 1;
      }
      assert chunks[..i] == chunks;
    }

    /** `_fallback_summary_generation`: score the sentences, sort them, keep ten
        and put the metrics line first. */
    method FallbackSummaryGeneration(text: string, metrics: seq<(string, MetricValue)>) returns (r: Summary)
      ensures r == FallbackSummary(text, metrics)
    {
      var sentences := SplitSentences(text);
      var sentenceScores := ScoreSentences(sentences);
      var sorted := SortByScoreDesc(sentenceScores, 20);
      var topSentences := Firsts(Take(sorted, 10));
      if |metrics| > 0 {
        topSentences := [MetricsLine(metrics)] + topSentences;
      }
      r := Summary(Join(topSentences, " "), "fallback_extraction");
    }
  }

  lemma {:induction false} TokensStuck(js: seq<Json>, n: nat)
    requires n <= |js| && TokensOf(js[..n]).None?
    ensures TokensOf(js).None?
    decreases |js| - n
  {
    if n < |js| {
      assert js[..n + 1][..n] == js[..n];
      TokensStuck(js, n + 1);
    } else {
      assert js[..n] == js;
    }
  }
}
