# Annual Report Analyzer backend, modelled in Dafny

This project models the Python backend of the Annual Report Analyzer. The backend takes uploaded annual-report PDFs and splits their text into chunks. It extracts financial metrics, risk factors and entities, and computes financial ratios. It derives sentiment, summaries and fallback insights, stores the results and serves them through HTTP routes.

The model covers these parts of the backend:

- **NlpUtils** (`nlp_utils.py`): the sentence-aware chunker, the regex extraction of metrics, risk factors and entities, the retrying Hugging Face API client, and the keyword-count fallback sentiment.
- **HuggingFaceService** (`huggingface_service.py`):
  - key validation and the mock responses;
  - FinBERT sentiment averaging;
  - NER token merging;
  - risk scoring;
  - chunked summarisation;
  - the extractive fallback summary.
- **PdfService** (`pdf_service.py`): the newline- and period-aware chunker, and the selection of tables that hold financial keywords.
- **AiService** (`ai_service.py`): the `AIService` class, which holds one readiness flag for the local models and one for the Claude client. It also covers `analyze_report`'s routing of chunks to the collaborators, and its newline- and period-aware chunker.
- **PdfProcessor** (`pdf_processor.py`):
  - the three-pass search for financial pages (table of contents, keywords, tables);
  - the eleven KPI ratios and their guards;
  - the fallback insights;
  - the records `store_results` writes.
- **AnalysisService** (`analysis_service.py`):
  - upload and text validation;
  - the stored metric and summary records;
  - report comparison with its running intersection of metric names;
  - the grouping of metrics by category.
- **Routes** and **PdfProcessingRoutes** (`routes.py`, `pdf_processing_routes.py`):
  - the upload checks and their order;
  - 404 and 500 answers;
  - dashboard tallies and the sector distribution;
  - the processing route's status map, as a class whose methods update it;
  - the "not completed" gating.
- **Helpers** (`helpers.py`): filename sanitising, year extraction, company and ticker extraction, and financial-value formatting.
- **DatabaseSession** (`database_session.py`): the normalisation of `DATABASE_URL`.

Stateless services are modules of functions and of methods with loops. Where the source loops, the model has a `while` loop proved against a specification function. Network calls, model pipelines, the Claude client, regex engines, the database and the clock are not executed. They become parameters:

- outcome functions `nat -> Outcome`, indexed by attempt number. A loop of calls takes one per request, keyed by the request's position and text, so two chunks with the same text are still separate calls;
- collaborator functions from a prompt to a reply;
- sequences of regex matches;
- database rows passed in as values.

Shared modules:

- **Strings**: `Lower`, `Strip`, `RFind`, `Split` and friends.
- **Seqs**: `Take`, `Drop`, `Dedup`, `Filter`, `CountWhere` and the slicing lemmas.
- **Wrappers**: `Option` and `Result`.

## Model

| member | source | states |
|---|---|---|
| NlpUtils.SentenceChunkEnd | backend/services/nlp_utils.py:35-44 | a chunk end lies after its start, within the text, and at most `chunk_size` characters on |
| NlpUtils.SentenceSpans | backend/services/nlp_utils.py:23-51 | there are spans exactly when text remains; the first starts at `start`; every span is non-empty, inside the text and at most `chunk_size` long |
| NlpUtils.SentenceSpansIncreasing | backend/services/nlp_utils.py:48-50 | the chunk starts strictly increase, so the loop terminates and no chunk repeats |
| NlpUtils.Slices | backend/services/nlp_utils.py:46 | chunk k is exactly the text between span k's bounds |
| NlpUtils.ChunksFromSpans | backend/services/nlp_utils.py:35-51 | the chunks the loop appends are the slices of the span sequence |
| NlpUtils.SentenceChunksShape | backend/services/nlp_utils.py:23-24 | no chunks exactly for the empty text; every chunk is non-empty and at most `chunk_size` long |
| NlpUtils.ChunkText | backend/services/nlp_utils.py:11-53 | the `while` loop returns the chunk list of the span specification |
| NlpUtils.SentenceChunks | backend/services/nlp_utils.py:23-53 | defines the chunk list: the slices of the sentence-aware spans from position 0; `SentenceChunksShape`, `SentenceChunksCover` and `SentenceOverlapText` state its properties |
| NlpUtils.SpanEndIsChunkEnd | backend/services/nlp_utils.py:36-44 | each span ends where the end rule places it |
| NlpUtils.SentenceSpansSuffix | backend/services/nlp_utils.py:35-50 | the spans after chunk k are the chunking restarted at chunk k's start |
| NlpUtils.ChunkEndRule | backend/services/nlp_utils.py:36-44 | a window that reaches the text's end ends there; otherwise the chunk ends just after the last ". " starting at or beyond 80% of the window, or at the full window when there is none |
| NlpUtils.ChunkEndLong | backend/services/nlp_utils.py:41-44 | a chunk that stops before the text's end is longer than a tenth of `chunk_size` |
| NlpUtils.SentenceOverlap | backend/services/nlp_utils.py:49-50 | after a chunk that stops early, the next chunk exists exactly when text remains, and it starts `min(overlap_size, chunk_size // 10)` characters before the previous end |
| NlpUtils.SentenceOverlapText | backend/services/nlp_utils.py:49-50 | consecutive chunks share exactly that overlap: the next chunk begins with the previous chunk's last `overlap` characters |
| NlpUtils.ChunkOverlap | backend/services/nlp_utils.py:49-50 | the overlapped start of the next chunk still lies after the previous start |
| NlpUtils.SentenceChunksCover | backend/services/nlp_utils.py:33-51 | the chunks start at 0, end at the text's end and leave no gap between consecutive chunks |
| NlpUtils.SentenceTrailingChunk | backend/services/nlp_utils.py:49-50 | once a chunk reaches the text's end, one more chunk is emitted exactly when the overlap is positive and shorter than that chunk, and that chunk is the text's last `overlap` characters |
| NlpUtils.TailSpans | backend/services/nlp_utils.py:35-50 | the spans from a start whose window reaches the end: the one span, or it and the overlap tail |
| NlpUtils.ChunkEndAtTail | backend/services/nlp_utils.py:36-39 | a window that reaches the text's end is not cut back |
| NlpUtils.NormalizeUnitCases | backend/services/nlp_utils.py:84-119 | no unit without a unit group or for EPS; "m"/"million", "b"/"billion" and "k"/"thousand" normalise to the spelled-out word |
| NlpUtils.MatchContext | backend/services/nlp_utils.py:128 | the context holds the matched text at its place, with at most 50 characters on either side |
| NlpUtils.NormalizeMetricFields | backend/services/nlp_utils.py:83-129 | a metric has the pattern's name and category (only EPS is a "Financial Ratios"), the matched number and its context; its numeric value is the number times 10^6, 10^9 or 10^3 per unit, or the number itself |
| NlpUtils.NormalizeMetric | backend/services/nlp_utils.py:83-129 | defines the metric one regex match gives; `NormalizeMetricFields` and `NormalizeUnitCases` state its fields |
| NlpUtils.MetricsOfPattern | backend/services/nlp_utils.py:81-131 | one metric per match of a pattern |
| NlpUtils.MetricsOfPatternSound | backend/services/nlp_utils.py:81-131 | every metric of a pattern is the normalisation of one of its matches |
| NlpUtils.ExtractMetricsWithRegex | backend/services/nlp_utils.py:55-133 | the nested loops return the normalised matches of the four patterns in pattern order |
| NlpUtils.MetricsFoundSound | backend/services/nlp_utils.py:80-131 | every extracted metric comes from some match of some pattern |
| NlpUtils.MetricsUpToCount | backend/services/nlp_utils.py:80-131 | as many metrics as matches over all patterns |
| NlpUtils.SkipSpaces | backend/services/nlp_utils.py:163 | the greedy `\s+` run: all spaces, stopping at a non-space or the end |
| NlpUtils.SkipDigits | backend/services/nlp_utils.py:163 | the greedy `\d+` run: all digits, stopping at a non-digit or the end |
| NlpUtils.FindItemHeader | backend/services/nlp_utils.py:163 | `re.search` for the next "Item N." heading: a match is a heading, and no heading lies before it |
| NlpUtils.RiskSection | backend/services/nlp_utils.py:161-169 | the section is at most 20000 characters long unless a next heading cut it |
| NlpUtils.KeptRisks | backend/services/nlp_utils.py:188-191 | every kept candidate is strictly between 20 and 500 characters long |
| NlpUtils.KeptRisksMembers | backend/services/nlp_utils.py:186-191 | a string is kept exactly when it is a stripped candidate of plausible length |
| NlpUtils.ExtractRiskFactorsWithRegex | backend/services/nlp_utils.py:135-195 | the method returns the risk factors of the section found with the first matching header pattern |
| NlpUtils.RiskFactors | backend/services/nlp_utils.py:135-195 | defines the risk factors: none without a risk section, otherwise the plausible stripped candidates, deduplicated and capped at 20; `RiskFactorsBounded`, `RiskFactorsKept` and `RiskFactorsComplete` state its properties |
| NlpUtils.FindRiskSection | backend/services/nlp_utils.py:155-170 | the loop stops at the first header pattern that matches |
| NlpUtils.KeepPlausible | backend/services/nlp_utils.py:185-191 | the loop keeps the stripped candidates of plausible length, in order |
| NlpUtils.RiskFactorsBounded | backend/services/nlp_utils.py:172-195 | at most 20 risks, none repeated, and none at all without a risk section |
| NlpUtils.RiskFactorsKept | backend/services/nlp_utils.py:189-195 | every returned risk is a plausible stripped candidate |
| NlpUtils.RiskFactorsComplete | backend/services/nlp_utils.py:186-195 | with a section and at most 20 distinct kept risks, every plausible candidate is returned |
| NlpUtils.ExtractBasicEntities | backend/services/nlp_utils.py:197-240 | organisations and locations are the pattern matches without duplicates, at most 10 of each |
| NlpUtils.CallFrom | backend/services/nlp_utils.py:278-344 | one sleep is recorded per timeout used; with attempts left, between 1 and the remaining budget of attempts are made; with none left, the call fails with "all attempts failed" without trying |
| NlpUtils.CallHuggingFaceApi | backend/services/nlp_utils.py:242-344 | the retry loop returns the call the attempt-by-attempt specification describes |
| NlpUtils.CallSpec | backend/services/nlp_utils.py:242-344 | defines the call as a sequence of attempts from attempt 0 with a 30-second timeout; `CallSucceedsAtFirstSuccess`, `CallFailsAfterBudget` and `CallSchedule` state its properties |
| NlpUtils.Attempt | backend/services/nlp_utils.py:279-341 | one loop iteration either ends the call with its outcome or continues it with the sleep and timeout the specification schedules |
| NlpUtils.CallSucceedsAtFirstSuccess | backend/services/nlp_utils.py:294-297 | the call returns the JSON of the first successful attempt, after exactly that many attempts |
| NlpUtils.CallFailsAfterBudget | backend/services/nlp_utils.py:316-344 | without a success within `max_retries` attempts, the call fails with the last attempt's error after all of them |
| NlpUtils.CallFromRetried | backend/services/nlp_utils.py:304-339 | a failed attempt that is retried records its timeout and sleep, then continues |
| NlpUtils.CallFromEnds | backend/services/nlp_utils.py:318-341 | an attempt that is not retried is the last one recorded |
| NlpUtils.CallSchedule | backend/services/nlp_utils.py:264-337 | the first timeout is 30 s; each sleep is 5·attempt after a 503 or 3·attempt after another failure; a timeout multiplies the next timeout by 1.5 |
| NlpUtils.FallbackSentiment | backend/services/nlp_utils.py:381-385 | the fallback answer has confidence 0.6, method "fallback" and no model scores |
| NlpUtils.FallbackSentimentRule | backend/services/nlp_utils.py:365-377 | positive exactly when positives exceed 1.5 times the negatives, negative exactly when negatives exceed 1.5 times the positives, neutral otherwise, and always neutral for equal counts |
| NlpUtils.CountWithoutOccurrence | backend/services/nlp_utils.py:365-366 | `str.count` is 0 for a word that does not occur |
| NlpUtils.FallbackNeutralWithoutKeywords | backend/services/nlp_utils.py:365-377 | a text without any keyword is neutral, with the "Balance" explanation |
| HuggingFaceService.ValidateApiKey | backend/services/huggingface_service.py:45-81 | a missing key or one shorter than 8 characters is invalid without a probe; otherwise the key is valid exactly when the probe answers 200 |
| HuggingFaceService.CallResult | backend/services/huggingface_service.py:83-106 | without a valid key the call is refused; otherwise it is the three-attempt API call |
| HuggingFaceService.HuggingFaceService.constructor | backend/services/huggingface_service.py:26-43 | the service keeps its key and chunk sizes, and its key flag is the validation result |
| HuggingFaceService.HuggingFaceService.CallApi | backend/services/huggingface_service.py:83-106 | the method calls the API only with a valid key |
| HuggingFaceService.MockResponse | backend/services/huggingface_service.py:108-146 | the FinBERT mock is one list of label scores; the summariser mock quotes the first 100 characters of the text |
| HuggingFaceService.MockFinbertTotals | backend/services/huggingface_service.py:122-197 | the FinBERT mock sums to positive 0.75, neutral 0.20 and negative 0.05 |
| HuggingFaceService.MockSentimentIsPositive | backend/services/huggingface_service.py:122-224 | sentiment of the FinBERT mock is positive with score 0.75 and method "finbert" |
| HuggingFaceService.Decide | backend/services/huggingface_service.py:193-224 | the FinBERT result carries the averaged raw scores and method "finbert" |
| HuggingFaceService.DecideRule | backend/services/huggingface_service.py:199-211 | positive exactly when its average beats both others, negative likewise, neutral otherwise, with the winning average as score; ties between positive and negative are neutral |
| HuggingFaceService.SuccessesStep | backend/services/huggingface_service.py:166-176 | each chunk adds its reply when the call succeeds and nothing when it fails |
| HuggingFaceService.HuggingFaceService.AnalyzeSentiment | backend/services/huggingface_service.py:148-233 | the sentiment of the successful replies for the first five chunks; without a valid key, the keyword fallback |
| HuggingFaceService.SentimentOf | backend/services/huggingface_service.py:178-233 | defines the sentiment of the replies: the keyword fallback without a reply or with a malformed one, otherwise the verdict on the averaged totals; `DecideRule` and `MockSentimentIsPositive` state its properties |
| HuggingFaceService.HuggingFaceService.CollectReplies | backend/services/huggingface_service.py:165-176 | the loop collects the successful replies in chunk order |
| HuggingFaceService.SumReplies | backend/services/huggingface_service.py:180-191 | the loop sums the label scores of all replies, or gives up on the first malformed one |
| HuggingFaceService.AddLabelScoreJson | backend/services/huggingface_service.py:185-191 | a label score adds to the total named by its lower-cased label, and neutral takes any other label |
| HuggingFaceService.BeginFlushes | backend/services/huggingface_service.py:280-290 | a "B-" token closes the entity being built and starts a new one of its type |
| HuggingFaceService.Flush | backend/services/huggingface_service.py:276-282 | saving the buffered entity keeps the buffer and its type, and adds its stripped text to the list of an ORG, LOC or PER type only |
| HuggingFaceService.MergeToken | backend/services/huggingface_service.py:274-292 | one iteration of the merge loop is the token-by-token merge step |
| HuggingFaceService.TokenOf | backend/services/huggingface_service.py:274-292 | a token outside the B-/I- scheme is read with an empty word, whatever its `word` holds |
| HuggingFaceService.OtherTokenRead | backend/services/huggingface_service.py:274-292 | a token whose tag starts with neither "B-" nor "I-" is read even when its word is not a string |
| HuggingFaceService.OutsideTokenNotRead | backend/services/huggingface_service.py:264-310 | a B-ORG token followed by an "O" token with the number 5 as its word gives that one organisation, with method "huggingface_ner" |
| HuggingFaceService.InsideExtends | backend/services/huggingface_service.py:291-293 | an "I-" token of the current type appends its word after a space; one of another type is ignored |
| HuggingFaceService.TwoEntitiesMerge | backend/services/huggingface_service.py:271-301 | B-ORG I-ORG B-LOC I-LOC merge into one organisation and one location |
| HuggingFaceService.MockEntities | backend/services/huggingface_service.py:136-301 | the NER mock yields "Company Inc" and "New York" |
| HuggingFaceService.MergeEntityTokens | backend/services/huggingface_service.py:271-301 | the loop merges the tokens as the token-by-token specification does, and fails on a malformed token |
| HuggingFaceService.EntitiesBounds | backend/services/huggingface_service.py:304-324 | the NER answer keeps at most 15 distinct organisations, locations and people; the fallback answer at most 10, without people; no entities from the model means the regex fallback |
| HuggingFaceService.HuggingFaceService.ExtractEntities | backend/services/huggingface_service.py:235-324 | the entities of the successful replies for the first three chunks; without a valid key, the regex entities |
| HuggingFaceService.EntitiesOf | backend/services/huggingface_service.py:264-324 | defines the entities of the gathered reply elements: the regex entities without elements or with an unreadable one, otherwise the merged lists, deduplicated and capped at 15; `EntitiesBounds` and `TwoEntitiesMerge` state its properties |
| HuggingFaceService.HuggingFaceService.CollectEntities | backend/services/huggingface_service.py:252-268 | the loop concatenates the entity lists of the successful replies |
| HuggingFaceService.FactorScore | backend/services/huggingface_service.py:409-434 | a factor scores the largest weight of the severity keywords it contains, never less than the default 0.5, so between 0.5 and 1.0 |
| HuggingFaceService.TotalRiskScore | backend/services/huggingface_service.py:426-436 | the total lies between half and all of the factor count |
| HuggingFaceService.ScoreFactor | backend/services/huggingface_service.py:428-434 | the keyword loop computes the factor score |
| HuggingFaceService.CalculateRiskScore | backend/services/huggingface_service.py:398-443 | no factors score 0.0; otherwise the score, normalised by twice the factor count, lies in [0.25, 0.5] |
| HuggingFaceService.RiskScoreBounds | backend/services/huggingface_service.py:436-443 | a non-empty factor list scores between 0.25 and 0.5 |
| HuggingFaceService.RiskSample | backend/services/huggingface_service.py:346-351 | more than three chunks are sampled as first, middle and last, joined by "\n...\n"; otherwise all are joined by newlines |
| HuggingFaceService.RiskInput | backend/services/huggingface_service.py:340-354 | the model input is the prompt followed by the first 4000 characters of the sample |
| HuggingFaceService.RiskLines | backend/services/huggingface_service.py:359-364 | splitting the generated text gives at least one line |
| HuggingFaceService.RiskAnalysisScore | backend/services/huggingface_service.py:326-396 | a T5 answer has at least one risk and the normalised keyword score; the regex fallback scores the risk count divided by 10, between 0 and 2 |
| HuggingFaceService.HuggingFaceService.AnalyzeRisk | backend/services/huggingface_service.py:326-396 | the risk analysis of the one API reply for the sampled prompt |
| HuggingFaceService.RiskOf | backend/services/huggingface_service.py:355-396 | defines the risk analysis of one reply: the stripped non-empty lines of the generated text, or the whole text, scored by `CalculateRiskScore`; on an error the regex risks scored by their count over 10; `RiskAnalysisScore` states its properties |
| HuggingFaceService.MetricsPreamble | backend/services/huggingface_service.py:467-473 | no metrics give no preamble; otherwise the preamble starts with the metrics header and ends with a blank line |
| HuggingFaceService.SummaryPrompt | backend/services/huggingface_service.py:478-483 | only the first chunk carries the metrics preamble; every prompt ends with "Summarize the following text: " and the chunk |
| HuggingFaceService.ChunkSummaries | backend/services/huggingface_service.py:476-497 | at most one summary per chunk, none without a valid key; a failed call or a reply without a summary is skipped |
| HuggingFaceService.ChunkSummariesStep | backend/services/huggingface_service.py:476-497 | each chunk adds the summary of its own call, made with that chunk's prompt, or nothing |
| HuggingFaceService.HuggingFaceService.GenerateSummary | backend/services/huggingface_service.py:445-516 | the BART summaries joined by spaces; the extractive fallback when none came back or one is not a string (the join raises) |
| HuggingFaceService.HuggingFaceService.SummarizeChunks | backend/services/huggingface_service.py:476-497 | the loop collects the successful chunk summaries |
| HuggingFaceService.SplitSentences | backend/services/huggingface_service.py:532 | splitting gives at least one piece |
| HuggingFaceService.SentenceScore | backend/services/huggingface_service.py:551-554 | a sentence scores one point per important keyword it contains, at most 20 |
| HuggingFaceService.CountKeywords | backend/services/huggingface_service.py:551-554 | the keyword loop computes the sentence score |
| HuggingFaceService.ScoredSentences | backend/services/huggingface_service.py:545-556 | only stripped sentences of 10 to 200 characters are scored, each with its own score |
| HuggingFaceService.ScoreSentences | backend/services/huggingface_service.py:545-556 | the loop scores the kept sentences in document order |
| HuggingFaceService.SortByScoreDescSorted | backend/services/huggingface_service.py:559 | the stable descending sort orders the scores from high to low |
| HuggingFaceService.SortByScoreDesc | backend/services/huggingface_service.py:559 | defines the stable descending sort by score, a score value at a time from the top score down; `SentenceSortCorrect` proves it ordered, a permutation and stable |
| HuggingFaceService.SortByScoreDescStable | backend/services/huggingface_service.py:559 | sentences with equal scores keep their document order, as Python's stable sort does |
| HuggingFaceService.SentenceSortCorrect | backend/services/huggingface_service.py:559 | the sort is ordered, is a permutation, and keeps the order within every score |
| HuggingFaceService.TopSentencesKept | backend/services/huggingface_service.py:545-560 | at most 10 top sentences, each of acceptable length |
| HuggingFaceService.TopSentences | backend/services/huggingface_service.py:545-560 | defines the picked sentences: the first ten of the sorted scored sentences; `TopSentencesKept` and `TopSentencesAreBest` state its properties |
| HuggingFaceService.TopSentencesAreBest | backend/services/huggingface_service.py:559-560 | the top sentences are the first ten of the sorted list, and none left out scores higher |
| HuggingFaceService.MetricsLine | backend/services/huggingface_service.py:563-569 | the metrics line starts with "Key financial metrics:" |
| HuggingFaceService.FallbackSummary | backend/services/huggingface_service.py:518-577 | the fallback summary is marked "fallback_extraction" |
| HuggingFaceService.FallbackSummaryLeadsWithMetrics | backend/services/huggingface_service.py:563-572 | with metrics, the fallback summary begins with the metrics line |
| HuggingFaceService.HuggingFaceService.FallbackSummaryGeneration | backend/services/huggingface_service.py:518-577 | the method returns the extractive fallback summary |
| PdfService.BreakEnd | backend/services/pdf_service.py:90-102 | a chunk end lies after its start, within `chunk_size` characters, and beyond half the window when the end of the text is not reached |
| PdfService.NextStart | backend/services/pdf_service.py:108 | the next start moves forward |
| PdfService.Spans | backend/services/pdf_service.py:82-110 | there are spans exactly when text remains; every span is non-empty, inside the text and at most `chunk_size` long |
| PdfService.ChunkText | backend/services/pdf_service.py:80-110 | the `while` loop returns the chunk list of the span specification |
| PdfService.Chunks | backend/services/pdf_service.py:80-110 | defines the chunk list: the slices of the break-aware spans from position 0; `ChunksShape`, `ExactOverlap` and `ChunksReassemble` state its properties |
| PdfService.ChunksShape | backend/services/pdf_service.py:82-105 | no chunks exactly for the empty text; every chunk is non-empty and at most `chunk_size` long |
| PdfService.BreakEndRule | backend/services/pdf_service.py:90-102 | a window that reaches the end is kept; otherwise the chunk ends after the last newline beyond half the window, or else after the last ". " beyond it, or else at the full window, and no later break of that kind exists |
| PdfService.NextChunkReaches | backend/services/pdf_service.py:108 | after an early end the next chunk starts before the text's end and ends no earlier than the previous one |
| PdfService.ExactOverlap | backend/services/pdf_service.py:108 | consecutive chunks overlap by exactly `overlap` characters: the next chunk begins with the previous chunk's last `overlap` characters |
| PdfService.ChunksCover | backend/services/pdf_service.py:86-110 | the chunks start at 0 and the last one ends at the text's end |
| PdfService.ReassembleFrom | backend/services/pdf_service.py:89-110 | from every start, the chunks with their overlaps removed rebuild the rest of the text |
| PdfService.ChunksReassemble | backend/services/pdf_service.py:80-110 | the first chunk plus every later chunk without its first `overlap` characters is the original text |
| PdfService.PageFinancialTablesMembers | backend/services/pdf_service.py:123-140 | a page contributes exactly its tables with a cell holding a financial keyword, tagged with its page number |
| PdfService.FinancialTablesMembers | backend/services/pdf_service.py:112-142 | the result holds exactly the financial tables of all pages |
| PdfService.FinancialTablesKept | backend/services/pdf_service.py:123-140 | a table is kept exactly when it is financial |
| PdfService.ExtractFinancialTables | backend/services/pdf_service.py:112-142 | the page and table loops return the financial tables in page order |
| PdfService.FinancialTables | backend/services/pdf_service.py:112-142 | defines the financial tables of the pages, page by page; `FinancialTablesMembers` and `FinancialTablesKept` state its properties |
| PdfService.TableScan | backend/services/pdf_service.py:125-134 | the nested row and cell loop, with its early breaks, decides exactly whether some cell holds a financial keyword |
| AiService.AIService.constructor | backend/services/ai_service.py:17-55 | the local models are ready exactly when a Hugging Face key is set and they load; Claude is ready exactly when its key is set and the client builds |
| AiService.AIService.SummarizerInput | backend/services/ai_service.py:62-65 | the summariser reads a prefix of the text: `chunk_size` characters long or the whole text, and for a negative size all but the last `-chunk_size` characters, as Python's slice does |
| AiService.AIService.SummarizeText | backend/services/ai_service.py:57-71 | it fails exactly when the models are not ready; otherwise it gives the summariser's text, or "" on error |
| AiService.SentimentLabel | backend/services/ai_service.py:139-143 | positive exactly when the reply mentions "positive", negative exactly when it mentions only "negative", neutral otherwise |
| AiService.SentimentPrompt | backend/services/ai_service.py:132 | the prompt ends with the text |
| AiService.AIService.AnalyzeSentiment | backend/services/ai_service.py:126-151 | it fails exactly when the models are not ready; otherwise the label and text of the generated reply, or neutral with the error explanation |
| AiService.AIService.BusinessOutlook | backend/services/ai_service.py:196-227 | it fails exactly when Claude is not ready; otherwise the stripped reply, or "" on error |
| AiService.DefaultReport | backend/services/ai_service.py:282-290 | the default report is empty and neutral |
| AiService.AIService.AnalyzeReport | backend/services/ai_service.py:241-290 | under two chunks or an unready service, the default report; otherwise metrics from the first three chunks, at most ten risks from the rest, the executive summary of the first chunk, the outlook of the last, and the sentiment of the second |
| AiService.GatherMetrics | backend/services/ai_service.py:248-251 | the loop concatenates the metrics of the first three chunks |
| AiService.MetricsRouting | backend/services/ai_service.py:248-251 | each of the first three chunks' metrics appears, in order, in the gathered list |
| AiService.GatherRisks | backend/services/ai_service.py:257-263 | the loop gathers risks from the chunks after the third and stops once it holds ten |
| AiService.CapAtPrefix | backend/services/ai_service.py:260-263 | stopping early gives the same first ten risks as gathering all of them |
| AiService.AIService.ChunkText | backend/services/ai_service.py:292-322 | the method returns the newline- and period-aware chunking |
| AiService.ChunkOverlap | backend/tests/test_ai_service.py:71-84 | for text over 1000 characters, chunking at 1000 with overlap 100 gives several chunks; the first is a prefix of the text, and its last 50 characters recur in the second |
| AiService.ChunkTextTestCase | backend/tests/test_ai_service.py:71-84 | the test's "This is a test. " text gives several chunks, the first starting with the sentence, and the overlap recurs |
| AiService.FirstChunkStarts | backend/tests/test_ai_service.py:71-84 | the first chunk starts with any prefix of up to 500 characters of the text |
| PdfProcessor.TocScanLimit | backend/services/pdf_processor.py:110 | at most the first 20 pages are searched for a table of contents |
| PdfProcessor.ScanToc | backend/services/pdf_processor.py:110-123 | the page loop collects the contents pages and the pages they refer to |
| PdfProcessor.AddPageRefs | backend/services/pdf_processor.py:116-123 | each page reference p not beyond the last page adds the zero-based page p - 1 |
| PdfProcessor.ScanKeywords | backend/services/pdf_processor.py:126-143 | the keyword loop adds each keyword page and the four after it, within the document |
| PdfProcessor.ScanTables | backend/services/pdf_processor.py:146-169 | the table loop adds each page with a financial table |
| PdfProcessor.IdentifyFinancialSections | backend/services/pdf_processor.py:75-176 | the three passes give the contents pages and the financial page set of the specification |
| PdfProcessor.FinancialSections | backend/services/pdf_processor.py:75-176 | defines the contents pages and the financial page set of the three passes; `FinancialPagesMembers` and `FinancialPagesRange` state its properties |
| PdfProcessor.TocRefsMembers | backend/services/pdf_processor.py:110-123 | a page x is found from the contents exactly when a contents page among the first 20 refers to page x + 1, not beyond the last page |
| PdfProcessor.KeywordPagesMembers | backend/services/pdf_processor.py:126-143 | a page is found by keyword exactly when it or one of the four before it names a financial section |
| PdfProcessor.TablePagesMembers | backend/services/pdf_processor.py:146-169 | a page is found by table exactly when it has a financial table |
| PdfProcessor.FinancialPagesMembers | backend/services/pdf_processor.py:75-176 | a page is financial exactly when the contents refer to it, or when fewer than five contents pages were found and a keyword page is within four before it, or when it has a financial table |
| PdfProcessor.FinancialPagesRange | backend/services/pdf_processor.py:116-123 | a financial page number lies in the document, or is -1 |
| PdfProcessor.PageZeroReference | backend/services/pdf_processor.py:118-121 | -1 is among the financial pages exactly when a contents page refers to page 0 (the source subtracts one from a reference) |
| PdfProcessor.ExtractedItems | backend/services/pdf_processor.py:306-318 | the eleven extracted figures are reported |
| PdfProcessor.CalculateFinancialKpis | backend/services/pdf_processor.py:264-366 | the KPIs hold the extracted figures and every ratio the guards allow |
| PdfProcessor.ProfitabilityRatios | backend/services/pdf_processor.py:321-328 | the profitability block computes the first three ratios |
| PdfProcessor.LiquidityRatios | backend/services/pdf_processor.py:331-344 | the liquidity block adds the next five |
| PdfProcessor.SolvencyRatios | backend/services/pdf_processor.py:347-355 | the solvency block adds the last three |
| PdfProcessor.KpiLookup | backend/services/pdf_processor.py:321-358 | each named ratio is present exactly when its operands allow it, with its value |
| PdfProcessor.RatioValue | backend/services/pdf_processor.py:321-358 | defines each of the eleven ratios under its truthiness and positivity guards; `KpiLookup` and `KpiGuards` state its properties |
| PdfProcessor.KpiGuards | backend/services/pdf_processor.py:321-358 | the quick ratio needs the current ratio; working capital is present exactly with the current ratio and equals assets less liabilities; interest coverage needs positive interest expense; ROE needs non-zero net income and equity |
| PdfProcessor.LookupPresent | backend/services/pdf_processor.py:321-358 | a key is found exactly when some entry has it |
| PdfProcessor.RatiosUpToEntries | backend/services/pdf_processor.py:321-358 | every stored ratio is one of the eleven names with its guarded value |
| PdfProcessor.Liquidity | backend/services/pdf_processor.py:447-453 | strong above 2, adequate above 1, concerning otherwise |
| PdfProcessor.Profitability | backend/services/pdf_processor.py:458-466 | excellent above 20%, good above 10%, average above 5%, below average otherwise |
| PdfProcessor.Leverage | backend/services/pdf_processor.py:471-477 | highly leveraged above 2, moderately above 1, conservatively financed otherwise |
| PdfProcessor.AssessedInsights | backend/services/pdf_processor.py:446-480 | at most three assessments, and none exactly when none of the three ratios exists |
| PdfProcessor.GenerateFallbackInsights | backend/services/pdf_processor.py:442-492 | the method returns the fallback insights |
| PdfProcessor.FallbackInsights | backend/services/pdf_processor.py:442-492 | defines the fallback insights: the assessed ratios and a recommendation, or the default insights; `FallbackRecommends` and `FallbackAssesses` state its properties |
| PdfProcessor.FallbackRecommends | backend/services/pdf_processor.py:482-490 | the insights always end with recommendations, and are the defaults exactly when no ratio was assessed |
| PdfProcessor.FallbackAssesses | backend/services/pdf_processor.py:446-453 | with a current ratio, the first insight is financial health, worded by its liquidity grade |
| PdfProcessor.RatioRecords | backend/services/pdf_processor.py:509-517 | every ratio is stored under its name with 4 decimals, as "financial" |
| PdfProcessor.ExtractedRecords | backend/services/pdf_processor.py:520-529 | only present figures are stored, as "extracted" with 2 decimals |
| PdfProcessor.ExtractedRecordsCount | backend/services/pdf_processor.py:520-529 | one record per present figure |
| PdfProcessor.InsightRecords | backend/services/pdf_processor.py:539-546 | only non-empty insights are stored, under their category |
| PdfProcessor.StoreResults | backend/services/pdf_processor.py:494-560 | a failed metrics write stores nothing and a failed summaries write keeps the metrics; either way the report is marked failed and the error raised; otherwise both batches are stored and the report completed |
| PdfProcessor.StoredMetricsShape | backend/services/pdf_processor.py:509-529 | the stored metrics are the ratios, then the present figures; exactly the ratio records are "financial", and each carries its ratio's value |
| AnalysisService.ValidateUpload | backend/services/analysis_service.py:47-53 | an upload passes exactly when it has at least 100 bytes and a ".pdf" name |
| AnalysisService.ValidateText | backend/services/analysis_service.py:70-72 | extracted text passes exactly when it has at least 100 characters after stripping |
| AnalysisService.GetOr | backend/services/analysis_service.py:190-195 | a missing key gives the default |
| AnalysisService.MetricOf | backend/services/analysis_service.py:188-196 | a metric record comes exactly from a JSON object |
| AnalysisService.MetricsOf | backend/services/analysis_service.py:188-196 | records exist exactly when every item is an object, one record per item |
| AnalysisService.MetricsOfFails | backend/services/analysis_service.py:188-196 | one non-object item fails the whole batch |
| AnalysisService.MetricDefaults | backend/services/analysis_service.py:190-195 | an empty object gives empty fields and the category "financial" |
| AnalysisService.RiskLines | backend/services/analysis_service.py:222 | one "- " line per risk |
| AnalysisService.AnalysisSummaries | backend/services/analysis_service.py:198-239 | one to four summaries, the sentiment always last |
| AnalysisService.SummaryOrder | backend/services/analysis_service.py:204-239 | executive, outlook and risks are stored only when present, in that order, followed by the sentiment |
| AnalysisService.StoreAnalysisResults | backend/services/analysis_service.py:183-246 | storing succeeds exactly when every metric is an object, and then stores the metrics and the summaries |
| AnalysisService.MetricsByName | backend/services/analysis_service.py:273-279 | the map's keys are exactly the metric names of the report |
| AnalysisService.WithData | backend/services/analysis_service.py:259-270 | only reports with data are kept, in request order |
| AnalysisService.Entries | backend/services/analysis_service.py:259-270 | one comparison entry per kept report |
| AnalysisService.CollectReports | backend/services/analysis_service.py:259-270 | the loop builds the entries and the order of first appearance |
| AnalysisService.CommonMetrics | backend/services/analysis_service.py:281-287 | the loop computes the running common-name set |
| AnalysisService.RunningCommon | backend/services/analysis_service.py:281-287 | defines the running common-name set, which restarts from a report's names whenever it is empty; `RunningCommonIsIntersection` and `RunningCommonResets` state its properties |
| AnalysisService.NameSets | backend/services/analysis_service.py:272-279 | one metric-name set per report, in request order |
| AnalysisService.RunningCommonIsIntersection | backend/services/analysis_service.py:281-287 | when some name is common to all reports, the running set is their intersection |
| AnalysisService.RunningCommonWithinLast | backend/services/analysis_service.py:281-287 | the common names always belong to the last report |
| AnalysisService.RunningCommonResets | backend/services/analysis_service.py:284-287 | an empty intersection restarts from the next report, so {a},{b},{a} gives {a} although nothing is common to all three |
| AnalysisService.ValuesFor | backend/services/analysis_service.py:290-308 | at most one value per report |
| AnalysisService.ValuesForMembers | backend/services/analysis_service.py:290-308 | one value per report that has the metric, each being that report's value |
| AnalysisService.BuildComparison | backend/services/analysis_service.py:290-308 | the comparison has exactly the common names, each with its values |
| AnalysisService.CompareReports | backend/services/analysis_service.py:248-316 | the entries of the reports with data, and the comparison of their running common metrics |
| AnalysisService.GroupKeys | backend/services/analysis_service.py:326-336 | the group keys in order |
| AnalysisService.AddToGroup | backend/services/analysis_service.py:330-336 | a new category is appended as a key; an existing one keeps its place |
| AnalysisService.AddToGroupGroup | backend/services/analysis_service.py:330-336 | adding a metric appends it to its own group only |
| AnalysisService.Grouped | backend/services/analysis_service.py:326-336 | no category appears twice |
| AnalysisService.GroupedSpec | backend/services/analysis_service.py:326-336 | each group holds exactly that category's metrics in order, and the keys are the categories in order of first appearance |
| AnalysisService.DefaultCategory | backend/services/analysis_service.py:331 | a metric without a category lands in the default group |
| AnalysisService.CategoryOr | backend/services/analysis_service.py:331 | defines `category or default`: a missing or empty category is the default; `DefaultCategory` states its use |
| AnalysisService.GroupMetrics | backend/services/analysis_service.py:326-336 | the loop groups the metrics |
| AnalysisService.SummaryMap | backend/services/analysis_service.py:339-341 | the keys are exactly the summary categories |
| AnalysisService.SummaryMapLastWins | backend/services/analysis_service.py:339-341 | a repeated category keeps its last content |
| AnalysisService.MapSummaries | backend/services/analysis_service.py:339-341 | the loop builds the summary map |
| AnalysisService.GetReportAnalysis | backend/services/analysis_service.py:318-362 | no data gives nothing; data without report or company raises; otherwise report, company, grouped metrics and summary map |
| Routes.UploadReport | backend/api/routes.py:95-171 | a 400 answer exactly when a check fails; an accepted upload returns the processing result or a 500 that carries the error |
| Routes.UploadCheckOrder | backend/api/routes.py:97-130 | the checks run in order (filename, year, company name, content), each with its own message |
| Routes.AcceptedUploadPassesService | backend/api/routes.py:97-130 | an upload the route accepts also passes the service's own validation |
| Routes.CompareReports | backend/api/routes.py:290-306 | fewer than two ids give 400; otherwise the service's comparison |
| Routes.TallyTotal | backend/api/routes.py:352-365 | the tallies add up to the number of rows |
| Routes.TallyKeys | backend/api/routes.py:352-365 | the tally keys are the values in order of first appearance |
| Routes.TallyCounts | backend/api/routes.py:352-365 | each value's count is its number of occurrences |
| Routes.Tally | backend/api/routes.py:352-365 | the loop builds the tally |
| Routes.Tallied | backend/api/routes.py:352-365 | defines the tally of a list of values, one bump per value; `TallyTotal`, `TallyKeys` and `TallyCounts` state its properties |
| Routes.Bump | backend/api/routes.py:355-357 | defines one count step: a new value is added with 1, a known one has its count raised by 1; `BumpTotal`, `BumpKeys` and `BumpCountOf` state its properties |
| Routes.Latest | backend/api/routes.py:347-349 | the latest upload date is a date of the list, and no date is later; none for no reports |
| Routes.GetDashboardSummary | backend/api/routes.py:330-373 | company and report counts, the latest upload, and the status and year tallies of the first 100 rows |
| Routes.DashboardCounts | backend/api/routes.py:352-365 | the status and year tallies each add up to the report count, which is at most 100 |
| Routes.Sectors | backend/api/routes.py:415-420 | a company without a sector counts as "Unknown" |
| Routes.GetSectorDistribution | backend/api/routes.py:407-430 | the sector tally of the first 100 companies |
| Routes.SectorDistribution | backend/api/routes.py:415-425 | the tally has each sector once, adds up to the company count, and includes "Unknown" when a sector is missing |
| Routes.NotFoundOr | backend/api/routes.py:47-63 | success exactly when the row is found; 404 with its message when it is missing; 500 with the prefixed error on a failure |
| Routes.GetCompany | backend/api/routes.py:47-63 | a found company is the answer; a missing company is 404 "Company with ID n not found"; an error is 500 "Error getting company: ..." |
| Routes.UpdateCompany | backend/api/routes.py:65-82 | the updated company is the answer; a missing company is 404; an error is 500 "Error updating company: ..." |
| Routes.GetReportAnalysis | backend/api/routes.py:204-219 | a missing report is 404; otherwise the service's analysis, or 500 when it raises |
| PdfProcessingRoutes.ReportStatuses.UpdateStatus | backend/services/db_service.py:123-138 | the status of an existing report changes, and nothing else |
| PdfProcessingRoutes.ReportStatuses.ProcessPdf | backend/api/pdf_processing_routes.py:51-102 | a non-PDF name answers 500 wrapping the 400 and changes nothing; a PDF creates the report as "pending" and answers "processing" |
| PdfProcessingRoutes.FinalStatus | backend/api/pdf_processing_routes.py:126-157 | the run ends "failed" exactly when no sections were found, it raised, or storing failed; otherwise with the stored status |
| PdfProcessingRoutes.FinishedRunsLeaveFinalStatus | backend/api/pdf_processing_routes.py:126-157 | a finished run leaves either "completed" or "failed" |
| PdfProcessingRoutes.ReportStatuses.ProcessReportBackground | backend/api/pdf_processing_routes.py:104-157 | with a session, the report ends in its final status; nothing else changes |
| PdfProcessingRoutes.GetProcessingStatus | backend/api/pdf_processing_routes.py:159-194 | 404 exactly for a missing report; a failure is a 500 with the prefixed error |
| PdfProcessingRoutes.NotCompletedAnswer | backend/api/pdf_processing_routes.py:219-224 | the not-completed answer carries the report's status |
| PdfProcessingRoutes.GetReportMetrics | backend/api/pdf_processing_routes.py:196-252 | 404 exactly for a missing report; an unfinished report is answered "not completed"; a completed one gives its metrics grouped by category, "other" being the default |
| PdfProcessingRoutes.GetReportInsights | backend/api/pdf_processing_routes.py:254-300 | the same gating, with the summaries mapped by category |
| PdfProcessingRoutes.GetReport | backend/api/pdf_processing_routes.py:302-313 | 404 exactly for a missing report; any failure is "Internal server error" |
| Helpers.Basename | backend/utils/helpers.py:20 | the base name is a slash-free suffix after the last slash |
| Helpers.BasenameWithoutSlash | backend/utils/helpers.py:20 | a name without slashes is its own base name |
| Helpers.CleanName | backend/utils/helpers.py:23 | every character outside word characters, spaces, '.' and '-' becomes '_', and nothing else changes |
| Helpers.CleanNameSafe | backend/utils/helpers.py:23 | a name of safe characters is unchanged |
| Helpers.SplitExt | backend/utils/helpers.py:26 | root and extension rebuild the name; the extension is a '.' and dot-free text, or empty; it never follows a root of dots only |
| Helpers.SanitizeFilename | backend/utils/helpers.py:9-29 | the root, "_", the timestamp, then the extension |
| Helpers.SanitizedShape | backend/utils/helpers.py:9-29 | the sanitised name has no slash and keeps the extension |
| Helpers.SanitizeTestPdf | backend/utils/helpers.py:9-29 | "test.pdf" becomes "test_", the timestamp and ".pdf" |
| Helpers.FirstMatch | backend/utils/helpers.py:48-57 | the first year pattern that matches, after none before it did |
| Helpers.YearsFromSound | backend/utils/helpers.py:60-61 | every fallback candidate is a standalone "20[0-2]d" year of the text |
| Helpers.YearsFrom | backend/utils/helpers.py:60-61 | every candidate of `re.findall(r'\b(20[0-2]\d)\b', text)` is a year string; `YearsFromSound` and `YearsFromComplete` state its properties |
| Helpers.YearsFromComplete | backend/utils/helpers.py:60-61 | every standalone year of the text is a candidate |
| Helpers.MaxStringIsLatest | backend/utils/helpers.py:62-63 | `max` over year strings gives the latest year |
| Helpers.MaxString | backend/utils/helpers.py:62-63 | Python's `max` of a non-empty list of strings is one of them |
| Helpers.FallbackYear | backend/utils/helpers.py:59-65 | without a pattern match, the answer is the latest standalone year of the text, or none exactly when there is none |
| Helpers.ExtractYearFromText | backend/utils/helpers.py:31-65 | as written, it raises exactly when the first matching pattern has no group; a first matching pattern with a group answers that group; without a match it uses the fallback |
| Helpers.YearWithoutGroupRaises | backend/utils/helpers.py:48-57 | "2023 annual report" reaches the group-less pattern and raises |
| Helpers.ExtractYearCorrected | backend/utils/helpers.py:48-57 | the corrected extraction never raises |
| Helpers.ExtractYearCorrectedSpec | backend/utils/helpers.py:31-65 | it agrees with the written code wherever that does not raise, and gives a four-character year, "20.." for the group-less patterns |
| Helpers.UpperRun | backend/utils/helpers.py:101-103 | the run of capital letters from a position |
| Helpers.TickerFromNone | backend/utils/helpers.py:101-103 | no ticker exactly when no "(" followed by 1-5 capitals and ")" occurs |
| Helpers.TickerFromLeftmost | backend/utils/helpers.py:101-103 | the ticker is the leftmost such occurrence |
| Helpers.TickerFrom | backend/utils/helpers.py:101-103 | defines `re.search(r'\(([A-Z]{1,5})\)', text)` from a position; `TickerFromNone` and `TickerFromLeftmost` state its properties |
| Helpers.ExtractCompanyInfo | backend/utils/helpers.py:67-105 | the stripped name match, if any; a ticker of 1-5 capitals that occurs in parentheses, none exactly when none occurs; no sector |
| Helpers.TickerExample | backend/utils/helpers.py:101-103 | "Apple (AAPL)" gives "AAPL" |
| Helpers.CleanNumber | backend/utils/helpers.py:120 | only digits, '.' and '-' are kept |
| Helpers.CleanNumberKeepsNumbers | backend/utils/helpers.py:120 | a plain number is unchanged |
| Helpers.ScaleOf | backend/utils/helpers.py:124-131 | billions from 10^9, millions from 10^6, thousands from 10^3, by absolute value |
| Helpers.FormatFinancialValue | backend/utils/helpers.py:107-134 | an unparsable value is returned as given; otherwise "$" and the scaled figure with its B, M or K suffix |
| Helpers.ScaledFigure | backend/utils/helpers.py:124-131 | the scaled figure of millions and thousands lies in [1, 1000) |
| DatabaseSession.AbsPath | backend/models/database_session.py:59 | an absolute path is kept; relative ones become absolute against an absolute working directory |
| DatabaseSession.ResolveDatabaseUrl | backend/models/database_session.py:47-70 | the module's assignments compute the URL of the specification |
| DatabaseSession.EnvAdjusted | backend/models/database_session.py:47-63 | defines the URL after the environment value: the default, a relative SQLite URL made absolute, or the value itself; `DefaultUrl`, `VerbatimEnvUrl` and `RelativeEnvUrl` state its cases |
| DatabaseSession.FinalStep | backend/models/database_session.py:66-70 | defines the slash adjustment as written; `NonSqliteUntouched` and `FinalStepAddsOneSlash` state its cases |
| DatabaseSession.DatabaseUrl | backend/models/database_session.py:47-70 | defines the final `DATABASE_URL`; `FiveSlashDefault` and `WrittenPathHasExtraSlash` state what it gives for an absolute path |
| DatabaseSession.DefaultUrl | backend/models/database_session.py:48-56 | without the variable, or with it empty, the URL starts as "sqlite:///" and the path |
| DatabaseSession.VerbatimEnvUrl | backend/models/database_session.py:56-63 | a value other than a three-slash SQLite URL is taken as it is |
| DatabaseSession.RelativeEnvUrl | backend/models/database_session.py:56-61 | a relative SQLite path is made absolute against the working directory |
| DatabaseSession.NonSqliteUntouched | backend/models/database_session.py:66-70 | the last step leaves other URLs alone |
| DatabaseSession.FinalStepAddsOneSlash | backend/models/database_session.py:66-70 | the last step adds one slash to a SQLite URL of an absolute path |
| DatabaseSession.DefaultDbPath | backend/models/database_session.py:17-23 | `os.path.join(ROOT_DIR, "annual_reports.db")` is absolute for an absolute root and ends in "/annual_reports.db" |
| DatabaseSession.FiveSlashDefault | backend/models/database_session.py:17-70 | for any absolute project root, the default URL is "sqlite:////" followed by the absolute default path, so it starts with five slashes where line 67 promises four |
| DatabaseSession.SqlitePath | backend/models/database_session.py:66-70 | the path SQLAlchemy opens is what follows "sqlite:///" |
| DatabaseSession.WrittenPathHasExtraSlash | backend/models/database_session.py:66-70 | as written, the opened path is "/" plus the intended absolute path |
| DatabaseSession.CorrectedUrlOpensPath | backend/models/database_session.py:47-70 | with the intended last step, the opened path is the default path itself, or the absolute path of a relative environment URL |

## Left out

- Network and model I/O:
  - HTTP requests, the `transformers` pipelines, the Claude client and PDF parsing (PyPDF2, pdfplumber) are foreign calls.
  - Their results are inputs: outcome functions per attempt, reply functions per prompt, and parsed pages and tables.
- `time.sleep` is not performed. The sleeps and timeouts are recorded in the call's schedule instead.
- Logging and logger configuration are not modelled, because they do not affect results.
- Regular expressions are not run as an engine. The model takes their matches as inputs: metric matches, risk-header ends and candidates, entity matches, year-pattern searches and the name match. The risk-section heading search, the fallback year search, the ticker pattern and `re.sub` in `sanitize_filename` are written out as functions.
- `\w`, `\s`, `\d`, `\b`, `str.lower()` and `str.upper()` cover ASCII only. The model does no Unicode case folding.
- `set()` ordering is left open by Python. Deduplication keeps the first occurrence of each value, so the at-most-20 and at-most-10 caps apply to a fixed order.
- Floating point:
  - figures are `real`;
  - `float()` parsing and the `:.2f` / `:,.2f` formatting are function parameters;
  - `round()` in the stored records is not modelled, and only the decimals count is kept.
- `os.path.abspath` is modelled without the `normpath` step. `os.environ` and the working directory are inputs.
- The database appears as inputs and outputs:
  - the rows a query returns;
  - whether a batch write succeeded;
  - the report status map of the processing routes.
  - Sessions, transactions and SQLAlchemy models are not modelled. `db_service` is not part of this model, except for the status update that `ReportStatuses.UpdateStatus` stands for.
- Pydantic schemas and FastAPI dependency injection are not modelled. `UploadFile.read()` is the content passed in.
- `datetime` is an input: the timestamp in file names and the current year for the upload check.
- These routes only forward a database query, so they are not modelled: `create_company`, `get_companies`, `get_reports`, `get_company_reports`, `search_reports`, `get_company_metrics_history`, `get_recent_reports`.
- `AnalysisService.process_report` is not modelled: file saving, PDF extraction, the database transaction and its status updates. Its two validations are modelled as `ValidateUpload` and `ValidateText`. `analyze_report_text` only forwards to `AIService.analyze_report`.
- `PDFProcessor.process_annual_report` and `extract_financial_sections` are not modelled: they read PDF pages and run regexes over them. The extracted figures are the input of `CalculateFinancialKpis`.
- `generate_ai_insights` and `_prepare_financial_prompt` (the Claude branch) are not modelled. The fallback insights the method returns on error are.
- `AIService.extract_financial_metrics`, `extract_risk_factors` and `answer_question` only forward to Claude. They appear as the collaborator functions of `AnalyzeReport`.
- `PDFService.extract_text_from_pdf`, `extract_text_with_layout`, `get_pdf_metadata` and `save_upload` (file I/O and PDF parsing) are not modelled.
- `NlpUtils.ChunkText`: requires `chunk_size >= 1`, as do `SentenceChunkEnd`, `SentenceSpans` and `SentenceChunks`. The source does not check this. `CHUNK_SIZE` comes from the environment unchecked. With a size of 0 and a non-negative overlap, each window ends where it starts and the loop never ends.
- `HuggingFaceService.HuggingFaceService.constructor`: requires `chunk_size >= 1` for the same reason. The source reads `CHUNK_SIZE` from the environment without a check.
- `AiService.AIService.ChunkText`: requires `chunk_size >= 1` and `overlap <= chunk_size / 2`, as `PdfService.ChunkText` does and for the same reason. The source reads `CHUNK_SIZE` and `OVERLAP_SIZE` from the environment without a check. The constructor takes any sizes.
- `AiService.AIService.AnalyzeReport`: requires the same of the service's sizes, because it chunks the text with `ChunkText`.
- `HuggingFaceService.ExtractEntities`: the word of a "B-" or "I-" token must be a string, or the whole reply falls back to the regex entities. In the source, a "B-" token's word is only stored. A non-string word fails later, when it is extended or saved. A falsy one that is never extended is dropped without an error. The word of an "I-" token of another type is never read. Tokens of any other tag are read whatever their word holds, as the source does.
- `PdfService.ChunkText`: requires `chunk_size >= 1` and `overlap <= chunk_size / 2`. With a size of 0 a window ends where it starts, and with a larger overlap the source's loop can move backwards; either way it need not end. The source's defaults are 4000/200, and the service test uses 1000/100.
- `PdfProcessingRoutes.GetReportMetrics`: the grouped metric views leave out the row `id`.
- `NlpUtils.FallbackSentiment`: the negative explanation keeps the source's wording "More negative terms than negative terms".

## Findings

| source | as written | input that shows it | evidently intended | confidence | as-written member | corrected member |
|---|---|---|---|---|---|---|
| backend/models/database_session.py:66-70 | a SQLite URL of an absolute path is rewritten as "sqlite:////" followed by the path, which already starts with '/' | no `DATABASE_URL` and an absolute project root give "sqlite:////" followed by the absolute default path, five slashes where the comment at line 67 promises four; on Linux the doubled leading slash names the same file, so the defect is the malformed URL | four slashes in all: "sqlite:///" followed by the absolute path | not executed | DatabaseSession.WrittenPathHasExtraSlash | DatabaseSession.CorrectedUrlOpensPath |
| backend/utils/helpers.py:48-57 | every year pattern that matches is read with `group(1)`, but two of the patterns have no group, so `group(1)` raises `IndexError` | "2023 annual report": only the group-less "20\d{2} annual report" pattern matches | the year taken from the matched text itself | not executed | Helpers.YearWithoutGroupRaises | Helpers.ExtractYearCorrectedSpec |
