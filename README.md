# FoaF graph RAG and vector RAG — a Dafny model

The repository holds two question-answering services over the same FOAF
(friend-of-a-friend) social data, plus a benchmark that compares them:

- **foaf-graph-rag** keeps people and their relationships as RDF in a Fuseki
  SPARQL store. An agent classifies each question, asks an LLM for a SPARQL
  query, runs it through the query tool, and phrases the answer with the LLM.
  A plain-text fallback stands in when the LLM fails. The service also
  validates and writes new people and relationships, draws the data and
  ontology graphs, and has an interactive command-line client.
- **foaf-vector-rag** ingests documents into a Chroma collection, chunking
  them by paragraphs with overlap. Its agent retrieves the nearest chunks,
  merges them into one de-duplicated context, and phrases the answer with the
  LLM, or lists the paragraphs when the LLM fails.
- **benchmark** runs a catalogue of questions against both services. An LLM
  judge scores each answer, retrying with backoff on rate limits. The run
  aggregates the scores by category and by difficulty.

Both services keep a bounded in-memory log collector.

The model follows the code, file by file:

- Code that computes values becomes datatypes, functions and lemmas.
- Code that loops or updates state becomes methods proved against those
  functions. The log collector becomes a class whose methods update its
  fields.
- Everything outside the program is an oracle given as a parameter: the LLM,
  the SPARQL server, the Chroma collection, the HTTP transport, file reading,
  the clock and unique ids. The oracle outcome of each call is a value of the
  model.
- Sleeps are not performed. They are returned as the sequence of delays the
  code would sleep.

Shared modules:

| module | contents |
|---|---|
| `Base` | `Option` and `Result` |
| `Strings` | Python's string operations on `seq<char>` (`strip`, `split`, `join`, `replace`, `in`, integer formatting) |
| `Seqs` | order-keeping de-duplication, filtering and slicing with negative indices |
| `SparqlTypes` | result rows of the SPARQL JSON format and the endpoint oracle |
| `Llm` | the retrying LLM invocation both agents use |

## Model

| member | source | states |
|---|---|---|
| BenchmarkCatalog.LoadQueriesKeepsPassing | benchmark/run_benchmark.py:62-74 | the three successive filters keep, in catalog order, exactly the queries passing every supplied filter (one comprehension over their conjunction) |
| BenchmarkCatalog.LoadQueriesMembers | benchmark/run_benchmark.py:68-73 | a query is loaded iff it is in the catalog and its id, category and difficulty pass each supplied filter |
| BenchmarkCatalog.NoFiltersKeepAll | benchmark/run_benchmark.py:68-74 | with no filter supplied (None or empty) the whole catalog comes back unchanged |
| BenchmarkClient.QueryRag | benchmark/run_benchmark.py:77-119 | only a decoded 200 reply can succeed; every other outcome (other status, connect error, timeout, any exception) is a failure with retrieval count 0 and none of the reply-only keys |
| BenchmarkClient.NonOkStatus | benchmark/run_benchmark.py:83-89 | any status other than 200, 201 included, fails with exactly the response "HTTP <code>: " followed by `text[:200]` |
| BenchmarkClient.DecodedReply | benchmark/run_benchmark.py:90-98 | a 200 reply: success, response and latency taken over with defaults false and ""; retrieval count from `retrieval_count`, else `result_count`, else 0 |
| BenchmarkClient.TimeoutLatency | benchmark/run_benchmark.py:106-112 | a read timeout reports "TIMEOUT: Query exceeded time limit" with latency exactly 60 000 ms whatever was measured |
| BenchmarkJudge.JudgeAnswer | benchmark/run_benchmark.py:144-196 | the attempt loop returns exactly the scores, sleeps and number of judge calls of the judge specification |
| BenchmarkJudge.JudgeFromShape | benchmark/run_benchmark.py:164-193 | from any attempt on: at most three calls, a sleep of 5·2^(k-1) s after each rate-limited attempt but the last, every earlier attempt was rate limited, and the scores settle the last attempt's outcome |
| BenchmarkJudge.JudgeShape | benchmark/run_benchmark.py:147-196 | no call is made iff the key is missing or the answer shows a connection error or timeout; at most three calls; the sleeps are a prefix of 5, 10; the "failed after all retries" sentinel is never returned |
| BenchmarkJudge.RateLimitedThrice | benchmark/run_benchmark.py:185-193 | three rate limits: sleeps of 5 and 10 s, three calls, and the third error reported as "Judge error: " + its first 100 characters |
| BenchmarkJudge.UnfenceWrapped | benchmark/run_benchmark.py:171-177 | a reply fenced with a tagged opening line is decoded from the stripped text between the fences |
| BenchmarkJudge.TextScore | benchmark/run_benchmark.py:179-181 | a score given as decimal text is read back by `int()` as the same integer |
| BenchmarkJudge.FloatScore | benchmark/run_benchmark.py:179-181 | `int()` of a float score keeps its integer part, rounding toward zero |
| BenchmarkJudge.FloatScoreExamples | benchmark/run_benchmark.py:179-181 | a score of 8.5 is read as 8 and -8.5 as -8 |
| BenchmarkJudge.NonFiniteScoreFails | benchmark/run_benchmark.py:179-189 | a NaN or infinite correctness score fails the attempt with an error that is not a rate limit, so it is not retried |
| BenchmarkRunner.RunPair | benchmark/run_benchmark.py:231-257 | one target's step: query the target's URL, judge the response, sleep 5 s, record result and scores |
| BenchmarkRunner.RunQuery | benchmark/run_benchmark.py:221-259 | the inner loop fills the `results` dict and the sleeps of one query, target after target |
| BenchmarkRunner.RunBenchmark | benchmark/run_benchmark.py:201-261 | the run's metadata (timestamp, targets, number of queries, judge model) and one entry per query, with all sleeps in order |
| BenchmarkRunner.ResultsKeys | benchmark/run_benchmark.py:231-257 | the results dict of a query has exactly the targets as keys |
| BenchmarkRunner.ResultsLastWins | benchmark/run_benchmark.py:254-257 | a repeated target keeps the result of its last occurrence, as dict assignment does |
| BenchmarkRunner.EntriesShape | benchmark/run_benchmark.py:214-259 | one entry per query, in query order, each built from its own query |
| BenchmarkRunner.SleepsOfQueryLength | benchmark/run_benchmark.py:252 | every (query, target) pair ends with the fixed pause, so a query sleeps at least once per target |
| BenchmarkRunner.SleepsLength | benchmark/run_benchmark.py:214-252 | a run sleeps at least queries × targets times |
| BenchmarkRunner.RunShape | benchmark/run_benchmark.py:201-261 | no failure ends the run early: each entry copies its query's id, text, category and difficulty and holds a result for every target, the pair's own |
| BenchmarkRunner.NoJudgeScores | benchmark/run_benchmark.py:444-450 | under `--no-judge` no judge call is made and every answer scores -1, -1, -1 |
| BenchmarkReport.SumWithin | benchmark/run_benchmark.py:287-297 | a sum of values within bounds lies between n·lo and n·hi |
| BenchmarkReport.MeanWithin | benchmark/run_benchmark.py:287-297 | a mean (0 for an empty list) lies within the bounds of its values |
| BenchmarkReport.ResultsFor | benchmark/run_benchmark.py:283 | one entry per query: the target's result, or none when missing |
| BenchmarkReport.Successful | benchmark/run_benchmark.py:284 | the successful results are at most as many as all results |
| BenchmarkReport.Latencies | benchmark/run_benchmark.py:286 | the latency of each successful result, in order |
| BenchmarkReport.Retrievals | benchmark/run_benchmark.py:288 | the retrieval count of each successful result, in order |
| BenchmarkReport.DimensionScores | benchmark/run_benchmark.py:291-293 | one score per query for the dimension, a missing result or score counting 0 |
| BenchmarkReport.SuccessfulAreSuccesses | benchmark/run_benchmark.py:284 | the kept results are exactly the successful ones |
| BenchmarkReport.FailuresLeaveLatencyAlone | benchmark/run_benchmark.py:284-297 | a failed result changes neither the successful list nor the mean latency, but still counts toward the score averages |
| BenchmarkReport.NoSuccessNoLatency | benchmark/run_benchmark.py:286-289 | with no success the latency and retrieval lists are empty (their averages are 0) |
| BenchmarkReport.TargetStatsBounds | benchmark/run_benchmark.py:281-309 | per target: successes ≤ total = number of queries, the success rate is a percentage, and every average lies within the score bounds |
| BenchmarkReport.DimensionMeanWithin | benchmark/run_benchmark.py:291-297 | a dimension's average over all queries stays within the score bounds |
| BenchmarkReport.PercentWithin | benchmark/run_benchmark.py:303 | the success rate lies between 0 and 100 % |
| BenchmarkReport.Decide | benchmark/run_benchmark.py:329-337 | a tie iff the averages differ by less than 0.5; otherwise the larger wins |
| BenchmarkReport.Rows | benchmark/run_benchmark.py:323-339 | one comparison row per query, in order |
| BenchmarkReport.TallyPartitions | benchmark/run_benchmark.py:319-337 | graph wins, vector wins and ties add up to the number of rows |
| BenchmarkReport.CompareQueries | benchmark/run_benchmark.py:319-341 | the comparison loop computes the rows and the three counters, which add up to the number of queries |
| BenchmarkReport.TargetAverages | benchmark/run_benchmark.py:326-327 | one entry per query of the bucket, in order, each the average of that pipeline's three scores for the query |
| BenchmarkReport.Categories | benchmark/run_benchmark.py:344 | the category of each query, in order |
| BenchmarkReport.BucketFor | benchmark/run_benchmark.py:351-363 | one breakdown row: the loop over the bucket's queries computes the bucket's graph and vector means and winner |
| BenchmarkReport.TargetSection | benchmark/run_benchmark.py:281-309 | the per-target loop computes each target's statistics, in target order |
| BenchmarkReport.CategoryBreakdown | benchmark/run_benchmark.py:344-363 | the category loop gives one bucket per category listed |
| BenchmarkReport.DifficultyBreakdown | benchmark/run_benchmark.py:366-387 | the difficulty loop gives one bucket per difficulty some query has |
| BenchmarkReport.GenerateReport | benchmark/run_benchmark.py:266-390 | the report: per-target statistics, and with two targets the comparison rows, tallies and both breakdowns |
| BenchmarkReport.Names | benchmark/run_benchmark.py:351-387 | the names of the breakdown rows, in order |
| BenchmarkReport.CategoryBucketsNamed | benchmark/run_benchmark.py:351-363 | the category breakdown has exactly one row per listed category, in order |
| BenchmarkReport.DifficultyBucketsNamed | benchmark/run_benchmark.py:373-376 | the difficulty breakdown skips exactly the difficulties no query has |
| BenchmarkReport.CategoryBreakdownShape | benchmark/run_benchmark.py:344-351 | the category rows are sorted, distinct, and name exactly the categories the queries have |
| BenchmarkReport.CategoriesMembers | benchmark/run_benchmark.py:344 | a category is listed iff some query has it |
| BenchmarkReport.DifficultyBreakdownShape | benchmark/run_benchmark.py:366-387 | the difficulty rows list, in the order easy, medium, hard, exactly those of the three some query has; any other difficulty is never reported |
| BenchmarkReport.OccursIff | benchmark/run_benchmark.py:374-376 | a difficulty is kept iff some query has it |
| BenchmarkReport.TallyShape | benchmark/run_benchmark.py:319-341 | every query lands in exactly one tally, its winner decided from its two averages |
| BenchmarkReport.QueryAverageWithin | benchmark/run_benchmark.py:324-327 | a row's average stays within the score bounds |
| Chunking.CollapseNewlines | foaf-vector-rag/data/ingest.py:87 | the result has no run of three newlines, is no longer than the input, keeps a first character that is not a newline, and keeps blank text blank |
| Chunking.CollapseKeepsClean | foaf-vector-rag/data/ingest.py:87 | text without a run of three or more newlines is left unchanged |
| Chunking.NonBlank | foaf-vector-rag/data/ingest.py:90 | every kept piece is non-empty and stripped |
| Chunking.Paragraphs | foaf-vector-rag/data/ingest.py:87-90 | every paragraph is non-empty and stripped |
| Chunking.BlankHasNoParagraphs | foaf-vector-rag/data/ingest.py:90 | empty or whitespace-only text has no paragraphs |
| Chunking.CutAtSentence | foaf-vector-rag/data/ingest.py:109-111 | the overlap is a suffix; cut after the last ". " when it occurs past index 0, so no ". " is left; kept whole when it is at index 0 or absent |
| Chunking.Overlap | foaf-vector-rag/data/ingest.py:107-111 | the carried overlap is a suffix of the chunk of at most `chunk_overlap` characters (none for 0) |
| Chunking.OverlapAgrees | foaf-vector-rag/data/ingest.py:107 | for a positive overlap setting the corrected overlap is the one the code computes |
| Chunking.ZeroOverlapCarriesWholeChunk | foaf-vector-rag/data/ingest.py:107 | with `chunk_overlap` 0 the code carries the whole previous chunk (`s[-0:]` is all of `s`), the corrected overlap nothing |
| Chunking.ZeroOverlapExample | foaf-vector-rag/data/ingest.py:107 | the chunk "aaa" with overlap 0 is carried whole by the code |
| Chunking.OverlapAsWrittenSuffix | foaf-vector-rag/data/ingest.py:107-111 | the overlap the code carries is a suffix of the flushed chunk, at most `chunk_overlap` characters when that is positive |
| Chunking.ZeroOverlapRepeatsChunk | foaf-vector-rag/data/ingest.py:97-131 | with chunk size 5 and overlap 0 the paragraphs "aaa" and "bbb" give the chunks "aaa" and "aaa\n\nbbb", both starting at 0 |
| Chunking.ChunkText | foaf-vector-rag/data/ingest.py:77-131 | the method computes exactly the chunks of the chunking specification, whose overlap is `current_chunk[-chunk_overlap:]` as the code writes it, so a `chunk_overlap` of 0 carries the whole chunk |
| Chunking.PackParagraphs | foaf-vector-rag/data/ingest.py:92-131 | the paragraph loop ends in the state folded over all paragraphs, then keeps the last non-blank chunk |
| Chunking.FoldParagraphs | foaf-vector-rag/data/ingest.py:91-120 | after the loop the four variables hold the state folded over every paragraph, one round per paragraph |
| Chunking.KeepLast | foaf-vector-rag/data/ingest.py:122-129 | the text still collected becomes one more chunk, spanning its stripped text from its start, exactly when it is not blank |
| Chunking.AddParagraph | foaf-vector-rag/data/ingest.py:97-121 | one round: flush with the code's overlap when the paragraph would overflow a non-empty chunk, then append it and advance `char_pos` by its length + 2 |
| Chunking.FlushChunk | foaf-vector-rag/data/ingest.py:99-113 | emit the stripped chunk with its start and end, then restart from the overlap the code computes (`current_chunk[-chunk_overlap:]` when the chunk is longer, then the sentence cut) at the start shifted by what was dropped |
| Chunking.ChunksShape | foaf-vector-rag/data/ingest.py:77-131 | for every chunk size and every `chunk_overlap`, including 0 and negative ones: no chunks iff no paragraphs; every chunk's text lies at its recorded span of the joined paragraphs; every paragraph lies whole inside some chunk |
| Chunking.BlankTextNoChunks | foaf-vector-rag/data/ingest.py:90-131 | empty or whitespace-only text gives no chunks |
| Ingest.SplitExt | foaf-vector-rag/data/ingest.py:68 | the extension is empty or a dot followed by no other dot, and it ends the name |
| Ingest.BaseNameOfJoin | foaf-vector-rag/data/ingest.py:72 | the base name of a path joined from a directory and an entry is that entry |
| Ingest.SplitExtOf | foaf-vector-rag/data/ingest.py:68 | a name with a real stem has the text from its last dot on as its extension |
| Ingest.ExtensionOfName | foaf-vector-rag/data/ingest.py:68-69 | the extension checked is the last-dot suffix in lower case (`Report.PDF` and `a.b.pdf` both give `.pdf`) |
| Ingest.LoadDocument | foaf-vector-rag/data/ingest.py:63-72 | loaded iff the extension is supported and the loader succeeds, returning the text and the base name; an unsupported extension raises the format error naming it |
| Ingest.JoinAll | foaf-vector-rag/data/ingest.py:234 | each kept name joined to the directory, in order |
| Ingest.FindDocuments | foaf-vector-rag/data/ingest.py:228-235 | the method computes exactly the supported entries of the sorted listing, joined to the directory |
| Ingest.KeepDocuments | foaf-vector-rag/data/ingest.py:231-234 | the loop keeps exactly the entries with a supported extension, in order |
| Ingest.FoundDocuments | foaf-vector-rag/data/ingest.py:228-235 | the found names are sorted and are exactly the listed entries with a supported extension; every path found is accepted by `load_document` |
| Ingest.Tagged | foaf-vector-rag/data/ingest.py:156-160 | every chunk of a file gains its file name, path, index and the file's chunk count |
| Ingest.Tag | foaf-vector-rag/data/ingest.py:156-160 | the `enumerate` loop computes exactly those tagged chunks |
| Ingest.UnsupportedSkipped | foaf-vector-rag/data/ingest.py:150-165 | a file with an unsupported extension contributes no chunks and does not stop the run |
| Ingest.PrepareRecords | foaf-vector-rag/data/ingest.py:183-198 | the loop fills ids, documents and metadatas with one entry per chunk, in order |
| Ingest.FileRecords | foaf-vector-rag/data/ingest.py:155-198 | a file's chunks are numbered 0.. with the file's total; each metadata's character count is the width of its span; ids within a file differ |
| Ingest.TaggedRecords | foaf-vector-rag/data/ingest.py:188-197 | for chunks whose span fits their text: the character count is the span's width and the ids differ |
| Ingest.ChunkIdsDiffer | foaf-vector-rag/data/ingest.py:188 | two chunk indices give two different `file::chunk_NNNN` ids |
| Ingest.BatchUpsert | foaf-vector-rag/data/ingest.py:215-223 | the batch loop issues exactly the upserts of consecutive slices from offset 0 |
| Ingest.BatchesCover | foaf-vector-rag/data/ingest.py:215-223 | the batches cover the ids, documents and metadatas exactly once, in order, cut at the same offsets |
| Ingest.BatchesCoverIds | foaf-vector-rag/data/ingest.py:217-220 | from offset i the batches' ids concatenate to the ids from i on |
| Ingest.BatchesCoverDocuments | foaf-vector-rag/data/ingest.py:217-221 | from offset i the batches' documents concatenate to the documents from i on |
| Ingest.BatchesCoverMetadatas | foaf-vector-rag/data/ingest.py:217-222 | from offset i the batches' metadatas concatenate to the metadatas from i on |
| Ingest.BatchesBounded | foaf-vector-rag/data/ingest.py:217-223 | every batch holds between one and `batch_size` records, as many documents and metadatas as ids |
| Ingest.Ingest | foaf-vector-rag/data/ingest.py:139-212 | the pipeline issues exactly the store operations of the ingestion specification |
| Ingest.LoadAll | foaf-vector-rag/data/ingest.py:149-165 | the loading loop collects every file's tagged chunks, skipping files that raise |
| Ingest.LoadFile | foaf-vector-rag/data/ingest.py:151-161 | one path's chunks: load, chunk, tag |
| Ingest.IngestShape | foaf-vector-rag/data/ingest.py:139-223 | nothing reaches the store iff no chunks were made; the collection is deleted first iff `reset`; every chunk is upserted once, in order, with its id, text and metadata, in batches of at most 100 |
| Ingest.StoreOpsShape | foaf-vector-rag/data/ingest.py:167-207 | the same, for the store steps given the collected chunks |
| LogCollector.NewEntry | foaf-graph-rag/app/utils/log_collector.py:23-37 | the entry keeps its type, status, title and message; a missing `details` becomes the empty dict |
| LogCollector.ToDict | foaf-graph-rag/app/utils/log_collector.py:39-48 | the dict has exactly the seven keys |
| LogCollector.ToDictRoundTrip | foaf-vector-rag/app/utils/log_collector.py:37-46 | the entry can be read back from its dict unchanged: no field is lost |
| LogCollector.WindowShape | foaf-graph-rag/app/utils/log_collector.py:66-67 | trimming keeps a suffix: the last `max` entries for a positive bound, everything for 0 (`[-0:]`), and drops the first `-max` entries for a negative bound |
| LogCollector.WindowAfterAdd | foaf-graph-rag/app/utils/log_collector.py:62-67 | after an append the window is still the newest entries of everything added, never more than a positive bound |
| LogCollector.SinceWindow | foaf-graph-rag/app/utils/log_collector.py:73-78 | polling from an index returns exactly the added entries at or after that index that the window still holds: all held ones when the index is old, none once it reaches the counter |
| LogCollector.Collector.constructor | foaf-graph-rag/app/utils/log_collector.py:56-60 | a new collector is empty with counter 0 and the given bound |
| LogCollector.Collector.AddEntry | foaf-graph-rag/app/utils/log_collector.py:62-67 | the entry joins the log, the counter goes up by one, the held entries become the trimmed window, and the collector invariant is kept |
| LogCollector.Collector.Counter | foaf-vector-rag/app/utils/log_collector.py:64-66 | the counter is the number of entries added since the last clear |
| LogCollector.Collector.Evicted | foaf-graph-rag/app/utils/log_collector.py:75 | `counter - len(entries)` is between 0 and the counter and the held entries are the log from there on |
| LogCollector.Collector.EntriesSince | foaf-graph-rag/app/utils/log_collector.py:73-78 | the dicts of the log from the later of the index and the oldest held entry; nothing when the index reaches the counter |
| LogCollector.Collector.GetAll | foaf-vector-rag/app/utils/log_collector.py:74-75 | one dict per held entry, in order |
| LogCollector.Collector.Clear | foaf-vector-rag/app/utils/log_collector.py:77-79 | the entries and the counter are reset and the bound is kept |
| LogCollector.PollNewest | foaf-graph-rag/app/utils/log_collector.py:97-105 | a poller that last saw counter `n - 1` receives exactly the newest entry |
| Validator.ValidatePerson | foaf-graph-rag/app/graph/validator.py:20-36 | accepted iff the name is present, the age is absent or an integer in 0..150 and the gender is absent or one of the four values in any case; otherwise the first failing check in the order name, age, gender gives the error |
| Validator.GenderIgnoresCase | foaf-graph-rag/app/graph/validator.py:33 | any casing of an accepted gender passes |
| Validator.AgeBounds | foaf-graph-rag/app/graph/validator.py:25-31 | an integer age, given as a number or as its decimal text, passes iff it lies in 0..150 inclusive |
| Validator.RelationshipError | foaf-graph-rag/app/graph/validator.py:42 | the message names the rejected predicate and lists every valid type once, in sorted order, joined by ", " |
| Validator.ValidateRelationship | foaf-graph-rag/app/graph/validator.py:39-43 | accepted iff the predicate is one of the eight names; a rejection carries the listing message |
| Validator.ReplaceAllChar | foaf-graph-rag/app/graph/validator.py:48 | replacing a one-character text is a per-character substitution |
| Validator.ReplaceCharAppend | foaf-graph-rag/app/graph/validator.py:48 | a per-character substitution distributes over concatenation |
| Validator.ChainEscapes | foaf-graph-rag/app/graph/validator.py:48 | the chain of three replacements equals the one-pass escape of backslash and both quotes |
| Validator.SanitizeEscapes | foaf-graph-rag/app/graph/validator.py:46-48 | `sanitize_sparql_string` escapes each special character exactly once, because backslashes are replaced first |
| Validator.EscapeLength | foaf-graph-rag/app/graph/validator.py:48 | escaping adds one character per backslash or quote |
| Validator.EscapeIdentity | foaf-graph-rag/app/graph/validator.py:48 | text with no backslash or quote is left unchanged |
| Validator.UnescapeEscape | foaf-graph-rag/app/graph/validator.py:48 | reading the escaped text back gives the original |
| Validator.EscapedQuotes | foaf-graph-rag/app/graph/validator.py:46-48 | every quote in the sanitized text is preceded by a backslash, so a value cannot close the literal it is placed in |
| Validator.SanitizeSpec | foaf-graph-rag/app/graph/validator.py:46-48 | sanitizing is undone by unescaping, adds one character per special character and leaves plain text alone |
| Helpers.UriToId | foaf-graph-rag/app/utils/helpers.py:8-10 | the id has no `/`, ends the URI, and is preceded by a `/` when it is not the whole URI: the last segment |
| Helpers.UriToIdWhole | foaf-vector-rag/app/utils/helpers.py:8-10 | a text without `/` is its own id |
| Helpers.UriToIdAfterSlash | foaf-graph-rag/app/utils/helpers.py:8-10 | the id of `prefix/id` is `id` |
| Helpers.IdToUri | foaf-graph-rag/app/utils/helpers.py:13-17 | an id starting with "http" is returned as is; otherwise the namespace is prefixed |
| Helpers.IdRoundTrip | foaf-graph-rag/app/utils/helpers.py:8-17 | an id without `/` that does not start with "http" survives `id_to_uri` then `uri_to_id` |
| Helpers.UriRoundTrip | foaf-graph-rag/app/utils/helpers.py:8-17 | a person URI in the default namespace is rebuilt from its id |
| Helpers.ResolvePredicate | foaf-graph-rag/app/utils/helpers.py:32-36 | a URI is kept, a short name in the map becomes its URI, any other name passes through |
| Helpers.PurlPredicates | foaf-graph-rag/app/utils/helpers.py:21-25 | the five family and friend names map into the relationship vocabulary |
| Helpers.LocalPredicates | foaf-graph-rag/app/utils/helpers.py:26-28 | colleague and neighbour map into the project namespace, `knows` into FOAF |
| Helpers.MapValuesAreUris | foaf-graph-rag/app/utils/helpers.py:20-29 | every value of the map starts with "http://" |
| Helpers.ResolveIdempotent | foaf-graph-rag/app/utils/helpers.py:32-36 | resolving a resolved predicate changes nothing |
| Helpers.MapCoversValidRelationships | foaf-graph-rag/app/utils/helpers.py:20-29 | the map resolves exactly the eight names the validator accepts |
| Helpers.VectorMapsAgree | foaf-vector-rag/app/utils/helpers.py:13-38 | every relationship with a prefixed name has a label and the other way round |
| Helpers.VectorNamesDeclared | foaf-vector-rag/app/utils/helpers.py:13-24 | every relationship's prefixed name is a prefix declared in the SPARQL prefix block followed by the relationship's own name |
| Helpers.VectorMapExtendsGraphMap | foaf-vector-rag/app/utils/helpers.py:13-24 | the vector service names the graph service's eight relationships plus ancestor and descendant |
| QueryBuilder.SearchPersonByName | foaf-graph-rag/app/graph/query_builder.py:29-45 | the query starts with the prefixes, reads the data graph, filters by a substring test and ends with `LIMIT 10`, so at most ten hits come back |
| QueryBuilder.SearchIncludesName | foaf-graph-rag/app/graph/query_builder.py:41 | the name is spliced into the lower-cased filter literal as given |
| QueryBuilder.PersonDetails | foaf-graph-rag/app/graph/query_builder.py:48-56 | the query reads every predicate and value of the person from the data graph |
| QueryBuilder.PersonRelationships | foaf-graph-rag/app/graph/query_builder.py:59-89 | the query unions the person as subject and as object of a relationship, in the data graph |
| QueryBuilder.NextPersonIdQuery | foaf-graph-rag/app/graph/query_builder.py:92-98 | the query counts the persons of the data graph |
| QueryBuilder.InsertPerson | foaf-graph-rag/app/graph/query_builder.py:101-108 | the query inserts the given triples into the data graph |
| QueryBuilder.InsertRelationship | foaf-graph-rag/app/graph/query_builder.py:111-118 | the query inserts the one triple subject, predicate, object into the data graph |
| QueryBuilder.AllPersons | foaf-graph-rag/app/graph/query_builder.py:121-135 | the query reads the data graph, orders by name and carries the given limit |
| QueryBuilder.OntologyClasses | foaf-graph-rag/app/graph/query_builder.py:140-151 | the query reads the OWL classes of the ontology graph |
| QueryBuilder.OntologyProperties | foaf-graph-rag/app/graph/query_builder.py:154-168 | the query reads the object and datatype properties of the ontology graph |
| QueryBuilder.FullOntology | foaf-graph-rag/app/graph/query_builder.py:171-180 | the query reads every triple of the ontology graph |
| GraphTools.ExecuteSparqlQuery | foaf-graph-rag/app/agent/tools.py:15-42 | the query's body after its declarations decides: SELECT, ASK, INSERT or DELETE sends the whole query as that kind of request and reports the rows with their count, the answer, or the fixed update message, or the server's error; any other body is refused, naming its first 30 characters, and nothing is sent |
| GraphTools.ExecuteIgnoresDeclarations | foaf-graph-rag/app/agent/tools.py:27-37 | well-formed PREFIX declarations in front of a query do not change the kind of request sent |
| GraphTools.ExecuteDeclaredSelect | foaf-graph-rag/app/agent/tools.py:27-31 | declarations, whitespace and SELECT: the whole text is sent as a SELECT |
| GraphTools.ExecuteDeclaredInsert | foaf-graph-rag/app/agent/tools.py:27-37 | declarations, whitespace and INSERT: the whole text is sent as an update |
| GraphTools.SearchQueryEscapes | foaf-graph-rag/app/agent/tools.py:56-57 | the search query carries the name with backslashes and quotes escaped, in the data graph |
| GraphTools.SearchPersonByName | foaf-graph-rag/app/agent/tools.py:46-62 | one SELECT of the escaped-name search; the rows with their count, or the server's error |
| GraphTools.ResolveName | foaf-graph-rag/app/agent/tools.py:77-85 | a value starting with "http" is used as given with no request; otherwise one search, whose first row's `person` is taken, an empty search giving the "No person found" error |
| GraphTools.GetPersonRelationships | foaf-graph-rag/app/agent/tools.py:66-92 | resolve the name, then one SELECT of the relationships of the URI; a failed resolution is reported and nothing more is sent |
| GraphTools.RelationshipsOfUri | foaf-graph-rag/app/agent/tools.py:84-88 | a URI costs exactly one request, for its relationships |
| GraphTools.RelationshipsOfUnknownName | foaf-graph-rag/app/agent/tools.py:77-82 | a name nobody has: one search and the error naming it |
| GraphTools.ServiceRelationshipsQuery | foaf-graph-rag/app/agent/tools.py:87 | the relationship query asks for the URI at either end |
| GraphTools.CountOf | foaf-graph-rag/app/agent/tools.py:138-139 | no rows count as 0; otherwise the first row's `count` parsed as an integer, or an error |
| GraphTools.ServiceInsertPerson | foaf-graph-rag/app/agent/tools.py:176-178 | the insert query writes the joined triple string into the data graph |
| GraphTools.FieldTriplesSnoc | foaf-graph-rag/app/agent/tools.py:150-171 | each optional field adds its triple exactly when its value is truthy |
| GraphTools.AppendField | foaf-graph-rag/app/agent/tools.py:150-151 | one `if value: triples.append(...)` step extends the triples by that field's contribution |
| GraphTools.AppendFields | foaf-graph-rag/app/agent/tools.py:150-171 | the eleven guarded appends add exactly the triples of the truthy fields, in order |
| GraphTools.BuildTriples | foaf-graph-rag/app/agent/tools.py:143-174 | the triples built one by one are the person's triple list |
| GraphTools.AddPersonToGraph | foaf-graph-rag/app/agent/tools.py:96-184 | invalid data is refused before anything is sent; otherwise one count request, then one insert of the triples under the URI numbered count + 1; each failure is reported |
| GraphTools.PersonIdInjective | foaf-graph-rag/app/agent/tools.py:140 | different counts give different person ids |
| GraphTools.FirstPersonId | foaf-graph-rag/app/agent/tools.py:139-140 | with no persons yet the first id is person001 |
| GraphTools.PersonUriId | foaf-graph-rag/app/agent/tools.py:140-141 | `uri_to_id` reads the new person's id back off its URI |
| GraphTools.FieldTriplesAbout | foaf-graph-rag/app/agent/tools.py:150-171 | every optional triple is about the new person |
| GraphTools.PersonTriplesShape | foaf-graph-rag/app/agent/tools.py:143-174 | the type triple, then the name, then the age when given, and the creation time last; every triple is about the new person |
| GraphTools.AgeZeroWritten | foaf-graph-rag/app/agent/tools.py:148-149 | an age of 0 is written, since the test is `is not None` |
| GraphTools.FieldTriplesTruthy | foaf-graph-rag/app/agent/tools.py:150-171 | field lists that differ only in untruthy values give the same triples |
| GraphTools.EmptyFieldsIgnored | foaf-graph-rag/app/agent/tools.py:150-171 | empty strings for the optional fields give the same triples as leaving them out |
| GraphTools.TripleStringEnds | foaf-graph-rag/app/agent/tools.py:176 | the triple string opens with the type triple and closes with the creation triple and " ." |
| GraphTools.JoinFirst | foaf-graph-rag/app/agent/tools.py:176 | a join starts with its first part |
| GraphTools.AddRelationshipToGraph | foaf-graph-rag/app/agent/tools.py:187-228 | an invalid predicate is refused before anything is sent; the subject, then the object, are resolved, the first failure stopping the tool; then one insert of the triple with the resolved predicate |
| GraphTools.GetOntologySchema | foaf-graph-rag/app/agent/tools.py:235-256 | the classes then the properties of the ontology graph with their counts; a failing first request stops before the second |
| PrefixStrip.Scan | foaf-graph-rag/app/agent/tools.py:27 | the reader of one declaration of the pattern consumes at most the text, and at least the six keyword letters |
| PrefixStrip.DeclLength | foaf-graph-rag/app/agent/tools.py:27 | a declaration found at the start is non-empty and within the text |
| PrefixStrip.DeclsLength | foaf-graph-rag/app/agent/tools.py:27 | the repeated group removes a prefix of the text |
| PrefixStrip.QueryBody | foaf-graph-rag/app/agent/tools.py:27 | the body the tool dispatches on is no longer than the query |
| PrefixStrip.SpacesInvisible | foaf-graph-rag/app/agent/tools.py:27 | whitespace in front of a query does not change its body |
| PrefixStrip.TailMatch | foaf-graph-rag/app/agent/tools.py:27 | after the closing `>` the pattern takes the whitespace and stops before anything that is not a dot |
| PrefixStrip.DeclMatch | foaf-graph-rag/app/agent/tools.py:27 | one well-formed declaration is matched up to the first character after the whitespace that follows it |
| PrefixStrip.DeclInvisible | foaf-graph-rag/app/agent/tools.py:27 | a well-formed declaration in front of a query does not change its body, unless the query starts with a dot |
| PrefixStrip.BlockInvisible | foaf-graph-rag/app/agent/tools.py:27 | a whole block of well-formed declarations is removed |
| PrefixStrip.PrefixTableWellFormed | foaf-graph-rag/app/graph/query_builder.py:15-24 | the service's own eight declarations are well formed, so the pattern removes them |
| PrefixStrip.PlainBody | foaf-graph-rag/app/agent/tools.py:27 | a query without declarations whose first word is an upper-case keyword has a body starting with it |
| PrefixStrip.DeclaredKind | foaf-graph-rag/app/agent/tools.py:27-35 | well-formed declarations in front of a query do not change the body the tool reads |
| PrefixStrip.SelectKind | foaf-graph-rag/app/agent/tools.py:29 | a body starting with SELECT is dispatched as a SELECT |
| PrefixStrip.InsertKind | foaf-graph-rag/app/agent/tools.py:35 | a body starting with INSERT is dispatched as an update |
| PrefixStrip.SelectQueryKind | foaf-graph-rag/app/agent/tools.py:27-31 | declarations, whitespace and SELECT are dispatched as a SELECT |
| PrefixStrip.InsertQueryKind | foaf-graph-rag/app/agent/tools.py:27-37 | declarations, whitespace and INSERT are dispatched as an update |
| GraphViz.GenderColor | foaf-graph-rag/app/api/graph_viz.py:81-82 | male and female get their own colours and every other value, the empty one included, the third |
| GraphViz.TooltipLines | foaf-graph-rag/app/api/graph_viz.py:84-90 | the tooltip is the name and id head followed by the age, job and city lines exactly for the non-empty values, in that order |
| GraphViz.AppendOptional | foaf-graph-rag/app/api/graph_viz.py:85-90 | one `if value: title += ...` step appends that value's line or nothing |
| GraphViz.DataGraphOf | foaf-graph-rag/app/api/graph_viz.py:13-150 | the view is built iff both queries succeed and every binding has the keys read from it; the counts are the lengths of the node and edge lists |
| GraphViz.PersonNodesErr | foaf-graph-rag/app/api/graph_viz.py:68-100 | a binding that raises ends the node loop with that error |
| GraphViz.RelEdgesErr | foaf-graph-rag/app/api/graph_viz.py:116-138 | a binding that raises ends the edge loop with that error |
| GraphViz.GetDataGraph | foaf-graph-rag/app/api/graph_viz.py:65-147 | the node loop then the edge loop compute exactly the data view |
| GraphViz.PersonNodesDistinct | foaf-graph-rag/app/api/graph_viz.py:70-73 | node ids are distinct: a repeated person is skipped |
| GraphViz.PersonNodesCover | foaf-graph-rag/app/api/graph_viz.py:68-73 | every binding's id has a node |
| GraphViz.PersonNodesFirst | foaf-graph-rag/app/api/graph_viz.py:68-100 | every node is made from the first binding with its id |
| GraphViz.AddRelStep | foaf-graph-rag/app/api/graph_viz.py:116-138 | one binding adds its edge exactly when both ends are nodes and its key is new, and otherwise leaves the edges alone |
| GraphViz.RelEdgesSound | foaf-graph-rag/app/api/graph_viz.py:114-138 | every edge joins two nodes, no two edges share a key, every edge comes from a binding, and every binding between two nodes has its key among the edges |
| GraphViz.DataEdgesJoinNodes | foaf-graph-rag/app/api/graph_viz.py:65-147 | the data view's edges join its own nodes |
| GraphViz.ShortName | foaf-graph-rag/app/api/graph_viz.py:196 | the short name has no `/` and no `#` |
| GraphViz.NodeIdClean | foaf-graph-rag/app/api/graph_viz.py:193 | an ontology node id has no `/`, `#` or `.` |
| GraphViz.ShortValue | foaf-graph-rag/app/api/graph_viz.py:260 | a literal label is the value when it has at most 20 characters, otherwise its first 17 followed by "..." |
| GraphViz.AddNodeConsistent | foaf-graph-rag/app/api/graph_viz.py:199-210 | adding a node if absent keeps the build consistent and keeps the existing nodes and edges |
| GraphViz.RetypeConsistent | foaf-graph-rag/app/api/graph_viz.py:213-227 | recording a type keeps the build consistent and the node set unchanged |
| GraphViz.AddEdgeConsistent | foaf-graph-rag/app/api/graph_viz.py:248-280 | an edge between two existing nodes keeps the build consistent |
| GraphViz.AddTripleConsistent | foaf-graph-rag/app/api/graph_viz.py:186-280 | one triple keeps the build consistent |
| GraphViz.OntologyConsistent | foaf-graph-rag/app/api/graph_viz.py:186-280 | the whole loop over the triples yields a consistent build |
| GraphViz.OntologyBuildErr | foaf-graph-rag/app/api/graph_viz.py:186-190 | a triple that raises ends the loop with that error |
| GraphViz.OntologyGraphOf | foaf-graph-rag/app/api/graph_viz.py:153-299 | the view is built iff the query succeeds and every triple has the keys read from it; the counts are the list lengths |
| GraphViz.OntologyViewShape | foaf-graph-rag/app/api/graph_viz.py:153-296 | node ids are distinct, every edge joins listed nodes, and no solid edge comes from a type triple |
| GraphViz.TypeTripleNoEdge | foaf-graph-rag/app/api/graph_viz.py:247-248 | a type triple with a resource object adds no edge |
| GraphViz.TypeStylePrecedence | foaf-graph-rag/app/api/graph_viz.py:216-227 | `Class` wins over the property types and `ObjectProperty` over `DatatypeProperty`; no match leaves the style alone |
| GraphViz.GetOntologyGraph | foaf-graph-rag/app/api/graph_viz.py:172-296 | the loop and the node listing compute exactly the ontology view |
| GraphViz.BuildOntology | foaf-graph-rag/app/api/graph_viz.py:186-280 | the loop filling the node dict and edge list in place computes the build |
| GraphViz.ListNodes | foaf-graph-rag/app/api/graph_viz.py:283-287 | the node list holds each node once, in insertion order |
| GraphViz.EdgeColorsNameRelationships | foaf-graph-rag/app/api/graph_viz.py:103-134 | the colour table names exactly the eight relationships the service writes; any other type gets the default colour |
| Llm.RetryLoop | foaf-graph-rag/app/agent/graph_agent.py:30-41 | the attempt loop computes exactly the retry specification: the ending, the waits slept and the number of calls |
| Llm.RetryFromShape | foaf-graph-rag/app/agent/graph_agent.py:30-41 | every attempt before the last was rate limited; the calls stay within the budget; the waits are 2, 4, 8, ... seconds, one per rate limit; a reply or a non-rate-limit error is the last call's; exhaustion comes after the full budget |
| Llm.ThreeRateLimits | foaf-vector-rag/app/agent/vector_agent.py:29-40 | three rate limits in a row exhaust a budget of three after waiting 2, 4 and 8 seconds |
| Retriever.FirstList | foaf-vector-rag/app/vector/retriever.py:46-48 | a missing reply key gives no items, an empty outer list raises, otherwise the first inner list |
| Retriever.Zip3 | foaf-vector-rag/app/vector/retriever.py:50 | as many hits as the shortest column, each pairing the columns at its position |
| Retriever.Texts | foaf-vector-rag/app/vector/retriever.py:64 | one stripped text per hit, in order |
| Retriever.ZipHits | foaf-vector-rag/app/vector/retriever.py:50-55 | the loop over the zipped columns builds exactly the zipped hits |
| Retriever.FetchHits | foaf-vector-rag/app/vector/retriever.py:33-55 | count, query for `min(top_k, count)`, read the three columns; an empty collection gives no hits and no query; any failure is returned as the error |
| Retriever.MergeContext | foaf-vector-rag/app/vector/retriever.py:61-67 | the loop with the `seen` set keeps each stripped text at its first occurrence |
| Retriever.RetrieveDocuments | foaf-vector-rag/app/vector/retriever.py:18-78 | the documents are the fetched hits or none on a failure, the context their distinct stripped texts joined by a blank line, the count the number of hits |
| Retriever.SearchChunks | foaf-vector-rag/app/vector/retriever.py:81-110 | success with the hits and their count, or failure with the error, no chunks and a count of 0 |
| Retriever.EmptyCollection | foaf-vector-rag/app/vector/retriever.py:35-38 | an empty collection yields no documents, an empty context and a count of 0 |
| Retriever.FailureSwallowed | foaf-vector-rag/app/vector/retriever.py:57-58 | a failure of the count, the query or a column is swallowed and leaves nothing retrieved |
| Retriever.RequestSize | foaf-vector-rag/app/vector/retriever.py:28-44 | the query asks for `min(top_k, count)` results, `top_k` defaulting to 10, and the documents are its hits |
| Retriever.ContextShape | foaf-vector-rag/app/vector/retriever.py:60-77 | the context joins the distinct stripped texts, none repeated, each a hit's and every hit's among them; the count is of all hits, at least the number of parts |
| Retriever.ContextOrder | foaf-vector-rag/app/vector/retriever.py:61-67 | the merged context keeps each text's first occurrence, in order |
| Retriever.ChunkSearchShape | foaf-vector-rag/app/vector/retriever.py:81-110 | the count is the number of chunks; success iff no error; a failure returns no chunks; an empty collection succeeds with none |
| AgentCommon.InvokeWithRetry | foaf-graph-rag/app/agent/graph_agent.py:27-41 | the method computes the invocation: the reply, the re-raised error, or the fixed exhaustion error |
| AgentCommon.InvocationShape | foaf-vector-rag/app/agent/vector_agent.py:26-40 | at most three calls with 2, 4, 8 second waits after rate limits; a reply is the last call's; another error is re-raised at once; the fixed exception comes exactly when all three calls were rate limited |
| AgentCommon.IntentPrecedence | foaf-graph-rag/app/agent/graph_agent.py:60-71 | the classifier never yields `error`, and each intent holds exactly when its pattern matches and no earlier one does |
| AgentCommon.LowerKeepsWord | foaf-graph-rag/app/agent/graph_agent.py:46-57 | matching ignoring case finds a lower-case word where it occurs in the query |
| AgentCommon.AddPersonRequest | foaf-graph-rag/app/agent/graph_agent.py:46-49 | "add a person ..." on one line is classified as adding a person |
| AgentCommon.RouteByIntent | foaf-vector-rag/app/agent/vector_agent.py:170-177 | only the intent "error" leads to the error handler |
| AgentCommon.HandleErrorUnreachable | foaf-graph-rag/app/agent/graph_agent.py:203-210 | given the classifier, the error handler is never reached |
| QueryGenerator.Messages | foaf-graph-rag/app/llm/query_generator.py:106-109 | the system prompt, then one human message naming the intent and ending with the request |
| QueryGenerator.LimitAtUnique | foaf-graph-rag/app/llm/query_generator.py:125 | `LIMIT\s*$` can match only just before the trailing whitespace |
| QueryGenerator.TrailingLimit | foaf-graph-rag/app/llm/query_generator.py:125 | finds the match of `LIMIT\s*$`, ignoring case, exactly when there is one |
| QueryGenerator.GenerateSparql | foaf-graph-rag/app/llm/query_generator.py:101-142 | the attempt loop computes exactly the generation: the cleaned query or the raised error, the waits and the calls |
| QueryGenerator.GenerationShape | foaf-graph-rag/app/llm/query_generator.py:111-142 | at most three calls with the same two messages; waits of 2, 4, 8 seconds after rate limits; a reply is cleaned and returned; a non-rate-limit error is re-raised at once; after three rate limits the last error is raised |
| QueryGenerator.ThreeRateLimitsRaise | foaf-graph-rag/app/llm/query_generator.py:133-142 | three rate limits wait 2, 4 and 8 seconds and then raise the third error |
| QueryGenerator.NoBareLimit | foaf-graph-rag/app/llm/query_generator.py:124-126 | after the repair the query never ends in a bare LIMIT |
| QueryGenerator.FixLimitIdempotent | foaf-graph-rag/app/llm/query_generator.py:124-126 | repairing twice is repairing once, and a query without a bare LIMIT is left alone |
| QueryGenerator.FencedJoin | foaf-graph-rag/app/llm/query_generator.py:118-121 | a fenced block is the fence line, the query lines and the closing fence, joined by line breaks |
| QueryGenerator.FencedSplit | foaf-graph-rag/app/llm/query_generator.py:119 | splitting the fenced text on line breaks gives its lines back |
| QueryGenerator.FencedFilter | foaf-graph-rag/app/llm/query_generator.py:120 | dropping the lines that start with a fence leaves exactly the query lines |
| QueryGenerator.FencedStartsWith | foaf-graph-rag/app/llm/query_generator.py:118 | a fenced block starts with the fence |
| QueryGenerator.FencedStripFences | foaf-graph-rag/app/llm/query_generator.py:118-121 | removing the fences from a fenced block gives the stripped query |
| QueryGenerator.FencedIsStripped | foaf-graph-rag/app/llm/query_generator.py:115 | a fenced block is unchanged by stripping |
| QueryGenerator.FencedRoundTrip | foaf-graph-rag/app/llm/query_generator.py:115-126 | a query wrapped in a fenced block comes back unchanged: the fence lines go and nothing else does |
| GraphAgent.FallbackLines | foaf-graph-rag/app/agent/graph_agent.py:175-187 | the header counts every result; one numbered line follows for each of the first twenty |
| GraphAgent.RowPartsLoop | foaf-graph-rag/app/agent/graph_agent.py:177-186 | the loop over a row's bindings builds exactly its `key: value` parts, in key order |
| GraphAgent.FormatItem | foaf-graph-rag/app/agent/graph_agent.py:177-186 | the parts of one result: its bindings, or the single answer or message entry |
| GraphAgent.FallbackFormat | foaf-graph-rag/app/agent/graph_agent.py:170-189 | the method computes the fallback text: the fixed no-results text, or the header and numbered lines joined by line breaks |
| GraphAgent.EmptyQueryNotRun | foaf-graph-rag/app/agent/graph_agent.py:101-108 | with no query nothing is sent, there are no results and the state's error is kept |
| GraphAgent.ExecuteQueryShape | foaf-graph-rag/app/agent/graph_agent.py:110-127 | the query is sent once through the tool; the results are its rows, or the single answer or update message that replaces them; a failure leaves no results and sets the error |
| GraphAgent.ErrorWithoutResults | foaf-graph-rag/app/agent/graph_agent.py:145-149 | an error with no results is answered with the fixed issue text, whatever the LLM does |
| GraphAgent.RateLimitedFallback | foaf-graph-rag/app/agent/graph_agent.py:151-167 | three rate limits on the answer fall back to the plain text of the results |
| GraphAgent.CleanValueShape | foaf-graph-rag/app/agent/graph_agent.py:184-185 | a link is shown by its last segment after `/` then `#`, a suffix free of both; any other value as it is |
| GraphAgent.CleanResourceUri | foaf-graph-rag/app/agent/graph_agent.py:184-185 | a resource URI is shown by its local name |
| GraphAgent.HeaderCounts | foaf-graph-rag/app/agent/graph_agent.py:175 | the header starts with the number of results |
| GraphAgent.LineNumbered | foaf-graph-rag/app/agent/graph_agent.py:187 | a line carries its number and ends with the item's parts joined by ", " |
| GraphAgent.FallbackShape | foaf-graph-rag/app/agent/graph_agent.py:170-189 | the fallback counts every result in its header but lists at most twenty, numbered from one, each made of the item's parts |
| GraphAgent.RowPartsBound | foaf-graph-rag/app/agent/graph_agent.py:178-186 | a row has at most one part per key, and every bound key has its part |
| GraphAgent.WorkflowIntent | foaf-graph-rag/app/agent/graph_agent.py:213-241 | the workflow never reaches the error handler and reports the classifier's intent |
| GraphAgent.GenerationFailure | foaf-graph-rag/app/agent/graph_agent.py:80-108 | when generation fails nothing is sent to the server, there is no query and no result, and the answer quotes the generator's error |
| GraphAgent.RunAgentShape | foaf-graph-rag/app/agent/graph_agent.py:248-286 | a crash gives the failure shape with the error; otherwise the intent is the classifier's |
| VectorAgent.FallbackLines | foaf-vector-rag/app/agent/vector_agent.py:147-156 | the header, then a bullet with each of the first ten paragraphs of the context, stripped |
| VectorAgent.FallbackFormat | foaf-vector-rag/app/agent/vector_agent.py:147-156 | the method computes the fallback text: the fixed no-results text for no context, else the lines joined by line breaks |
| VectorAgent.RetrieveShape | foaf-vector-rag/app/agent/vector_agent.py:79-112 | nothing retrieved and a failure look alike, no context, documents or count and an error; otherwise the retrieval is taken over with no error added |
| VectorAgent.ErrorWithoutContext | foaf-vector-rag/app/agent/vector_agent.py:117-122 | an error with no context is answered with the fixed issue text, whatever the LLM does |
| VectorAgent.RateLimitedFallback | foaf-vector-rag/app/agent/vector_agent.py:124-144 | three rate limits on the answer fall back to the paragraphs of the context |
| VectorAgent.EmptyCollectionReply | foaf-vector-rag/app/agent/vector_agent.py:79-122 | an empty collection: no documents, a count of 0 and the fixed issue text, with no LLM call |
| VectorAgent.StrippedSeparable | foaf-vector-rag/app/agent/vector_agent.py:151 | a stripped text with no blank line inside cannot run into the separator after it |
| VectorAgent.FallbackListsParts | foaf-vector-rag/app/agent/vector_agent.py:151-155 | a context joined from stripped parts without blank lines is listed part by part, at most ten |
| VectorAgent.FallbackListsDocuments | foaf-vector-rag/app/agent/vector_agent.py:147-156 | the fallback over what the retriever found lists its distinct stripped texts, at most ten, when none holds a blank line |
| VectorAgent.WorkflowShape | foaf-vector-rag/app/agent/vector_agent.py:180-208 | the intent is the classifier's and the count is that of the documents kept |
| VectorAgent.RunAgentShape | foaf-vector-rag/app/agent/vector_agent.py:211-251 | a crash gives the failure shape with the error; otherwise the intent is the classifier's and the count is of the documents returned |
| Cli.Cells | foaf-graph-rag/cli.py:108-120 | one shortened cell per column, the empty text for a key the row lacks |
| Cli.CellRows | foaf-graph-rag/cli.py:106-121 | the first `max_rows` results, each as its row of cells, all as wide as the key list |
| Cli.Widest | foaf-graph-rag/cli.py:125-127 | the running maximum of a column is at least every cell seen and equals the base or one of them |
| Cli.ColumnWidths | foaf-graph-rag/cli.py:124-128 | each width is the longest of the key and the column's cells, capped at 35 |
| Cli.Fit | foaf-graph-rag/cli.py:137 | a cell is cut to its column width and padded to exactly that width |
| Cli.CollectKeys | foaf-graph-rag/cli.py:98-103 | the nested loop collects each key once, at its first occurrence across the rows |
| Cli.ShortenCell | foaf-graph-rag/cli.py:109-119 | the method computes the shown value of one cell |
| Cli.ExtractRows | foaf-graph-rag/cli.py:106-121 | the nested loop builds exactly the cell rows of the first `max_rows` results |
| Cli.ComputeWidths | foaf-graph-rag/cli.py:124-128 | the width loop, then the cap, give exactly the column widths |
| Cli.RenderRows | foaf-graph-rag/cli.py:136-138 | the loop prints exactly the row lines |
| Cli.RenderFooter | foaf-graph-rag/cli.py:140-143 | the method prints exactly the footer |
| Cli.FormatResultsTable | foaf-graph-rag/cli.py:92-143 | the printed lines are the table of the results: the no-results line for none, else the header, rule, rows and footer |
| Cli.SeenKeysMembers | foaf-graph-rag/cli.py:98-103 | a key is among those seen in the first rows iff one of those rows has it |
| Cli.ColumnsShape | foaf-graph-rag/cli.py:98-103 | the columns have no duplicates, are exactly the keys some row has, and follow first-occurrence order |
| Cli.JoinNoLonger | foaf-graph-rag/cli.py:131-137 | parts no longer than their counterparts, joined by separators of one length, give text no longer |
| Cli.Aligned | foaf-graph-rag/cli.py:130-138 | every row line is exactly as long as the rule, and the header at least as long |
| Cli.FooterShape | foaf-graph-rag/cli.py:140-143 | the hidden-rows count is printed exactly when there are more rows than shown, and the total comes last after a blank line |
| Cli.TableShape | foaf-graph-rag/cli.py:92-143 | no results give the single no-results line; otherwise header, rule, one line per shown row, the footer, and the total last |
| Cli.TableRow | foaf-graph-rag/cli.py:136-138 | the r-th body line is printed from the r-th row and lines up with the rule |
| Cli.RowLines | foaf-graph-rag/cli.py:106-138 | each shown result's line is printed from its own cells and lines up with the rule |
| Cli.MissingCell | foaf-graph-rag/cli.py:109-112 | a key the row lacks shows as empty |
| Cli.ShortenUri | foaf-graph-rag/cli.py:114-115 | an http URI shows as its local name |
| Cli.ShortenMailto | foaf-graph-rag/cli.py:116-117 | a mail address shows without its scheme |
| Cli.FirstSpace | foaf-graph-rag/cli.py:486 | the first whitespace position, or the length when there is none |
| Cli.ActionOf | foaf-graph-rag/cli.py:473-499 | a blank line is skipped; a quit word in any case stops; a known command word runs that command; anything else goes to the agent stripped |
| Cli.Repl | foaf-graph-rag/cli.py:471-502 | the loop dispatches exactly the commands and questions before the first quit word or the end of input |
| Cli.DispatchedKinds | foaf-graph-rag/cli.py:478-499 | only commands and questions are dispatched |
| Cli.QuitStops | foaf-graph-rag/cli.py:481-483 | nothing after a quit word is read |
| Cli.LongNotQuit | foaf-graph-rag/cli.py:481 | a text longer than five characters is no quit word |
| Cli.SplitFirstAt | foaf-graph-rag/cli.py:486-488 | a first word followed by whitespace splits there, the rest left-stripped |
| Cli.FirstSpaceAt | foaf-graph-rag/cli.py:486 | the first whitespace is found where it is |
| Cli.WordThenArgs | foaf-graph-rag/cli.py:486-499 | a lower-case word of five or more letters and arguments: the command if the word is one, else the whole line to the agent |
| Cli.ActionOfParts | foaf-graph-rag/cli.py:486-499 | a stripped line that is no quit word runs its first word when that is a command, else goes to the agent |
| Cli.CommandLine | foaf-graph-rag/cli.py:427-438 | each command word followed by arguments runs that command with exactly those arguments |
| Cli.CommandWords | foaf-graph-rag/cli.py:427-438 | every command word is lower case, without whitespace, at least five characters |
| Cli.PersonLookupShape | foaf-graph-rag/cli.py:163-175 | a blank argument asks for usage; a URI is used as given; an id is put in the data namespace, from which it is read back |
| Cli.PersonsLimitShape | foaf-graph-rag/cli.py:148-155 | a printed integer is the limit it names; text that is not one leaves 10 |
| Cli.PersonQuery | foaf-graph-rag/cli.py:163-176 | a blank argument sends no query; any other sends the person-details query for the looked-up URI in the data graph |
| Cli.PersonsQuery | foaf-graph-rag/cli.py:148-157 | the query lists persons with the parsed limit |

## Left out

- Terminal colours and printing: the ANSI colour codes of the command-line client and the benchmark's console progress lines are not modelled.
- Unicode: `str.strip`, `split()`, `lower()` and `\s`/`\w` are modelled over ASCII characters, while Python applies them to all of Unicode. Whitespace is space, tab, line feed, carriage return, vertical tab and form feed; the separators \x1c-\x1f, which `str.strip()` and `split()` also remove, are not whitespace here.
- Strings.ParseInt: digits grouped by single underscores (`"1_000"`), which Python's `int()` accepts, are read as not a number. This reaches the `/persons` limit of the command-line client, age text in the validator, counts read by the graph tools and score text in the judge.
- External services: the LLM, the SPARQL server, the Chroma collection and the HTTP transport are oracles. Their outcome per call (reply, raised error, status) is a parameter.
- Time and identity: `time.time()`, `datetime.now()` and `uuid4()` are parameters. The elapsed `execution_time_ms` of the agents is not modelled. Sleeps are returned as delays, not performed.
- Floating point: distances, similarities, latencies and averages are `real`. `round(…, n)` and float printing are not modelled.
- WebSockets: `register`, `unregister` and the broadcast loop of the log collector are not modelled (concurrency, asyncio).
- `AgentLogHandler`: the parsing of log records into agent steps by regular expressions is not modelled. The collector receives entries already built.
- Prompt texts: the long constant prompts (judge rubric, SPARQL generation prompt, answer prompts) are parameters or named constants. Their wording is not modelled.
- LangGraph: the graph wiring is modelled as a composition of node functions. The message log in the agent state is not modelled.
- FastAPI: request parsing, status codes and dependency injection around the modelled functions are not modelled.
- Document loaders: PDF, DOCX and text extraction and the directory listing used by ingestion are oracles.
- foaf-vector-rag/cli.py is not part of this model.
- Command-line client: `cmd_search`, `cmd_friends`, `cmd_schema`, `cmd_sparql`, `cmd_natural_language`, `cmd_stats`, `cmd_add_person` and `cmd_add_rel` only print, and they read `input()` interactively. Only their dispatch, the query of `cmd_persons` and the URI lookup and query of `cmd_person` are modelled. The detail printing and "not found" notice of `cmd_person`, the banner, the start-up connection checks and the `Error: …` printing of the main loop are not modelled.
- Dictionary order: the order in which a result row's variables are listed (Python dict insertion order) is an oracle `keyOrder` on rows.
- `get_collection_stats` is a pass-through to the store's count and is not modelled.
- Graph view queries: the SPARQL texts of `get_data_graph` and `get_ontology_graph` are not modelled; their bindings are inputs. This includes the `BIND` computing `relType`, which strips only the FOAF and purl namespaces. As a result, relationship types from other namespaces reach the colour table as full URIs and are drawn in the default colour.
- QueryBuilder.Prefixes: the prefix block the query builder prepends and the table `PrefixStrip` strips are written out separately. They hold the same declarations, which the model does not prove.
- Judge: the back-off sleeps are 5·2^(k-1) s as benchmark/run_benchmark.py computes them, so only the delays of 5 s and 10 s occur, because a rate limit on the third attempt is reported as a judge error. The "Judge failed after all retries" sentinel is unreachable (BenchmarkJudge.JudgeShape states both).
- Benchmark I/O: argument parsing and the JSON result and report files are not modelled; the run's results and report are values.

## Findings

| source | as written | input that shows it | evidently intended | confidence | as-written member | corrected member |
|---|---|---|---|---|---|---|
| foaf-vector-rag/data/ingest.py:107 | `current_chunk[-chunk_overlap:]` with `chunk_overlap` 0 is the whole chunk (`s[-0:] == s`), so the next chunk repeats all of the previous one | `chunk_text` with `chunk_overlap=0`, `chunk_size=5` and the paragraphs "aaa" and "bbb" | an overlap of 0 carries nothing into the next chunk | not executed | Chunking.ZeroOverlapRepeatsChunk | Chunking.Overlap |
