// `run_benchmark`: every query is sent to every target, each answer is judged, and
// the results are collected per query and per target. The servers, the judge and
// the clock are the oracles of an `Env`; the pauses the runner sleeps are recorded.
module BenchmarkRunner {
  import opened Base
  import opened Seqs
  import opened Llm
  import opened BenchmarkCatalog
  import opened BenchmarkClient
  import opened BenchmarkJudge

  const GraphRagUrl := "http://localhost:8000/api/chat"
  const VectorRagUrl := "http://localhost:8001/api/chat"
  /** The pause after every judged answer, to stay under the judge's rate limit. */
  const PauseSeconds: nat := 5

  /** `--no-judge` swaps the judge for one that returns fixed -1 scores. */
  datatype JudgeMode = LlmJudge(hasKey: bool) | NoJudge

  /** What one POST returned and how long it took. */
  datatype Exchange = Exchange(outcome: HttpOutcome, elapsedMs: real)

  /** The world outside the runner. `http(i, j, url)` answers the request for query `i`
      sent to target `j` at `url`; `judgeCall(i, j)` is the judge's replies for that pair. */
  datatype Env = Env(
    http: (nat, nat, string) -> Exchange,
    judgeCall: (nat, nat) -> (nat -> CallOutcome),
    decode: string -> Result<ScoreObject, string>,
    judge: JudgeMode)

  datatype ScoredResult = ScoredResult(result: TargetResult, scores: Scores)

  datatype Entry = Entry(
    id: string,
    query: string,
    category: string,
    difficulty: string,
    expectedFacts: seq<string>,
    expectedAnswer: string,
    results: map<string, ScoredResult>)

  datatype Metadata = Metadata(timestamp: string, targets: seq<string>, totalQueries: nat, llmModel: string)

  datatype RunOutput = RunOutput(metadata: Metadata, queries: seq<Entry>)

  function UrlFor(target: string): string {
    if target == "graph" then GraphRagUrl else VectorRagUrl
  }

  /** The verdict for one (query, target) pair. */
  function PairVerdict(env: Env, i: nat, j: nat, result: TargetResult): Verdict {
    match env.judge
    case NoJudge => Verdict(SkippedScores, [], 0)
    case LlmJudge(hasKey) => JudgeSpec(hasKey, result.response, env.judgeCall(i, j), env.decode)
  }

  function PairResult(env: Env, i: nat, j: nat, target: string): TargetResult {
    var ex := env.http(i, j, UrlFor(target));
    QueryRag(ex.outcome, ex.elapsedMs)
  }

  function PairScored(env: Env, i: nat, j: nat, target: string): ScoredResult {
    var result := PairResult(env, i, j, target);
    ScoredResult(result, PairVerdict(env, i, j, result).scores)
  }

  function PairSleeps(env: Env, i: nat, j: nat, target: string): seq<nat> {
    PairVerdict(env, i, j, PairResult(env, i, j, target)).sleeps + [PauseSeconds]
  }

  /** The `results` dict of query `i` after the first `n` targets. */
  function ResultsUpTo(env: Env, i: nat, targets: seq<string>, n: nat): map<string, ScoredResult>
    requires n <= |targets|
  {
    if n == 0 then map[]
    else ResultsUpTo(env, i, targets, n - 1)[targets[n - 1] := PairScored(env, i, n - 1, targets[n - 1])]
  }

  /** The pauses of query `i` against the first `n` targets. */
  function SleepsOfQuery(env: Env, i: nat, targets: seq<string>, n: nat): seq<nat>
    requires n <= |targets|
  {
    if n == 0 then [] else SleepsOfQuery(env, i, targets, n - 1) + PairSleeps(env, i, n - 1, targets[n - 1])
  }

  function QuerySleepsAt(env: Env, targets: seq<string>): nat -> seq<nat> {
    (i: nat) => SleepsOfQuery(env, i, targets, |targets|)
  }

  function EntryFor(env: Env, i: nat, q: Query, targets: seq<string>): Entry {
    Entry(q.id, q.query, q.category, q.difficulty, q.expectedFacts, q.expectedAnswer,
          ResultsUpTo(env, i, targets, |targets|))
  }

  function EntriesUpTo(env: Env, queries: seq<Query>, targets: seq<string>, n: nat): seq<Entry>
    requires n <= |queries|
  {
    if n == 0 then [] else EntriesUpTo(env, queries, targets, n - 1) + [EntryFor(env, n - 1, queries[n - 1], targets)]
  }

  /** Every pause of the run, in order. */
  function Sleeps(env: Env, queries: seq<Query>, targets: seq<string>): seq<nat> {
    Concat(QuerySleepsAt(env, targets), |queries|)
  }

  /** The body of the inner loop: query one target, judge its answer, pause. */
  method RunPair(env: Env, i: nat, j: nat, q: Query, target: string) returns (scored: ScoredResult, sleeps: seq<nat>)
    ensures scored == PairScored(env, i, j, target)
    ensures sleeps == PairSleeps(env, i, j, target)
  {
    var url := if target == "graph" then GraphRagUrl else VectorRagUrl;
    var ex := env.http(i, j, url);
    var result := QueryRag(ex.outcome, ex.elapsedMs);
    var scores: Scores;
    match env.judge {
      case NoJudge =>
        scores, sleeps := SkippedScores, [];
      case LlmJudge(hasKey) =>
        var calls;
        scores, sleeps, calls := JudgeAnswer(hasKey, result.response, env.judgeCall(i, j), env.decode);
    }
    sleeps := sleeps + [PauseSeconds];
    scored := ScoredResult(result, scores);
  }

  /** The inner loop: one query against every target, filling its `results` dict. */
  method RunQuery(env: Env, i: nat, q: Query, targets: seq<string>)
    returns (results: map<string, ScoredResult>, sleeps: seq<nat>)
    ensures results == ResultsUpTo(env, i, targets, |targets|)
    ensures sleeps == SleepsOfQuery(env, i, targets, |targets|)
  {
    results := map[];
    sleeps := [];
    for j := 0 to |targets|
      invariant results == ResultsUpTo(env, i, targets, j)
      invariant sleeps == SleepsOfQuery(env, i, targets, j)
    {
      var scored, pairSleeps := RunPair(env, i, j, q, targets[j]);
      sleeps := sleeps + pairSleeps;
      results := results[targets[j] := scored];
    }
  }

  method RunBenchmark(env: Env, queries: seq<Query>, targets: seq<string>, timestamp: string, judgeModel: string)
    returns (out: RunOutput, sleeps: seq<nat>)
    ensures out == RunOutput(Metadata(timestamp, targets, |queries|, judgeModel),
                             EntriesUpTo(env, queries, targets, |queries|))
    ensures sleeps == Sleeps(env, queries, targets)
  {
    var entries: seq<Entry> := [];
    sleeps := [];
    for i := 0 to |queries|
      invariant entries == EntriesUpTo(env, queries, targets, i)
      invariant sleeps == Concat(QuerySleepsAt(env, targets), i)
    {
      var q := queries[i];
      var results, querySleeps := RunQuery(env, i, q, targets);
      assert querySleeps == QuerySleepsAt(env, targets)(i);
      sleeps := sleeps + querySleeps;
      entries := entries + [Entry(q.id, q.query, q.category, q.difficulty, q.expectedFacts, q.expectedAnswer, results)];
    }
    out := RunOutput(Metadata(timestamp, targets, |queries|, judgeModel), entries);
  }

  lemma {:induction false} ResultsKeys(env: Env, i: nat, targets: seq<string>, n: nat)
    requires n <= |targets|
    ensures ResultsUpTo(env, i, targets, n).Keys == set k | 0 <= k < n :: targets[k]
  {
    if n > 0 {
      ResultsKeys(env, i, targets, n - 1);
    }
  }

  /** Later targets of the same name overwrite earlier ones, like assignments to a dict. */
  lemma {:induction false} ResultsLastWins(env: Env, i: nat, targets: seq<string>, n: nat, j: nat)
    requires j < n <= |targets|
    requires forall k :: j < k < n ==> targets[k] != targets[j]
    ensures targets[j] in ResultsUpTo(env, i, targets, n)
    ensures ResultsUpTo(env, i, targets, n)[targets[j]] == PairScored(env, i, j, targets[j])
  {
    ResultsKeys(env, i, targets, n);
    if j < n - 1 {
      ResultsLastWins(env, i, targets, n - 1, j);
    }
  }

  lemma {:induction false} EntriesShape(env: Env, queries: seq<Query>, targets: seq<string>, n: nat)
    requires n <= |queries|
    ensures |EntriesUpTo(env, queries, targets, n)| == n
    ensures forall k :: 0 <= k < n ==> EntriesUpTo(env, queries, targets, n)[k] == EntryFor(env, k, queries[k], targets)
  {
    if n > 0 {
      EntriesShape(env, queries, targets, n - 1);
    }
  }

  /** Every pair ends with the fixed pause, so a query sleeps at least once per target. */
  lemma {:induction false} SleepsOfQueryLength(env: Env, i: nat, targets: seq<string>, n: nat)
    requires n <= |targets|
    ensures |SleepsOfQuery(env, i, targets, n)| >= n
  {
    if n > 0 {
      SleepsOfQueryLength(env, i, targets, n - 1);
    }
  }

  lemma SleepsLength(env: Env, queries: seq<Query>, targets: seq<string>)
    ensures |Sleeps(env, queries, targets)| >= |queries| * |targets|
  {
    forall i: nat ensures |QuerySleepsAt(env, targets)(i)| >= |targets| {
      SleepsOfQueryLength(env, i, targets, |targets|);
    }
    ConcatLength(QuerySleepsAt(env, targets), |queries|, |targets|);
  }

  /** The run keeps every query, in order, with its catalog fields; each query's results
      are keyed by exactly the targets and hold that target's reply and its scores; the
      total is the number of queries; and at least one pause follows every pair, whatever
      the servers or the judge did: no failure ends the run early. */
  lemma RunShape(env: Env, queries: seq<Query>, targets: seq<string>)
    ensures var entries := EntriesUpTo(env, queries, targets, |queries|);
      && |entries| == |queries|
      && (forall k :: 0 <= k < |queries| ==>
            && entries[k].id == queries[k].id
            && entries[k].query == queries[k].query
            && entries[k].category == queries[k].category
            && entries[k].difficulty == queries[k].difficulty
            && entries[k].results.Keys == set t | t in targets)
      && (forall k, j :: 0 <= k < |queries| && 0 <= j < |targets| && targets[j] !in targets[j + 1..] ==>
            entries[k].results[targets[j]] == PairScored(env, k, j, targets[j]))
      && |Sleeps(env, queries, targets)| >= |queries| * |targets|
  {
    var entries := EntriesUpTo(env, queries, targets, |queries|);
    EntriesShape(env, queries, targets, |queries|);
    forall k | 0 <= k < |queries|
      ensures entries[k].results.Keys == set t | t in targets
    {
      ResultsKeys(env, k, targets, |targets|);
      assert (set t | t in targets) == set m | 0 <= m < |targets| :: targets[m];
    }
    forall k, j | 0 <= k < |queries| && 0 <= j < |targets| && targets[j] !in targets[j + 1..]
      ensures entries[k].results[targets[j]] == PairScored(env, k, j, targets[j])
    {
      forall m | j < m < |targets| ensures targets[m] != targets[j] {
        assert targets[m] == targets[j + 1..][m - j - 1];
      }
      ResultsLastWins(env, k, targets, |targets|, j);
    }
    SleepsLength(env, queries, targets);
  }

  /** Under `--no-judge` no judge call is made and every answer scores -1, -1, -1. */
  lemma NoJudgeScores(env: Env, i: nat, j: nat, target: string)
    requires env.judge == NoJudge
    ensures PairScored(env, i, j, target).scores == SkippedScores
    ensures PairSleeps(env, i, j, target) == [PauseSeconds]
  {
  }
}
