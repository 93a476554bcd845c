// `generate_report`: per-target aggregates, and, when exactly two targets ran, a
// per-query comparison with a win tally and breakdowns by category and difficulty.
// The numbers the report prints are modelled exactly (as reals); the text layout
// around them is not.
module BenchmarkReport {
  import opened Base
  import opened Seqs
  import opened BenchmarkClient
  import opened BenchmarkJudge
  import opened BenchmarkRunner

  // ---------------------------------------------------------------------------
  // Sums and means
  // ---------------------------------------------------------------------------

  function Sum(s: seq<real>): real {
    if s == [] then 0.0 else Sum(s[..|s| - 1]) + s[|s| - 1]
  }

  /** `sum(s) / len(s) if s else 0`. */
  function Mean(s: seq<real>): real {
    if s == [] then 0.0 else Sum(s) / |s| as real
  }

  lemma {:induction false} SumWithin(s: seq<real>, lo: real, hi: real)
    requires forall k :: 0 <= k < |s| ==> lo <= s[k] <= hi
    ensures |s| as real * lo <= Sum(s) <= |s| as real * hi
  {
    if s != [] {
      SumWithin(s[..|s| - 1], lo, hi);
    }
  }

  /** A mean lies between the bounds of its values (an empty list gives 0). */
  lemma MeanWithin(s: seq<real>, lo: real, hi: real)
    requires forall k :: 0 <= k < |s| ==> lo <= s[k] <= hi
    requires lo <= 0.0 <= hi || s != []
    ensures lo <= Mean(s) <= hi
  {
    if s != [] {
      SumWithin(s, lo, hi);
      var n := |s| as real;
      assert lo * n <= Sum(s) <= hi * n;
      DivWithin(Sum(s), n, lo, hi);
    }
  }

  lemma DivWithin(x: real, n: real, lo: real, hi: real)
    requires n > 0.0 && lo * n <= x <= hi * n
    ensures lo <= x / n <= hi
  {
  }

  // ---------------------------------------------------------------------------
  // Looking results up the way the report does (`.get(target, {})`)
  // ---------------------------------------------------------------------------

  function ResultOf(e: Entry, target: string): Option<ScoredResult> {
    if target in e.results then Some(e.results[target]) else None
  }

  /** `[q["results"].get(target, {}) for q in queries]`. */
  function ResultsFor(entries: seq<Entry>, target: string): (rs: seq<Option<ScoredResult>>)
    ensures |rs| == |entries|
    ensures forall k :: 0 <= k < |entries| ==> rs[k] == ResultOf(entries[k], target)
  {
    if entries == [] then []
    else ResultsFor(entries[..|entries| - 1], target) + [ResultOf(entries[|entries| - 1], target)]
  }

  predicate Succeeded(r: Option<ScoredResult>) { r.Some? && r.value.result.success }

  /** `[r for r in target_results if r.get("success")]`. */
  function Successful(rs: seq<Option<ScoredResult>>): (ok: seq<TargetResult>)
    ensures |ok| <= |rs|
  {
    if rs == [] then []
    else
      var last := rs[|rs| - 1];
      Successful(rs[..|rs| - 1]) + (if Succeeded(last) then [last.value.result] else [])
  }

  function Latencies(ok: seq<TargetResult>): (s: seq<real>)
    ensures |s| == |ok| && forall k :: 0 <= k < |ok| ==> s[k] == ok[k].latencyMs
  {
    if ok == [] then [] else Latencies(ok[..|ok| - 1]) + [ok[|ok| - 1].latencyMs]
  }

  function Retrievals(ok: seq<TargetResult>): (s: seq<real>)
    ensures |s| == |ok| && forall k :: 0 <= k < |ok| ==> s[k] == ok[k].retrievalCount as real
  {
    if ok == [] then [] else Retrievals(ok[..|ok| - 1]) + [ok[|ok| - 1].retrievalCount as real]
  }

  datatype Dimension = Correctness | Completeness | Relevance

  /** `r.get("scores", {}).get(dimension, 0)`. */
  function ScoreIn(r: Option<ScoredResult>, d: Dimension): int {
    if r.None? then 0
    else
      match d
      case Correctness => r.value.scores.correctness
      case Completeness => r.value.scores.completeness
      case Relevance => r.value.scores.relevance
  }

  function DimensionScores(rs: seq<Option<ScoredResult>>, d: Dimension): (s: seq<real>)
    ensures |s| == |rs| && forall k :: 0 <= k < |rs| ==> s[k] == ScoreIn(rs[k], d) as real
  {
    if rs == [] then [] else DimensionScores(rs[..|rs| - 1], d) + [ScoreIn(rs[|rs| - 1], d) as real]
  }

  // ---------------------------------------------------------------------------
  // Per-target aggregates
  // ---------------------------------------------------------------------------

  datatype TargetStats = TargetStats(
    target: string,
    heading: string,
    successes: nat,
    total: nat,
    successPercent: real,
    avgLatencyMs: real,
    avgRetrieval: real,
    avgCorrectness: real,
    avgCompleteness: real,
    avgRelevance: real,
    overall: real)

  function TargetLabel(target: string): string {
    if target == "graph" then "GRAPH RAG" else "VECTOR RAG"
  }

  function TargetStatsOf(entries: seq<Entry>, target: string): TargetStats
    requires |entries| > 0
  {
    var rs := ResultsFor(entries, target);
    var ok := Successful(rs);
    var c := Mean(DimensionScores(rs, Correctness));
    var p := Mean(DimensionScores(rs, Completeness));
    var r := Mean(DimensionScores(rs, Relevance));
    TargetStats(target, TargetLabel(target), |ok|, |entries|,
                |ok| as real / |entries| as real * 100.0,
                Mean(Latencies(ok)), Mean(Retrievals(ok)), c, p, r, (c + p + r) / 3.0)
  }

  lemma {:induction false} SuccessfulAreSuccesses(rs: seq<Option<ScoredResult>>)
    ensures forall k :: 0 <= k < |Successful(rs)| ==> Successful(rs)[k].success
    ensures |Successful(rs)| == |Filter(rs, Succeeded)|
  {
    if rs != [] {
      SuccessfulAreSuccesses(rs[..|rs| - 1]);
      FilterAppend(rs[..|rs| - 1], [rs[|rs| - 1]], Succeeded);
      assert rs[..|rs| - 1] + [rs[|rs| - 1]] == rs;
    }
  }

  /** Only successful results count towards latency and retrieval: a failed query
      contributes nothing there, and with no success both averages are 0. Scores, in
      contrast, average over every query, a missing score counting as 0. */
  lemma {:induction false} FailuresLeaveLatencyAlone(rs: seq<Option<ScoredResult>>, failed: Option<ScoredResult>)
    requires !Succeeded(failed)
    ensures Successful(rs + [failed]) == Successful(rs)
    ensures Mean(Latencies(Successful(rs + [failed]))) == Mean(Latencies(Successful(rs)))
    ensures |DimensionScores(rs + [failed], Correctness)| == |rs| + 1
  {
    assert (rs + [failed])[..|rs|] == rs;
  }

  lemma {:induction false} NoSuccessNoLatency(rs: seq<Option<ScoredResult>>)
    requires forall k :: 0 <= k < |rs| ==> !Succeeded(rs[k])
    ensures Successful(rs) == []
  {
    if rs != [] {
      NoSuccessNoLatency(rs[..|rs| - 1]);
    }
  }

  /** When every judged score lies in [lo, hi] (with lo <= 0 <= hi, since a missing score
      counts as 0), so do the three averages and the overall score, and the success rate
      is a percentage. */
  lemma TargetStatsBounds(entries: seq<Entry>, target: string, lo: real, hi: real)
    requires |entries| > 0 && lo <= 0.0 <= hi
    requires forall k :: 0 <= k < |entries| && target in entries[k].results ==>
      ScoresWithin(entries[k].results[target].scores, lo, hi)
    ensures var st := TargetStatsOf(entries, target);
      && st.successes <= st.total == |entries|
      && 0.0 <= st.successPercent <= 100.0
      && lo <= st.avgCorrectness <= hi && lo <= st.avgCompleteness <= hi && lo <= st.avgRelevance <= hi
      && lo <= st.overall <= hi
  {
    var rs := ResultsFor(entries, target);
    DimensionMeanWithin(entries, target, rs, Correctness, lo, hi);
    DimensionMeanWithin(entries, target, rs, Completeness, lo, hi);
    DimensionMeanWithin(entries, target, rs, Relevance, lo, hi);
    PercentWithin(|Successful(rs)|, |entries|);
  }

  lemma DimensionMeanWithin(entries: seq<Entry>, target: string, rs: seq<Option<ScoredResult>>, d: Dimension, lo: real, hi: real)
    requires lo <= 0.0 <= hi && rs == ResultsFor(entries, target)
    requires forall k :: 0 <= k < |entries| && target in entries[k].results ==>
      ScoresWithin(entries[k].results[target].scores, lo, hi)
    ensures lo <= Mean(DimensionScores(rs, d)) <= hi
  {
    var s := DimensionScores(rs, d);
    forall k | 0 <= k < |s| ensures lo <= s[k] <= hi {
      assert rs[k] == ResultOf(entries[k], target);
    }
    MeanWithin(s, lo, hi);
  }

  lemma PercentWithin(part: nat, whole: nat)
    requires part <= whole && whole > 0
    ensures 0.0 <= part as real / whole as real * 100.0 <= 100.0
  {
    assert part as real / whole as real <= 1.0;
  }

  predicate ScoresWithin(s: Scores, lo: real, hi: real) {
    && lo <= s.correctness as real <= hi
    && lo <= s.completeness as real <= hi
    && lo <= s.relevance as real <= hi
  }

  // ---------------------------------------------------------------------------
  // Side-by-side comparison
  // ---------------------------------------------------------------------------

  datatype Winner = GraphWin | VectorWin | Tie

  /** The per-query rule: a difference under half a point is a tie, otherwise the
      larger average wins. */
  function Decide(g: real, v: real): (w: Winner)
    ensures w == Tie <==> -0.5 < g - v < 0.5
    ensures w == GraphWin <==> g - v >= 0.5
    ensures w == VectorWin <==> v - g >= 0.5
  {
    if (if g - v < 0.0 then v - g else g - v) < 0.5 then Tie
    else if g > v then GraphWin
    else VectorWin
  }

  /** The label a comparison row prints; the breakdown tables print "Tie" instead. */
  function RowLabel(w: Winner): string {
    match w
    case GraphWin => "Graph"
    case VectorWin => "Vector"
    case Tie => "TIE"
  }

  function BucketLabel(w: Winner): string {
    match w
    case GraphWin => "Graph"
    case VectorWin => "Vector"
    case Tie => "Tie"
  }

  /** `(correctness + completeness + relevance) / 3` of one target's scores, 0s when missing. */
  function QueryAverage(e: Entry, target: string): real {
    var r := ResultOf(e, target);
    (ScoreIn(r, Correctness) + ScoreIn(r, Completeness) + ScoreIn(r, Relevance)) as real / 3.0
  }

  datatype Row = Row(id: string, category: string, difficulty: string, graphAvg: real, vectorAvg: real, winner: Winner)

  function RowOf(e: Entry): Row {
    var g := QueryAverage(e, "graph");
    var v := QueryAverage(e, "vector");
    Row(e.id, e.category, e.difficulty, g, v, Decide(g, v))
  }

  function Rows(entries: seq<Entry>): (rows: seq<Row>)
    ensures |rows| == |entries|
    ensures forall k :: 0 <= k < |entries| ==> rows[k] == RowOf(entries[k])
  {
    if entries == [] then [] else Rows(entries[..|entries| - 1]) + [RowOf(entries[|entries| - 1])]
  }

  function CountWins(rows: seq<Row>, w: Winner): nat {
    if rows == [] then 0
    else CountWins(rows[..|rows| - 1], w) + (if rows[|rows| - 1].winner == w then 1 else 0)
  }

  lemma {:induction false} TallyPartitions(rows: seq<Row>)
    ensures CountWins(rows, GraphWin) + CountWins(rows, VectorWin) + CountWins(rows, Tie) == |rows|
  {
    if rows != [] {
      TallyPartitions(rows[..|rows| - 1]);
    }
  }

  /** The comparison loop: one row per query and the three counters. */
  method CompareQueries(entries: seq<Entry>)
    returns (rows: seq<Row>, graphWins: nat, vectorWins: nat, ties: nat)
    ensures rows == Rows(entries)
    ensures graphWins == CountWins(rows, GraphWin)
    ensures vectorWins == CountWins(rows, VectorWin)
    ensures ties == CountWins(rows, Tie)
    ensures graphWins + vectorWins + ties == |entries|
  {
    rows, graphWins, vectorWins, ties := [], 0, 0, 0;
    for i := 0 to |entries|
      invariant rows == Rows(entries[..i])
      invariant graphWins == CountWins(rows, GraphWin)
      invariant vectorWins == CountWins(rows, VectorWin)
      invariant ties == CountWins(rows, Tie)
    {
      var q := entries[i];
      var g := QueryAverage(q, "graph");
      var v := QueryAverage(q, "vector");
      var winner: Winner;
      if (if g - v < 0.0 then v - g else g - v) < 0.5 {
        winner := Tie;
        ties := ties + 1;
      } else if g > v {
        winner := GraphWin;
        graphWins := graphWins + 1;
      } else {
        winner := VectorWin;
        vectorWins := vectorWins + 1;
      }
      assert entries[..i + 1][..i] == entries[..i];
      var row := Row(q.id, q.category, q.difficulty, g, v, winner);
      assert row == RowOf(entries[i]);
      assert (rows + [row])[..|rows|] == rows;
      rows := rows + [row];
    }
    assert entries[..|entries|] == entries;
    TallyPartitions(rows);
  }

  // ---------------------------------------------------------------------------
  // Breakdowns
  // ---------------------------------------------------------------------------

  datatype Bucket = Bucket(name: string, graphAvg: real, vectorAvg: real, winner: Winner)

  /** The per-query average of one pipeline's three scores, query by query. */
  function TargetAverages(entries: seq<Entry>, target: string): (s: seq<real>)
    ensures |s| == |entries| && forall k :: 0 <= k < |entries| ==> s[k] == QueryAverage(entries[k], target)
  {
    if entries == [] then [] else TargetAverages(entries[..|entries| - 1], target) + [QueryAverage(entries[|entries| - 1], target)]
  }

  function BucketOf(name: string, members: seq<Entry>): Bucket {
    var g := Mean(TargetAverages(members, "graph"));
    var v := Mean(TargetAverages(members, "vector"));
    Bucket(name, g, v, Decide(g, v))
  }

  function InCategory(cat: string): Entry -> bool { (e: Entry) => e.category == cat }
  function InDifficulty(diff: string): Entry -> bool { (e: Entry) => e.difficulty == diff }

  function Categories(entries: seq<Entry>): (cats: seq<string>)
    ensures |cats| == |entries|
    ensures forall k :: 0 <= k < |cats| ==> cats[k] == entries[k].category
  {
    if entries == [] then [] else Categories(entries[..|entries| - 1]) + [entries[|entries| - 1].category]
  }

  const DifficultyOrder: seq<string> := ["easy", "medium", "hard"]

  /** One breakdown row: the loop that collects the members' averages, then their means. */
  method BucketFor(name: string, members: seq<Entry>) returns (b: Bucket)
    ensures b == BucketOf(name, members)
  {
    var gScores: seq<real> := [];
    var vScores: seq<real> := [];
    for i := 0 to |members|
      invariant gScores == TargetAverages(members[..i], "graph")
      invariant vScores == TargetAverages(members[..i], "vector")
    {
      assert members[..i + 1][..i] == members[..i];
      gScores := gScores + [QueryAverage(members[i], "graph")];
      vScores := vScores + [QueryAverage(members[i], "vector")];
    }
    assert members[..|members|] == members;
    var g := if |gScores| > 0 then Sum(gScores) / |gScores| as real else 0.0;
    var v := if |vScores| > 0 then Sum(vScores) / |vScores| as real else 0.0;
    var winner := if (if g - v < 0.0 then v - g else g - v) < 0.5 then Tie else if g > v then GraphWin else VectorWin;
    b := Bucket(name, g, v, winner);
  }

  function CategoryBuckets(entries: seq<Entry>, cats: seq<string>): seq<Bucket> {
    if cats == [] then []
    else
      var cat := cats[|cats| - 1];
      CategoryBuckets(entries, cats[..|cats| - 1]) + [BucketOf(cat, Filter(entries, InCategory(cat)))]
  }

  /** Whether any query has this difficulty. */
  function Occurs(entries: seq<Entry>): string -> bool {
    (diff: string) => Filter(entries, InDifficulty(diff)) != []
  }

  /** The row of one difficulty, or none when no query has it. */
  function DifficultyRow(entries: seq<Entry>, diff: string): seq<Bucket> {
    var members := Filter(entries, InDifficulty(diff));
    if members == [] then [] else [BucketOf(diff, members)]
  }

  function DifficultyBuckets(entries: seq<Entry>, diffs: seq<string>): seq<Bucket> {
    if diffs == [] then []
    else DifficultyBuckets(entries, diffs[..|diffs| - 1]) + DifficultyRow(entries, diffs[|diffs| - 1])
  }

  datatype Comparison = Comparison(
    rows: seq<Row>,
    graphWins: nat,
    vectorWins: nat,
    ties: nat,
    byCategory: seq<Bucket>,
    byDifficulty: seq<Bucket>)

  datatype Report = Report(
    timestamp: string,
    total: nat,
    llmModel: string,
    perTarget: seq<TargetStats>,
    comparison: Option<Comparison>)

  function ComparisonOf(entries: seq<Entry>): Comparison {
    var rows := Rows(entries);
    Comparison(rows, CountWins(rows, GraphWin), CountWins(rows, VectorWin), CountWins(rows, Tie),
               CategoryBuckets(entries, SortedSet(Categories(entries))),
               DifficultyBuckets(entries, DifficultyOrder))
  }

  function StatsUpTo(entries: seq<Entry>, targets: seq<string>, n: nat): seq<TargetStats>
    requires n <= |targets| && (n > 0 ==> |entries| > 0)
  {
    if n == 0 then [] else StatsUpTo(entries, targets, n - 1) + [TargetStatsOf(entries, targets[n - 1])]
  }

  function ReportOf(run: RunOutput): Report
    requires |run.metadata.targets| > 0 ==> |run.queries| > 0
  {
    var targets := run.metadata.targets;
    Report(run.metadata.timestamp, |run.queries|, run.metadata.llmModel,
           StatsUpTo(run.queries, targets, |targets|),
           if |targets| == 2 then Some(ComparisonOf(run.queries)) else None)
  }

  /** The per-target loop. */
  method TargetSection(queries: seq<Entry>, targets: seq<string>) returns (perTarget: seq<TargetStats>)
    requires |targets| > 0 ==> |queries| > 0
    ensures perTarget == StatsUpTo(queries, targets, |targets|)
  {
    perTarget := [];
    for t := 0 to |targets|
      invariant perTarget == StatsUpTo(queries, targets, t)
    {
      perTarget := perTarget + [TargetStatsOf(queries, targets[t])];
    }
  }

  /** The category breakdown loop over `sorted(set(categories))`. */
  method CategoryBreakdown(queries: seq<Entry>, categories: seq<string>) returns (byCategory: seq<Bucket>)
    ensures byCategory == CategoryBuckets(queries, categories)
  {
    byCategory := [];
    for c := 0 to |categories|
      invariant byCategory == CategoryBuckets(queries, categories[..c])
    {
      assert categories[..c + 1][..c] == categories[..c];
      var cat := categories[c];
      var bucket := BucketFor(cat, Filter(queries, InCategory(cat)));
      assert CategoryBuckets(queries, categories[..c + 1]) == byCategory + [bucket];
      byCategory := byCategory + [bucket];
    }
    assert categories[..|categories|] == categories;
  }

  /** The difficulty breakdown, in the fixed order easy, medium, hard. */
  method DifficultyBreakdown(queries: seq<Entry>) returns (byDifficulty: seq<Bucket>)
    ensures byDifficulty == DifficultyBuckets(queries, DifficultyOrder)
  {
    byDifficulty := DifficultyLoop(queries, DifficultyOrder);
  }

  /** The difficulty breakdown loop, skipping difficulties no query has. */
  method DifficultyLoop(queries: seq<Entry>, diffs: seq<string>) returns (byDifficulty: seq<Bucket>)
    ensures byDifficulty == DifficultyBuckets(queries, diffs)
  {
    byDifficulty := [];
    for d := 0 to |diffs|
      invariant byDifficulty == DifficultyBuckets(queries, diffs[..d])
    {
      assert diffs[..d + 1][..d] == diffs[..d];
      var diff := diffs[d];
      var members := Filter(queries, InDifficulty(diff));
      if members == [] {
        continue;
      }
      var bucket := BucketFor(diff, members);
      assert DifficultyBuckets(queries, diffs[..d + 1]) == byDifficulty + [bucket];
      byDifficulty := byDifficulty + [bucket];
    }
    assert diffs[..|diffs|] == diffs;
  }

  /** `generate_report`. It divides by the number of queries once per target, so a run
      with targets needs at least one query (`main` exits before reporting otherwise). */
  method GenerateReport(run: RunOutput) returns (report: Report)
    requires |run.metadata.targets| > 0 ==> |run.queries| > 0
    ensures report == ReportOf(run)
  {
    var targets := run.metadata.targets;
    var queries := run.queries;
    var perTarget := TargetSection(queries, targets);
    var comparison: Option<Comparison> := None;
    if |targets| == 2 {
      var rows, graphWins, vectorWins, ties := CompareQueries(queries);
      var byCategory := CategoryBreakdown(queries, SortedSet(Categories(queries)));
      var byDifficulty := DifficultyBreakdown(queries);
      comparison := Some(Comparison(rows, graphWins, vectorWins, ties, byCategory, byDifficulty));
    }
    report := Report(run.metadata.timestamp, |queries|, run.metadata.llmModel, perTarget, comparison);
  }

  function Names(bs: seq<Bucket>): (ns: seq<string>)
    ensures |ns| == |bs| && forall k :: 0 <= k < |bs| ==> ns[k] == bs[k].name
  {
    if bs == [] then [] else Names(bs[..|bs| - 1]) + [bs[|bs| - 1].name]
  }

  lemma CategoryBucketsNamed(entries: seq<Entry>, cats: seq<string>)
    ensures Names(CategoryBuckets(entries, cats)) == cats
  {
    CategoryBucketsAt(entries, cats);
  }

  /** The bucket at each position is named after the category at that position. */
  lemma {:induction false} CategoryBucketsAt(entries: seq<Entry>, cats: seq<string>)
    ensures var bs := CategoryBuckets(entries, cats);
      |bs| == |cats| && forall k :: 0 <= k < |cats| ==> bs[k].name == cats[k]
  {
    if cats != [] {
      var init, cat := cats[..|cats| - 1], cats[|cats| - 1];
      CategoryBucketsAt(entries, init);
      var bs, b0 := CategoryBuckets(entries, cats), CategoryBuckets(entries, init);
      var last := BucketOf(cat, Filter(entries, InCategory(cat)));
      assert bs == b0 + [last];
      forall k | 0 <= k < |cats| ensures bs[k].name == cats[k] {
        if k < |init| {
          assert bs[k] == b0[k] && cats[k] == init[k];
        }
      }
    }
  }

  lemma {:induction false} DifficultyBucketsNamed(entries: seq<Entry>, diffs: seq<string>)
    ensures Names(DifficultyBuckets(entries, diffs)) == Filter(diffs, Occurs(entries))
  {
    if diffs != [] {
      var init := diffs[..|diffs| - 1];
      var last := diffs[|diffs| - 1];
      DifficultyBucketsNamed(entries, init);
      NamesAppend(DifficultyBuckets(entries, init), DifficultyRow(entries, last));
      DifficultyRowNamed(entries, last);
      assert init + [last] == diffs;
      FilterAppend(init, [last], Occurs(entries));
    }
  }

  lemma DifficultyRowNamed(entries: seq<Entry>, diff: string)
    ensures Names(DifficultyRow(entries, diff)) == Filter([diff], Occurs(entries))
  {
    FilterSingle(diff, Occurs(entries));
  }

  lemma NamesAppend(a: seq<Bucket>, b: seq<Bucket>)
    ensures Names(a + b) == Names(a) + Names(b)
  {
  }

  /** The category breakdown has one row per distinct category, in sorted order. */
  lemma CategoryBreakdownShape(entries: seq<Entry>)
    ensures var names := Names(CategoryBuckets(entries, SortedSet(Categories(entries))));
      && SortedStrings(names) && NoDuplicates(names)
      && (forall cat :: cat in names <==> exists k :: 0 <= k < |entries| && entries[k].category == cat)
  {
    CategoryBucketsNamed(entries, SortedSet(Categories(entries)));
    CategoriesMembers(entries);
  }

  lemma CategoriesMembers(entries: seq<Entry>)
    ensures forall cat :: cat in Categories(entries) <==> exists k :: 0 <= k < |entries| && entries[k].category == cat
  {
    var cats := Categories(entries);
    forall cat ensures cat in cats <==> exists k :: 0 <= k < |entries| && entries[k].category == cat {
      if cat in cats {
        var k :| 0 <= k < |cats| && cats[k] == cat;
        assert entries[k].category == cat;
      }
    }
  }

  /** The difficulty breakdown lists, in the order easy, medium, hard, exactly those of
      the three that some query has; any other difficulty is never reported. */
  lemma DifficultyBreakdownShape(entries: seq<Entry>)
    ensures Names(DifficultyBuckets(entries, DifficultyOrder)) == Filter(DifficultyOrder, Occurs(entries))
    ensures forall d :: d in Names(DifficultyBuckets(entries, DifficultyOrder)) <==>
      d in DifficultyOrder && exists k :: 0 <= k < |entries| && entries[k].difficulty == d
  {
    DifficultyBucketsNamed(entries, DifficultyOrder);
    forall d ensures Occurs(entries)(d) <==> exists k :: 0 <= k < |entries| && entries[k].difficulty == d {
      OccursIff(entries, d);
    }
  }

  lemma OccursIff(entries: seq<Entry>, d: string)
    ensures Occurs(entries)(d) <==> exists k :: 0 <= k < |entries| && entries[k].difficulty == d
  {
    var f := Filter(entries, InDifficulty(d));
    if exists k :: 0 <= k < |entries| && entries[k].difficulty == d {
      var k :| 0 <= k < |entries| && entries[k].difficulty == d;
      assert InDifficulty(d)(entries[k]);
      assert entries[k] in f;
    }
    if f != [] {
      assert f[0] in f;
      var k :| 0 <= k < |entries| && entries[k] == f[0];
      assert InDifficulty(d)(f[0]);
    }
  }

  /** Every query lands in exactly one of the three tallies. */
  lemma TallyShape(entries: seq<Entry>)
    ensures var c := ComparisonOf(entries);
      && |c.rows| == |entries|
      && c.graphWins + c.vectorWins + c.ties == |entries|
      && (forall k :: 0 <= k < |entries| ==>
            c.rows[k].winner == Decide(QueryAverage(entries[k], "graph"), QueryAverage(entries[k], "vector")))
  {
    TallyPartitions(Rows(entries));
  }

  /** Row averages stay within the score bounds, like the per-target ones. */
  lemma QueryAverageWithin(e: Entry, target: string, lo: real, hi: real)
    requires lo <= 0.0 <= hi
    requires target in e.results ==> ScoresWithin(e.results[target].scores, lo, hi)
    ensures lo <= QueryAverage(e, target) <= hi
  {
  }
}
