// `judge_answer`: an LLM scores a system's answer against the ground truth.
// The judge's replies are an oracle indexed by attempt (1, 2, 3); turning the
// reply text into a JSON object is an oracle too (`json.loads`); what the code
// does around them -- the pre-checks, the fence stripping, the `int` coercion
// with defaults, the retry on rate limits and the sentinel scores -- is modelled.
module BenchmarkJudge {
  import opened Base
  import opened Strings
  import opened Llm

  datatype Scores = Scores(correctness: int, completeness: int, relevance: int, reasoning: string)

  function ZeroScores(reasoning: string): Scores { Scores(0, 0, 0, reasoning) }

  const NoKeyReasoning := "NO_API_KEY: Cannot judge without LLM"
  const ExhaustedReasoning := "Judge failed after all retries"
  /** What the `--no-judge` replacement returns for every answer. */
  const SkippedScores := Scores(-1, -1, -1, "SKIPPED (--no-judge)")

  const RetryAttempts: nat := 3
  const RetryBaseDelay: nat := 5

  /** A score field of the decoded JSON object, as far as `int(...)` cares. */
  datatype ScoreValue =
    | IntNumber(n: int)
    | FloatNumber(x: real)               // a finite JSON number with a fraction or exponent
    | NotANumber                         // `NaN`, which `json.loads` accepts
    | Infinite(negative: bool)           // `Infinity` or `-Infinity`
    | Text(s: string)
    | Boolean(b: bool)
    | Unconvertible(typeName: string)   // null, a list or an object

  /** The decoded reply; `None` is an absent key. */
  datatype ScoreObject = ScoreObject(
    correctness: Option<ScoreValue>,
    completeness: Option<ScoreValue>,
    relevance: Option<ScoreValue>,
    reasoning: Option<string>)

  /** `int(x)` of a finite float: the integer part, rounding toward zero. */
  function TruncateReal(x: real): (n: int)
    ensures x >= 0.0 ==> n as real <= x < n as real + 1.0
    ensures x < 0.0 ==> n as real - 1.0 < x <= n as real
  {
    if x >= 0.0 then x.Floor else -((-x).Floor)
  }

  /** `int(scores.get(key, 0))`, with the error text Python raises. */
  function IntOf(v: Option<ScoreValue>): Result<int, string> {
    match v
    case None => Ok(0)
    case Some(IntNumber(n)) => Ok(n)
    case Some(FloatNumber(x)) => Ok(TruncateReal(x))
    case Some(NotANumber) => Err("cannot convert float NaN to integer")
    case Some(Infinite(_)) => Err("cannot convert float infinity to integer")
    case Some(Boolean(b)) => Ok(if b then 1 else 0)
    case Some(Text(s)) =>
      (match ParseInt(s)
       case Some(n) => Ok(n)
       case None => Err("invalid literal for int() with base 10: '" + s + "'"))
    case Some(Unconvertible(t)) =>
      Err("int() argument must be a string, a bytes-like object or a real number, not '" + t + "'")
  }

  const Fence := "```"

  /** Removing one markdown fence from a stripped reply: the text after the first line
      break, cut before the last fence, stripped. A fenced reply without a line break
      makes `split("\n", 1)[1]` raise `IndexError`. */
  function Unfence(text: string): Result<string, string> {
    if !StartsWith(text, Fence) then Ok(text)
    else
      match IndexOf(text, "\n")
      case None => Err("list index out of range")
      case Some(i) =>
        var rest := text[i + 1..];
        var body := match RFind(rest, Fence) case None => rest case Some(j) => rest[..j];
        Ok(Strip(body))
  }

  /** The body of the `try` after the call returned: strip, unfence, decode, coerce. */
  function ScoreReply(content: string, decode: string -> Result<ScoreObject, string>): Result<Scores, string> {
    match Unfence(Strip(content))
    case Err(e) => Err(e)
    case Ok(text) =>
      match decode(text)
      case Err(e) => Err(e)
      case Ok(obj) => Coerce(obj)
  }

  /** The three `int(...)` conversions, in the order the code makes them. */
  function Coerce(obj: ScoreObject): Result<Scores, string> {
    match IntOf(obj.correctness)
    case Err(e) => Err(e)
    case Ok(c) =>
      match IntOf(obj.completeness)
      case Err(e) => Err(e)
      case Ok(p) =>
        match IntOf(obj.relevance)
        case Err(e) => Err(e)
        case Ok(r) => Ok(Scores(c, p, r, obj.reasoning.GetOr("")))
  }

  /** One attempt: the scores, or the text of whatever was raised. */
  function AttemptOutcome(outcome: CallOutcome, decode: string -> Result<ScoreObject, string>): Result<Scores, string> {
    match outcome
    case Completion(content) => ScoreReply(content, decode)
    case Raised(message) => Err(message)
  }

  /** The outcome of every attempt, by attempt number. */
  function Attempts(call: nat -> CallOutcome, decode: string -> Result<ScoreObject, string>): nat -> Result<Scores, string> {
    (k: nat) => AttemptOutcome(call(k), decode)
  }

  /** The scores with which the loop leaves after an attempt with this outcome, if it leaves. */
  function Settle(outcome: Result<Scores, string>): Scores {
    match outcome
    case Ok(scores) => scores
    case Err(e) => ZeroScores("Judge error: " + Take(e, 100))
  }

  datatype Verdict = Verdict(scores: Scores, sleeps: seq<nat>, calls: nat)

  /** The retry loop from attempt `attempt` on, given each attempt's outcome. */
  function JudgeFrom(attempt: nat, outcomes: nat -> Result<Scores, string>): Verdict
    requires 1 <= attempt <= RetryAttempts
    decreases RetryAttempts - attempt
  {
    match outcomes(attempt)
    case Ok(scores) => Verdict(scores, [], attempt)
    case Err(e) =>
      if IsRateLimit(e) && attempt < RetryAttempts then
        var rest := JudgeFrom(attempt + 1, outcomes);
        rest.(sleeps := [RetryBaseDelay * Pow2(attempt - 1)] + rest.sleeps)
      else Verdict(ZeroScores("Judge error: " + Take(e, 100)), [], attempt)
  }

  /** An answer that reports a connection failure or a timeout is not sent to the judge. */
  predicate SystemFailed(answer: string) {
    Contains(answer, "CONNECTION_ERROR") || Contains(answer, "TIMEOUT")
  }

  function JudgeSpec(hasKey: bool, answer: string, call: nat -> CallOutcome,
                     decode: string -> Result<ScoreObject, string>): Verdict {
    if !hasKey then Verdict(ZeroScores(NoKeyReasoning), [], 0)
    else if SystemFailed(answer) then Verdict(ZeroScores("System failed: " + Take(answer, 100)), [], 0)
    else JudgeFrom(1, Attempts(call, decode))
  }

  /** `judge_answer`. `hasKey` is whether `JUDGE_API_KEY` is set; `call(k)` is the outcome
      of the k-th request to the judge model; `sleeps` are the delays slept, in order. */
  method JudgeAnswer(hasKey: bool, systemAnswer: string, call: nat -> CallOutcome,
                     decode: string -> Result<ScoreObject, string>)
    returns (scores: Scores, sleeps: seq<nat>, calls: nat)
    ensures Verdict(scores, sleeps, calls) == JudgeSpec(hasKey, systemAnswer, call, decode)
  {
    if !hasKey {
      return ZeroScores(NoKeyReasoning), [], 0;
    }
    if Contains(systemAnswer, "CONNECTION_ERROR") || Contains(systemAnswer, "TIMEOUT") {
      return ZeroScores("System failed: " + Take(systemAnswer, 100)), [], 0;
    }
    sleeps := [];
    var attempt: nat := 1;
    while attempt <= RetryAttempts
      invariant 1 <= attempt <= RetryAttempts
      invariant JudgeSpec(hasKey, systemAnswer, call, decode)
             == var rest := JudgeFrom(attempt, Attempts(call, decode)); rest.(sleeps := sleeps + rest.sleeps)
      decreases RetryAttempts - attempt
    {
      var outcome := AttemptOutcome(call(attempt), decode);
      if outcome.Ok? {
        assert sleeps + [] == sleeps;
        return outcome.value, sleeps, attempt;
      }
      var errStr := outcome.error;
      if IsRateLimit(errStr) {
        var delay := RetryBaseDelay * Pow2(attempt - 1);
        if attempt < RetryAttempts {
          sleeps := sleeps + [delay];
          attempt := attempt + 1;
          continue;
        }
      }
      assert sleeps + [] == sleeps;
      return ZeroScores("Judge error: " + Take(errStr, 100)), sleeps, attempt;
    }
    scores, calls := ZeroScores(ExhaustedReasoning), RetryAttempts;
  }

  lemma {:induction false} JudgeFromShape(attempt: nat, outcomes: nat -> Result<Scores, string>)
    requires 1 <= attempt <= RetryAttempts
    ensures var v := JudgeFrom(attempt, outcomes);
      && attempt <= v.calls <= RetryAttempts
      && |v.sleeps| == v.calls - attempt
      && (forall i :: 0 <= i < |v.sleeps| ==> v.sleeps[i] == RetryBaseDelay * Pow2(attempt - 1 + i))
      && v.scores == Settle(outcomes(v.calls))
      && (forall k :: attempt <= k < v.calls ==> outcomes(k).Err? && IsRateLimit(outcomes(k).error))
    decreases RetryAttempts - attempt
  {
    match outcomes(attempt)
    case Ok(_) =>
    case Err(e) =>
      if IsRateLimit(e) && attempt < RetryAttempts {
        JudgeFromShape(attempt + 1, outcomes);
      }
  }

  /** The judge is called at most three times and only when the key is set and the answer
      is not a transport failure. It sleeps 5 s and then 10 s, one sleep per retried rate
      limit, and it always settles on the last call made: that reply's scores, or
      "Judge error: ..." for what it raised. The fall-through "Judge failed after all
      retries" is therefore never returned. */
  lemma JudgeShape(hasKey: bool, answer: string, call: nat -> CallOutcome, decode: string -> Result<ScoreObject, string>)
    ensures var v := JudgeSpec(hasKey, answer, call, decode);
      && (v.calls == 0 <==> !hasKey || SystemFailed(answer))
      && v.calls <= RetryAttempts
      && |v.sleeps| == (if v.calls == 0 then 0 else v.calls - 1)
      && v.sleeps == [5, 10][..|v.sleeps|]
      && (v.calls > 0 ==> v.scores == Settle(AttemptOutcome(call(v.calls), decode)))
      && (v.calls > 0 && AttemptOutcome(call(v.calls), decode).Err? ==> v.scores != ZeroScores(ExhaustedReasoning))
  {
    var v := JudgeSpec(hasKey, answer, call, decode);
    if hasKey && !SystemFailed(answer) {
      var outcomes := Attempts(call, decode);
      JudgeFromShape(1, outcomes);
      assert |v.sleeps| <= 2;
      if |v.sleeps| >= 1 { assert v.sleeps[0] == 5; }
      if |v.sleeps| == 2 { assert v.sleeps[1] == 10; }
      assert v.sleeps == [5, 10][..|v.sleeps|];
      if outcomes(v.calls).Err? {
        var e := outcomes(v.calls).error;
        assert v.scores.reasoning == "Judge error: " + Take(e, 100);
        assert v.scores.reasoning[0..6] == "Judge ";
        assert ExhaustedReasoning[0..6] == "Judge ";
        assert v.scores.reasoning[6] == 'e' && ExhaustedReasoning[6] == 'f';
      }
    }
  }

  /** A rate limit on every attempt: two sleeps (5 s, 10 s), three calls, and the third
      error reported as "Judge error: ...", not as a retry exhaustion. */
  lemma RateLimitedThrice(call: nat -> CallOutcome, decode: string -> Result<ScoreObject, string>)
    requires forall k :: 1 <= k <= 3 ==> call(k).Raised? && IsRateLimit(call(k).message)
    ensures JudgeSpec(true, "", call, decode)
         == Verdict(ZeroScores("Judge error: " + Take(call(3).message, 100)), [5, 10], 3)
  {
    assert !SystemFailed("");
    assert Pow2(0) == 1 && Pow2(1) == 2;
  }

  /** A reply wrapped in a fence whose opening line carries a language tag is decoded
      from the text between the fences. */
  lemma UnfenceWrapped(tag: string, body: string)
    requires !Contains(tag, "\n") && !Contains(body, Fence)
    ensures Unfence(Fence + tag + "\n" + body + Fence) == Ok(Strip(body))
  {
    var text := Fence + tag + "\n" + body + Fence;
    assert StartsWith(text, Fence) by { assert text[..3] == Fence; }
    FirstLineBreak(tag, body + Fence);
    assert text == Fence + tag + "\n" + (body + Fence);
    var rest := text[|Fence| + |tag| + 1..];
    assert rest == body + Fence;
    RFindAtEnd(body, Fence);
    assert rest[..|body|] == body;
  }

  /** The first line break after the opening fence ends the tag. */
  lemma FirstLineBreak(tag: string, rest: string)
    requires !Contains(tag, "\n")
    ensures IndexOf(Fence + tag + "\n" + rest, "\n") == Some(|Fence| + |tag|)
  {
    var text := Fence + tag + "\n" + rest;
    var i := |Fence| + |tag|;
    assert OccursAt(text, "\n", i) by { assert text[i..i + 1] == "\n"; }
    forall j | 0 <= j < i ensures !OccursAt(text, "\n", j) {
      if j < 3 {
        assert text[j] == Fence[j];
      } else {
        assert text[j..j + 1] == tag[j - 3..j - 3 + 1];
        assert !OccursAt(tag, "\n", j - 3);
      }
    }
    IndexOfAt(text, "\n", i);
  }

  /** A score given as a float keeps its integer part: 8.5 is read as 8 and -8.5 as -8. */
  lemma FloatScore(x: real)
    ensures var r := IntOf(Some(FloatNumber(x)));
      && r.Ok?
      && (x >= 0.0 ==> 0 <= r.value && r.value as real <= x < r.value as real + 1.0)
      && (x < 0.0 ==> r.value <= 0 && r.value as real - 1.0 < x <= r.value as real)
  {
  }

  lemma FloatScoreExamples()
    ensures IntOf(Some(FloatNumber(8.5))) == Ok(8)
    ensures IntOf(Some(FloatNumber(-8.5))) == Ok(-8)
  {
    FloatScore(8.5);
    FloatScore(-8.5);
  }

  /** A NaN or infinite correctness score makes the attempt fail with Python's error. */
  lemma NonFiniteScoreFails(content: string, decode: string -> Result<ScoreObject, string>, text: string, obj: ScoreObject)
    requires Unfence(Strip(content)) == Ok(text) && decode(text) == Ok(obj)
    requires obj.correctness == Some(NotANumber) || (obj.correctness.Some? && obj.correctness.value.Infinite?)
    ensures ScoreReply(content, decode).Err?
    ensures !IsRateLimit(ScoreReply(content, decode).error)
  {
    var e := ScoreReply(content, decode).error;
    if obj.correctness == Some(NotANumber) {
      assert e == "cannot convert float NaN to integer";
      NoRateLimitIn(e);
    } else {
      assert e == "cannot convert float infinity to integer";
      NoRateLimitIn(e);
    }
  }

  /** Text without a `4` and without an `R` names no rate limit. */
  lemma NoRateLimitIn(e: string)
    requires forall i :: 0 <= i < |e| ==> e[i] != '4' && e[i] != 'R'
    ensures !IsRateLimit(e)
  {
    forall i | 0 <= i <= |e| - 3 ensures !OccursAt(e, "429", i) {
      assert e[i..i + 3][0] == e[i];
    }
    forall i | 0 <= i <= |e| - |"RESOURCE_EXHAUSTED"| ensures !OccursAt(e, "RESOURCE_EXHAUSTED", i) {
      assert e[i..i + |"RESOURCE_EXHAUSTED"|][0] == e[i];
    }
  }

  /** A score given as decimal text is read back as the same integer. */
  lemma TextScore(n: int)
    ensures IntOf(Some(Text(IntToString(n)))) == Ok(n)
  {
    ParseIntRoundTrip(n);
  }
}
