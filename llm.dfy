// The LLM client as the modelled code sees it: each call either returns a reply
// or raises an error whose text decides whether it is a rate limit. The calls
// are an oracle indexed by the attempt number; sleeping is recorded, not done.
module Llm {
  import opened Base
  import opened Strings

  datatype CallOutcome = Completion(content: string) | Raised(message: string)

  /** The rate-limit test shared by the judge, the query generator and both agents. */
  predicate IsRateLimit(message: string) {
    Contains(message, "429") || Contains(message, "RESOURCE_EXHAUSTED")
  }

  function Pow2(n: nat): (r: nat)
    ensures r >= 1
  {
    if n == 0 then 1 else 2 * Pow2(n - 1)
  }

  /** How a bounded retry loop over rate limits ends. */
  datatype Ending =
    | Answered(content: string)
    | Failed(message: string)               // a non-rate-limit error, re-raised at once
    | Exhausted(lastError: Option<string>)  // every attempt was rate limited

  datatype Run = Run(ending: Ending, waits: seq<nat>, calls: nat)

  /** The wait before the retry that follows attempt `attempt` (0-based): `2 ** attempt * 2`. */
  function BackoffWait(attempt: nat): nat { Pow2(attempt) * 2 }

  /** The loop of `for attempt in range(maxAttempts)` that returns the first reply,
      re-raises any other error, and sleeps after every rate limit, including the last. */
  function RetryFrom(attempt: nat, maxAttempts: nat, call: nat -> CallOutcome, last: Option<string>): Run
    decreases maxAttempts - attempt
  {
    if attempt >= maxAttempts then Run(Exhausted(last), [], attempt)
    else
      match call(attempt)
      case Completion(c) => Run(Answered(c), [], attempt + 1)
      case Raised(m) =>
        if IsRateLimit(m) then
          var rest := RetryFrom(attempt + 1, maxAttempts, call, Some(m));
          rest.(waits := [BackoffWait(attempt)] + rest.waits)
        else Run(Failed(m), [], attempt + 1)
  }

  function RetrySpec(maxAttempts: nat, call: nat -> CallOutcome): Run {
    RetryFrom(0, maxAttempts, call, None)
  }

  method RetryLoop(call: nat -> CallOutcome, maxAttempts: nat) returns (ending: Ending, waits: seq<nat>, calls: nat)
    ensures Run(ending, waits, calls) == RetrySpec(maxAttempts, call)
  {
    waits := [];
    var lastError: Option<string> := None;
    var attempt := 0;
    while attempt < maxAttempts
      invariant attempt <= maxAttempts
      invariant RetrySpec(maxAttempts, call)
             == var rest := RetryFrom(attempt, maxAttempts, call, lastError); rest.(waits := waits + rest.waits)
      decreases maxAttempts - attempt
    {
      match call(attempt)
      case Completion(c) =>
        assert waits + [] == waits;
        return Answered(c), waits, attempt + 1;
      case Raised(m) =>
        if IsRateLimit(m) {
          lastError := Some(m);
          waits := waits + [BackoffWait(attempt)];
          attempt := attempt + 1;
          continue;
        }
        assert waits + [] == waits;
        return Failed(m), waits, attempt + 1;
    }
    assert waits + [] == waits;
    return Exhausted(lastError), waits, attempt;
  }

  /** Every attempt before the last one made was rate limited; the number of calls is
      bounded by the attempt budget; the waits are 2, 4, 8, ... seconds, one per rate limit. */
  lemma {:induction false} RetryFromShape(attempt: nat, maxAttempts: nat, call: nat -> CallOutcome, last: Option<string>)
    requires attempt <= maxAttempts
    ensures var r := RetryFrom(attempt, maxAttempts, call, last);
      && attempt <= r.calls <= maxAttempts
      && (forall k :: attempt <= k < r.calls - 1 ==> call(k).Raised? && IsRateLimit(call(k).message))
      && (forall i :: 0 <= i < |r.waits| ==> r.waits[i] == BackoffWait(attempt + i))
      && (r.ending.Answered? ==> r.calls > attempt && call(r.calls - 1) == Completion(r.ending.content)
                                 && |r.waits| == r.calls - 1 - attempt)
      && (r.ending.Failed? ==> r.calls > attempt && call(r.calls - 1) == Raised(r.ending.message)
                               && !IsRateLimit(r.ending.message) && |r.waits| == r.calls - 1 - attempt)
      && (r.ending.Exhausted? ==> r.calls == maxAttempts && |r.waits| == maxAttempts - attempt
                                  && (attempt < maxAttempts ==> call(maxAttempts - 1).Raised? && IsRateLimit(call(maxAttempts - 1).message)
                                                                && r.ending.lastError == Some(call(maxAttempts - 1).message))
                                  && (attempt == maxAttempts ==> r.ending.lastError == last))
    decreases maxAttempts - attempt
  {
    if attempt < maxAttempts {
      match call(attempt)
      case Completion(c) =>
      case Raised(m) =>
        if IsRateLimit(m) {
          RetryFromShape(attempt + 1, maxAttempts, call, Some(m));
        }
    }
  }

  /** Three rate limits in a row exhaust a budget of three after waiting 2, 4 and 8 seconds. */
  lemma ThreeRateLimits(call: nat -> CallOutcome)
    requires forall k :: 0 <= k < 3 ==> call(k).Raised? && IsRateLimit(call(k).message)
    ensures RetrySpec(3, call) == Run(Exhausted(Some(call(2).message)), [2, 4, 8], 3)
  {
    assert BackoffWait(0) == 2 && BackoffWait(1) == 4 && BackoffWait(2) == 8;
  }
}
