// Natural language to SPARQL through the LLM: the messages sent, the clean-up of
// the reply (markdown fences, a dangling `LIMIT`) and the retry loop over rate
// limits. The LLM is an oracle answering the messages on each attempt.
module QueryGenerator {
  import opened Base
  import opened Strings
  import opened Seqs
  import opened Llm

  const Fence := "```"
  const LineBreak := "\n"
  const FixedLimit := "LIMIT 50"
  const Attempts := 3

  datatype Message = SystemMessage(content: string) | HumanMessage(content: string)

  /** The system prompt (its constant text is not modelled), then the request. */
  function Messages(prompt: string, naturalLanguage: string, intent: string): (m: seq<Message>)
    ensures |m| == 2 && m[0] == SystemMessage(prompt)
    ensures m[1].HumanMessage? && StartsWith(m[1].content, "Intent: " + intent + "\nUser request: ")
    ensures EndsWith(m[1].content, naturalLanguage)
  {
    var head := "Intent: " + intent + "\nUser request: ";
    var human := head + naturalLanguage;
    assert human[..|head|] == head;
    assert human[|human| - |naturalLanguage|..] == naturalLanguage;
    [SystemMessage(prompt), HumanMessage(human)]
  }

  predicate IsFenceLine(line: string) {
    StartsWith(line, Fence)
  }

  predicate KeepLine(line: string) {
    !IsFenceLine(line)
  }

  /** A reply starting with a fence loses every line that starts with one, and is
      stripped again. */
  function StripFences(s: string): string {
    if StartsWith(s, Fence) then Strip(Join(Filter(Split(s, LineBreak), KeepLine), LineBreak))
    else s
  }

  /** Where `LIMIT\s*$` (any case) matches: `LIMIT` followed by nothing but whitespace. */
  predicate LimitAt(s: string, p: int) {
    0 <= p && p + 5 <= |s| && Lower(s[p..p + 5]) == "limit" && AllSpace(s[p + 5..])
  }

  /** The only place the pattern can match: just before the trailing whitespace. */
  lemma LimitAtUnique(s: string, q: int)
    requires LimitAt(s, q)
    ensures q == |s| - TrailingSpaces(s) - 5
  {
    assert LowerChar(s[q..q + 5][4]) == 't';
    assert s[q..q + 5][4] == s[q + 4];
    forall j | q + 5 <= j < |s|
      ensures IsSpace(s[j])
    {
      assert s[q + 5..][j - q - 5] == s[j];
    }
  }

  /** Whether the text ends in `LIMIT` and whitespace, and where that `LIMIT` starts. */
  function TrailingLimit(s: string): (r: Option<nat>)
    ensures r.Some? ==> LimitAt(s, r.value)
    ensures r.None? ==> forall p :: 0 <= p <= |s| ==> !LimitAt(s, p)
  {
    var p := |s| - TrailingSpaces(s) - 5;
    assert forall q :: 0 <= q <= |s| && LimitAt(s, q) ==> q == p by {
      forall q | 0 <= q <= |s| && LimitAt(s, q)
        ensures q == p
      {
        LimitAtUnique(s, q);
      }
    }
    if p >= 0 && Lower(s[p..p + 5]) == "limit" then Some(p) else None
  }

  /** `LIMIT\s*$`, matched case-insensitively, becomes `LIMIT 50`. */
  function FixLimit(s: string): string {
    match TrailingLimit(s)
    case None => s
    case Some(p) => s[..p] + FixedLimit
  }

  /** The reply after stripping, fence removal and the `LIMIT` repair. */
  function CleanSparql(content: string): string {
    FixLimit(StripFences(Strip(content)))
  }

  /** What `generate_sparql` returns or raises, and the waits it sleeps. */
  datatype Generation = Generation(sparql: Result<string, string>, waits: seq<nat>, calls: nat)

  /** The LLM asked the same messages on every attempt. */
  function Ask(llm: (seq<Message>, nat) -> CallOutcome, msgs: seq<Message>): nat -> CallOutcome {
    (k: nat) => llm(msgs, k)
  }

  /** The loop over three attempts: the cleaned first reply, or the first error that is
      not a rate limit, or the last rate-limit error once the attempts are spent. */
  function GenerationOf(prompt: string, naturalLanguage: string, intent: string,
                        llm: (seq<Message>, nat) -> CallOutcome): Generation
  {
    var call := Ask(llm, Messages(prompt, naturalLanguage, intent));
    var run := RetrySpec(Attempts, call);
    RetryFromShape(0, Attempts, call, None);
    match run.ending
    case Answered(c) => Generation(Ok(CleanSparql(c)), run.waits, run.calls)
    case Failed(m) => Generation(Err(m), run.waits, run.calls)
    case Exhausted(last) => Generation(Err(last.value), run.waits, run.calls)
  }

  method GenerateSparql(prompt: string, naturalLanguage: string, intent: string,
                        llm: (seq<Message>, nat) -> CallOutcome) returns (g: Generation)
    ensures g == GenerationOf(prompt, naturalLanguage, intent, llm)
  {
    var call := Ask(llm, Messages(prompt, naturalLanguage, intent));
    var ending, waits, calls := RetryLoop(call, Attempts);
    RetryFromShape(0, Attempts, call, None);
    match ending {
      case Answered(c) =>
        var sparql := Strip(c);
        if StartsWith(sparql, Fence) {
          var lines := Split(sparql, LineBreak);
          lines := Filter(lines, KeepLine);
          sparql := Strip(Join(lines, LineBreak));
        }
        sparql := FixLimit(sparql);
        return Generation(Ok(sparql), waits, calls);
      case Failed(m) =>
        return Generation(Err(m), waits, calls);
      case Exhausted(last) =>
        return Generation(Err(last.value), waits, calls);
    }
  }

  // Properties.

  /** At most three calls; the waits are 2, 4 and 8 seconds, one per rate limit, also
      after the third; an error that is not a rate limit ends the loop at once and
      is the one raised; a reply is returned cleaned. */
  lemma GenerationShape(prompt: string, naturalLanguage: string, intent: string,
                        llm: (seq<Message>, nat) -> CallOutcome)
    ensures var g := GenerationOf(prompt, naturalLanguage, intent, llm);
      var call := Ask(llm, Messages(prompt, naturalLanguage, intent));
      && 1 <= g.calls <= Attempts
      && (forall i :: 0 <= i < |g.waits| ==> g.waits[i] == BackoffWait(i))
      && (forall k :: 0 <= k < g.calls - 1 ==> call(k).Raised? && IsRateLimit(call(k).message))
      && (g.sparql.Ok? ==>
            call(g.calls - 1).Completion? && g.sparql.value == CleanSparql(call(g.calls - 1).content)
            && |g.waits| == g.calls - 1)
      && (g.sparql.Err? ==> call(g.calls - 1) == Raised(g.sparql.error))
      && (g.sparql.Err? && !IsRateLimit(g.sparql.error) ==> |g.waits| == g.calls - 1)
      && (g.sparql.Err? && IsRateLimit(g.sparql.error) ==> g.calls == Attempts && |g.waits| == Attempts)
  {
    RetryFromShape(0, Attempts, Ask(llm, Messages(prompt, naturalLanguage, intent)), None);
  }

  /** Three rate limits: waits of 2, 4 and 8 seconds, then the third error. */
  lemma ThreeRateLimitsRaise(prompt: string, naturalLanguage: string, intent: string,
                             llm: (seq<Message>, nat) -> CallOutcome)
    requires var msgs := Messages(prompt, naturalLanguage, intent);
      forall k :: 0 <= k < 3 ==> llm(msgs, k).Raised? && IsRateLimit(llm(msgs, k).message)
    ensures GenerationOf(prompt, naturalLanguage, intent, llm)
         == Generation(Err(llm(Messages(prompt, naturalLanguage, intent), 2).message), [2, 4, 8], 3)
  {
    ThreeRateLimits(Ask(llm, Messages(prompt, naturalLanguage, intent)));
  }

  /** After the repair the text never ends in a bare `LIMIT`. */
  lemma NoBareLimit(s: string)
    ensures TrailingLimit(FixLimit(s)).None?
  {
    if TrailingLimit(s).Some? {
      var p := TrailingLimit(s).value;
      var r := s[..p] + FixedLimit;
      assert r[|r| - 1] == '0';
      forall q | 0 <= q <= |r|
        ensures !LimitAt(r, q)
      {
        if q + 5 == |r| {
          assert r[q..q + 5][4] == '0';
          assert Lower(r[q..q + 5])[4] == '0';
        } else if q + 5 < |r| {
          assert r[q + 5..][|r| - q - 6] == '0';
        }
      }
    }
  }

  /** The repair is idempotent, and leaves alone a text without a trailing `LIMIT`. */
  lemma FixLimitIdempotent(s: string)
    ensures FixLimit(FixLimit(s)) == FixLimit(s)
    ensures TrailingLimit(s).None? ==> FixLimit(s) == s
  {
    NoBareLimit(s);
  }

  lemma NoNewline(p: string)
    requires '\n' !in p
    ensures SeparableBy(p, LineBreak)
  {
    assert p + LineBreak[..0] == p;
    forall i | 0 <= i <= |p| - 1
      ensures !OccursAt(p, LineBreak, i)
    {
      assert p[i..i + 1][0] == p[i];
    }
  }

  /** The lines of a fenced block joined. */
  function Fenced(tag: string, lines: seq<string>): seq<string> {
    [Fence + tag] + lines + [Fence]
  }

  lemma FencedJoin(tag: string, lines: seq<string>)
    requires lines != []
    ensures Join(Fenced(tag, lines), LineBreak)
         == Fence + tag + LineBreak + Join(lines, LineBreak) + LineBreak + Fence
  {
    var rest := lines + [Fence];
    assert Fenced(tag, lines) == [Fence + tag] + rest;
    JoinCons(Fence + tag, rest, LineBreak);
    assert rest[..|lines|] == lines;
  }

  lemma FencedSplit(tag: string, lines: seq<string>)
    requires lines != [] && '\n' !in tag
    requires forall k :: 0 <= k < |lines| ==> '\n' !in lines[k]
    ensures Split(Join(Fenced(tag, lines), LineBreak), LineBreak) == Fenced(tag, lines)
  {
    var parts := Fenced(tag, lines);
    forall k | 0 <= k < |parts|
      ensures SeparableBy(parts[k], LineBreak)
    {
      if k == 0 {
        assert forall j :: 0 <= j < |Fence + tag| ==> (Fence + tag)[j] == '`' || (Fence + tag)[j] in tag;
        NoNewline(Fence + tag);
      } else if k <= |lines| {
        assert parts[k] == lines[k - 1];
        NoNewline(lines[k - 1]);
      } else {
        assert parts[k] == Fence;
        NoNewline(Fence);
      }
    }
    SplitOfJoin(parts, LineBreak);
  }

  lemma FencedFilter(tag: string, lines: seq<string>)
    requires forall k :: 0 <= k < |lines| ==> KeepLine(lines[k])
    ensures Filter(Fenced(tag, lines), KeepLine) == lines
  {
    assert (Fence + tag)[..3] == Fence;
    assert Fenced(tag, lines) == [Fence + tag] + (lines + [Fence]);
    FilterAppend([Fence + tag], lines + [Fence], KeepLine);
    FilterAppend(lines, [Fence], KeepLine);
    FilterSingle(Fence + tag, KeepLine);
    FilterSingle(Fence, KeepLine);
    FilterAll(lines, KeepLine);
  }

  lemma FencedStartsWith(tag: string, lines: seq<string>)
    requires lines != []
    ensures StartsWith(Join(Fenced(tag, lines), LineBreak), Fence)
  {
    var head := Fence + tag;
    var rest := lines + [Fence];
    assert Fenced(tag, lines) == [head] + rest;
    JoinCons(head, rest, LineBreak);
    var tail := LineBreak + Join(rest, LineBreak);
    assert head + LineBreak + Join(rest, LineBreak) == head + tail;
    assert (head + tail)[..3] == head[..3] == Fence;
  }

  lemma FencedStripFences(tag: string, lines: seq<string>)
    requires lines != [] && '\n' !in tag
    requires forall k :: 0 <= k < |lines| ==> '\n' !in lines[k] && KeepLine(lines[k])
    ensures StripFences(Join(Fenced(tag, lines), LineBreak)) == Strip(Join(lines, LineBreak))
  {
    FencedStartsWith(tag, lines);
    FencedSplit(tag, lines);
    FencedFilter(tag, lines);
  }

  lemma FencedIsStripped(tag: string, lines: seq<string>)
    requires lines != []
    ensures Strip(Join(Fenced(tag, lines), LineBreak)) == Join(Fenced(tag, lines), LineBreak)
  {
    var s := Join(Fenced(tag, lines), LineBreak);
    FencedJoin(tag, lines);
    assert s[0] == '`' && s[|s| - 1] == '`';
  }

  /** A query wrapped in a fenced block comes back unchanged: the fence lines go and
      nothing else does. */
  lemma FencedRoundTrip(tag: string, lines: seq<string>)
    requires lines != [] && '\n' !in tag
    requires forall k :: 0 <= k < |lines| ==> '\n' !in lines[k] && KeepLine(lines[k])
    requires IsStripped(Join(lines, LineBreak)) && TrailingLimit(Join(lines, LineBreak)).None?
    ensures CleanSparql(Fence + tag + LineBreak + Join(lines, LineBreak) + LineBreak + Fence)
            == Join(lines, LineBreak)
  {
    FencedJoin(tag, lines);
    FencedIsStripped(tag, lines);
    FencedStripFences(tag, lines);
  }
}
