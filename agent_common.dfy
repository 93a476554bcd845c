// What the graph agent and the vector agent share: the LLM call with retries, the
// rule-based intent classifier with its three keyword patterns, the routing after
// classification and the fixed reply texts.
module AgentCommon {
  import opened Base
  import opened Strings
  import opened Llm

  // ---------------------------------------------------------------------------
  // `llm_invoke_with_retry`
  // ---------------------------------------------------------------------------

  const MaxRetries := 3
  const RetriesExhausted := "LLM rate limit exceeded after retries. Please wait a minute and try again."

  /** The reply content, or the text of the exception raised; the waits slept. */
  datatype Invocation = Invocation(reply: Result<string, string>, waits: seq<nat>, calls: nat)

  /** The first reply; the first error that is not a rate limit, re-raised; or, after
      three rate limits, a fixed exception of the function's own. */
  function InvocationOf(call: nat -> CallOutcome): Invocation {
    var run := RetrySpec(MaxRetries, call);
    match run.ending
    case Answered(c) => Invocation(Ok(c), run.waits, run.calls)
    case Failed(m) => Invocation(Err(m), run.waits, run.calls)
    case Exhausted(_) => Invocation(Err(RetriesExhausted), run.waits, run.calls)
  }

  method InvokeWithRetry(call: nat -> CallOutcome) returns (inv: Invocation)
    ensures inv == InvocationOf(call)
  {
    var ending, waits, calls := RetryLoop(call, MaxRetries);
    match ending {
      case Answered(c) => inv := Invocation(Ok(c), waits, calls);
      case Failed(m) => inv := Invocation(Err(m), waits, calls);
      case Exhausted(_) => inv := Invocation(Err(RetriesExhausted), waits, calls);
    }
  }

  /** At most three calls, a 2, 4, 8 second wait after each rate limit; the reply is
      the last call's; an error other than a rate limit is re-raised at once; and the
      fixed exception comes exactly when all three calls were rate limited. */
  lemma InvocationShape(call: nat -> CallOutcome)
    ensures var inv := InvocationOf(call);
      && 1 <= inv.calls <= MaxRetries
      && (forall i :: 0 <= i < |inv.waits| ==> inv.waits[i] == BackoffWait(i))
      && (forall k :: 0 <= k < inv.calls - 1 ==> call(k).Raised? && IsRateLimit(call(k).message))
      && (inv.reply.Ok? ==> call(inv.calls - 1) == Completion(inv.reply.value) && |inv.waits| == inv.calls - 1)
      && ((forall k :: 0 <= k < MaxRetries ==> call(k).Raised? && IsRateLimit(call(k).message))
          <==> inv.reply == Err(RetriesExhausted) && inv.waits == [2, 4, 8])
      && (inv.reply.Err? && inv.reply.error != RetriesExhausted ==>
            call(inv.calls - 1) == Raised(inv.reply.error) && !IsRateLimit(inv.reply.error)
            && |inv.waits| == inv.calls - 1)
  {
    RetryFromShape(0, MaxRetries, call, None);
    assert BackoffWait(0) == 2 && BackoffWait(1) == 4 && BackoffWait(2) == 8;
  }

  // ---------------------------------------------------------------------------
  // Intent classification
  // ---------------------------------------------------------------------------

  datatype Intent = AddPerson | AddRelationship | Update | Query | ErrorIntent

  function IntentName(i: Intent): string {
    match i
    case AddPerson => "add_person"
    case AddRelationship => "add_relationship"
    case Update => "update"
    case Query => "query"
    case ErrorIntent => "error"
  }

  /** A pattern `\b(verb|...)\b.*(noun|...)`, matched ignoring case, written with
      lower-case words. */
  datatype Pattern = Pattern(verbs: seq<string>, nouns: seq<string>)

  const AddPersonPattern :=
    Pattern(["add", "create", "insert", "register", "new"],
            ["person", "people", "individual", "user", "member"])
  const AddRelationshipPattern :=
    Pattern(["add", "create", "make", "set"],
            ["friend", "spouse", "parent", "child", "sibling", "colleague", "neighbor", "relationship", "connection"])
  const UpdatePattern :=
    Pattern(["update", "change", "modify", "edit", "set", "rename"],
            ["name", "age", "phone", "email", "address", "job", "title"])

  /** `\w` on ASCII text. */
  predicate WordChar(c: char) {
    'a' <= c <= 'z' || 'A' <= c <= 'Z' || '0' <= c <= '9' || c == '_'
  }

  /** `\bw\b` at `i`, ignoring case, for a word `w` that starts and ends with a letter. */
  predicate KeywordAt(q: string, i: int, w: string) {
    OccursAt(Lower(q), w, i)
    && (i == 0 || !WordChar(q[i - 1]))
    && (i + |w| == |q| || !WordChar(q[i + |w|]))
  }

  /** `.*(noun|...)` from `from`: a noun further on, with no line break in between
      (`.` does not match one). */
  predicate NounLater(q: string, from: nat, nouns: seq<string>) {
    exists j, n | from <= j <= |q| && n in nouns :: OccursAt(Lower(q), n, j) && '\n' !in q[from..j]
  }

  /** `pattern.search(q)` finds a match. */
  predicate Matches(q: string, p: Pattern) {
    exists i, v | 0 <= i <= |q| && v in p.verbs :: KeywordAt(q, i, v) && NounLater(q, i + |v|, p.nouns)
  }

  /** The first pattern that matches decides; no pattern gives `query`. */
  function ClassifyIntent(q: string): Intent {
    if Matches(q, AddPersonPattern) then AddPerson
    else if Matches(q, AddRelationshipPattern) then AddRelationship
    else if Matches(q, UpdatePattern) then Update
    else Query
  }

  /** The classifier never yields `error`, and each intent holds exactly when its
      pattern matches and no earlier one does. */
  lemma IntentPrecedence(q: string)
    ensures ClassifyIntent(q) != ErrorIntent
    ensures ClassifyIntent(q) == AddPerson <==> Matches(q, AddPersonPattern)
    ensures ClassifyIntent(q) == AddRelationship
        <==> !Matches(q, AddPersonPattern) && Matches(q, AddRelationshipPattern)
    ensures ClassifyIntent(q) == Update
        <==> !Matches(q, AddPersonPattern) && !Matches(q, AddRelationshipPattern) && Matches(q, UpdatePattern)
    ensures ClassifyIntent(q) == Query
        <==> !Matches(q, AddPersonPattern) && !Matches(q, AddRelationshipPattern) && !Matches(q, UpdatePattern)
  {
  }

  /** Text already in lower case occurs in the lowered query where it occurs in the query. */
  lemma LowerKeepsWord(q: string, i: nat, w: string)
    requires i + |w| <= |q| && q[i..i + |w|] == w
    requires forall k :: 0 <= k < |w| ==> LowerChar(w[k]) == w[k]
    ensures OccursAt(Lower(q), w, i)
  {
    forall k | 0 <= k < |w|
      ensures Lower(q)[i..i + |w|][k] == w[k]
    {
      assert q[i + k] == q[i..i + |w|][k];
    }
  }

  /** A request to add a person is classified as such: the verb is a whole word and
      the noun follows on the same line. */
  lemma AddPersonRequest(rest: string)
    requires '\n' !in rest
    ensures ClassifyIntent("add a person" + rest) == AddPerson
  {
    var q := "add a person" + rest;
    assert q[0..3] == "add";
    LowerKeepsWord(q, 0, "add");
    assert q[6..12] == "person";
    LowerKeepsWord(q, 6, "person");
    assert '\n' !in q[3..6];
    assert KeywordAt(q, 0, "add") && NounLater(q, 3, AddPersonPattern.nouns);
  }

  /** Where the graph jumps after classification. */
  datatype Route = HandleError | Continue

  /** The state's intent is a string; only `"error"` leads to the error handler. */
  function RouteByIntent(intent: string): (r: Route)
    ensures r == HandleError <==> intent == "error"
  {
    if intent == "error" then HandleError else Continue
  }

  /** Given the classifier, the error handler is never reached. */
  lemma HandleErrorUnreachable(q: string)
    ensures RouteByIntent(IntentName(ClassifyIntent(q))) == Continue
  {
    IntentPrecedence(q);
  }

  // ---------------------------------------------------------------------------
  // Reply texts
  // ---------------------------------------------------------------------------

  const NoResults := "No results found for your query. Please try a different question."

  /** `if error`: a present, non-empty error. */
  predicate Truthy(error: Option<string>) {
    error.Some? && error.value != ""
  }

  function IssueReply(error: string): string {
    "I encountered an issue: " + error + ". Please try rephrasing your question."
  }

  /** `str(error)` of the state's error, `None` when there is none. */
  function ErrorText(error: Option<string>): string {
    match error
    case None => "None"
    case Some(e) => e
  }

  function HandleErrorReply(error: Option<string>): string {
    "I'm sorry, I couldn't process your request. Error: " + ErrorText(error)
  }

  function AgentErrorReply(e: string): string {
    "Agent error: " + e
  }
}
