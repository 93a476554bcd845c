// The graph agent's workflow: classify the request, generate SPARQL, run it through
// the query tool, and phrase the answer with the LLM or, when the LLM fails, with a
// plain-text fallback. The LangGraph wiring becomes a composition of node functions;
// the SPARQL server and the LLM are oracles.
module GraphAgent {
  import opened Base
  import opened Strings
  import opened Seqs
  import opened Llm
  import opened SparqlTypes
  import opened AgentCommon
  import QueryGenerator
  import GraphTools

  /** One element of `graph_results`: a result row, or the single `{"answer": b}` or
      `{"message": m}` object that replaces the rows. */
  datatype Item = RowItem(row: Row) | AnswerItem(answer: bool) | MessageItem(message: string)

  /** The agent state the nodes read and update (the message log is not modelled). */
  datatype State = State(
    userQuery: string,
    intent: string,
    sparqlQuery: string,
    graphResults: seq<Item>,
    finalResponse: string,
    error: Option<string>)

  function InitialState(userQuery: string): State {
    State(userQuery, "", "", [], "", None)
  }

  // ---------------------------------------------------------------------------
  // Nodes
  // ---------------------------------------------------------------------------

  function ClassifyIntentNode(s: State): State {
    s.(intent := IntentName(ClassifyIntent(s.userQuery)))
  }

  const GenerationFailed := "Failed to generate SPARQL query: "

  /** Takes what `generate_sparql` returned or raised. */
  function GenerateSparqlNode(s: State, generated: Result<string, string>): (r: State)
  {
    match generated
    case Ok(sparql) => s.(sparqlQuery := sparql)
    case Err(e) => s.(sparqlQuery := "", error := Some(GenerationFailed + e))
  }

  /** The results the node keeps from a successful tool reply: the rows, replaced by
      the ASK answer or the update message when there is one. */
  function ItemsOf(reply: GraphTools.Reply): seq<Item>
    requires reply.Rows? || reply.Answer? || reply.Message?
  {
    match reply
    case Rows(results, _) => Map((row: Row) => RowItem(row), results)
    case Answer(answer) => [AnswerItem(answer)]
    case Message(message) => if message != "" then [MessageItem(message)] else []
  }

  /** The node's new state and the requests the tool sent. */
  datatype Executed = Executed(state: State, sent: seq<Request>)

  /** An empty query is not run and the state's error stays; otherwise the tool's rows,
      answer or message become the results, or its error the state's. */
  function ExecuteQueryNode(s: State, ep: Endpoint): Executed {
    if s.sparqlQuery == "" then Executed(s.(graphResults := []), [])
    else
      var o := GraphTools.ExecuteSparqlQuery(ep, s.sparqlQuery);
      match o.reply
      case Failed(e) => Executed(s.(graphResults := [], error := Some(e)), o.sent)
      case _ => Executed(s.(graphResults := ItemsOf(o.reply)), o.sent)
  }

  /** An error with no results is answered at once; otherwise the LLM phrases the
      answer and the fallback text stands in when it fails. */
  function FormatResponseNode(s: State, llm: nat -> CallOutcome, keyOrder: Row -> seq<string>): State {
    if Truthy(s.error) && s.graphResults == [] then s.(finalResponse := IssueReply(s.error.value))
    else
      match InvocationOf(llm).reply
      case Ok(content) => s.(finalResponse := Strip(content))
      case Err(_) => s.(finalResponse := FallbackText(s.userQuery, s.graphResults, keyOrder))
  }

  function HandleErrorNode(s: State): State {
    s.(finalResponse := HandleErrorReply(s.error))
  }

  // ---------------------------------------------------------------------------
  // `_fallback_format`
  // ---------------------------------------------------------------------------

  const MaxListed := 20

  /** URIs and `mailto:` values are shown by their last `/` segment, then their last
      `#` segment. */
  predicate IsLink(v: string) {
    StartsWith(v, "http://") || StartsWith(v, "mailto:")
  }

  function CleanValue(v: string): string {
    if IsLink(v) then LastSegment(LastSegment(v, '/'), '#') else v
  }

  function FieldPart(key: string, value: string): string {
    key + ": " + CleanValue(value)
  }

  /** The `key: value` parts of a row, in the order its variables are listed. */
  function RowParts(row: Row, keys: seq<string>): seq<string> {
    if keys == [] then []
    else
      var last := keys[|keys| - 1];
      RowParts(row, keys[..|keys| - 1]) + (if last in row then [FieldPart(last, row[last].value)] else [])
  }

  function ItemParts(item: Item, keyOrder: Row -> seq<string>): seq<string> {
    match item
    case RowItem(row) => RowParts(row, keyOrder(row))
    case AnswerItem(b) => ["answer: " + (if b then "True" else "False")]
    case MessageItem(m) => [FieldPart("message", m)]
  }

  function Header(query: string, count: nat): string {
    "Found " + NatToString(count) + " result(s) for: \"" + query + "\"\n"
  }

  function Line(n: nat, item: Item, keyOrder: Row -> seq<string>): string {
    "  " + NatToString(n) + ". " + Join(ItemParts(item, keyOrder), ", ")
  }

  /** The header counting every result, then one numbered line for each of the first
      twenty. */
  function FallbackLines(query: string, results: seq<Item>, keyOrder: Row -> seq<string>): (lines: seq<string>)
    ensures |lines| == 1 + Min(MaxListed, |results|)
    ensures lines[0] == Header(query, |results|)
    ensures forall n :: 1 <= n < |lines| ==> lines[n] == Line(n, results[n - 1], keyOrder)
  {
    [Header(query, |results|)]
      + seq(Min(MaxListed, |results|), k requires 0 <= k < Min(MaxListed, |results|) => Line(k + 1, results[k], keyOrder))
  }

  function FallbackText(query: string, results: seq<Item>, keyOrder: Row -> seq<string>): string {
    if results == [] then NoResults else Join(FallbackLines(query, results, keyOrder), "\n")
  }

  method RowPartsLoop(row: Row, keys: seq<string>) returns (parts: seq<string>)
    ensures parts == RowParts(row, keys)
  {
    parts := [];
    var j := 0;
    while j < |keys|
      invariant 0 <= j <= |keys|
      invariant parts == RowParts(row, keys[..j])
    {
      assert keys[..j + 1][..j] == keys[..j];
      if keys[j] in row {
        parts := parts + [FieldPart(keys[j], row[keys[j]].value)];
      }
      j := j + 1;
    }
    assert keys[..j] == keys;
  }

  method FormatItem(item: Item, keyOrder: Row -> seq<string>) returns (parts: seq<string>)
    ensures parts == ItemParts(item, keyOrder)
  {
    match item {
      case RowItem(row) => parts := RowPartsLoop(row, keyOrder(row));
      case AnswerItem(b) => parts := ["answer: " + (if b then "True" else "False")];
      case MessageItem(m) => parts := [FieldPart("message", m)];
    }
  }

  method FallbackFormat(query: string, results: seq<Item>, keyOrder: Row -> seq<string>) returns (text: string)
    ensures text == FallbackText(query, results, keyOrder)
  {
    if results == [] {
      return NoResults;
    }
    var shown := Min(MaxListed, |results|);
    var lines := [Header(query, |results|)];
    var i := 0;
    while i < shown
      invariant 0 <= i <= shown
      invariant |lines| == i + 1 && lines[0] == Header(query, |results|)
      invariant forall n :: 1 <= n <= i ==> lines[n] == Line(n, results[n - 1], keyOrder)
    {
      var parts := FormatItem(results[i], keyOrder);
      lines := lines + ["  " + NatToString(i + 1) + ". " + Join(parts, ", ")];
      i := i + 1;
    }
    assert lines == FallbackLines(query, results, keyOrder);
    text := Join(lines, "\n");
  }

  // ---------------------------------------------------------------------------
  // `run_agent`
  // ---------------------------------------------------------------------------

  /** The oracles the workflow consults: the LLM behind `generate_sparql` (asked the
      generation messages), the server, and the LLM that phrases the answer. */
  datatype World = World(
    prompt: string,
    sparqlLlm: (seq<QueryGenerator.Message>, nat) -> CallOutcome,
    ep: Endpoint,
    answerLlm: nat -> CallOutcome,
    keyOrder: Row -> seq<string>)

  /** The final state and the requests sent to the server. */
  function Workflow(userQuery: string, w: World): Executed {
    var s1 := ClassifyIntentNode(InitialState(userQuery));
    match RouteByIntent(s1.intent)
    case HandleError => Executed(HandleErrorNode(s1), [])
    case Continue =>
      var g := QueryGenerator.GenerationOf(w.prompt, userQuery, s1.intent, w.sparqlLlm);
      var s2 := GenerateSparqlNode(s1, g.sparql);
      var e := ExecuteQueryNode(s2, w.ep);
      Executed(FormatResponseNode(e.state, w.answerLlm, w.keyOrder), e.sent)
  }

  /** The dictionary `run_agent` returns (the elapsed time is not modelled). */
  datatype AgentResult = AgentResult(
    success: bool,
    query: string,
    intent: string,
    results: seq<Item>,
    response: string,
    sparqlQuery: string)

  /** `crash` is an exception escaping the workflow itself, if any. */
  function RunAgent(userQuery: string, w: World, crash: Option<string>): AgentResult {
    match crash
    case Some(e) => AgentResult(false, userQuery, "", [], AgentErrorReply(e), "")
    case None =>
      var s := Workflow(userQuery, w).state;
      AgentResult(true, userQuery, s.intent, s.graphResults, s.finalResponse, s.sparqlQuery)
  }

  // ---------------------------------------------------------------------------
  // Properties
  // ---------------------------------------------------------------------------

  /** With no query, nothing is sent, there are no results, and the error is kept. */
  lemma EmptyQueryNotRun(s: State, ep: Endpoint)
    requires s.sparqlQuery == ""
    ensures var e := ExecuteQueryNode(s, ep);
      e.sent == [] && e.state.graphResults == [] && e.state.error == s.error
  {
  }

  /** A query is sent once; the results are the rows, or the single answer or message
      that replaces them; a failure leaves no results and sets the error. */
  lemma ExecuteQueryShape(s: State, ep: Endpoint)
    requires s.sparqlQuery != ""
    ensures var e := ExecuteQueryNode(s, ep);
      var o := GraphTools.ExecuteSparqlQuery(ep, s.sparqlQuery);
      && e.sent == o.sent && |e.sent| <= 1
      && (o.reply.Rows? ==>
            |e.state.graphResults| == |o.reply.results|
            && forall k :: 0 <= k < |o.reply.results| ==> e.state.graphResults[k] == RowItem(o.reply.results[k]))
      && (o.reply.Answer? ==> e.state.graphResults == [AnswerItem(o.reply.answer)])
      && (o.reply.Message? ==> e.state.graphResults == [MessageItem(GraphTools.UpdateDone)])
      && (o.reply.Failed? ==> e.state.error == Some(o.reply.error) && e.state.graphResults == [])
      && (!o.reply.Failed? ==> e.state.error == s.error)
  {
  }

  /** An error with no results is answered with the fixed text, whatever the LLM does. */
  lemma ErrorWithoutResults(s: State, llm: nat -> CallOutcome, keyOrder: Row -> seq<string>)
    requires Truthy(s.error) && s.graphResults == []
    ensures FormatResponseNode(s, llm, keyOrder).finalResponse == IssueReply(s.error.value)
  {
  }

  /** Three rate limits on the answer fall back to the plain text of the results. */
  lemma RateLimitedFallback(s: State, llm: nat -> CallOutcome, keyOrder: Row -> seq<string>)
    requires !(Truthy(s.error) && s.graphResults == [])
    requires forall k :: 0 <= k < MaxRetries ==> llm(k).Raised? && IsRateLimit(llm(k).message)
    ensures FormatResponseNode(s, llm, keyOrder).finalResponse == FallbackText(s.userQuery, s.graphResults, keyOrder)
  {
    InvocationShape(llm);
  }

  /** A link's shown value is its last path or fragment segment, a suffix of it with
      neither `/` nor `#`; any other value is shown as it is. */
  lemma CleanValueShape(v: string)
    ensures IsLink(v) ==> '/' !in CleanValue(v) && '#' !in CleanValue(v) && EndsWith(v, CleanValue(v))
    ensures !IsLink(v) ==> CleanValue(v) == v
  {
    if IsLink(v) {
      var seg := LastSegment(v, '/');
      var r := LastSegment(seg, '#');
      assert r == seg[|seg| - |r|..];
      assert seg == v[|v| - |seg|..];
      assert r == v[|v| - |r|..];
      assert forall c :: c in r ==> c in seg;
    }
  }

  /** A resource URI of the data graph is shown by its local name. */
  lemma CleanResourceUri(base: string, local: string)
    requires StartsWith(base, "http://") && '/' !in local && '#' !in local
    ensures CleanValue(base + "/" + local) == local
  {
    var v := base + "/" + local;
    assert v[..7] == base[..7];
    LastSegmentAfter(base, '/', local);
    LastSegmentWhole(local, '#');
  }

  lemma HeaderCounts(query: string, count: nat)
    ensures StartsWith(Header(query, count), "Found " + NatToString(count) + " result(s)")
  {
    var head := "Found " + NatToString(count) + " result(s)";
    assert Header(query, count) == head + (" for: \"" + query + "\"\n");
    assert (head + (" for: \"" + query + "\"\n"))[..|head|] == head;
  }

  lemma LineNumbered(n: nat, item: Item, keyOrder: Row -> seq<string>)
    ensures StartsWith(Line(n, item, keyOrder), "  " + NatToString(n) + ". ")
    ensures EndsWith(Line(n, item, keyOrder), Join(ItemParts(item, keyOrder), ", "))
  {
    var p := "  " + NatToString(n) + ". ";
    var body := Join(ItemParts(item, keyOrder), ", ");
    assert (p + body)[..|p|] == p;
    assert (p + body)[|p + body| - |body|..] == body;
  }

  /** The fallback text counts every result in its header, but lists at most twenty,
      numbered from one, each line made of the item's parts. */
  lemma FallbackShape(query: string, results: seq<Item>, keyOrder: Row -> seq<string>)
    requires results != []
    ensures var lines := FallbackLines(query, results, keyOrder);
      && FallbackText(query, results, keyOrder) == Join(lines, "\n")
      && |lines| - 1 == Min(MaxListed, |results|) <= MaxListed
      && StartsWith(lines[0], "Found " + NatToString(|results|) + " result(s)")
      && forall n :: 1 <= n < |lines| ==>
           StartsWith(lines[n], "  " + NatToString(n) + ". ")
           && EndsWith(lines[n], Join(ItemParts(results[n - 1], keyOrder), ", "))
  {
    var lines := FallbackLines(query, results, keyOrder);
    HeaderCounts(query, |results|);
    forall n | 1 <= n < |lines|
      ensures StartsWith(lines[n], "  " + NatToString(n) + ". ")
      ensures EndsWith(lines[n], Join(ItemParts(results[n - 1], keyOrder), ", "))
    {
      LineNumbered(n, results[n - 1], keyOrder);
    }
  }

  /** A row's parts name only variables the row binds, in the listed order. */
  lemma {:induction false} RowPartsBound(row: Row, keys: seq<string>)
    ensures |RowParts(row, keys)| <= |keys|
    ensures forall k :: 0 <= k < |keys| && keys[k] in row ==>
      FieldPart(keys[k], row[keys[k]].value) in RowParts(row, keys)
  {
    if keys != [] {
      var init := keys[..|keys| - 1];
      RowPartsBound(row, init);
      forall k | 0 <= k < |keys| && keys[k] in row
        ensures FieldPart(keys[k], row[keys[k]].value) in RowParts(row, keys)
      {
        if k < |init| {
          assert keys[k] == init[k];
        }
      }
    }
  }

  /** The workflow never reaches the error handler; the intent reported is the
      classifier's. */
  lemma WorkflowIntent(userQuery: string, w: World)
    ensures Workflow(userQuery, w).state.intent == IntentName(ClassifyIntent(userQuery))
  {
    HandleErrorUnreachable(userQuery);
  }

  /** When generation fails, nothing is sent to the server and the answer is the fixed
      issue text quoting the generator's error. */
  lemma GenerationFailure(userQuery: string, w: World)
    requires var intent := IntentName(ClassifyIntent(userQuery));
      QueryGenerator.GenerationOf(w.prompt, userQuery, intent, w.sparqlLlm).sparql.Err?
    ensures var intent := IntentName(ClassifyIntent(userQuery));
      var e := QueryGenerator.GenerationOf(w.prompt, userQuery, intent, w.sparqlLlm).sparql.error;
      var r := Workflow(userQuery, w);
      && r.sent == []
      && r.state.graphResults == []
      && r.state.sparqlQuery == ""
      && r.state.finalResponse == IssueReply(GenerationFailed + e)
  {
    HandleErrorUnreachable(userQuery);
  }

  /** A crash gives the failure shape: no intent, results or query, and the error. */
  lemma RunAgentShape(userQuery: string, w: World, crash: Option<string>)
    ensures var r := RunAgent(userQuery, w, crash);
      && r.query == userQuery
      && (r.success <==> crash.None?)
      && (crash.Some? ==> r.intent == "" && r.results == [] && r.sparqlQuery == ""
                          && r.response == AgentErrorReply(crash.value))
      && (crash.None? ==> r.intent == IntentName(ClassifyIntent(userQuery)))
  {
    if crash.None? {
      WorkflowIntent(userQuery, w);
    }
  }
}
