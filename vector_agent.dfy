// The vector agent's workflow: classify the request, retrieve document chunks by
// similarity, and phrase the answer with the LLM or, when the LLM fails, list the
// retrieved paragraphs. The LangGraph wiring becomes a composition of node
// functions; the vector store and the LLM are oracles.
module VectorAgent {
  import opened Base
  import opened Strings
  import opened Seqs
  import opened Llm
  import opened AgentCommon
  import Retriever

  /** The agent state the nodes read and update (the message log is not modelled). */
  datatype State = State(
    userQuery: string,
    intent: string,
    retrievedContext: string,
    retrievedDocs: seq<Retriever.Hit>,
    retrievalCount: nat,
    finalResponse: string,
    error: Option<string>)

  function InitialState(userQuery: string): State {
    State(userQuery, "", "", [], 0, "", None)
  }

  // ---------------------------------------------------------------------------
  // Nodes
  // ---------------------------------------------------------------------------

  function ClassifyIntentNode(s: State): State {
    s.(intent := IntentName(ClassifyIntent(s.userQuery)))
  }

  const NoDocuments := "No relevant documents found in the vector store."
  const RetrievalFailed := "Document retrieval failed: "

  /** Takes what `retrieve_documents` returned or raised. An empty context counts as
      finding nothing. */
  function RetrieveDocumentsNode(s: State, retrieved: Result<Retriever.Retrieval, string>): State {
    match retrieved
    case Err(e) => s.(retrievedContext := "", retrievedDocs := [], retrievalCount := 0, error := Some(RetrievalFailed + e))
    case Ok(r) =>
      if r.context == "" then
        s.(retrievedContext := "", retrievedDocs := [], retrievalCount := 0, error := Some(NoDocuments))
      else
        s.(retrievedContext := r.context, retrievedDocs := r.documents, retrievalCount := r.totalRetrieved)
  }

  /** An error with no context is answered at once; otherwise the LLM phrases the
      answer and the fallback text stands in when it fails. */
  function GenerateResponseNode(s: State, llm: nat -> CallOutcome): State {
    if Truthy(s.error) && s.retrievedContext == "" then s.(finalResponse := IssueReply(s.error.value))
    else
      match InvocationOf(llm).reply
      case Ok(content) => s.(finalResponse := Strip(content))
      case Err(_) => s.(finalResponse := FallbackText(s.userQuery, s.retrievedContext))
  }

  function HandleErrorNode(s: State): State {
    s.(finalResponse := HandleErrorReply(s.error))
  }

  // ---------------------------------------------------------------------------
  // `_fallback_format`
  // ---------------------------------------------------------------------------

  const ParagraphBreak := "\n\n"
  const MaxParagraphs := 10
  const BulletMark := "\U{2022} "

  function Header(query: string): string {
    "Here is what I found for: \"" + query + "\"\n"
  }

  function Bullet(paragraph: string): string {
    BulletMark + Strip(paragraph)
  }

  /** The header, then a bullet for each of the first ten paragraphs. */
  function FallbackLines(query: string, context: string): (lines: seq<string>)
    ensures var paras := Split(context, ParagraphBreak);
      && |lines| == 1 + Min(MaxParagraphs, |paras|)
      && lines[0] == Header(query)
      && forall n :: 1 <= n < |lines| ==> lines[n] == Bullet(paras[n - 1])
  {
    var paras := Split(context, ParagraphBreak);
    [Header(query)] + seq(Min(MaxParagraphs, |paras|), k requires 0 <= k < Min(MaxParagraphs, |paras|) => Bullet(paras[k]))
  }

  function FallbackText(query: string, context: string): string {
    if context == "" then NoResults else Join(FallbackLines(query, context), "\n")
  }

  method FallbackFormat(query: string, context: string) returns (text: string)
    ensures text == FallbackText(query, context)
  {
    if context == "" {
      return NoResults;
    }
    var paras := Split(context, ParagraphBreak);
    var shown := Min(MaxParagraphs, |paras|);
    var lines := [Header(query)];
    var i := 0;
    while i < shown
      invariant 0 <= i <= shown
      invariant |lines| == i + 1 && lines[0] == Header(query)
      invariant forall n :: 1 <= n <= i ==> lines[n] == Bullet(paras[n - 1])
    {
      lines := lines + [BulletMark + Strip(paras[i])];
      i := i + 1;
    }
    assert lines == FallbackLines(query, context);
    text := Join(lines, "\n");
  }

  // ---------------------------------------------------------------------------
  // `run_agent`
  // ---------------------------------------------------------------------------

  /** The oracles the workflow consults: the document collection and the LLM that
      phrases the answer. */
  datatype World = World(collection: Retriever.Collection, answerLlm: nat -> CallOutcome)

  function Workflow(userQuery: string, w: World): State {
    var s1 := ClassifyIntentNode(InitialState(userQuery));
    match RouteByIntent(s1.intent)
    case HandleError => HandleErrorNode(s1)
    case Continue =>
      var s2 := RetrieveDocumentsNode(s1, Ok(Retriever.RetrievalOf(w.collection, userQuery, None)));
      GenerateResponseNode(s2, w.answerLlm)
  }

  /** The dictionary `run_agent` returns (the elapsed time is not modelled). */
  datatype AgentResult = AgentResult(
    success: bool,
    query: string,
    intent: string,
    results: seq<Retriever.Hit>,
    retrievalCount: nat,
    response: string)

  /** `crash` is an exception escaping the workflow itself, if any. */
  function RunAgent(userQuery: string, w: World, crash: Option<string>): AgentResult {
    match crash
    case Some(e) => AgentResult(false, userQuery, "", [], 0, AgentErrorReply(e))
    case None =>
      var s := Workflow(userQuery, w);
      AgentResult(true, userQuery, s.intent, s.retrievedDocs, s.retrievalCount, s.finalResponse)
  }

  // ---------------------------------------------------------------------------
  // Properties
  // ---------------------------------------------------------------------------

  /** Nothing retrieved and a failure look alike: no context, no documents, a count of
      0 and an error; otherwise the retrieval is taken over with no error added. */
  lemma RetrieveShape(s: State, retrieved: Result<Retriever.Retrieval, string>)
    ensures var t := RetrieveDocumentsNode(s, retrieved);
      && (retrieved.Err? ==>
            t.retrievedContext == "" && t.retrievedDocs == [] && t.retrievalCount == 0
            && t.error == Some(RetrievalFailed + retrieved.error))
      && (retrieved.Ok? && retrieved.value.context == "" ==>
            t.retrievedContext == "" && t.retrievedDocs == [] && t.retrievalCount == 0
            && t.error == Some(NoDocuments))
      && (retrieved.Ok? && retrieved.value.context != "" ==>
            t.retrievedContext == retrieved.value.context && t.retrievedDocs == retrieved.value.documents
            && t.retrievalCount == retrieved.value.totalRetrieved && t.error == s.error)
      && (t.retrievedContext == "" ==> Truthy(t.error) && t.retrievedDocs == [] && t.retrievalCount == 0)
  {
  }

  /** An error with no context is answered with the fixed text, whatever the LLM does. */
  lemma ErrorWithoutContext(s: State, llm: nat -> CallOutcome)
    requires Truthy(s.error) && s.retrievedContext == ""
    ensures GenerateResponseNode(s, llm).finalResponse == IssueReply(s.error.value)
  {
  }

  /** Three rate limits on the answer fall back to the paragraphs of the context. */
  lemma RateLimitedFallback(s: State, llm: nat -> CallOutcome)
    requires !(Truthy(s.error) && s.retrievedContext == "")
    requires forall k :: 0 <= k < MaxRetries ==> llm(k).Raised? && IsRateLimit(llm(k).message)
    ensures GenerateResponseNode(s, llm).finalResponse == FallbackText(s.userQuery, s.retrievedContext)
  {
    InvocationShape(llm);
  }

  /** An empty collection: no query to the store and no LLM call; the reply is the
      fixed issue text. */
  lemma EmptyCollectionReply(userQuery: string, w: World)
    requires w.collection.count == Ok(0)
    ensures var s := Workflow(userQuery, w);
      && s.retrievedDocs == [] && s.retrievalCount == 0
      && s.finalResponse == IssueReply(NoDocuments)
  {
    HandleErrorUnreachable(userQuery);
    Retriever.EmptyCollection(w.collection, userQuery, None);
  }

  /** A stripped text with no blank line inside cannot run into the separator that
      follows it. */
  lemma StrippedSeparable(p: string)
    requires IsStripped(p) && !Contains(p, ParagraphBreak)
    ensures SeparableBy(p, ParagraphBreak)
  {
    var t := p + ParagraphBreak[..1];
    forall i | 0 <= i <= |t| - 2
      ensures !OccursAt(t, ParagraphBreak, i)
    {
      if i + 2 <= |p| {
        assert t[i..i + 2] == p[i..i + 2];
        assert !OccursAt(p, ParagraphBreak, i);
      } else {
        assert t[i] == p[|p| - 1];
      }
    }
  }

  /** When the context joins stripped parts with no blank line inside, the fallback
      lists the first ten parts as they are. */
  lemma FallbackListsParts(query: string, parts: seq<string>)
    requires parts != []
    requires forall k :: 0 <= k < |parts| ==> IsStripped(parts[k]) && !Contains(parts[k], ParagraphBreak)
    ensures var lines := FallbackLines(query, Join(parts, ParagraphBreak));
      && |lines| == 1 + Min(MaxParagraphs, |parts|)
      && forall n :: 1 <= n < |lines| ==> lines[n] == BulletMark + parts[n - 1]
  {
    forall k | 0 <= k < |parts|
      ensures SeparableBy(parts[k], ParagraphBreak)
    {
      StrippedSeparable(parts[k]);
    }
    SplitOfJoin(parts, ParagraphBreak);
  }

  /** The fallback over what the retriever found lists its distinct stripped texts, up
      to ten, when no text holds a blank line. */
  lemma FallbackListsDocuments(query: string, c: Retriever.Collection)
    requires var docs := Retriever.RetrievalOf(c, query, None).documents;
      forall i :: 0 <= i < |docs| ==> !Contains(Strip(docs[i].document), ParagraphBreak)
    requires Retriever.ContextParts(Retriever.RetrievalOf(c, query, None).documents) != []
    ensures var r := Retriever.RetrievalOf(c, query, None);
      var parts := Retriever.ContextParts(r.documents);
      var lines := FallbackLines(query, r.context);
      && |lines| == 1 + Min(MaxParagraphs, |parts|)
      && forall n :: 1 <= n < |lines| ==> lines[n] == BulletMark + parts[n - 1]
  {
    var r := Retriever.RetrievalOf(c, query, None);
    var parts := Retriever.ContextParts(r.documents);
    Retriever.ContextShape(c, query, None);
    forall k | 0 <= k < |parts|
      ensures IsStripped(parts[k]) && !Contains(parts[k], ParagraphBreak)
    {
      assert parts[k] in parts;
      var i :| 0 <= i < |r.documents| && Strip(r.documents[i].document) == parts[k];
    }
    FallbackListsParts(query, parts);
  }

  lemma WorkflowShape(userQuery: string, w: World)
    ensures var s := Workflow(userQuery, w);
      s.intent == IntentName(ClassifyIntent(userQuery)) && s.retrievalCount == |s.retrievedDocs|
  {
    HandleErrorUnreachable(userQuery);
  }

  /** A crash gives the failure shape; otherwise the intent is the classifier's and
      the count is of the documents returned. */
  lemma RunAgentShape(userQuery: string, w: World, crash: Option<string>)
    ensures var r := RunAgent(userQuery, w, crash);
      && r.query == userQuery
      && (r.success <==> crash.None?)
      && (crash.Some? ==> r.intent == "" && r.results == [] && r.retrievalCount == 0
                          && r.response == AgentErrorReply(crash.value))
      && (crash.None? ==> r.intent == IntentName(ClassifyIntent(userQuery)) && r.retrievalCount == |r.results|)
  {
    if crash.None? {
      WorkflowShape(userQuery, w);
    }
  }
}
