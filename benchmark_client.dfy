// `query_rag`: one POST to a RAG server's chat endpoint, normalised into a result
// record. The HTTP exchange and the clock are inputs: the outcome of the request
// and the elapsed milliseconds the caller measured.
module BenchmarkClient {
  import opened Base
  import opened Strings

  /** Seconds before a query is abandoned. */
  const Timeout: nat := 60

  /** The fields of the chat reply's JSON body; `None` is a key that is absent. */
  datatype ChatBody = ChatBody(
    success: Option<bool>,
    response: Option<string>,
    executionTimeMs: Option<real>,
    retrievalCount: Option<int>,
    resultCount: Option<int>,
    intent: Option<string>)

  datatype HttpOutcome =
    | Response(status: int, text: string, body: Result<ChatBody, string>)  // `r.json()` raising gives `Err(message)`
    | ConnectError
    | ReadTimeout
    | OtherError(message: string)

  /** The record `query_rag` returns. Keys the failure records lack are `None`. */
  datatype TargetResult = TargetResult(
    success: bool,
    response: string,
    latencyMs: real,
    serverLatencyMs: Option<real>,
    retrievalCount: int,
    intent: Option<string>)

  const ConnectionFailure := "CONNECTION_ERROR: Server not running"
  const TimeoutFailure := "TIMEOUT: Query exceeded time limit"

  function Failure(response: string, latencyMs: real): TargetResult {
    TargetResult(false, response, latencyMs, None, 0, None)
  }

  function QueryRag(outcome: HttpOutcome, elapsedMs: real): (r: TargetResult)
    ensures r.success ==> outcome.Response? && outcome.status == 200 && outcome.body.Ok?
    // every outcome but a decoded 200 reply is a failure record lacking the reply-only keys
    ensures !(outcome.Response? && outcome.status == 200 && outcome.body.Ok?) ==>
      !r.success && r.retrievalCount == 0 && r.serverLatencyMs.None? && r.intent.None?
  {
    match outcome
    case Response(status, text, body) =>
      if status != 200 then
        Failure("HTTP " + IntToString(status) + ": " + Take(text, 200), elapsedMs)
      else
        (match body
         case Err(message) => Failure("ERROR: " + message, elapsedMs)
         case Ok(data) =>
           TargetResult(
             data.success.GetOr(false),
             data.response.GetOr(""),
             elapsedMs,
             Some(data.executionTimeMs.GetOr(0.0)),
             (match data.retrievalCount
              case Some(n) => n
              case None => data.resultCount.GetOr(0)),
             Some(data.intent.GetOr(""))))
    case ConnectError => Failure(ConnectionFailure, elapsedMs)
    case ReadTimeout => Failure(TimeoutFailure, (Timeout * 1000) as real)
    case OtherError(message) => Failure("ERROR: " + message, elapsedMs)
  }

  /** Any status other than exactly 200, including 2xx codes like 201, is a failure whose
      response names the code and carries the first 200 characters of the body. */
  lemma {:induction false} NonOkStatus(status: int, text: string, body: Result<ChatBody, string>, elapsedMs: real)
    requires status != 200
    ensures var r := QueryRag(Response(status, text, body), elapsedMs);
      && !r.success
      && r.response == "HTTP " + IntToString(status) + ": " + text[..Min(200, |text|)]
      && StartsWith(r.response, "HTTP " + IntToString(status) + ": ")
      && |r.response| <= |"HTTP " + IntToString(status) + ": "| + 200
      && StartsWith(text, r.response[|"HTTP " + IntToString(status) + ": "|..])
  {
    var head := "HTTP " + IntToString(status) + ": ";
    var r := QueryRag(Response(status, text, body), elapsedMs);
    assert r.response == head + Take(text, 200);
    assert r.response[..|head|] == head;
    assert r.response[|head|..] == Take(text, 200);
  }

  /** A decoded 200 reply takes `retrieval_count`, else `result_count`, else 0, and the
      other absent keys default to false, "" and 0. */
  lemma DecodedReply(text: string, data: ChatBody, elapsedMs: real)
    ensures var r := QueryRag(Response(200, text, Ok(data)), elapsedMs);
      && r.success == (data.success == Some(true))
      && r.response == (if data.response.Some? then data.response.value else "")
      && r.latencyMs == elapsedMs
      && (data.retrievalCount.Some? ==> r.retrievalCount == data.retrievalCount.value)
      && (data.retrievalCount.None? && data.resultCount.Some? ==> r.retrievalCount == data.resultCount.value)
      && (data.retrievalCount.None? && data.resultCount.None? ==> r.retrievalCount == 0)
  {
  }

  /** A read timeout reports the full time limit as its latency, whatever was measured. */
  lemma TimeoutLatency(elapsedMs: real)
    ensures QueryRag(ReadTimeout, elapsedMs) == Failure(TimeoutFailure, 60000.0)
  {
  }
}
