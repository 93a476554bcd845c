// Semantic retrieval over the vector store's `documents` collection: the
// collection is an oracle (its count and its answer to a query); the modelled part
// is what the retriever does with the answer — pairing the result columns into
// hits, and merging the stripped hit texts into one de-duplicated context.
module Retriever {
  import opened Base
  import opened Strings
  import opened Seqs

  /** The retrieval depth used when the caller gives none (the service setting). */
  const RetrievalTopK := 10

  /** `search_chunks`' default depth. */
  const SearchTopK := 5

  const ContextSeparator := "\n\n"

  /** `str(IndexError)` for `[][0]`. */
  const IndexOutOfRange := "list index out of range"

  type Metadata = map<string, string>

  /** One retrieved chunk: its text, its metadata and its distance. */
  datatype Hit = Hit(document: string, metadata: Metadata, distance: real)

  /** One key of the query reply: absent, or the list of per-query lists. */
  datatype Column<T> = Missing | Present(lists: seq<seq<T>>)

  datatype QueryReply = QueryReply(documents: Column<string>, metadatas: Column<Metadata>, distances: Column<real>)

  /** The collection as an oracle: its size, and its reply to a query text asking
      for a number of results; either may raise. */
  datatype Collection = Collection(count: Result<nat, string>, query: (string, int) -> Result<QueryReply, string>)

  /** `results.get(key, [[]])[0]`: a missing key gives no items, an empty outer
      list raises. */
  function FirstList<T>(c: Column<T>): (r: Result<seq<T>, string>)
    ensures c.Missing? ==> r == Ok([])
    ensures c.Present? && c.lists == [] <==> r.Err?
    ensures c.Present? && c.lists != [] ==> r == Ok(c.lists[0])
  {
    match c
    case Missing => Ok([])
    case Present(lists) => if lists == [] then Err(IndexOutOfRange) else Ok(lists[0])
  }

  /** `zip(docs, metas, dists)`: as long as the shortest of the three. */
  function Zip3(docs: seq<string>, metas: seq<Metadata>, dists: seq<real>): (r: seq<Hit>)
    ensures |r| == Min(|docs|, Min(|metas|, |dists|))
    ensures forall i :: 0 <= i < |r| ==> r[i] == Hit(docs[i], metas[i], dists[i])
  {
    var n := Min(|docs|, Min(|metas|, |dists|));
    seq(n, i requires 0 <= i < n => Hit(docs[i], metas[i], dists[i]))
  }

  /** The hits of a reply; the three columns are read in the order documents,
      metadatas, distances, so the first failing one gives the error. */
  function Hits(reply: QueryReply): Result<seq<Hit>, string> {
    match FirstList(reply.documents)
    case Err(e) => Err(e)
    case Ok(docs) =>
      match FirstList(reply.metadatas)
      case Err(e) => Err(e)
      case Ok(metas) =>
        match FirstList(reply.distances)
        case Err(e) => Err(e)
        case Ok(dists) => Ok(Zip3(docs, metas, dists))
  }

  /** The body of the `try`: nothing for an empty collection, else the hits of a
      query for `min(topK, count)` results. */
  function Fetch(c: Collection, query: string, topK: int): Result<seq<Hit>, string> {
    match c.count
    case Err(e) => Err(e)
    case Ok(n) =>
      if n == 0 then Ok([])
      else match c.query(query, Min(topK, n))
        case Err(e) => Err(e)
        case Ok(reply) => Hits(reply)
  }

  /** The stripped hit texts. */
  function Texts(hits: seq<Hit>): (r: seq<string>)
    ensures |r| == |hits| && forall i :: 0 <= i < |hits| ==> r[i] == Strip(hits[i].document)
  {
    Map((h: Hit) => Strip(h.document), hits)
  }

  /** The context parts: the stripped texts, each kept at its first occurrence. */
  function ContextParts(hits: seq<Hit>): seq<string> {
    Dedup(Texts(hits))
  }

  datatype Retrieval = Retrieval(documents: seq<Hit>, context: string, totalRetrieved: nat)

  /** `retrieve_documents`: a failure anywhere in the `try` is swallowed and
      leaves no hits. */
  function RetrievalOf(c: Collection, query: string, topK: Option<int>): Retrieval {
    var k := if topK.Some? then topK.value else RetrievalTopK;
    var docs := match Fetch(c, query, k) case Ok(h) => h case Err(_) => [];
    Retrieval(docs, Join(ContextParts(docs), ContextSeparator), |docs|)
  }

  /** The loop over `zip(docs, metas, dists)` appending one hit per triple. */
  method ZipHits(docs: seq<string>, metas: seq<Metadata>, dists: seq<real>) returns (hits: seq<Hit>)
    ensures hits == Zip3(docs, metas, dists)
  {
    var n := Min(|docs|, Min(|metas|, |dists|));
    hits := [];
    for i := 0 to n
      invariant |hits| == i && forall j :: 0 <= j < i ==> hits[j] == Hit(docs[j], metas[j], dists[j])
    {
      hits := hits + [Hit(docs[i], metas[i], dists[i])];
    }
  }

  /** The query step of both operations: the count, the query, the three columns. */
  method FetchHits(c: Collection, query: string, topK: int) returns (r: Result<seq<Hit>, string>)
    ensures r == Fetch(c, query, topK)
  {
    if c.count.Err? {
      return Err(c.count.error);
    }
    var count := c.count.value;
    if count == 0 {
      return Ok([]);
    }
    var reply := c.query(query, Min(topK, count));
    if reply.Err? {
      return Err(reply.error);
    }
    var docs := FirstList(reply.value.documents);
    if docs.Err? {
      return Err(docs.error);
    }
    var metas := FirstList(reply.value.metadatas);
    if metas.Err? {
      return Err(metas.error);
    }
    var dists := FirstList(reply.value.distances);
    if dists.Err? {
      return Err(dists.error);
    }
    var hits := ZipHits(docs.value, metas.value, dists.value);
    return Ok(hits);
  }

  /** The loop building `context_parts` with the `seen` set. */
  method MergeContext(hits: seq<Hit>) returns (parts: seq<string>)
    ensures parts == ContextParts(hits)
  {
    parts := [];
    var seen: set<string> := {};
    for i := 0 to |hits|
      invariant parts == Dedup(Texts(hits[..i]))
      invariant forall x :: x in seen <==> x in parts
    {
      var text := Strip(hits[i].document);
      TextsNext(hits, i);
      DedupSnoc(Texts(hits[..i]), text);
      if text !in seen {
        seen := seen + {text};
        parts := parts + [text];
      }
    }
    assert hits[..|hits|] == hits;
  }

  lemma TextsNext(hits: seq<Hit>, i: nat)
    requires i < |hits|
    ensures Texts(hits[..i + 1]) == Texts(hits[..i]) + [Strip(hits[i].document)]
  {
    MapStep((h: Hit) => Strip(h.document), hits, i);
  }

  method RetrieveDocuments(c: Collection, query: string, topK: Option<int>) returns (r: Retrieval)
    ensures r == RetrievalOf(c, query, topK)
  {
    var k := if topK.Some? then topK.value else RetrievalTopK;
    var allDocs: seq<Hit> := [];
    var fetched := FetchHits(c, query, k);
    if fetched.Ok? {
      allDocs := fetched.value;
    }
    var parts := MergeContext(allDocs);
    return Retrieval(allDocs, Join(parts, ContextSeparator), |allDocs|);
  }

  datatype ChunkSearch = ChunkSearch(success: bool, error: Option<string>, chunks: seq<Hit>, count: nat)

  function ChunkSearchOf(c: Collection, query: string, topK: int): ChunkSearch {
    match Fetch(c, query, topK)
    case Ok(hits) => ChunkSearch(true, None, hits, |hits|)
    case Err(e) => ChunkSearch(false, Some(e), [], 0)
  }

  method SearchChunks(c: Collection, query: string, topK: int) returns (r: ChunkSearch)
    ensures r == ChunkSearchOf(c, query, topK)
  {
    var fetched := FetchHits(c, query, topK);
    if fetched.Err? {
      return ChunkSearch(false, Some(fetched.error), [], 0);
    }
    return ChunkSearch(true, None, fetched.value, |fetched.value|);
  }

  // Properties.

  /** An empty collection yields no documents, an empty context and a count of 0,
      without a query. */
  lemma EmptyCollection(c: Collection, query: string, topK: Option<int>)
    requires c.count == Ok(0)
    ensures RetrievalOf(c, query, topK) == Retrieval([], "", 0)
  {
    assert Texts([]) == [];
  }

  /** A failure of the count, the query or a reply column is swallowed. */
  lemma FailureSwallowed(c: Collection, query: string, topK: Option<int>)
    requires Fetch(c, query, if topK.Some? then topK.value else RetrievalTopK).Err?
    ensures RetrievalOf(c, query, topK) == Retrieval([], "", 0)
  {
    assert Texts([]) == [];
  }

  /** The query asks for `min(topK, count)` results, `topK` defaulting to the setting,
      and the documents are its hits. */
  lemma RequestSize(c: Collection, query: string, topK: Option<int>, n: nat)
    requires c.count == Ok(n) && n > 0
    requires c.query(query, Min(if topK.Some? then topK.value else RetrievalTopK, n)).Ok?
    requires Hits(c.query(query, Min(if topK.Some? then topK.value else RetrievalTopK, n)).value).Ok?
    ensures RetrievalOf(c, query, topK).documents
            == Hits(c.query(query, Min(if topK.Some? then topK.value else RetrievalTopK, n)).value).value
  {
  }

  /** The context parts are the distinct stripped texts, none repeated; the count
      is of all hits, so it is at least the number of parts. */
  lemma ContextShape(c: Collection, query: string, topK: Option<int>)
    ensures var r := RetrievalOf(c, query, topK); var parts := ContextParts(r.documents);
      && r.totalRetrieved == |r.documents| >= |parts|
      && r.context == Join(parts, ContextSeparator)
      && NoDuplicates(parts)
      && (forall i :: 0 <= i < |r.documents| ==> Strip(r.documents[i].document) in parts)
      && (forall p :: p in parts ==> exists i :: 0 <= i < |r.documents| && Strip(r.documents[i].document) == p)
  {
    var r := RetrievalOf(c, query, topK);
    var texts := Texts(r.documents);
    forall p | p in ContextParts(r.documents)
      ensures exists i :: 0 <= i < |r.documents| && Strip(r.documents[i].document) == p
    {
      var i :| 0 <= i < |texts| && texts[i] == p;
    }
  }

  /** The merged context keeps the first occurrence of each text, in order. */
  lemma ContextOrder(hits: seq<Hit>)
    ensures FirstOccurrenceOrder(Texts(hits), ContextParts(hits))
  {
    DedupFirstOccurrence(Texts(hits));
  }

  /** `search_chunks` reports as many as it returns, and nothing on a failure. */
  lemma ChunkSearchShape(c: Collection, query: string, topK: int)
    ensures var r := ChunkSearchOf(c, query, topK);
      && r.count == |r.chunks|
      && (r.success <==> r.error.None?)
      && (!r.success ==> r.chunks == [] && Fetch(c, query, topK).Err?)
      && (c.count == Ok(0) ==> r == ChunkSearch(true, None, [], 0))
  {
  }
}
