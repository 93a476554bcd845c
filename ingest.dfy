// The ingestion script of the vector service: documents are loaded by extension,
// chunked, tagged with their file and position, turned into id / text / metadata
// records and upserted into the `documents` collection in batches. Reading a file and
// the vector store are outside the model: a file's text is an oracle, and the calls
// the script makes on the store are recorded as a list of operations.
module Ingest {
  import opened Base
  import opened Strings
  import opened Seqs
  import opened Chunking

  const CollectionName := "documents"
  const BatchSize: nat := 100
  /** The keys of `LOADERS`, in their order. */
  const Loaders: seq<string> := [".pdf", ".docx"]

  // ---------------------------------------------------------------------------
  // Paths and extensions
  // ---------------------------------------------------------------------------

  /** `os.path.basename`. */
  function BaseName(path: string): string {
    LastSegment(path, '/')
  }

  predicate AllDots(s: string) {
    forall i :: 0 <= i < |s| ==> s[i] == '.'
  }

  /** The extension `os.path.splitext` finds in a file name: from its last dot on, unless
      only dots stand before that dot (a leading-dot name such as `.docx` has none). */
  function SplitExt(name: string): (ext: string)
    ensures ext == [] || (ext[0] == '.' && EndsWith(name, ext) && '.' !in ext[1..])
  {
    if '.' !in name then []
    else
      var after := LastSegment(name, '.');
      assert after != name;
      var stem := name[..|name| - |after| - 1];
      if AllDots(stem) then []
      else
        assert name[|name| - |after| - 1..] == "." + after;
        "." + after
  }

  /** `os.path.splitext(path)[1].lower()`. */
  function Extension(path: string): string {
    Lower(SplitExt(BaseName(path)))
  }

  predicate Supported(path: string) {
    Extension(path) in Loaders
  }

  /** `os.path.join(directory, name)` for a name that does not start with `/`. */
  function JoinPath(directory: string, name: string): string {
    if directory == [] || EndsWith(directory, "/") then directory + name else directory + "/" + name
  }

  lemma BaseNameOfJoin(directory: string, name: string)
    requires '/' !in name
    ensures BaseName(JoinPath(directory, name)) == name
  {
    if directory == [] {
      assert JoinPath(directory, name) == name;
      LastSegmentWhole(name, '/');
    } else if EndsWith(directory, "/") {
      var d := directory[..|directory| - 1];
      assert directory == d + ['/'];
      assert JoinPath(directory, name) == d + ['/'] + name;
      LastSegmentAfter(d, '/', name);
    } else {
      LastSegmentAfter(directory, '/', name);
    }
  }

  lemma SplitExtOf(stem: string, ext: string)
    requires '.' !in ext && !AllDots(stem)
    ensures SplitExt(stem + "." + ext) == "." + ext
  {
    var name := stem + "." + ext;
    assert name == stem + ['.'] + ext;
    assert name[|stem|] == '.';
    LastSegmentAfter(stem, '.', ext);
    assert name[..|name| - |ext| - 1] == stem;
  }

  /** A file name with a real stem keeps the extension after its last dot, and only the
      case of that extension is ignored: `Report.PDF` and `a.b.pdf` are both `.pdf`. */
  lemma ExtensionOfName(directory: string, stem: string, ext: string)
    requires '/' !in stem && '/' !in ext && '.' !in ext
    requires !AllDots(stem)
    ensures Extension(JoinPath(directory, stem + "." + ext)) == Lower("." + ext)
  {
    var name := stem + "." + ext;
    assert name == stem + ['.'] + ext;
    BaseNameOfJoin(directory, name);
    SplitExtOf(stem, ext);
  }

  // ---------------------------------------------------------------------------
  // Loading and finding documents
  // ---------------------------------------------------------------------------

  datatype Loaded = Loaded(text: string, filename: string)

  function UnsupportedMessage(ext: string): string {
    "Unsupported file format: " + ext + ". Supported: .pdf, .docx"
  }

  /** `load_document`: the extension decides whether the file is read at all; `read` is the
      PDF or DOCX loader, which may raise. */
  function LoadDocument(path: string, read: string -> Result<string, string>): (r: Result<Loaded, string>)
    ensures r.Ok? <==> Supported(path) && read(path).Ok?
    ensures r.Ok? ==> r.value == Loaded(read(path).value, BaseName(path))
    ensures !Supported(path) ==> r == Err(UnsupportedMessage(Extension(path)))
  {
    var ext := Extension(path);
    if ext !in Loaders then Err(UnsupportedMessage(ext))
    else
      match read(path)
      case Ok(text) => Ok(Loaded(text, BaseName(path)))
      case Err(e) => Err(e)
  }

  function IsDocumentName(): string -> bool {
    (name: string) => Supported(name)
  }

  function JoinAll(directory: string, names: seq<string>): (paths: seq<string>)
    ensures |paths| == |names|
    ensures forall k :: 0 <= k < |names| ==> paths[k] == JoinPath(directory, names[k])
  {
    if names == [] then [] else JoinAll(directory, names[..|names| - 1]) + [JoinPath(directory, names[|names| - 1])]
  }

  /** The paths `_find_documents` returns for a directory holding `listing`. */
  function DocumentPaths(directory: string, listing: seq<string>): seq<string> {
    JoinAll(directory, Filter(Sort(listing), IsDocumentName()))
  }

  method FindDocuments(directory: string, listing: seq<string>) returns (paths: seq<string>)
    ensures paths == DocumentPaths(directory, listing)
  {
    var names := Sort(listing);
    paths := KeepDocuments(directory, names);
  }

  /** The loop of `_find_documents` over the sorted directory entries. */
  method KeepDocuments(directory: string, names: seq<string>) returns (paths: seq<string>)
    ensures paths == JoinAll(directory, Filter(names, IsDocumentName()))
  {
    paths := [];
    for i := 0 to |names|
      invariant paths == JoinAll(directory, Filter(names[..i], IsDocumentName()))
    {
      var fname := names[i];
      KeepStep(directory, names, i);
      if IsDocumentName()(fname) {
        paths := paths + [JoinPath(directory, fname)];
      }
    }
    assert names[..|names|] == names;
  }

  lemma KeepStep(directory: string, names: seq<string>, i: nat)
    requires i < |names|
    ensures JoinAll(directory, Filter(names[..i + 1], IsDocumentName()))
         == JoinAll(directory, Filter(names[..i], IsDocumentName()))
            + if IsDocumentName()(names[i]) then [JoinPath(directory, names[i])] else []
  {
    var keep := IsDocumentName();
    assert names[..i + 1] == names[..i] + [names[i]];
    FilterAppend(names[..i], [names[i]], keep);
    FilterSingle(names[i], keep);
    var before := Filter(names[..i], keep);
    if keep(names[i]) {
      var after := before + [names[i]];
      assert after[..|after| - 1] == before;
    } else {
      assert before + [] == before;
    }
  }

  /** The found paths are the supported entries, in sorted order, each joined to the
      directory; each of them has a supported extension and is accepted by `load_document`. */
  lemma FoundDocuments(directory: string, listing: seq<string>)
    requires forall k :: 0 <= k < |listing| ==> '/' !in listing[k]
    ensures var names := Filter(Sort(listing), IsDocumentName());
      && SortedStrings(names)
      && (forall n :: n in names <==> n in listing && Supported(n))
      && DocumentPaths(directory, listing) == JoinAll(directory, names)
      && (forall p :: p in DocumentPaths(directory, listing) ==> Supported(p))
  {
    var sorted := Sort(listing);
    var names := Filter(sorted, IsDocumentName());
    FilterSorted(sorted, IsDocumentName());
    SortMembers(listing);
    var paths := DocumentPaths(directory, listing);
    forall p | p in paths ensures Supported(p) {
      var k :| 0 <= k < |paths| && paths[k] == p;
      assert names[k] in listing;
      BaseNameOfJoin(directory, names[k]);
      assert names[k] in names;
    }
  }

  // ---------------------------------------------------------------------------
  // Chunks tagged with their file
  // ---------------------------------------------------------------------------

  /** A chunk dict after `ingest` added its source keys. */
  datatype SourcedChunk = SourcedChunk(
    text: string,
    startChar: int,
    endChar: int,
    sourceFile: string,
    sourcePath: string,
    chunkIndex: nat,
    totalChunks: nat)

  function Tagged(chunks: seq<Chunk>, filename: string, path: string): (r: seq<SourcedChunk>)
    ensures |r| == |chunks|
    ensures forall k :: 0 <= k < |chunks| ==>
      r[k] == SourcedChunk(chunks[k].text, chunks[k].startChar, chunks[k].endChar, filename, path, k, |chunks|)
  {
    seq(|chunks|, k requires 0 <= k < |chunks| =>
      SourcedChunk(chunks[k].text, chunks[k].startChar, chunks[k].endChar, filename, path, k, |chunks|))
  }

  /** The `enumerate` loop that adds `source_file`, `source_path`, `chunk_index` and
      `total_chunks` to every chunk of one file. */
  method Tag(chunks: seq<Chunk>, filename: string, path: string) returns (tagged: seq<SourcedChunk>)
    ensures tagged == Tagged(chunks, filename, path)
  {
    tagged := [];
    for i := 0 to |chunks|
      invariant |tagged| == i
      invariant forall k :: 0 <= k < i ==>
        tagged[k] == SourcedChunk(chunks[k].text, chunks[k].startChar, chunks[k].endChar, filename, path, k, |chunks|)
    {
      var c := chunks[i];
      tagged := tagged + [SourcedChunk(c.text, c.startChar, c.endChar, filename, path, i, |chunks|)];
    }
  }

  /** What one path contributes: nothing when loading raised, else its tagged chunks. */
  function FileChunks(path: string, read: string -> Result<string, string>, chunkSize: int, chunkOverlap: int): seq<SourcedChunk> {
    match LoadDocument(path, read)
    case Err(_) => []
    case Ok(d) => Tagged(Chunks(d.text, chunkSize, chunkOverlap), d.filename, path)
  }

  /** `all_chunks` after the first `n` paths. */
  function AllChunks(paths: seq<string>, read: string -> Result<string, string>, chunkSize: int, chunkOverlap: int, n: nat): seq<SourcedChunk>
    requires n <= |paths|
  {
    if n == 0 then []
    else AllChunks(paths, read, chunkSize, chunkOverlap, n - 1) + FileChunks(paths[n - 1], read, chunkSize, chunkOverlap)
  }

  /** A file is skipped, not fatal, when its extension is unsupported. */
  lemma UnsupportedSkipped(path: string, read: string -> Result<string, string>, chunkSize: int, chunkOverlap: int)
    requires !Supported(path)
    ensures FileChunks(path, read, chunkSize, chunkOverlap) == []
  {
  }

  // ---------------------------------------------------------------------------
  // Records
  // ---------------------------------------------------------------------------

  datatype Metadata = Metadata(
    sourceFile: string,
    chunkIndex: nat,
    totalChunks: nat,
    startChar: int,
    endChar: int,
    charCount: nat)

  const ChunkIdInfix := "::chunk_"

  /** `f"{source_file}::chunk_{chunk_index:04d}"`. */
  function ChunkId(file: string, index: nat): string {
    file + ChunkIdInfix + ZeroPad(index, 4)
  }

  function MetadataOf(c: SourcedChunk): Metadata {
    Metadata(c.sourceFile, c.chunkIndex, c.totalChunks, c.startChar, c.endChar, |c.text|)
  }

  function RecordId(c: SourcedChunk): string {
    ChunkId(c.sourceFile, c.chunkIndex)
  }

  function RecordText(c: SourcedChunk): string {
    c.text
  }

  function Ids(all: seq<SourcedChunk>): seq<string> {
    Map(RecordId, all)
  }

  function Texts(all: seq<SourcedChunk>): seq<string> {
    Map(RecordText, all)
  }

  function Metadatas(all: seq<SourcedChunk>): seq<Metadata> {
    Map(MetadataOf, all)
  }

  /** The loop that fills `ids`, `documents` and `metadatas`, one entry per chunk. */
  method PrepareRecords(all: seq<SourcedChunk>) returns (ids: seq<string>, documents: seq<string>, metadatas: seq<Metadata>)
    ensures ids == Ids(all) && documents == Texts(all) && metadatas == Metadatas(all)
  {
    ids, documents, metadatas := [], [], [];
    for i := 0 to |all|
      invariant ids == Ids(all[..i])
      invariant documents == Texts(all[..i])
      invariant metadatas == Metadatas(all[..i])
    {
      var c := all[i];
      MapStep(RecordId, all, i);
      MapStep(RecordText, all, i);
      MapStep(MetadataOf, all, i);
      ids := ids + [ChunkId(c.sourceFile, c.chunkIndex)];
      documents := documents + [c.text];
      metadatas := metadatas + [MetadataOf(c)];
    }
    assert all[..|all|] == all;
  }

  /** Within one file the chunk indexes run 0 .. n-1 with `total_chunks == n`, the ids are
      pairwise distinct, and each record's `char_count` is both the length of its text and
      the width of its span. */
  lemma FileRecords(path: string, read: string -> Result<string, string>, chunkSize: int, chunkOverlap: int)
    ensures var cs := FileChunks(path, read, chunkSize, chunkOverlap);
      && (forall k :: 0 <= k < |cs| ==> cs[k].chunkIndex == k && cs[k].totalChunks == |cs|)
      && (forall k :: 0 <= k < |cs| ==> MetadataOf(cs[k]).charCount == cs[k].endChar - cs[k].startChar)
      && NoDuplicates(Ids(cs))
  {
    match LoadDocument(path, read)
    case Err(_) =>
    case Ok(d) =>
      var chunks := Chunks(d.text, chunkSize, chunkOverlap);
      ChunkWidths(d.text, chunkSize, chunkOverlap);
      TaggedRecords(chunks, d.filename, path);
  }

  lemma TaggedRecords(chunks: seq<Chunk>, filename: string, path: string)
    requires forall k :: 0 <= k < |chunks| ==> chunks[k].endChar - chunks[k].startChar == |chunks[k].text|
    ensures var cs := Tagged(chunks, filename, path);
      && (forall k :: 0 <= k < |cs| ==> MetadataOf(cs[k]).charCount == cs[k].endChar - cs[k].startChar)
      && NoDuplicates(Ids(cs))
  {
    var ids := Ids(Tagged(chunks, filename, path));
    forall i, j | 0 <= i < j < |ids| ensures ids[i] != ids[j] {
      ChunkIdsDiffer(filename, i, j);
    }
  }

  lemma ChunkIdsDiffer(file: string, i: nat, j: nat)
    requires i != j
    ensures ChunkId(file, i) != ChunkId(file, j)
  {
    var head := file + ChunkIdInfix;
    if ChunkId(file, i) == ChunkId(file, j) {
      assert ChunkId(file, i)[|head|..] == ZeroPad(i, 4);
      assert ChunkId(file, j)[|head|..] == ZeroPad(j, 4);
      ZeroPadInjective(i, j, 4);
    }
  }

  // ---------------------------------------------------------------------------
  // Batched upserts and the whole run
  // ---------------------------------------------------------------------------

  /** A call the script makes on the vector store. */
  datatype StoreOp =
    | DeleteCollection(name: string)
    | Upsert(ids: seq<string>, documents: seq<string>, metadatas: seq<Metadata>)

  /** The upserts `_batch_upsert` makes from offset `i` on: slices `[i, min(i + size, n))`. */
  function BatchesFrom(ids: seq<string>, documents: seq<string>, metadatas: seq<Metadata>, batchSize: nat, i: nat): seq<StoreOp>
    requires batchSize >= 1
    decreases |ids| - i
  {
    if i >= |ids| then []
    else
      var end := Min(i + batchSize, |ids|);
      [Upsert(ids[i..end], Slice(documents, i, end), Slice(metadatas, i, end))]
        + BatchesFrom(ids, documents, metadatas, batchSize, i + batchSize)
  }

  /** `_batch_upsert`; `range` with a step of 0 raises, so the batch size is positive. */
  method BatchUpsert(ids: seq<string>, documents: seq<string>, metadatas: seq<Metadata>, batchSize: nat) returns (ops: seq<StoreOp>)
    requires batchSize >= 1
    ensures ops == BatchesFrom(ids, documents, metadatas, batchSize, 0)
  {
    ops := [];
    var i := 0;
    while i < |ids|
      invariant ops + BatchesFrom(ids, documents, metadatas, batchSize, i) == BatchesFrom(ids, documents, metadatas, batchSize, 0)
      decreases |ids| - i
    {
      var end := Min(i + batchSize, |ids|);
      ops := ops + [Upsert(ids[i..end], Slice(documents, i, end), Slice(metadatas, i, end))];
      i := i + batchSize;
    }
  }

  /** The ids upserted by `ops`, in call order. */
  function UpsertedIds(ops: seq<StoreOp>): seq<string> {
    if ops == [] then []
    else (if ops[0].Upsert? then ops[0].ids else []) + UpsertedIds(ops[1..])
  }

  function UpsertedDocuments(ops: seq<StoreOp>): seq<string> {
    if ops == [] then []
    else (if ops[0].Upsert? then ops[0].documents else []) + UpsertedDocuments(ops[1..])
  }

  function UpsertedMetadatas(ops: seq<StoreOp>): seq<Metadata> {
    if ops == [] then []
    else (if ops[0].Upsert? then ops[0].metadatas else []) + UpsertedMetadatas(ops[1..])
  }

  predicate BatchOk(op: StoreOp, batchSize: nat) {
    && op.Upsert?
    && 1 <= |op.ids| <= batchSize
    && |op.documents| == |op.ids| && |op.metadatas| == |op.ids|
  }

  /** The batches cover the ids exactly once and in order, and documents and metadatas
      are cut at the same offsets. */
  lemma BatchesCover(ids: seq<string>, documents: seq<string>, metadatas: seq<Metadata>, batchSize: nat)
    requires batchSize >= 1
    requires |documents| == |ids| && |metadatas| == |ids|
    ensures var ops := BatchesFrom(ids, documents, metadatas, batchSize, 0);
      && UpsertedIds(ops) == ids
      && UpsertedDocuments(ops) == documents
      && UpsertedMetadatas(ops) == metadatas
  {
    BatchesCoverIds(ids, documents, metadatas, batchSize, 0);
    BatchesCoverDocuments(ids, documents, metadatas, batchSize, 0);
    BatchesCoverMetadatas(ids, documents, metadatas, batchSize, 0);
  }

  lemma {:induction false} BatchesCoverIds(ids: seq<string>, documents: seq<string>, metadatas: seq<Metadata>, batchSize: nat, i: nat)
    requires batchSize >= 1 && i <= |ids|
    requires |documents| == |ids| && |metadatas| == |ids|
    ensures UpsertedIds(BatchesFrom(ids, documents, metadatas, batchSize, i)) == ids[i..]
    decreases |ids| - i
  {
    if i < |ids| {
      var ops := BatchesFrom(ids, documents, metadatas, batchSize, i);
      var end := Min(i + batchSize, |ids|);
      assert ops[0].ids == ids[i..end];
      assert ops[1..] == BatchesFrom(ids, documents, metadatas, batchSize, i + batchSize);
      if i + batchSize <= |ids| {
        BatchesCoverIds(ids, documents, metadatas, batchSize, i + batchSize);
        assert ids[i..] == ids[i..end] + ids[end..];
      }
    }
  }

  lemma {:induction false} BatchesCoverDocuments(ids: seq<string>, documents: seq<string>, metadatas: seq<Metadata>, batchSize: nat, i: nat)
    requires batchSize >= 1 && i <= |ids|
    requires |documents| == |ids| && |metadatas| == |ids|
    ensures UpsertedDocuments(BatchesFrom(ids, documents, metadatas, batchSize, i)) == documents[i..]
    decreases |ids| - i
  {
    if i < |ids| {
      var ops := BatchesFrom(ids, documents, metadatas, batchSize, i);
      var end := Min(i + batchSize, |ids|);
      assert ops[0].documents == documents[i..end];
      assert ops[1..] == BatchesFrom(ids, documents, metadatas, batchSize, i + batchSize);
      if i + batchSize <= |ids| {
        BatchesCoverDocuments(ids, documents, metadatas, batchSize, i + batchSize);
        assert documents[i..] == documents[i..end] + documents[end..];
      }
    }
  }

  lemma {:induction false} BatchesCoverMetadatas(ids: seq<string>, documents: seq<string>, metadatas: seq<Metadata>, batchSize: nat, i: nat)
    requires batchSize >= 1 && i <= |ids|
    requires |documents| == |ids| && |metadatas| == |ids|
    ensures UpsertedMetadatas(BatchesFrom(ids, documents, metadatas, batchSize, i)) == metadatas[i..]
    decreases |ids| - i
  {
    if i < |ids| {
      var ops := BatchesFrom(ids, documents, metadatas, batchSize, i);
      var end := Min(i + batchSize, |ids|);
      assert ops[0].metadatas == metadatas[i..end];
      assert ops[1..] == BatchesFrom(ids, documents, metadatas, batchSize, i + batchSize);
      if i + batchSize <= |ids| {
        BatchesCoverMetadatas(ids, documents, metadatas, batchSize, i + batchSize);
        assert metadatas[i..] == metadatas[i..end] + metadatas[end..];
      }
    }
  }

  /** Every batch holds between one and `batchSize` records, with as many documents and
      metadatas as ids. */
  lemma {:induction false} BatchesBounded(ids: seq<string>, documents: seq<string>, metadatas: seq<Metadata>, batchSize: nat, i: nat)
    requires batchSize >= 1
    requires |documents| == |ids| && |metadatas| == |ids|
    ensures var ops := BatchesFrom(ids, documents, metadatas, batchSize, i);
      forall k :: 0 <= k < |ops| ==> BatchOk(ops[k], batchSize)
    decreases |ids| - i
  {
    if i < |ids| {
      var ops := BatchesFrom(ids, documents, metadatas, batchSize, i);
      BatchesBounded(ids, documents, metadatas, batchSize, i + batchSize);
      assert ops[1..] == BatchesFrom(ids, documents, metadatas, batchSize, i + batchSize);
      forall k | 0 <= k < |ops| ensures BatchOk(ops[k], batchSize) {
        if k > 0 {
          assert ops[k] == ops[1..][k - 1];
        }
      }
    }
  }

  /** The calls `ingest` makes on the store once every file is chunked. */
  function StoreOps(all: seq<SourcedChunk>, reset: bool): seq<StoreOp> {
    if all == [] then []
    else
      (if reset then [DeleteCollection(CollectionName)] else [])
        + BatchesFrom(Ids(all), Texts(all), Metadatas(all), BatchSize, 0)
  }

  function IngestOps(paths: seq<string>, reset: bool, read: string -> Result<string, string>, chunkSize: int, chunkOverlap: int): seq<StoreOp> {
    StoreOps(AllChunks(paths, read, chunkSize, chunkOverlap, |paths|), reset)
  }

  method Ingest(paths: seq<string>, reset: bool, read: string -> Result<string, string>, chunkSize: int, chunkOverlap: int)
    returns (ops: seq<StoreOp>)
    ensures ops == IngestOps(paths, reset, read, chunkSize, chunkOverlap)
  {
    var all := LoadAll(paths, read, chunkSize, chunkOverlap);
    if all == [] {
      return [];
    }
    ops := if reset then [DeleteCollection(CollectionName)] else [];
    var ids, documents, metadatas := PrepareRecords(all);
    var batches := BatchUpsert(ids, documents, metadatas, BatchSize);
    ops := ops + batches;
  }

  /** Step 1 of `ingest`: load and chunk every path, skipping the ones that raise. */
  method LoadAll(paths: seq<string>, read: string -> Result<string, string>, chunkSize: int, chunkOverlap: int)
    returns (all: seq<SourcedChunk>)
    ensures all == AllChunks(paths, read, chunkSize, chunkOverlap, |paths|)
  {
    all := [];
    for i := 0 to |paths|
      invariant all == AllChunks(paths, read, chunkSize, chunkOverlap, i)
    {
      var tagged := LoadFile(paths[i], read, chunkSize, chunkOverlap);
      all := all + tagged;
    }
  }

  /** The body of the `try` for one path. */
  method LoadFile(path: string, read: string -> Result<string, string>, chunkSize: int, chunkOverlap: int)
    returns (tagged: seq<SourcedChunk>)
    ensures tagged == FileChunks(path, read, chunkSize, chunkOverlap)
  {
    var loaded := LoadDocument(path, read);
    if loaded.Err? {
      return [];
    }
    var chunks := ChunkText(loaded.value.text, chunkSize, chunkOverlap);
    tagged := Tag(chunks, loaded.value.filename, path);
  }

  lemma {:induction false} UpsertedIdsAppend(a: seq<StoreOp>, b: seq<StoreOp>)
    ensures UpsertedIds(a + b) == UpsertedIds(a) + UpsertedIds(b)
  {
    if a == [] {
      assert a + b == b;
    } else {
      assert (a + b)[0] == a[0];
      assert (a + b)[1..] == a[1..] + b;
      UpsertedIdsAppend(a[1..], b);
    }
  }

  lemma {:induction false} UpsertedDocumentsAppend(a: seq<StoreOp>, b: seq<StoreOp>)
    ensures UpsertedDocuments(a + b) == UpsertedDocuments(a) + UpsertedDocuments(b)
  {
    if a == [] {
      assert a + b == b;
    } else {
      assert (a + b)[0] == a[0];
      assert (a + b)[1..] == a[1..] + b;
      UpsertedDocumentsAppend(a[1..], b);
    }
  }

  lemma {:induction false} UpsertedMetadatasAppend(a: seq<StoreOp>, b: seq<StoreOp>)
    ensures UpsertedMetadatas(a + b) == UpsertedMetadatas(a) + UpsertedMetadatas(b)
  {
    if a == [] {
      assert a + b == b;
    } else {
      assert (a + b)[0] == a[0];
      assert (a + b)[1..] == a[1..] + b;
      UpsertedMetadatasAppend(a[1..], b);
    }
  }

  /** With no chunks at all the store is never touched; otherwise `reset` decides whether
      the collection is deleted first, and the upserts that follow store every chunk once,
      in order, with its id, text and metadata, in batches of at most 100. */
  lemma IngestShape(paths: seq<string>, reset: bool, read: string -> Result<string, string>, chunkSize: int, chunkOverlap: int)
    ensures var all := AllChunks(paths, read, chunkSize, chunkOverlap, |paths|);
      var ops := IngestOps(paths, reset, read, chunkSize, chunkOverlap);
      && (ops == [] <==> all == [])
      && (all != [] ==> (ops[0] == DeleteCollection(CollectionName) <==> reset))
      && UpsertedIds(ops) == Ids(all)
      && UpsertedDocuments(ops) == Texts(all)
      && UpsertedMetadatas(ops) == Metadatas(all)
      && (forall k :: 0 <= k < |ops| ==> ops[k] == DeleteCollection(CollectionName) || BatchOk(ops[k], BatchSize))
  {
    StoreOpsShape(AllChunks(paths, read, chunkSize, chunkOverlap, |paths|), reset);
  }

  lemma StoreOpsShape(all: seq<SourcedChunk>, reset: bool)
    ensures var ops := StoreOps(all, reset);
      && (ops == [] <==> all == [])
      && (all != [] ==> (ops[0] == DeleteCollection(CollectionName) <==> reset))
      && UpsertedIds(ops) == Ids(all)
      && UpsertedDocuments(ops) == Texts(all)
      && UpsertedMetadatas(ops) == Metadatas(all)
      && (forall k :: 0 <= k < |ops| ==> ops[k] == DeleteCollection(CollectionName) || BatchOk(ops[k], BatchSize))
  {
    if all != [] {
      var ids, documents, metadatas := Ids(all), Texts(all), Metadatas(all);
      var head: seq<StoreOp> := if reset then [DeleteCollection(CollectionName)] else [];
      var batches := BatchesFrom(ids, documents, metadatas, BatchSize, 0);
      assert StoreOps(all, reset) == head + batches;
      HeadThenBatches(head, batches, ids, documents, metadatas);
    }
  }

  lemma HeadThenBatches(head: seq<StoreOp>, batches: seq<StoreOp>, ids: seq<string>, documents: seq<string>, metadatas: seq<Metadata>)
    requires head == [] || head == [DeleteCollection(CollectionName)]
    requires ids != [] && |documents| == |ids| && |metadatas| == |ids|
    requires batches == BatchesFrom(ids, documents, metadatas, BatchSize, 0)
    ensures var ops := head + batches;
      && ops != []
      && (ops[0] == DeleteCollection(CollectionName) <==> head != [])
      && UpsertedIds(ops) == ids
      && UpsertedDocuments(ops) == documents
      && UpsertedMetadatas(ops) == metadatas
      && (forall k :: 0 <= k < |ops| ==> ops[k] == DeleteCollection(CollectionName) || BatchOk(ops[k], BatchSize))
  {
    BatchesCover(ids, documents, metadatas, BatchSize);
    BatchesBounded(ids, documents, metadatas, BatchSize, 0);
    UpsertedIdsAppend(head, batches);
    UpsertedDocumentsAppend(head, batches);
    UpsertedMetadatasAppend(head, batches);
    assert UpsertedIds(head) == [] && UpsertedDocuments(head) == [] && UpsertedMetadatas(head) == [];
    assert batches[0].Upsert?;
  }
}
