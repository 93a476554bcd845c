// `chunk_text` of the vector service's ingestion script: the text is cleaned, cut
// into paragraphs, and the paragraphs are packed into chunks that carry an overlap
// from the end of the chunk before them.
module Chunking {
  import opened Base
  import opened Strings
  import opened Seqs

  const Separator := "\n\n"
  const DefaultChunkSize: int := 800
  const DefaultChunkOverlap: int := 150

  // ---------------------------------------------------------------------------
  // Cleaning and paragraphs
  // ---------------------------------------------------------------------------

  function LeadingNewlines(s: string): (n: nat)
    ensures n <= |s|
    ensures forall j :: 0 <= j < n ==> s[j] == '\n'
    ensures n < |s| ==> s[n] != '\n'
  {
    if s == [] || s[0] != '\n' then 0 else 1 + LeadingNewlines(s[1..])
  }

  predicate NoTripleNewline(s: string) {
    forall i :: 0 <= i < |s| - 2 ==> !(s[i] == '\n' && s[i + 1] == '\n' && s[i + 2] == '\n')
  }

  /** `re.sub(r'\n{3,}', '\n\n', text)`: every run of three or more newlines becomes two. */
  function CollapseNewlines(s: string): (r: string)
    ensures NoTripleNewline(r)
    ensures |r| <= |s|
    ensures s == [] ==> r == []
    ensures s != [] && s[0] != '\n' ==> r != [] && r[0] == s[0]
    ensures AllSpace(s) ==> AllSpace(r)
    decreases |s|
  {
    if s == [] then []
    else if s[0] != '\n' then
      var rest := CollapseNewlines(s[1..]);
      assert forall i :: 1 <= i < |s| ==> s[1..][i - 1] == s[i];
      TripleFreeAfter([s[0]], rest);
      [s[0]] + rest
    else
      var n := LeadingNewlines(s);
      var rest := CollapseNewlines(s[n..]);
      var head := Repeat('\n', Min(n, 2));
      assert forall i :: n <= i < |s| ==> s[n..][i - n] == s[i];
      assert rest != [] ==> rest[0] != '\n';
      TripleFreeAfter(head, rest);
      head + rest
  }

  /** At most two characters in front of text free of triple newlines leave it free of
      them, when either the text does not start with a newline or they hold none. */
  lemma TripleFreeAfter(head: string, rest: string)
    requires |head| <= 2 && NoTripleNewline(rest)
    requires rest != [] && rest[0] == '\n' ==> forall k :: 0 <= k < |head| ==> head[k] != '\n'
    ensures NoTripleNewline(head + rest)
  {
    var t := head + rest;
    forall i | 0 <= i < |t| - 2 ensures !(t[i] == '\n' && t[i + 1] == '\n' && t[i + 2] == '\n') {
      if i < |head| {
        if rest[0] == '\n' {
          assert t[i] == head[i];
        } else {
          assert t[|head|] == rest[0];
          assert i + 1 == |head| || i + 2 == |head|;
        }
      } else {
        assert t[i] == rest[i - |head|];
      }
    }
  }

  /** Text without a run of three newlines is left as it is. */
  lemma {:induction false} CollapseKeepsClean(s: string)
    requires NoTripleNewline(s)
    ensures CollapseNewlines(s) == s
    decreases |s|
  {
    if s != [] {
      if s[0] != '\n' {
        CollapseKeepsClean(s[1..]);
      } else {
        var n := LeadingNewlines(s);
        if |s| > 2 {
          assert !(s[0] == '\n' && s[1] == '\n' && s[2] == '\n');
        }
        assert n <= 2;
        assert Repeat('\n', Min(n, 2)) == s[..n];
        CollapseKeepsClean(s[n..]);
        assert s == s[..n] + s[n..];
      }
    }
  }

  /** The stripped, non-blank pieces, in order. */
  function NonBlank(parts: seq<string>): (r: seq<string>)
    ensures forall k :: 0 <= k < |r| ==> r[k] != [] && IsStripped(r[k])
  {
    if parts == [] then []
    else
      var p := Strip(parts[|parts| - 1]);
      NonBlank(parts[..|parts| - 1]) + (if p == [] then [] else [p])
  }

  /** `[p.strip() for p in text.split('\n\n') if p.strip()]` after the clean-up. */
  function Paragraphs(text: string): (ps: seq<string>)
    ensures forall k :: 0 <= k < |ps| ==> ps[k] != [] && IsStripped(ps[k])
  {
    NonBlank(Split(CollapseNewlines(text), Separator))
  }

  lemma {:induction false} NonBlankOfBlank(parts: seq<string>)
    requires forall k :: 0 <= k < |parts| ==> AllSpace(parts[k])
    ensures NonBlank(parts) == []
  {
    if parts != [] {
      NonBlankOfBlank(parts[..|parts| - 1]);
      StripBlank(parts[|parts| - 1]);
    }
  }

  /** Empty or whitespace-only text has no paragraphs. */
  lemma BlankHasNoParagraphs(text: string)
    requires AllSpace(text)
    ensures Paragraphs(text) == []
  {
    SplitBlank(CollapseNewlines(text), Separator);
    NonBlankOfBlank(Split(CollapseNewlines(text), Separator));
  }

  // ---------------------------------------------------------------------------
  // Overlap
  // ---------------------------------------------------------------------------

  /** The overlap is cut after the last ". " unless that is at index 0 (`rfind` > 0). */
  function CutAtSentence(t: string): (r: string)
    ensures |r| <= |t| && r == t[|t| - |r|..]
    ensures (match RFind(t, ". ") case Some(i) => i > 0 case None => false) ==> !Contains(r, ". ")
    ensures (match RFind(t, ". ") case Some(i) => i == 0 case None => true) ==> r == t
  {
    match RFind(t, ". ")
    case None => t
    case Some(i) =>
      if i > 0 then
        var r := t[i + 2..];
        assert forall q :: OccursAt(r, ". ", q) ==> OccursAt(t, ". ", i + 2 + q) by {
          forall q | OccursAt(r, ". ", q) ensures OccursAt(t, ". ", i + 2 + q) {
            assert t[i + 2 + q..i + 2 + q + 2] == r[q..q + 2];
          }
        }
        r
      else t
  }

  /** The overlap exactly as the code computes it: `current_chunk[-chunk_overlap:]` when the
      chunk is longer than `chunk_overlap`, then the sentence cut. For `chunk_overlap == 0`
      the slice `[-0:]` is the whole chunk. */
  function OverlapAsWritten(current: string, chunkOverlap: int): string {
    var tail := if |current| > chunkOverlap then SliceFrom(current, -chunkOverlap) else current;
    CutAtSentence(tail)
  }

  /** The written overlap is a suffix of the flushed chunk, and no longer than `chunkOverlap`
      when that is positive. */
  lemma OverlapAsWrittenSuffix(current: string, chunkOverlap: int)
    ensures var r := OverlapAsWritten(current, chunkOverlap);
      |r| <= |current| && r == current[|current| - |r|..] && (chunkOverlap > 0 ==> |r| <= chunkOverlap)
  {
    var tail := if |current| > chunkOverlap then SliceFrom(current, -chunkOverlap) else current;
    assert tail == current[|current| - |tail|..];
    SuffixOfSuffix(current, tail, CutAtSentence(tail));
  }

  /** The overlap as intended: at most the last `chunkOverlap` characters, none when it is
      zero or negative, then the sentence cut. */
  function Overlap(current: string, chunkOverlap: int): (r: string)
    ensures |r| <= Max(chunkOverlap, 0) && |r| <= |current|
    ensures r == current[|current| - |r|..]
  {
    var tail :=
      if chunkOverlap <= 0 then []
      else if |current| > chunkOverlap then current[|current| - chunkOverlap..]
      else current;
    assert tail == current[|current| - |tail|..];
    var r := CutAtSentence(tail);
    SuffixOfSuffix(current, tail, r);
    r
  }

  lemma SuffixOfSuffix(a: string, b: string, c: string)
    requires |b| <= |a| && b == a[|a| - |b|..] && |c| <= |b| && c == b[|b| - |c|..]
    ensures c == a[|a| - |c|..]
  {
    assert forall j :: 0 <= j < |c| ==> c[j] == b[|b| - |c| + j] == a[|a| - |c| + j];
  }

  /** For a positive overlap the intended and the written overlap agree. */
  lemma OverlapAgrees(current: string, chunkOverlap: int)
    requires chunkOverlap > 0
    ensures Overlap(current, chunkOverlap) == OverlapAsWritten(current, chunkOverlap)
  {
  }

  /** With `chunk_overlap == 0` the written code carries the whole flushed chunk into the
      next one whenever it has no sentence break: after the paragraphs "aaa" and "bbb" with
      a chunk size of 5, the second chunk repeats all of the first. The intended overlap
      carries nothing. */
  lemma ZeroOverlapCarriesWholeChunk(current: string)
    requires current != [] && !Contains(current, ". ")
    ensures OverlapAsWritten(current, 0) == current
    ensures Overlap(current, 0) == []
  {
    assert SliceFrom(current, 0) == current;
  }

  lemma ZeroOverlapExample()
    ensures OverlapAsWritten("aaa", 0) == "aaa"
  {
    assert !Contains("aaa", ". ") by {
      forall i | 0 <= i <= 1 ensures !OccursAt("aaa", ". ", i) {
        assert "aaa"[i] == 'a';
      }
    }
    ZeroOverlapCarriesWholeChunk("aaa");
  }

  // ---------------------------------------------------------------------------
  // Packing paragraphs into chunks
  // ---------------------------------------------------------------------------

  /** A chunk and its character span. */
  datatype Chunk = Chunk(text: string, startChar: int, endChar: int)

  /** The loop's variables `chunks`, `current_chunk`, `current_start` and `char_pos`. */
  datatype ChunkState = ChunkState(chunks: seq<Chunk>, current: string, start: int, charPos: int)

  const Initial := ChunkState([], "", 0, 0)

  /** The record appended for the text collected so far. */
  function Emit(current: string, start: int): Chunk {
    var t := Strip(current);
    Chunk(t, start, start + |t|)
  }

  /** Finish the current chunk and start the next with the overlap the code computes. */
  function Flush(st: ChunkState, chunkOverlap: int): ChunkState {
    Restart(st.chunks + [Emit(st.current, st.start)], st.current, st.start, st.charPos, OverlapAsWritten(st.current, chunkOverlap))
  }

  /** The next chunk starts from the overlap of the flushed text, shifted by what was dropped. */
  function Restart(chunks: seq<Chunk>, current: string, start: int, charPos: int, overlap: string): ChunkState {
    ChunkState(chunks, overlap, start + |current| - |overlap|, charPos)
  }

  function Append(st: ChunkState, para: string): ChunkState {
    if st.current != [] then
      st.(current := st.current + Separator + para, charPos := st.charPos + |para| + 2)
    else
      ChunkState(st.chunks, para, st.charPos, st.charPos + |para| + 2)
  }

  /** One round of the loop: flush when the paragraph would not fit, then add it. */
  function Step(st: ChunkState, para: string, chunkSize: int, chunkOverlap: int): ChunkState {
    var st1 := if st.current != [] && |st.current| + |para| + 2 > chunkSize then Flush(st, chunkOverlap) else st;
    Append(st1, para)
  }

  /** The state after the first `n` paragraphs. */
  function Fold(ps: seq<string>, n: nat, chunkSize: int, chunkOverlap: int): ChunkState
    requires n <= |ps|
  {
    if n == 0 then Initial else Step(Fold(ps, n - 1, chunkSize, chunkOverlap), ps[n - 1], chunkSize, chunkOverlap)
  }

  /** The last chunk is kept when it is not blank. */
  function Finish(st: ChunkState): seq<Chunk> {
    if Strip(st.current) != [] then st.chunks + [Emit(st.current, st.start)] else st.chunks
  }

  function Chunks(text: string, chunkSize: int, chunkOverlap: int): seq<Chunk> {
    var ps := Paragraphs(text);
    Finish(Fold(ps, |ps|, chunkSize, chunkOverlap))
  }

  method ChunkText(text: string, chunkSize: int, chunkOverlap: int) returns (chunks: seq<Chunk>)
    ensures chunks == Chunks(text, chunkSize, chunkOverlap)
  {
    var paragraphs := Paragraphs(text);
    chunks := PackParagraphs(paragraphs, chunkSize, chunkOverlap);
  }

  /** The loop of `chunk_text` over the paragraphs, then the last chunk. */
  method PackParagraphs(paragraphs: seq<string>, chunkSize: int, chunkOverlap: int) returns (chunks: seq<Chunk>)
    ensures chunks == Finish(Fold(paragraphs, |paragraphs|, chunkSize, chunkOverlap))
  {
    var current, currentStart, charPos;
    chunks, current, currentStart, charPos := FoldParagraphs(paragraphs, chunkSize, chunkOverlap);
    chunks := KeepLast(chunks, current, currentStart, charPos);
  }

  /** After the loop: the text still collected becomes the last chunk unless it is blank. */
  method KeepLast(chunks0: seq<Chunk>, current: string, currentStart: int, ghost charPos: int) returns (chunks: seq<Chunk>)
    ensures chunks == Finish(ChunkState(chunks0, current, currentStart, charPos))
  {
    chunks := chunks0;
    var t := Strip(current);
    if t != [] {
      chunks := chunks + [Chunk(t, currentStart, currentStart + |t|)];
    }
  }

  /** The loop itself: the state after every paragraph. */
  method FoldParagraphs(paragraphs: seq<string>, chunkSize: int, chunkOverlap: int)
    returns (chunks: seq<Chunk>, current: string, currentStart: int, charPos: int)
    ensures ChunkState(chunks, current, currentStart, charPos) == Fold(paragraphs, |paragraphs|, chunkSize, chunkOverlap)
  {
    chunks, current, currentStart, charPos := [], "", 0, 0;
    for i := 0 to |paragraphs|
      invariant ChunkState(chunks, current, currentStart, charPos) == Fold(paragraphs, i, chunkSize, chunkOverlap)
    {
      chunks, current, currentStart, charPos := AddParagraph(chunks, current, currentStart, charPos, paragraphs[i], chunkSize, chunkOverlap);
    }
  }

  /** One round of the loop. */
  method AddParagraph(chunks0: seq<Chunk>, current0: string, currentStart0: int, charPos0: int, para: string,
                      chunkSize: int, chunkOverlap: int)
    returns (chunks: seq<Chunk>, current: string, currentStart: int, charPos: int)
    ensures ChunkState(chunks, current, currentStart, charPos)
         == Step(ChunkState(chunks0, current0, currentStart0, charPos0), para, chunkSize, chunkOverlap)
  {
    ghost var st0 := ChunkState(chunks0, current0, currentStart0, charPos0);
    chunks, current, currentStart, charPos := chunks0, current0, currentStart0, charPos0;
    if current != [] && |current| + |para| + 2 > chunkSize {
      chunks, current, currentStart := FlushChunk(chunks, current, currentStart, chunkOverlap);
      assert ChunkState(chunks, current, currentStart, charPos) == Flush(st0, chunkOverlap);
    }
    ghost var st1 := ChunkState(chunks, current, currentStart, charPos);
    assert Step(st0, para, chunkSize, chunkOverlap) == Append(st1, para);
    if current != [] {
      current := current + Separator + para;
    } else {
      currentStart := charPos;
      current := para;
    }
    charPos := charPos + |para| + 2;
  }

  /** Emit the current chunk and start the next one with the overlap. */
  method FlushChunk(chunks0: seq<Chunk>, current0: string, currentStart0: int, chunkOverlap: int)
    returns (chunks: seq<Chunk>, current: string, currentStart: int)
    ensures forall charPos :: (ChunkState(chunks, current, currentStart, charPos)
                               == Flush(ChunkState(chunks0, current0, currentStart0, charPos), chunkOverlap))
  {
    var t := Strip(current0);
    chunks := chunks0 + [Chunk(t, currentStart0, currentStart0 + |t|)];
    assert chunks == chunks0 + [Emit(current0, currentStart0)];
    var overlapText := if |current0| > chunkOverlap then SliceFrom(current0, -chunkOverlap) else current0;
    var lastPeriod := RFind(overlapText, ". ");
    if lastPeriod.Some? && lastPeriod.value > 0 {
      overlapText := overlapText[lastPeriod.value + 2..];
    }
    assert overlapText == OverlapAsWritten(current0, chunkOverlap);
    currentStart := currentStart0 + |current0| - |overlapText|;
    current := overlapText;
    forall charPos ensures ChunkState(chunks, current, currentStart, charPos)
                           == Flush(ChunkState(chunks0, current0, currentStart0, charPos), chunkOverlap) {
      assert Flush(ChunkState(chunks0, current0, currentStart0, charPos), chunkOverlap)
             == Restart(chunks, current0, currentStart0, charPos, overlapText);
    }
  }

  /** The chunker as written, on the paragraphs "aaa" and "bbb" with a chunk size of 5 and
      an overlap of 0: the second chunk repeats the whole first one. */
  lemma ZeroOverlapRepeatsChunk()
    ensures Finish(Fold(["aaa", "bbb"], 2, 5, 0))
         == [Chunk("aaa", 0, 3), Chunk("aaa" + Separator + "bbb", 0, 8)]
  {
    var ps := ["aaa", "bbb"];
    var first := ChunkState([], "aaa", 0, 5);
    var flushed := ChunkState([Chunk("aaa", 0, 3)], "aaa", 0, 5);
    var last := ChunkState([Chunk("aaa", 0, 3)], "aaa" + Separator + "bbb", 0, 10);
    assert Fold(ps, 1, 5, 0) == first by {
      assert Fold(ps, 0, 5, 0) == Initial;
    }
    assert Flush(first, 0) == flushed by {
      assert IsStripped("aaa");
      ZeroOverlapExample();
    }
    assert Fold(ps, 2, 5, 0) == last;
    FinishJoined(last);
  }

  lemma FinishJoined(last: ChunkState)
    requires last.chunks == [Chunk("aaa", 0, 3)] && last.current == "aaa" + Separator + "bbb" && last.start == 0
    ensures Finish(last) == [Chunk("aaa", 0, 3), Chunk("aaa" + Separator + "bbb", 0, 8)]
  {
    var t := "aaa" + Separator + "bbb";
    assert t[0] == 'a' && t[|t| - 1] == 'b';
  }

  // ---------------------------------------------------------------------------
  // What every chunk satisfies
  // ---------------------------------------------------------------------------

  /** Some chunk holds `p` whole. */
  predicate Covered(chunks: seq<Chunk>, p: string) {
    exists k :: 0 <= k < |chunks| && Contains(chunks[k].text, p)
  }

  /** A chunk is stripped and non-blank, its span is as long as its text, lies within the
      joined paragraphs `joined`, and its text occurs in them. */
  predicate ChunkOk(c: Chunk, joined: string) {
    && c.text != [] && IsStripped(c.text)
    && c.endChar - c.startChar == |c.text|
    && 0 <= c.startChar && c.endChar <= |joined|
    && Contains(joined, c.text)
  }

  predicate Paragraphish(ps: seq<string>) {
    forall k :: 0 <= k < |ps| ==> ps[k] != [] && IsStripped(ps[k])
  }

  /** The loop invariant between rounds (`Mid` also holds in the middle of a round). */
  predicate Mid(st: ChunkState, ps: seq<string>, n: nat)
    requires n <= |ps|
  {
    var joined := Join(ps[..n], Separator);
    && (n == 0 ==> st.current == [] && st.charPos == 0 && st.chunks == [])
    && (n > 0 ==> st.charPos == |joined| + 2)
    && (st.current != [] ==> 0 <= st.start && st.start + |st.current| == |joined| && st.current == joined[st.start..])
    && (forall k :: 0 <= k < |st.chunks| ==> ChunkOk(st.chunks[k], joined))
    && (forall k :: 0 <= k < n ==> Covered(st.chunks, ps[k]) || Contains(st.current, ps[k]))
  }

  predicate Inv(st: ChunkState, ps: seq<string>, n: nat)
    requires n <= |ps|
  {
    Mid(st, ps, n) && (n > 0 ==> st.current != [] && Contains(st.current, ps[n - 1]))
  }

  lemma CoveredAppend(chunks: seq<Chunk>, c: Chunk, p: string)
    requires Covered(chunks, p) || Contains(c.text, p)
    ensures Covered(chunks + [c], p)
  {
    if Covered(chunks, p) {
      var k :| 0 <= k < |chunks| && Contains(chunks[k].text, p);
      assert (chunks + [c])[k] == chunks[k];
    } else {
      assert (chunks + [c])[|chunks|] == c;
    }
  }

  /** The emitted chunk is well formed and covers what the current text contained. */
  lemma EmitOk(st: ChunkState, ps: seq<string>, n: nat)
    requires n <= |ps| && Paragraphish(ps) && Inv(st, ps, n) && n > 0
    ensures ChunkOk(Emit(st.current, st.start), Join(ps[..n], Separator))
    ensures forall k :: 0 <= k < n ==> Covered(st.chunks + [Emit(st.current, st.start)], ps[k])
  {
    assert ps[n - 1] != [] && IsStripped(ps[n - 1]);
    EmitChunk(st.current, st.start, Join(ps[..n], Separator), ps[n - 1]);
    EmitCovers(st, ps, n);
  }

  /** The stripped text of a chunk that holds a paragraph sits where the chunk does. */
  lemma EmitChunk(current: string, start: int, joined: string, p: string)
    requires Contains(current, p) && p != [] && IsStripped(p)
    requires 0 <= start && start + |current| == |joined| && current == joined[start..]
    ensures ChunkOk(Emit(current, start), joined)
  {
    var text := Strip(current);
    StripKeeps(current, p);
    StripSlice(current);
    var l := LeadingSpaces(current);
    SliceOfDrop(joined, start, l, |text|);
    assert OccursAt(joined, text, start + l);
  }

  lemma SliceOfDrop(s: string, a: nat, l: nat, m: nat)
    requires a + l + m <= |s|
    ensures s[a..][l..l + m] == s[a + l..a + l + m]
  {
  }

  lemma EmitCovers(st: ChunkState, ps: seq<string>, n: nat)
    requires n <= |ps| && Paragraphish(ps) && Mid(st, ps, n)
    ensures forall k :: 0 <= k < n ==> Covered(st.chunks + [Emit(st.current, st.start)], ps[k])
  {
    var c := Emit(st.current, st.start);
    forall k | 0 <= k < n ensures Covered(st.chunks + [c], ps[k]) {
      if Contains(st.current, ps[k]) {
        StripKeeps(st.current, ps[k]);
      }
      CoveredAppend(st.chunks, c, ps[k]);
    }
  }

  lemma FlushMid(st: ChunkState, ps: seq<string>, n: nat, chunkOverlap: int)
    requires n <= |ps| && Paragraphish(ps) && Inv(st, ps, n) && st.current != []
    ensures Mid(Flush(st, chunkOverlap), ps, n)
  {
    EmitOk(st, ps, n);
    OverlapAsWrittenSuffix(st.current, chunkOverlap);
    RestartKeepsSuffix(st.chunks + [Emit(st.current, st.start)], Join(ps[..n], Separator), st.current, st.start, st.charPos, OverlapAsWritten(st.current, chunkOverlap));
    FlushChunksOk(st, ps, n, chunkOverlap);
  }

  /** The overlap carried into the next chunk is still a suffix of the joined text. */
  lemma RestartKeepsSuffix(chunks: seq<Chunk>, joined: string, current: string, start: int, charPos: int, overlap: string)
    requires 0 <= start && start + |current| == |joined| && current == joined[start..]
    requires |overlap| <= |current| && overlap == current[|current| - |overlap|..]
    ensures var st1 := Restart(chunks, current, start, charPos, overlap);
      0 <= st1.start && st1.start + |st1.current| == |joined| && st1.current == joined[st1.start..]
  {
    SuffixOfSlice(joined, start, current, overlap);
  }

  lemma SuffixOfSlice(joined: string, start: nat, current: string, tail: string)
    requires start + |current| == |joined| && current == joined[start..]
    requires |tail| <= |current| && tail == current[|current| - |tail|..]
    ensures tail == joined[|joined| - |tail|..]
  {
    forall i | 0 <= i < |tail| ensures tail[i] == joined[|joined| - |tail| + i] {
      assert tail[i] == current[|current| - |tail| + i];
    }
  }

  lemma FlushChunksOk(st: ChunkState, ps: seq<string>, n: nat, chunkOverlap: int)
    requires n <= |ps| && st.current != []
    requires forall k :: 0 <= k < |st.chunks| ==> ChunkOk(st.chunks[k], Join(ps[..n], Separator))
    requires ChunkOk(Emit(st.current, st.start), Join(ps[..n], Separator))
    ensures forall k :: 0 <= k < |Flush(st, chunkOverlap).chunks| ==> ChunkOk(Flush(st, chunkOverlap).chunks[k], Join(ps[..n], Separator))
  {
    var chunks := st.chunks + [Emit(st.current, st.start)];
    assert Flush(st, chunkOverlap).chunks == chunks;
    forall k | 0 <= k < |chunks| ensures ChunkOk(chunks[k], Join(ps[..n], Separator)) {
      if k < |st.chunks| {
        assert chunks[k] == st.chunks[k];
      }
    }
  }

  lemma AppendInv(st: ChunkState, ps: seq<string>, n: nat)
    requires n < |ps| && Paragraphish(ps) && Mid(st, ps, n)
    ensures Inv(Append(st, ps[n]), ps, n + 1)
  {
    if n == 0 {
      AppendFirst(st, ps);
    } else {
      JoinStep(ps, n, Separator);
      if st.current != [] {
        AppendExtend(st, ps, n);
      } else {
        AppendFresh(st, ps, n);
      }
    }
  }

  lemma AppendFirst(st: ChunkState, ps: seq<string>)
    requires 0 < |ps| && Paragraphish(ps) && Mid(st, ps, 0)
    ensures Inv(Append(st, ps[0]), ps, 1)
  {
    assert Join(ps[..1], Separator) == ps[0];
    assert OccursAt(ps[0], ps[0], 0);
  }

  /** Earlier chunks stay within the joined paragraphs as they grow. */
  lemma ChunksStayOk(chunks: seq<Chunk>, joined: string, more: string)
    requires forall k :: 0 <= k < |chunks| ==> ChunkOk(chunks[k], joined)
    ensures forall k :: 0 <= k < |chunks| ==> ChunkOk(chunks[k], joined + more)
  {
    forall k | 0 <= k < |chunks| ensures ChunkOk(chunks[k], joined + more) {
      ContainsAppend(joined, chunks[k].text, more);
    }
  }

  lemma AppendExtend(st: ChunkState, ps: seq<string>, n: nat)
    requires 0 < n < |ps| && Paragraphish(ps) && Mid(st, ps, n) && st.current != []
    requires Join(ps[..n + 1], Separator) == Join(ps[..n], Separator) + Separator + ps[n]
    ensures Inv(Append(st, ps[n]), ps, n + 1)
  {
    var p := ps[n];
    var joined := Join(ps[..n], Separator);
    var st1 := Append(st, p);
    assert Join(ps[..n + 1], Separator) == joined + (Separator + p);
    ChunksStayOk(st.chunks, joined, Separator + p);
    assert st1.current == st.current + (Separator + p);
    ContainsSuffix(st.current + Separator, p);
    forall k | 0 <= k < n && Contains(st.current, ps[k]) ensures Contains(st1.current, ps[k]) {
      ContainsAppend(st.current, ps[k], Separator + p);
    }
  }

  lemma AppendFresh(st: ChunkState, ps: seq<string>, n: nat)
    requires 0 < n < |ps| && Paragraphish(ps) && Mid(st, ps, n) && st.current == []
    requires Join(ps[..n + 1], Separator) == Join(ps[..n], Separator) + Separator + ps[n]
    ensures Inv(Append(st, ps[n]), ps, n + 1)
  {
    var p := ps[n];
    var joined := Join(ps[..n], Separator);
    assert Join(ps[..n + 1], Separator) == joined + (Separator + p);
    ChunksStayOk(st.chunks, joined, Separator + p);
    assert Join(ps[..n + 1], Separator)[|joined| + 2..] == p;
    assert OccursAt(p, p, 0);
    forall k | 0 <= k < n ensures Covered(st.chunks, ps[k]) {
      assert !Contains(st.current, ps[k]);
    }
  }

  lemma StepInv(st: ChunkState, ps: seq<string>, n: nat, chunkSize: int, chunkOverlap: int)
    requires n < |ps| && Paragraphish(ps) && Inv(st, ps, n)
    ensures Inv(Step(st, ps[n], chunkSize, chunkOverlap), ps, n + 1)
  {
    if st.current != [] && |st.current| + |ps[n]| + 2 > chunkSize {
      FlushMid(st, ps, n, chunkOverlap);
      AppendInv(Flush(st, chunkOverlap), ps, n);
    } else {
      AppendInv(st, ps, n);
    }
  }

  lemma {:induction false} FoldInv(ps: seq<string>, n: nat, chunkSize: int, chunkOverlap: int)
    requires n <= |ps| && Paragraphish(ps)
    ensures Inv(Fold(ps, n, chunkSize, chunkOverlap), ps, n)
  {
    if n > 0 {
      FoldInv(ps, n - 1, chunkSize, chunkOverlap);
      StepInv(Fold(ps, n - 1, chunkSize, chunkOverlap), ps, n - 1, chunkSize, chunkOverlap);
    }
  }

  /** What `chunk_text` promises, for any sizes: there are chunks exactly when the text has
      a paragraph; every chunk is stripped and non-blank, its span is exactly as long as its
      text and lies within the paragraphs joined by blank lines, where its text occurs; and
      every paragraph lies whole inside some chunk, so none is ever split, however long. */
  lemma ChunksShape(text: string, chunkSize: int, chunkOverlap: int)
    ensures var ps := Paragraphs(text);
      var cs := Chunks(text, chunkSize, chunkOverlap);
      && (cs == [] <==> ps == [])
      && (forall k :: 0 <= k < |cs| ==> ChunkOk(cs[k], Join(ps, Separator)))
      && (forall k :: 0 <= k < |ps| ==> Covered(cs, ps[k]))
  {
    var ps := Paragraphs(text);
    var st := Fold(ps, |ps|, chunkSize, chunkOverlap);
    FoldInv(ps, |ps|, chunkSize, chunkOverlap);
    assert ps[..|ps|] == ps;
    if |ps| > 0 {
      FinishOk(st, ps);
    }
  }

  /** The last chunk, when kept, is well formed too, and every paragraph ends up covered. */
  lemma FinishOk(st: ChunkState, ps: seq<string>)
    requires |ps| > 0 && Paragraphish(ps) && Inv(st, ps, |ps|)
    ensures var cs := Finish(st);
      && cs != []
      && (forall k :: 0 <= k < |cs| ==> ChunkOk(cs[k], Join(ps[..|ps|], Separator)))
      && (forall k :: 0 <= k < |ps| ==> Covered(cs, ps[k]))
  {
    EmitOk(st, ps, |ps|);
    StripKeeps(st.current, ps[|ps| - 1]);
    var cs := Finish(st);
    assert cs == st.chunks + [Emit(st.current, st.start)];
    forall k | 0 <= k < |cs| ensures ChunkOk(cs[k], Join(ps[..|ps|], Separator)) {
      if k < |st.chunks| {
        assert cs[k] == st.chunks[k];
      }
    }
  }

  /** Every chunk's span is exactly as wide as its text. */
  lemma ChunkWidths(text: string, chunkSize: int, chunkOverlap: int)
    ensures var cs := Chunks(text, chunkSize, chunkOverlap);
      forall k :: 0 <= k < |cs| ==> cs[k].endChar - cs[k].startChar == |cs[k].text|
  {
    ChunksShape(text, chunkSize, chunkOverlap);
  }

  /** Empty or whitespace-only text gives no chunks. */
  lemma BlankTextNoChunks(text: string, chunkSize: int, chunkOverlap: int)
    requires AllSpace(text)
    ensures Chunks(text, chunkSize, chunkOverlap) == []
  {
    BlankHasNoParagraphs(text);
  }
}
