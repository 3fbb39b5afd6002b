/** Document chunking: content cleaning, chunk offset bookkeeping, chunk
    ids, multi-document concatenation and chunk statistics. The sentence
    splitter is not part of this model: the chunker is given it as a
    function from the cleaned text to its pieces. */
module Chunking {
  import opened Wrappers
  import opened Text
  import opened Values

  // ------------------------------------------------------------ cleaning

  /** Every whitespace character in `s` is the plain space. */
  predicate SpacesArePlain(s: string) {
    forall k :: 0 <= k < |s| && IsSpace(s[k]) ==> s[k] == ' '
  }

  /** `re.sub(r"\s+", " ", s)`: every maximal run of whitespace becomes one
      space. */
  function CollapseWhitespace(s: string): string {
    if s == [] then []
    else
      var n := |s| - 1;
      var p := CollapseWhitespace(s[..n]);
      if IsSpace(s[n]) then (if n > 0 && IsSpace(s[n - 1]) then p else p + " ")
      else p + [s[n]]
  }

  /** After collapsing, the only whitespace is the plain space, no two
      spaces are adjacent, the result is empty only for empty input, and it
      ends in a space exactly when the input ends in whitespace. */
  lemma {:induction false} CollapseWhitespaceShape(s: string)
    ensures var r := CollapseWhitespace(s);
            && |r| <= |s|
            && (s == [] <==> r == [])
            && SpacesArePlain(r)
            && (forall k :: 0 <= k < |r| - 1 ==> !(r[k] == ' ' && r[k + 1] == ' '))
            && (s != [] ==> (IsSpace(s[|s| - 1]) <==> r[|r| - 1] == ' '))
  {
    if s != [] {
      var n := |s| - 1;
      CollapseWhitespaceShape(s[..n]);
      assert n > 0 ==> s[..n][n - 1] == s[n - 1];
    }
  }

  /** The control characters removed after collapsing: U+0000..U+0008,
      U+000B, U+000C, U+000E..U+001F and U+007F..U+009F. */
  predicate IsRemovedControl(c: char) {
    ('\U{0}' <= c <= '\U{8}') || c == '\U{B}' || c == '\U{C}' || ('\U{E}' <= c <= '\U{1F}')
    || ('\U{7F}' <= c <= '\U{9F}')
  }

  /** `re.sub(r"[\x00-\x08\x0b\x0c\x0e-\x1f\x7f-\x9f]", "", s)` */
  function RemoveControl(s: string): string {
    if s == [] then []
    else
      var n := |s| - 1;
      RemoveControl(s[..n]) + (if IsRemovedControl(s[n]) then [] else [s[n]])
  }

  /** No removed control character survives, and only characters of `s`
      remain, so plain-space-only text stays so. */
  lemma {:induction false} RemoveControlShape(s: string)
    ensures var r := RemoveControl(s);
            && |r| <= |s|
            && ControlFree(r)
            && (SpacesArePlain(s) ==> SpacesArePlain(r))
  {
    if s != [] {
      var n := |s| - 1;
      RemoveControlShape(s[..n]);
      assert SpacesArePlain(s) ==> SpacesArePlain(s[..n]) by {
        assert forall k :: 0 <= k < n ==> s[..n][k] == s[k];
      }
    }
  }

  /** `s.replace("\r\n", "\n")`, scanning left to right. */
  function ReplaceCrLf(s: string): string
    decreases |s|
  {
    if |s| >= 2 && s[0] == '\r' && s[1] == '\n' then "\n" + ReplaceCrLf(s[2..])
    else if s == [] then []
    else [s[0]] + ReplaceCrLf(s[1..])
  }

  /** Text without carriage returns is left as it is. */
  lemma {:induction false} ReplaceCrLfPlain(s: string)
    requires SpacesArePlain(s)
    ensures ReplaceCrLf(s) == s
    decreases |s|
  {
    if s != [] {
      assert s[0] != '\r';
      assert SpacesArePlain(s[1..]) by {
        assert forall k :: 0 <= k < |s| - 1 ==> s[1..][k] == s[k + 1];
      }
      ReplaceCrLfPlain(s[1..]);
    }
  }

  /** `s.replace("\r", "\n")` */
  function ReplaceCr(s: string): string {
    seq(|s|, k requires 0 <= k < |s| => if s[k] == '\r' then '\n' else s[k])
  }

  lemma ReplaceCrPlain(s: string)
    requires SpacesArePlain(s)
    ensures ReplaceCr(s) == s
  {
    assert forall k :: 0 <= k < |s| ==> s[k] != '\r';
  }

  /** `_clean_content` */
  function CleanContent(content: string): string {
    Strip(ReplaceCr(ReplaceCrLf(RemoveControl(CollapseWhitespace(content)))))
  }

  /** No removed control character occurs in `s`. */
  predicate ControlFree(s: string) {
    forall k :: 0 <= k < |s| ==> !IsRemovedControl(s[k])
  }

  /** Stripping keeps both properties, since it only cuts off the ends. */
  lemma StripKeepsPlain(d: string)
    ensures SpacesArePlain(d) ==> SpacesArePlain(Strip(d))
    ensures ControlFree(d) ==> ControlFree(Strip(d))
  {
    StripIsSlice(d);
    var i, j :| 0 <= i <= j <= |d| && Strip(d) == d[i..j];
    assert forall k :: 0 <= k < j - i ==> d[i..j][k] == d[i + k];
  }

  /** Cleaned content has no whitespace at either end, and its only
      whitespace character is the plain space: no newline, carriage return
      or tab survives, and no control character in the removed ranges. */
  lemma CleanContentShape(content: string)
    ensures var r := CleanContent(content);
            && (r != [] ==> !IsSpace(r[0]) && !IsSpace(r[|r| - 1]))
            && SpacesArePlain(r)
            && ControlFree(r)
  {
    var c := CollapseWhitespace(content);
    CollapseWhitespaceShape(content);
    var d := RemoveControl(c);
    RemoveControlShape(c);
    ReplaceCrLfPlain(d);
    ReplaceCrPlain(d);
    StripKeepsPlain(d);
    StripEnds(d);
  }

  // ------------------------------------------------------------- chunks

  datatype DocumentChunk = DocumentChunk(
    text: string,
    chunkId: string,
    sourcePath: string,
    chunkIndex: int,
    startChar: int,
    endChar: int,
    metadata: Dict)

  /** `f"{source_path}:chunk:{i}"` */
  function ChunkId(path: string, i: nat): string {
    path + ":chunk:" + NatToString(i)
  }

  /** Two chunks of one document never share an id. */
  lemma ChunkIdInjective(path: string, i: nat, j: nat)
    requires ChunkId(path, i) == ChunkId(path, j)
    ensures i == j
  {
    assert NatToString(i) == ChunkId(path, i)[|path| + 7..];
    assert NatToString(j) == ChunkId(path, j)[|path| + 7..];
    NatToStringInjective(i, j);
  }

  /** Where a piece is recorded to start: where it is found from the
      cursor on, or the cursor itself when it is not found. */
  function StartFor(cleaned: string, piece: string, cursor: int): int {
    var f := Find(cleaned, piece, cursor);
    if f == -1 then cursor else f
  }

  /** The search cursor before piece n: 0 for the first piece, otherwise
      `overlap` characters before the end of piece n - 1. */
  function CursorBefore(pieces: seq<string>, overlap: int, starts: seq<int>, n: nat): int
    requires n <= |starts| && n <= |pieces|
  {
    if n == 0 then 0 else starts[n - 1] + |pieces[n - 1]| - overlap
  }

  /** The recorded start offsets of the first n pieces: each piece is looked
      up from the cursor its predecessor leaves. */
  function Starts(cleaned: string, pieces: seq<string>, overlap: int, n: nat): (r: seq<int>)
    requires n <= |pieces|
    ensures |r| == n
  {
    if n == 0 then []
    else
      var p := Starts(cleaned, pieces, overlap, n - 1);
      p + [StartFor(cleaned, pieces[n - 1], CursorBefore(pieces, overlap, p, n - 1))]
  }

  /** Later pieces do not move earlier starts. */
  lemma {:induction false} StartsPrefix(cleaned: string, pieces: seq<string>, overlap: int, n: nat, m: nat)
    requires n <= m <= |pieces|
    ensures Starts(cleaned, pieces, overlap, n) == Starts(cleaned, pieces, overlap, m)[..n]
    decreases m - n
  {
    if n < m {
      StartsPrefix(cleaned, pieces, overlap, n, m - 1);
      var p := Starts(cleaned, pieces, overlap, m - 1);
      assert Starts(cleaned, pieces, overlap, m)[..m - 1] == p;
    }
  }

  /** Start k is where piece k is found from the cursor piece k - 1 leaves
      (from 0 for the first piece), or that cursor when it is not found. */
  lemma StartsAt(cleaned: string, pieces: seq<string>, overlap: int, k: nat)
    requires k < |pieces|
    ensures var r := Starts(cleaned, pieces, overlap, |pieces|);
            r[k] == StartFor(cleaned, pieces[k], CursorBefore(pieces, overlap, r, k))
  {
    var r := Starts(cleaned, pieces, overlap, |pieces|);
    var q := Starts(cleaned, pieces, overlap, k);
    StartsPrefix(cleaned, pieces, overlap, k + 1, |pieces|);
    assert r[k] == Starts(cleaned, pieces, overlap, k + 1)[k];
    if k > 0 {
      StartsPrefix(cleaned, pieces, overlap, k, |pieces|);
      assert q[k - 1] == r[k - 1];
    }
    assert CursorBefore(pieces, overlap, q, k) == CursorBefore(pieces, overlap, r, k);
  }

  /** The chunk for piece k recorded at offset `start`. */
  function ChunkAt(pieces: seq<string>, path: string, md: Dict, k: nat, start: int): DocumentChunk
    requires k < |pieces|
  {
    DocumentChunk(Strip(pieces[k]), ChunkId(path, k), path, k, start, start + |pieces[k]|, md)
  }

  /** The chunks of the first |starts| pieces, recorded at those starts. */
  function ChunksFor(pieces: seq<string>, path: string, md: Dict, starts: seq<int>): (r: seq<DocumentChunk>)
    requires |starts| <= |pieces|
    ensures |r| == |starts|
  {
    seq(|starts|, k requires 0 <= k < |starts| => ChunkAt(pieces, path, md, k, starts[k]))
  }

  /** One more start gives one more chunk, at the end. */
  lemma ChunksForStep(pieces: seq<string>, path: string, md: Dict, starts: seq<int>, start: int)
    requires |starts| < |pieces|
    ensures ChunksFor(pieces, path, md, starts + [start])
            == ChunksFor(pieces, path, md, starts) + [ChunkAt(pieces, path, md, |starts|, start)]
  {
  }

  /** The chunks of the cleaned text's pieces, one per piece, in order. */
  function BuildChunks(cleaned: string, pieces: seq<string>, path: string, md: Dict,
                       overlap: int): (r: seq<DocumentChunk>)
    ensures |r| == |pieces|
  {
    ChunksFor(pieces, path, md, Starts(cleaned, pieces, overlap, |pieces|))
  }

  /** Chunk k belongs to piece k: it carries that index and the id
      `path:chunk:k`, the stripped piece as text, the document's path and
      metadata, and ends `len(piece)` after its start; the first piece is
      looked up from 0 and each later one from `overlap` characters before
      the previous chunk's end. */
  lemma BuildChunksShape(cleaned: string, pieces: seq<string>, path: string, md: Dict, overlap: int, k: nat)
    requires k < |pieces|
    ensures var r := BuildChunks(cleaned, pieces, path, md, overlap);
        && r[k].chunkIndex == k && r[k].chunkId == ChunkId(path, k)
        && r[k].sourcePath == path && r[k].text == Strip(pieces[k])
        && r[k].metadata == md && r[k].endChar == r[k].startChar + |pieces[k]|
        && (k == 0 ==> r[0].startChar == StartFor(cleaned, pieces[0], 0))
        && (k > 0 ==> r[k].startChar == StartFor(cleaned, pieces[k], r[k - 1].endChar - overlap))
  {
    var starts := Starts(cleaned, pieces, overlap, |pieces|);
    var r := BuildChunks(cleaned, pieces, path, md, overlap);
    assert r[k] == ChunkAt(pieces, path, md, k, starts[k]);
    if k > 0 {
      assert r[k - 1] == ChunkAt(pieces, path, md, k - 1, starts[k - 1]);
    }
    StartsAt(cleaned, pieces, overlap, k);
  }

  /** One step of the walk: recording piece i's start extends the starts by
      one and leaves the cursor `overlap` characters before the piece's end. */
  lemma WalkStep(cleaned: string, pieces: seq<string>, overlap: int, i: nat, starts: seq<int>, start: int)
    requires i < |pieces| && starts == Starts(cleaned, pieces, overlap, i)
    requires start == StartFor(cleaned, pieces[i], CursorBefore(pieces, overlap, starts, i))
    ensures starts + [start] == Starts(cleaned, pieces, overlap, i + 1)
    ensures CursorBefore(pieces, overlap, starts + [start], i + 1) == start + |pieces[i]| - overlap
  {
  }

  /** The loop of `chunk_document`: each piece is looked up from the
      cursor, recorded at the offset found (or at the cursor), and the
      cursor moves to `overlap` characters before the piece's end. */
  method WalkPieces(cleaned: string, pieces: seq<string>, path: string, md: Dict, overlap: int)
    returns (chunks: seq<DocumentChunk>)
    ensures chunks == BuildChunks(cleaned, pieces, path, md, overlap)
  {
    chunks := [];
    var cursor := 0;
    ghost var starts: seq<int> := [];
    for i := 0 to |pieces|
      invariant starts == Starts(cleaned, pieces, overlap, i)
      invariant cursor == CursorBefore(pieces, overlap, starts, i)
      invariant chunks == ChunksFor(pieces, path, md, starts)
    {
      var start := Find(cleaned, pieces[i], cursor);
      if start == -1 {
        start := cursor;
      }
      var end := start + |pieces[i]|;
      var chunk := DocumentChunk(Strip(pieces[i]), ChunkId(path, i), path, i, start, end, md);
      WalkStep(cleaned, pieces, overlap, i, starts, start);
      ChunksForStep(pieces, path, md, starts, start);
      starts := starts + [start];
      cursor := end - overlap;
      chunks := chunks + [chunk];
    }
  }

  /** One document's input to `chunk_multiple_documents`; `metadata` is None
      when the key is missing. */
  datatype DocInput = DocInput(content: string, path: string, metadata: Option<Dict>)

  class DocumentChunker {
    const chunkSize: int
    const chunkOverlap: int
    /** The sentence splitter configured with the chunk size and overlap. */
    const splitText: string -> seq<string>

    constructor (splitText: string -> seq<string>, chunkSize: int := 512, chunkOverlap: int := 50)
      ensures this.splitText == splitText
      ensures this.chunkSize == chunkSize && this.chunkOverlap == chunkOverlap
    {
      this.splitText := splitText;
      this.chunkSize := chunkSize;
      this.chunkOverlap := chunkOverlap;
    }

    /** The chunks `chunk_document` produces. */
    function Chunks(content: string, path: string, md: Dict): seq<DocumentChunk> {
      if IsBlank(content) then []
      else
        var cleaned := CleanContent(content);
        BuildChunks(cleaned, splitText(cleaned), path, md, chunkOverlap)
    }

    /** `chunk_document`: cleans, splits, and walks the pieces with a cursor. */
    method ChunkDocument(content: string, path: string, md: Dict) returns (chunks: seq<DocumentChunk>)
      ensures chunks == Chunks(content, path, md)
    {
      if IsBlank(content) {
        return [];
      }
      var cleaned := CleanContent(content);
      var pieces := splitText(cleaned);
      chunks := WalkPieces(cleaned, pieces, path, md, chunkOverlap);
    }

    /** Empty and whitespace-only content yields no chunks; otherwise there
        is one chunk per piece of the cleaned content, chunk k has index k,
        id `path:chunk:k`, the stripped piece as text and the document's
        metadata, ends `len(piece)` after its start, and the search for the
        next piece starts `chunk_overlap` characters before that end. */
    lemma ChunksShape(content: string, path: string, md: Dict, k: nat)
      ensures IsBlank(content) ==> Chunks(content, path, md) == []
      ensures !IsBlank(content) ==> |Chunks(content, path, md)| == |splitText(CleanContent(content))|
      ensures k < |Chunks(content, path, md)| ==>
        var cleaned := CleanContent(content);
        var pieces := splitText(cleaned);
        var r := Chunks(content, path, md);
        && r[k].chunkIndex == k && r[k].chunkId == ChunkId(path, k)
        && r[k].sourcePath == path && r[k].text == Strip(pieces[k])
        && r[k].metadata == md && r[k].endChar == r[k].startChar + |pieces[k]|
        && (k == 0 ==> r[0].startChar == StartFor(cleaned, pieces[0], 0))
        && (k > 0 ==> r[k].startChar == StartFor(cleaned, pieces[k], r[k - 1].endChar - chunkOverlap))
    {
      if !IsBlank(content) {
        var cleaned := CleanContent(content);
        var pieces := splitText(cleaned);
        assert Chunks(content, path, md) == BuildChunks(cleaned, pieces, path, md, chunkOverlap);
        if k < |pieces| {
          BuildChunksShape(cleaned, pieces, path, md, chunkOverlap, k);
        }
      }
    }

    /** Chunk ids within one document are distinct. */
    lemma ChunkIdsDistinct(content: string, path: string, md: Dict)
      ensures var r := Chunks(content, path, md);
              forall a, b :: 0 <= a < b < |r| ==> r[a].chunkId != r[b].chunkId
    {
      var r := Chunks(content, path, md);
      forall a, b | 0 <= a < b < |r|
        ensures r[a].chunkId != r[b].chunkId
      {
        ChunksShape(content, path, md, a);
        ChunksShape(content, path, md, b);
        if r[a].chunkId == r[b].chunkId {
          ChunkIdInjective(path, a, b);
        }
      }
    }

    /** The chunks of several documents, in document order. */
    function AllChunks(docs: seq<DocInput>): seq<DocumentChunk> {
      if docs == [] then []
      else
        var d := docs[|docs| - 1];
        AllChunks(docs[..|docs| - 1]) + Chunks(d.content, d.path, d.metadata.GetOr(map[]))
    }

    /** `chunk_multiple_documents` */
    method ChunkMultipleDocuments(docs: seq<DocInput>) returns (all: seq<DocumentChunk>)
      ensures all == AllChunks(docs)
    {
      all := [];
      for i := 0 to |docs|
        invariant all == AllChunks(docs[..i])
      {
        assert docs[..i + 1][..i] == docs[..i];
        var chunks := ChunkDocument(docs[i].content, docs[i].path, docs[i].metadata.GetOr(map[]));
        all := all + chunks;
      }
      assert docs[..|docs|] == docs;
    }

    /** Every chunk of the combined list comes from one of the documents,
        and a document without metadata gets the empty dictionary. */
    lemma {:induction false} AllChunksFromDocuments(docs: seq<DocInput>)
      ensures |AllChunks(docs)| == SumChunkCounts(docs)
      ensures forall c :: c in AllChunks(docs) ==>
                exists d :: d in docs && c.sourcePath == d.path && c.metadata == d.metadata.GetOr(map[])
    {
      if docs != [] {
        var n := |docs| - 1;
        var d := docs[n];
        AllChunksFromDocuments(docs[..n]);
        var own := Chunks(d.content, d.path, d.metadata.GetOr(map[]));
        forall k | 0 <= k < |own|
          ensures own[k].sourcePath == d.path && own[k].metadata == d.metadata.GetOr(map[])
        {
          ChunksShape(d.content, d.path, d.metadata.GetOr(map[]), k);
        }
        forall c | c in AllChunks(docs)
          ensures exists e :: e in docs && c.sourcePath == e.path && c.metadata == e.metadata.GetOr(map[])
        {
          if c in AllChunks(docs[..n]) {
            var e :| e in docs[..n] && c.sourcePath == e.path && c.metadata == e.metadata.GetOr(map[]);
            assert e in docs;
          } else {
            assert c in Chunks(d.content, d.path, d.metadata.GetOr(map[]));
            assert d in docs;
          }
        }
      }
    }

    function SumChunkCounts(docs: seq<DocInput>): nat {
      if docs == [] then 0
      else
        var d := docs[|docs| - 1];
        SumChunkCounts(docs[..|docs| - 1]) + |Chunks(d.content, d.path, d.metadata.GetOr(map[]))|
    }
  }

  // -------------------------------------------------------------- stats

  datatype ChunkStats = ChunkStats(
    totalChunks: nat,
    avgChunkLength: real,
    minChunkLength: nat,
    maxChunkLength: nat,
    totalCharacters: nat,
    uniqueSources: nat)

  function TotalLength(chunks: seq<DocumentChunk>): nat {
    if chunks == [] then 0 else TotalLength(chunks[..|chunks| - 1]) + |chunks[|chunks| - 1].text|
  }

  function MinLength(chunks: seq<DocumentChunk>): (m: nat)
    requires chunks != []
    ensures forall k :: 0 <= k < |chunks| ==> m <= |chunks[k].text|
    ensures exists k :: 0 <= k < |chunks| && m == |chunks[k].text|
  {
    var n := |chunks| - 1;
    if n == 0 then |chunks[0].text|
    else
      var p := MinLength(chunks[..n]);
      if |chunks[n].text| < p then |chunks[n].text| else p
  }

  function MaxLength(chunks: seq<DocumentChunk>): (m: nat)
    requires chunks != []
    ensures forall k :: 0 <= k < |chunks| ==> |chunks[k].text| <= m
    ensures exists k :: 0 <= k < |chunks| && m == |chunks[k].text|
  {
    var n := |chunks| - 1;
    if n == 0 then |chunks[0].text|
    else
      var p := MaxLength(chunks[..n]);
      if |chunks[n].text| > p then |chunks[n].text| else p
  }

  function Sources(chunks: seq<DocumentChunk>): set<string> {
    set c | c in chunks :: c.sourcePath
  }

  lemma {:induction false} SourcesBound(chunks: seq<DocumentChunk>)
    ensures |Sources(chunks)| <= |chunks|
    ensures chunks != [] ==> |Sources(chunks)| >= 1
  {
    if chunks != [] {
      var n := |chunks| - 1;
      SourcesBound(chunks[..n]);
      assert chunks == chunks[..n] + [chunks[n]];
      assert Sources(chunks) == Sources(chunks[..n]) + {chunks[n].sourcePath};
    }
  }

  /** `avg` times `count` is `total`. */
  predicate IsAverage(avg: real, total: nat, count: nat) {
    avg * count as real == total as real
  }

  /** The statistics record, with the average computed as `total / count`. */
  function MakeStats(count: nat, total: nat, least: nat, most: nat, sources: nat): (r: ChunkStats)
    requires count > 0
    ensures IsAverage(r.avgChunkLength, total, count)
    ensures r.totalChunks == count && r.totalCharacters == total
    ensures r.minChunkLength == least && r.maxChunkLength == most && r.uniqueSources == sources
  {
    ChunkStats(count, total as real / count as real, least, most, total, sources)
  }

  /** `get_chunk_stats`: None (the empty dictionary) for no chunks. */
  function ChunkStatsOf(chunks: seq<DocumentChunk>): (r: Option<ChunkStats>)
    ensures chunks == [] <==> r.None?
    ensures r.Some? ==>
      && r.value.totalChunks == |chunks|
      && r.value.totalCharacters == TotalLength(chunks)
      && IsAverage(r.value.avgChunkLength, TotalLength(chunks), |chunks|)
  {
    if chunks == [] then None
    else Some(MakeStats(|chunks|, TotalLength(chunks), MinLength(chunks), MaxLength(chunks), |Sources(chunks)|))
  }

  /** The statistics describe the chunks: the minimum and maximum are
      lengths of some chunk and bound every chunk's length, and the number
      of distinct source paths lies between 1 and the number of chunks. */
  lemma ChunkStatsMeaning(chunks: seq<DocumentChunk>)
    requires chunks != []
    ensures var s := ChunkStatsOf(chunks).value;
      && s.minChunkLength <= s.maxChunkLength
      && (forall k :: 0 <= k < |chunks| ==> s.minChunkLength <= |chunks[k].text| <= s.maxChunkLength)
      && (exists k :: 0 <= k < |chunks| && s.minChunkLength == |chunks[k].text|)
      && (exists k :: 0 <= k < |chunks| && s.maxChunkLength == |chunks[k].text|)
      && s.uniqueSources == |Sources(chunks)|
      && 1 <= s.uniqueSources <= |chunks|
  {
    SourcesBound(chunks);
    assert MinLength(chunks) <= |chunks[0].text| <= MaxLength(chunks);
  }

  /** The chunks of one document count as one source. */
  lemma OneDocumentOneSource(chunker: DocumentChunker, content: string, path: string, md: Dict)
    requires chunker.Chunks(content, path, md) != []
    ensures ChunkStatsOf(chunker.Chunks(content, path, md)).value.uniqueSources == 1
  {
    var r := chunker.Chunks(content, path, md);
    forall k | 0 <= k < |r|
      ensures r[k].sourcePath == path
    {
      chunker.ChunksShape(content, path, md, k);
    }
    forall c | c in r
      ensures c.sourcePath == path
    {
      var k :| 0 <= k < |r| && r[k] == c;
    }
    assert r[0] in r;
    assert Sources(r) == {path};
  }
}
