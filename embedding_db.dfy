/** The vector database: the chunk metadata table (keyed by chunk id,
    insert-or-replace), the documents held by the vector index, the
    similarity-search filter and the table statistics. The embedding model,
    the vector engine's retrieval and scoring, and SQLite itself are not
    part of this model: what they answer, and whether a call raises, is
    passed in. */
module EmbeddingDb {
  import opened Wrappers
  import opened Values
  import opened Config
  import opened Chunking

  /** Length of the stored text preview before the "..." marker. */
  const PreviewLength: nat := 200

  /** The text preview: the text itself up to 200 characters, otherwise the
      first 200 characters followed by "...". */
  function Preview(text: string): (r: string)
    ensures |r| <= PreviewLength + 3
    ensures |text| <= PreviewLength ==> r == text
    ensures |text| > PreviewLength ==> |r| == PreviewLength + 3 && r[PreviewLength..] == "..."
    ensures |text| > PreviewLength ==> r[..PreviewLength] == text[..PreviewLength]
  {
    if |text| > PreviewLength then text[..PreviewLength] + "..." else text
  }

  /** One row of the `chunk_metadata` table (its key is the chunk id). */
  datatype ChunkRow = ChunkRow(
    sourcePath: string,
    chunkIndex: int,
    startChar: int,
    endChar: int,
    textPreview: string,
    fileMetadata: Dict,
    indexedTime: real,
    embeddingModel: string)

  /** The row `_store_chunk_metadata` writes for a chunk. */
  function RowOf(c: DocumentChunk, now: real, model: string): (row: ChunkRow)
    ensures row.sourcePath == c.sourcePath && row.chunkIndex == c.chunkIndex
    ensures row.startChar == c.startChar && row.endChar == c.endChar
    ensures row.textPreview == Preview(c.text) && row.fileMetadata == c.metadata
    ensures row.indexedTime == now && row.embeddingModel == model
  {
    ChunkRow(c.sourcePath, c.chunkIndex, c.startChar, c.endChar, Preview(c.text), c.metadata, now, model)
  }

  /** A document handed to the vector index. */
  datatype IndexDoc = IndexDoc(id: string, text: string, metadata: Dict)

  /** `to_llama_document`: the chunk's metadata with the chunk fields laid
      over it (they win on a key clash). */
  function ToIndexDoc(c: DocumentChunk): (d: IndexDoc)
    ensures d.id == c.chunkId && d.text == c.text
    ensures d.metadata.Keys == c.metadata.Keys + {"chunk_id", "source_path", "chunk_index", "start_char", "end_char"}
    ensures d.metadata["chunk_id"] == VStr(c.chunkId) && d.metadata["source_path"] == VStr(c.sourcePath)
    ensures d.metadata["chunk_index"] == VInt(c.chunkIndex)
    ensures d.metadata["start_char"] == VInt(c.startChar) && d.metadata["end_char"] == VInt(c.endChar)
    ensures forall k :: k in c.metadata && k !in {"chunk_id", "source_path", "chunk_index", "start_char", "end_char"}
              ==> d.metadata[k] == c.metadata[k]
  {
    IndexDoc(c.chunkId, c.text,
             c.metadata + map["chunk_id" := VStr(c.chunkId), "source_path" := VStr(c.sourcePath),
                              "chunk_index" := VInt(c.chunkIndex), "start_char" := VInt(c.startChar),
                              "end_char" := VInt(c.endChar)])
  }

  /** The table after storing `chunks` in order; `stored[k]` says whether
      the insert for chunk k went through (a failing one is logged and
      skipped). */
  function StoreRows(rows: map<string, ChunkRow>, chunks: seq<DocumentChunk>, stored: seq<bool>,
                     now: real, model: string): map<string, ChunkRow>
    requires |stored| == |chunks|
  {
    if chunks == [] then rows
    else
      var n := |chunks| - 1;
      var before := StoreRows(rows, chunks[..n], stored[..n], now, model);
      if stored[n] then before[chunks[n].chunkId := RowOf(chunks[n], now, model)] else before
  }

  /** True when chunk k is the last chunk with its id whose row was stored. */
  predicate LastStored(chunks: seq<DocumentChunk>, stored: seq<bool>, k: int)
    requires |stored| == |chunks|
  {
    0 <= k < |chunks| && stored[k]
    && forall j :: k < j < |chunks| && stored[j] ==> chunks[j].chunkId != chunks[k].chunkId
  }

  /** Insert-or-replace: an id none of the stored chunks has keeps its row
      (or its absence); an id that was stored holds the row of the last
      chunk stored under it. */
  lemma {:induction false} StoreRowsMeaning(rows: map<string, ChunkRow>, chunks: seq<DocumentChunk>,
                                            stored: seq<bool>, now: real, model: string)
    requires |stored| == |chunks|
    ensures var r := StoreRows(rows, chunks, stored, now, model);
      && (forall id :: (forall k :: 0 <= k < |chunks| && stored[k] ==> chunks[k].chunkId != id) ==>
            (id in r <==> id in rows) && (id in rows ==> r[id] == rows[id]))
      && (forall k :: LastStored(chunks, stored, k) ==>
            chunks[k].chunkId in r && r[chunks[k].chunkId] == RowOf(chunks[k], now, model))
  {
    if chunks != [] {
      var n := |chunks| - 1;
      var cs, ss := chunks[..n], stored[..n];
      StoreRowsMeaning(rows, cs, ss, now, model);
      forall k | LastStored(chunks, stored, k) && k < n
        ensures LastStored(cs, ss, k)
      {
      }
    }
  }

  /** The chunks of one document have distinct ids, so every stored chunk
      of it ends up with its own row. */
  lemma DistinctIdsAllStored(rows: map<string, ChunkRow>, chunks: seq<DocumentChunk>, stored: seq<bool>,
                             now: real, model: string, k: int)
    requires |stored| == |chunks|
    requires forall a, b :: 0 <= a < b < |chunks| ==> chunks[a].chunkId != chunks[b].chunkId
    requires 0 <= k < |chunks| && stored[k]
    ensures var r := StoreRows(rows, chunks, stored, now, model);
            chunks[k].chunkId in r && r[chunks[k].chunkId] == RowOf(chunks[k], now, model)
  {
    StoreRowsMeaning(rows, chunks, stored, now, model);
    assert LastStored(chunks, stored, k);
  }

  /** The index documents after deleting, for every id in `ids` whose
      deletion went through, the documents with that id. */
  function RemoveDocs(docs: seq<IndexDoc>, ids: set<string>, deleted: string -> bool): (r: seq<IndexDoc>)
    ensures forall d :: d in r <==> d in docs && !(d.id in ids && deleted(d.id))
    ensures |r| <= |docs|
  {
    if docs == [] then []
    else
      var n := |docs| - 1;
      RemoveDocs(docs[..n], ids, deleted) + (if docs[n].id in ids && deleted(docs[n].id) then [] else [docs[n]])
  }

  /** The ids of the rows for `path`. */
  function IdsFor(rows: map<string, ChunkRow>, path: string): set<string> {
    set id | id in rows && rows[id].sourcePath == path
  }

  /** The table without the rows for `path`. */
  function RowsWithout(rows: map<string, ChunkRow>, path: string): (r: map<string, ChunkRow>)
    ensures forall id :: id in r ==> r[id].sourcePath != path
    ensures forall id :: id in rows && rows[id].sourcePath != path ==> id in r && r[id] == rows[id]
    ensures forall id :: id in r ==> id in rows
  {
    map id | id in rows && rows[id].sourcePath != path :: rows[id]
  }

  /** The metadata `_get_chunk_metadata` returns: nothing (an empty
      dictionary) when there is no row or the lookup raises. */
  datatype ChunkMetadata = NoMetadata | RowMetadata(fileMetadata: Dict, indexedTime: real, embeddingModel: string)

  /** A node the query engine returns; `score` is None when the node has no
      score attribute. A score attribute holding None is not represented. */
  datatype SourceNode = SourceNode(doc: IndexDoc, score: Option<real>)

  /** One similarity-search result dictionary. */
  datatype SimilarityHit = SimilarityHit(
    chunkId: string,
    text: string,
    score: real,
    sourcePath: Option<Value>,
    chunkIndex: Option<Value>,
    startChar: Option<Value>,
    endChar: Option<Value>,
    metadata: ChunkMetadata)

  /** `d.get(key)` */
  function Get(d: Dict, key: string): (r: Option<Value>)
    ensures key in d <==> r.Some?
    ensures key in d ==> r.value == d[key]
  {
    if key in d then Some(d[key]) else None
  }

  /** The score a node is filtered on: a missing score counts as 0.0. */
  function ScoreOf(n: SourceNode): real {
    n.score.GetOr(0.0)
  }

  /** `top_k or similarity_top_k`: None and 0 fall back to the configured
      value. */
  function EffectiveTopK(topK: Option<int>, config: EmbeddingConfig): (r: int)
    ensures (topK.None? || topK == Some(0)) ==> r == config.similarityTopK
    ensures topK.Some? && topK.value != 0 ==> r == topK.value
  {
    if topK.Some? && topK.value != 0 then topK.value else config.similarityTopK
  }

  /** `threshold or similarity_threshold`: None and 0.0 fall back to the
      configured value. */
  function EffectiveThreshold(threshold: Option<real>, config: EmbeddingConfig): (r: real)
    ensures (threshold.None? || threshold == Some(0.0)) ==> r == config.similarityThreshold
    ensures threshold.Some? && threshold.value != 0.0 ==> r == threshold.value
  {
    if threshold.Some? && threshold.value != 0.0 then threshold.value else config.similarityThreshold
  }

  /** The table statistics `get_database_stats` reports. */
  datatype DbStats = DbStats(
    totalChunks: nat,
    uniqueDocuments: nat,
    embeddingModel: Option<string>,
    fileTypeDistribution: map<Value, nat>)

  /** `json_extract(file_metadata, '$.file_type')`, None when absent or null. */
  function FileTypeOfRow(row: ChunkRow): Option<Value> {
    if "file_type" in row.fileMetadata && row.fileMetadata["file_type"] != VNull
    then Some(row.fileMetadata["file_type"]) else None
  }

  function ModelsOf(rows: map<string, ChunkRow>): set<string> {
    set id | id in rows :: rows[id].embeddingModel
  }

  function IdsWithModel(rows: map<string, ChunkRow>, model: string): set<string> {
    set id | id in rows && rows[id].embeddingModel == model
  }

  function PathsWithModel(rows: map<string, ChunkRow>, model: string): set<string> {
    set id | id in rows && rows[id].embeddingModel == model :: rows[id].sourcePath
  }

  /** The file type histogram over the rows whose metadata has a file type. */
  function FileTypeDistribution(rows: map<string, ChunkRow>): (r: map<Value, nat>)
    ensures forall v :: v in r <==> exists id :: id in rows && FileTypeOfRow(rows[id]) == Some(v)
    ensures forall v :: v in r ==> r[v] == |set id | id in rows && FileTypeOfRow(rows[id]) == Some(v)|
  {
    var types := set id | id in rows && FileTypeOfRow(rows[id]).Some? :: FileTypeOfRow(rows[id]).value;
    map v | v in types :: |set id | id in rows && FileTypeOfRow(rows[id]) == Some(v)|
  }

  class VectorDatabase {
    const config: EmbeddingConfig
    /** The `chunk_metadata` table, keyed by `chunk_id`. */
    var rows: map<string, ChunkRow>
    /** The documents held by the vector index, in insertion order. */
    var docs: seq<IndexDoc>

    /** Opens the database over the stores found on disk. */
    constructor (config: EmbeddingConfig, rows: map<string, ChunkRow>, docs: seq<IndexDoc>)
      ensures this.config == config && this.rows == rows && this.docs == docs
    {
      this.config := config;
      this.rows := rows;
      this.docs := docs;
    }

    /** `_store_chunk_metadata`: insert or replace the chunk's row; a failing
        insert is logged and leaves the table as it was. */
    method StoreChunkMetadata(chunk: DocumentChunk, now: real, stored: bool)
      modifies this
      ensures stored ==> rows == old(rows)[chunk.chunkId := RowOf(chunk, now, config.modelName)]
      ensures !stored ==> rows == old(rows)
      ensures docs == old(docs)
    {
      if stored {
        rows := rows[chunk.chunkId := ChunkRow(chunk.sourcePath, chunk.chunkIndex, chunk.startChar,
                                               chunk.endChar, Preview(chunk.text), chunk.metadata, now,
                                               config.modelName)];
      }
    }

    /** `add_chunks`. `insertFailsAt` is the position of the index insert
        that raises, if any; `stored[k]` says whether chunk k's row insert
        goes through; `persisted` whether persisting the index succeeds.
        No chunks: True and nothing changes. An insert that raises: False,
        the earlier documents stay inserted and no row is written.
        Otherwise every document is inserted, the rows are stored, and the
        result is whether persisting succeeded. */
    method AddChunks(chunks: seq<DocumentChunk>, insertFailsAt: Option<nat>, stored: seq<bool>,
                     persisted: bool, now: real) returns (ok: bool)
      requires |stored| == |chunks|
      modifies this
      ensures chunks == [] ==> ok && rows == old(rows) && docs == old(docs)
      ensures chunks != [] && insertFailsAt.Some? && insertFailsAt.value < |chunks| ==>
                !ok && rows == old(rows)
                && docs == old(docs) + seq(insertFailsAt.value, k requires 0 <= k < insertFailsAt.value => ToIndexDoc(chunks[k]))
      ensures chunks != [] && (insertFailsAt.None? || insertFailsAt.value >= |chunks|) ==>
                && ok == persisted
                && docs == old(docs) + seq(|chunks|, k requires 0 <= k < |chunks| => ToIndexDoc(chunks[k]))
                && rows == StoreRows(old(rows), chunks, stored, now, config.modelName)
    {
      if chunks == [] {
        return true;
      }
      ghost var docs0 := docs;
      for i := 0 to |chunks|
        invariant rows == old(rows)
        invariant insertFailsAt.Some? ==> i <= insertFailsAt.value
        invariant docs == docs0 + seq(i, k requires 0 <= k < i => ToIndexDoc(chunks[k]))
      {
        if insertFailsAt == Some(i) {
          return false;
        }
        docs := docs + [ToIndexDoc(chunks[i])];
      }
      for i := 0 to |chunks|
        invariant rows == StoreRows(old(rows), chunks[..i], stored[..i], now, config.modelName)
        invariant docs == docs0 + seq(|chunks|, k requires 0 <= k < |chunks| => ToIndexDoc(chunks[k]))
      {
        assert chunks[..i + 1][..i] == chunks[..i] && stored[..i + 1][..i] == stored[..i];
        StoreChunkMetadata(chunks[i], now, stored[i]);
      }
      assert chunks[..|chunks|] == chunks && stored[..|stored|] == stored;
      ok := persisted;
    }

    /** `_get_chunk_metadata`: the row's file metadata, indexed time and
        model; nothing when there is no row or the lookup raises. */
    function ChunkMetadataFor(chunkId: string, readable: bool): (m: ChunkMetadata)
      reads this
      ensures m.RowMetadata? <==> readable && chunkId in rows
      ensures m.RowMetadata? ==>
        m == RowMetadata(rows[chunkId].fileMetadata, rows[chunkId].indexedTime, rows[chunkId].embeddingModel)
    {
      if readable && chunkId in rows then
        var row := rows[chunkId];
        RowMetadata(row.fileMetadata, row.indexedTime, row.embeddingModel)
      else NoMetadata
    }

    /** The result dictionary built for one node. */
    function HitOf(n: SourceNode, readable: string -> bool): (h: SimilarityHit)
      reads this
      ensures h.chunkId == n.doc.id && h.text == n.doc.text && h.score == ScoreOf(n)
      ensures h.sourcePath == Get(n.doc.metadata, "source_path")
      ensures h.metadata == ChunkMetadataFor(n.doc.id, readable(n.doc.id))
    {
      var md := n.doc.metadata;
      SimilarityHit(n.doc.id, n.doc.text, ScoreOf(n), Get(md, "source_path"), Get(md, "chunk_index"),
                    Get(md, "start_char"), Get(md, "end_char"), ChunkMetadataFor(n.doc.id, readable(n.doc.id)))
    }

    /** The hits kept for `nodes` at threshold `th`, in node order. */
    function Kept(nodes: seq<SourceNode>, th: real, readable: string -> bool): seq<SimilarityHit>
      reads this
    {
      if nodes == [] then []
      else
        var n := |nodes| - 1;
        Kept(nodes[..n], th, readable) + (if ScoreOf(nodes[n]) >= th then [HitOf(nodes[n], readable)] else [])
    }

    /** Exactly the nodes scoring at least the threshold are kept, each once
        and in the engine's order: the kept hits are the hits of the
        subsequence of nodes with score >= th. */
    lemma {:induction false} KeptExactly(nodes: seq<SourceNode>, th: real, readable: string -> bool)
      ensures var r := Kept(nodes, th, readable);
        && |r| == |Passing(nodes, th)|
        && (forall k :: 0 <= k < |r| ==> r[k] == HitOf(Passing(nodes, th)[k], readable) && r[k].score >= th)
    {
      if nodes != [] {
        var n := |nodes| - 1;
        KeptExactly(nodes[..n], th, readable);
      }
    }

    /** `similarity_search` once the engine has answered: `retrieve(k)` is
        what the engine returns when asked for the top k (None when the
        query raises); `readable(id)` whether the metadata lookup for id
        succeeds. */
    method SimilaritySearch(topK: Option<int>, threshold: Option<real>,
                            retrieve: int -> Option<seq<SourceNode>>, readable: string -> bool)
      returns (results: seq<SimilarityHit>)
      ensures retrieve(EffectiveTopK(topK, config)).None? ==> results == []
      ensures retrieve(EffectiveTopK(topK, config)).Some? ==>
                results == Kept(retrieve(EffectiveTopK(topK, config)).value, EffectiveThreshold(threshold, config), readable)
    {
      var k := if topK.Some? && topK.value != 0 then topK.value else config.similarityTopK;
      var th := if threshold.Some? && threshold.value != 0.0 then threshold.value else config.similarityThreshold;
      var answer := retrieve(k);
      if answer.None? {
        return [];
      }
      var nodes := answer.value;
      results := [];
      for i := 0 to |nodes|
        invariant results == Kept(nodes[..i], th, readable)
      {
        assert nodes[..i + 1][..i] == nodes[..i];
        var hit := HitOf(nodes[i], readable);
        if hit.score >= th {
          results := results + [hit];
        }
      }
      assert nodes[..|nodes|] == nodes;
    }

    /** `delete_document_chunks(path)`. `selected` says whether the id
        query succeeds, `deleted(id)` whether removing id from the vector
        index succeeds (a failure is logged and skipped), `rowsDeleted`
        whether the row deletion succeeds and `persisted` whether
        persisting the index does. */
    method DeleteDocumentChunks(path: string, selected: bool, deleted: string -> bool,
                                rowsDeleted: bool, persisted: bool) returns (ok: bool)
      modifies this
      ensures !selected ==> !ok && rows == old(rows) && docs == old(docs)
      ensures selected && IdsFor(old(rows), path) == {} ==> ok && rows == old(rows) && docs == old(docs)
      ensures selected && IdsFor(old(rows), path) != {} ==>
                && docs == RemoveDocs(old(docs), IdsFor(old(rows), path), deleted)
                && rows == (if rowsDeleted then RowsWithout(old(rows), path) else old(rows))
                && ok == (rowsDeleted && persisted)
    {
      if !selected {
        return false;
      }
      var ids := set id | id in rows && rows[id].sourcePath == path;
      if ids == {} {
        return true;
      }
      docs := RemoveDocs(docs, ids, deleted);
      if !rowsDeleted {
        return false;
      }
      rows := map id | id in rows && rows[id].sourcePath != path :: rows[id];
      ok := persisted;
    }

    /** `get_database_stats`. The counts come from the first group of the
        per-model query only; `firstModel` is the model of the group the
        engine lists first. None (an empty dictionary) when a query raises. */
    function DatabaseStats(firstModel: string, queried: bool): (r: Option<DbStats>)
      requires rows != map[] ==> firstModel in ModelsOf(rows)
      reads this
      ensures !queried <==> r.None?
      ensures r.Some? && rows == map[] ==>
                r.value.totalChunks == 0 && r.value.uniqueDocuments == 0 && r.value.embeddingModel.None?
      ensures r.Some? && rows != map[] ==>
                && r.value.totalChunks == |IdsWithModel(rows, firstModel)|
                && r.value.uniqueDocuments == |PathsWithModel(rows, firstModel)|
                && r.value.embeddingModel == Some(firstModel)
      ensures r.Some? ==> r.value.fileTypeDistribution == FileTypeDistribution(rows)
    {
      if !queried then None
      else if rows == map[] then Some(DbStats(0, 0, None, FileTypeDistribution(rows)))
      else Some(DbStats(|IdsWithModel(rows, firstModel)|, |PathsWithModel(rows, firstModel)|,
                        Some(firstModel), FileTypeDistribution(rows)))
    }
  }

  /** The nodes scoring at least `th`, in order. */
  function Passing(nodes: seq<SourceNode>, th: real): (r: seq<SourceNode>)
    ensures forall n :: n in r <==> n in nodes && ScoreOf(n) >= th
  {
    if nodes == [] then []
    else
      var n := |nodes| - 1;
      Passing(nodes[..n], th) + (if ScoreOf(nodes[n]) >= th then [nodes[n]] else [])
  }

  /** The outcome `delete_document_chunks` reports and the table and index
      it leaves, as the method's cases state them. */
  function DeleteEffect(rows: map<string, ChunkRow>, docs: seq<IndexDoc>, path: string, selected: bool,
                        deleted: string -> bool, rowsDeleted: bool, persisted: bool)
    : (bool, map<string, ChunkRow>, seq<IndexDoc>)
  {
    if !selected then (false, rows, docs)
    else if IdsFor(rows, path) == {} then (true, rows, docs)
    else (rowsDeleted && persisted,
          if rowsDeleted then RowsWithout(rows, path) else rows,
          RemoveDocs(docs, IdsFor(rows, path), deleted))
  }

  /** A delete that selects and removes the rows leaves no row for the path
      and every other row as it was; it never adds a document. */
  lemma DeleteEffectClearsPath(rows: map<string, ChunkRow>, docs: seq<IndexDoc>, path: string, selected: bool,
                               deleted: string -> bool, rowsDeleted: bool, persisted: bool)
    ensures var (ok, r, ds) := DeleteEffect(rows, docs, path, selected, deleted, rowsDeleted, persisted);
            && (selected && rowsDeleted ==> forall id :: id in r ==> r[id].sourcePath != path)
            && (forall id :: id in rows && rows[id].sourcePath != path ==> id in r && r[id] == rows[id])
            && (forall id :: id in r ==> id in rows)
            && (forall d :: d in ds ==> d in docs)
            && (ok ==> selected)
  {
    assert forall id :: id in rows && rows[id].sourcePath == path ==> id in IdsFor(rows, path);
  }

  /** The outcome `add_chunks` reports and the table and index it leaves, as
      the method's cases state them. */
  function AddEffect(rows: map<string, ChunkRow>, docs: seq<IndexDoc>, chunks: seq<DocumentChunk>,
                     insertFailsAt: Option<nat>, stored: seq<bool>, persisted: bool, now: real, model: string)
    : (bool, map<string, ChunkRow>, seq<IndexDoc>)
    requires |stored| == |chunks|
  {
    if chunks == [] then (true, rows, docs)
    else if insertFailsAt.Some? && insertFailsAt.value < |chunks| then
      (false, rows, docs + seq(insertFailsAt.value, k requires 0 <= k < insertFailsAt.value => ToIndexDoc(chunks[k])))
    else
      (persisted, StoreRows(rows, chunks, stored, now, model),
       docs + seq(|chunks|, k requires 0 <= k < |chunks| => ToIndexDoc(chunks[k])))
  }

  /** With a single embedding model the first group is the whole table:
      `total_chunks` counts every row. */
  lemma SingleModelCountsAll(db: VectorDatabase, model: string)
    requires db.rows != map[]
    requires forall id :: id in db.rows ==> db.rows[id].embeddingModel == model
    ensures model in ModelsOf(db.rows)
    ensures db.DatabaseStats(model, true).value.totalChunks == |db.rows|
  {
    var id :| id in db.rows;
    assert db.rows[id].embeddingModel in ModelsOf(db.rows);
    assert IdsWithModel(db.rows, model) == db.rows.Keys;
  }
}
