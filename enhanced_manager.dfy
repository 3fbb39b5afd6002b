/** The indexing manager with vector indexing: the keyword protocol of the
    plain manager, plus re-chunking each indexed file into the vector
    database. The plain manager is held as `base` (its state, its logger
    and its keyword index are shared, as the subclass shares them). */
module EnhancedManager {
  import opened Wrappers
  import opened Values
  import opened Text
  import opened Models
  import opened Config
  import opened FileUtils
  import opened Logger
  import Indexer
  import Extractor
  import Chunking
  import EmbeddingDb
  import Manager

  /** What the vector database answers to `delete_document_chunks`: whether
      the selection query runs, which index deletions go through, whether
      the row deletion and the persisting succeed. */
  datatype VectorDelete = VectorDelete(selected: bool, deleted: string -> bool, rowsDeleted: bool, persisted: bool)

  /** What the vector database answers to `add_chunks`: the position of an
      index insert that raises, which row inserts go through, whether
      persisting succeeds, and the clock reading for the rows. */
  datatype VectorAdd = VectorAdd(insertFailsAt: Option<nat>, rowStored: nat -> bool, persisted: bool, now: real)

  function StoredFlags(a: VectorAdd, n: nat): (r: seq<bool>)
    ensures |r| == n
  {
    seq(n, k requires 0 <= k < n => a.rowStored(k))
  }

  /** The bookkeeping of one enhanced `process_file` call. For a delete,
      `ok` is whether both stores reported success; otherwise it is the
      keyword index's result. */
  function EnhancedTrack(step: Manager.Step, path: string, stats: Manager.Stats, indexed: set<string>, ok: bool)
    : (r: (Manager.Stats, set<string>))
    // only this path's membership can change
    ensures r.1 - {path} == indexed - {path}
    // a delete touches no counter; the path leaves exactly when both stores deleted it
    ensures step == Manager.DeleteStep ==> r.0 == stats && (path in r.1 <==> path in indexed && !ok)
    // every other call lands in exactly one counter
    ensures step != Manager.DeleteStep ==>
              && r.0.filesProcessed >= stats.filesProcessed && r.0.filesSkipped >= stats.filesSkipped
              && r.0.filesFailed >= stats.filesFailed
              && r.0.filesProcessed + r.0.filesSkipped + r.0.filesFailed
                 == stats.filesProcessed + stats.filesSkipped + stats.filesFailed + 1
    ensures r.0.startTime == stats.startTime
    // a skipped file is counted skipped; a file without metadata, or one whose
    // processing raised, is counted failed; neither records the path
    ensures step == Manager.SkipStep ==> r.0.filesSkipped == stats.filesSkipped + 1 && r.1 == indexed
    ensures (step == Manager.NoMetadataStep || step == Manager.RaiseStep) ==>
              r.0.filesFailed == stats.filesFailed + 1 && r.1 == indexed
    // a keyword success records the path and counts it processed; a failure counts it failed
    ensures (step == Manager.AddStep || step == Manager.UpdateStep) ==>
              && (ok ==> r.0.filesProcessed == stats.filesProcessed + 1 && path in r.1)
              && (!ok ==> r.0.filesFailed == stats.filesFailed + 1 && r.1 == indexed)
  {
    match step
    case DeleteStep => (stats, if ok then indexed - {path} else indexed)
    case SkipStep => (stats.(filesSkipped := stats.filesSkipped + 1), indexed)
    case NoMetadataStep => (stats.(filesFailed := stats.filesFailed + 1), indexed)
    case RaiseStep => (stats.(filesFailed := stats.filesFailed + 1), indexed)
    case AddStep =>
      if ok then (stats.(filesProcessed := stats.filesProcessed + 1), indexed + {path})
      else (stats.(filesFailed := stats.filesFailed + 1), indexed)
    case UpdateStep =>
      if ok then (stats.(filesProcessed := stats.filesProcessed + 1), indexed + {path})
      else (stats.(filesFailed := stats.filesFailed + 1), indexed)
  }

  /** The two managers keep the same books, except that the enhanced one
      counts a failed keyword write as a failure where the plain one counts
      nothing. */
  lemma TracksAgree(step: Manager.Step, path: string, stats: Manager.Stats, indexed: set<string>, ok: bool)
    requires step == Manager.UpdateStep ==> path in indexed
    ensures (step != Manager.AddStep && step != Manager.UpdateStep) || ok ==>
              EnhancedTrack(step, path, stats, indexed, ok) == Manager.Track(step, path, stats, indexed, ok)
    ensures (step == Manager.AddStep || step == Manager.UpdateStep) && !ok ==>
              EnhancedTrack(step, path, stats, indexed, ok)
              == (Manager.Track(step, path, stats, indexed, ok).0.(filesFailed := stats.filesFailed + 1), indexed)
  {
    if step == Manager.UpdateStep && ok {
      assert indexed + {path} == indexed;
    }
  }

  /** The file metadata attached to each chunk. Times are kept as clock
      readings. */
  function ChunkFileMetadata(m: FileMetadata): (d: Dict)
    ensures d.Keys == {"filename", "extension", "file_type", "mime_type", "size", "modified_time", "created_time"}
  {
    map["filename" := VStr(m.filename), "extension" := VStr(m.extension), "file_type" := VStr(m.fileType),
        "mime_type" := VStr(m.mimeType), "size" := VInt(m.size), "modified_time" := VReal(m.modifiedTime),
        "created_time" := VReal(m.createdTime)]
  }

  /** The vector table and index after re-indexing `path` with `chunks`:
      the old chunks are deleted first; the new ones are added unless the
      chunker raised or produced none. */
  function Reindexed(rows: map<string, EmbeddingDb.ChunkRow>, docs: seq<EmbeddingDb.IndexDoc>, path: string,
                     del: VectorDelete, chunkerRaises: bool, chunks: seq<Chunking.DocumentChunk>, add: VectorAdd,
                     model: string): (map<string, EmbeddingDb.ChunkRow>, seq<EmbeddingDb.IndexDoc>)
  {
    var (_, rows1, docs1) := EmbeddingDb.DeleteEffect(rows, docs, path, del.selected, del.deleted, del.rowsDeleted,
                                                      del.persisted);
    if chunkerRaises || chunks == [] then (rows1, docs1)
    else
      var (_, rows2, docs2) := EmbeddingDb.AddEffect(rows1, docs1, chunks, add.insertFailsAt,
                                                     StoredFlags(add, |chunks|), add.persisted, add.now, model);
      (rows2, docs2)
  }

  /** Delete-then-add replaces the path's rows: when the old rows are
      deleted and every new document is inserted, the rows for the path
      are exactly the rows of the new chunks that were stored, each the row
      of its chunk, and a row of another path that no new chunk id names
      is kept. */
  lemma ReindexReplacesRows(rows: map<string, EmbeddingDb.ChunkRow>, docs: seq<EmbeddingDb.IndexDoc>, path: string,
                            del: VectorDelete, chunks: seq<Chunking.DocumentChunk>, add: VectorAdd, model: string)
    requires del.selected && del.rowsDeleted
    requires add.insertFailsAt.None? || add.insertFailsAt.value >= |chunks|
    requires forall k :: 0 <= k < |chunks| ==> chunks[k].sourcePath == path
    requires forall a, b :: 0 <= a < b < |chunks| ==> chunks[a].chunkId != chunks[b].chunkId
    ensures var r := Reindexed(rows, docs, path, del, false, chunks, add, model).0;
            && (forall id :: id in r && r[id].sourcePath == path <==>
                  exists k :: 0 <= k < |chunks| && add.rowStored(k) && chunks[k].chunkId == id)
            && (forall k :: 0 <= k < |chunks| && add.rowStored(k) ==>
                  chunks[k].chunkId in r && r[chunks[k].chunkId] == EmbeddingDb.RowOf(chunks[k], add.now, model))
            && (forall id :: (id in rows && rows[id].sourcePath != path
                                && forall k :: 0 <= k < |chunks| ==> chunks[k].chunkId != id)
                  ==> id in r && r[id] == rows[id])
  {
    var (_, rows1, docs1) := EmbeddingDb.DeleteEffect(rows, docs, path, del.selected, del.deleted, del.rowsDeleted,
                                                      del.persisted);
    EmbeddingDb.DeleteEffectClearsPath(rows, docs, path, del.selected, del.deleted, del.rowsDeleted, del.persisted);
    var r := Reindexed(rows, docs, path, del, false, chunks, add, model).0;
    if chunks != [] {
      var stored := StoredFlags(add, |chunks|);
      assert r == EmbeddingDb.StoreRows(rows1, chunks, stored, add.now, model);
      EmbeddingDb.StoreRowsMeaning(rows1, chunks, stored, add.now, model);
      forall k | 0 <= k < |chunks| && add.rowStored(k)
        ensures chunks[k].chunkId in r && r[chunks[k].chunkId] == EmbeddingDb.RowOf(chunks[k], add.now, model)
      {
        EmbeddingDb.DistinctIdsAllStored(rows1, chunks, stored, add.now, model, k);
      }
    }
  }

  /** The logger's state changed by recording the failures in `entries`
      and nothing else. */
  twostate predicate LoggedFailures(l: IndexingLogger, entries: seq<ErrorEntry>)
    reads l
  {
    && l.errors == old(l.errors) + entries
    && l.filesFailed == old(l.filesFailed) + |entries|
    && l.filesProcessed == old(l.filesProcessed)
    && l.totalSizeProcessed == old(l.totalSizeProcessed)
    && l.startTime == old(l.startTime)
  }

  class EnhancedIndexingManager {
    const base: Manager.SmartFileIndexer
    const aiConfig: AIConfig
    const chunker: Chunking.DocumentChunker?
    const vectorDb: EmbeddingDb.VectorDatabase?

    ghost predicate Valid()
      reads base, base.logger
    {
      base.Valid()
    }

    /** `EnhancedIndexingManager(indexing_config, ai_config)`: the plain
        manager, then, when embeddings are enabled, the chunker from the
        embedding settings and the vector database over the stores found
        on disk; `vectorOpens` is false when creating either raises, and
        then neither exists. */
    constructor (indexingConfig: Option<IndexingConfig>, aiConfig: Option<AIConfig>,
                 existing: seq<Indexer.StoredDoc>, splitText: string -> seq<string>, vectorOpens: bool,
                 rows: map<string, EmbeddingDb.ChunkRow>, docs: seq<EmbeddingDb.IndexDoc>)
      ensures Valid() && fresh(base) && fresh(base.logger) && fresh(base.index) && fresh(base.queue)
      ensures base.config == indexingConfig.GetOr(DefaultIndexingConfig)
      ensures base.index.docs == existing && base.queue.jobs == []
      ensures !base.isRunning && base.indexedFiles == {} && base.stats == Manager.FreshStats
      ensures this.aiConfig == aiConfig.GetOr(DefaultAIConfig)
      ensures (vectorDb != null) == (this.aiConfig.enableEmbeddings && vectorOpens) == (chunker != null)
      ensures vectorDb != null ==>
                fresh(vectorDb) && vectorDb.config == this.aiConfig.embedding
                && vectorDb.rows == rows && vectorDb.docs == docs
      ensures chunker != null ==>
                fresh(chunker) && chunker.splitText == splitText
                && chunker.chunkSize == this.aiConfig.embedding.chunkSize
                && chunker.chunkOverlap == this.aiConfig.embedding.chunkOverlap
    {
      base := new Manager.SmartFileIndexer(indexingConfig, existing);
      var ai := aiConfig.GetOr(DefaultAIConfig);
      this.aiConfig := ai;
      if ai.enableEmbeddings && vectorOpens {
        chunker := new Chunking.DocumentChunker(splitText, ai.embedding.chunkSize, ai.embedding.chunkOverlap);
        vectorDb := new EmbeddingDb.VectorDatabase(ai.embedding, rows, docs);
      } else {
        chunker := null;
        vectorDb := null;
      }
    }

    /** Whether the vector database's deletion reports success; true when
        there is no vector database. */
    function VectorDeleteOk(path: string, del: VectorDelete): bool
      reads vectorDb
    {
      vectorDb == null
      || EmbeddingDb.DeleteEffect(vectorDb.rows, vectorDb.docs, path, del.selected, del.deleted,
                                  del.rowsDeleted, del.persisted).0
    }

    /** Enhanced `process_file(path, operation)`; the inputs are those of the
        plain manager's, plus the vector database's answers (`del` for the
        deletion, `chunkerRaises` for a chunker that raises, `add` for the
        insertion). */
    method ProcessFile(path: string, operation: string, facts: FileFacts, f: Extractor.FileContent,
                       libs: Extractor.Libraries, raised: Option<string>, writerError: Option<string>, now: real,
                       del: VectorDelete, chunkerRaises: bool, add: VectorAdd)
      requires Valid()
      modifies base, base.index, base.logger, vectorDb
      ensures Valid() && base.isRunning == old(base.isRunning)
      ensures var step := Manager.StepOf(operation, path, facts, base.config, old(base.indexedFiles), raised);
              (base.stats, base.indexedFiles)
              == EnhancedTrack(step, path, old(base.stats), old(base.indexedFiles),
                               Manager.KeywordOk(step, path, old(base.index.docs), writerError)
                               && (step == Manager.DeleteStep ==> old(VectorDeleteOk(path, del))))
      // a delete goes to both stores
      ensures operation == DeleteOp ==>
                && base.index.docs == (if writerError.None? then Indexer.WithoutPath(old(base.index.docs), path)
                                       else old(base.index.docs))
                && (writerError.None? ==> unchanged(base.logger))
                && (writerError.Some? ==> LoggedFailure(base.logger, path, writerError.value))
                && (vectorDb != null ==>
                      (vectorDb.rows, vectorDb.docs)
                      == (var (_, rows1, docs1) := EmbeddingDb.DeleteEffect(old(vectorDb.rows), old(vectorDb.docs), path,
                                                                          del.selected, del.deleted, del.rowsDeleted,
                                                                          del.persisted);
                          (rows1, docs1)))
      // skipped files, files without metadata and escaping exceptions touch no store and log nothing
      ensures Manager.StepOf(operation, path, facts, base.config, old(base.indexedFiles), raised)
                in {Manager.SkipStep, Manager.NoMetadataStep, Manager.RaiseStep} ==>
                unchanged(base.index) && unchanged(base.logger) && (vectorDb != null ==> unchanged(vectorDb))
      // an add or update writes the keyword index, and re-chunks non-blank text into the vector database
      ensures Manager.StepOf(operation, path, facts, base.config, old(base.indexedFiles), raised)
                in {Manager.AddStep, Manager.UpdateStep} ==>
                var (text, mime) := Manager.Extracted(base.config, path, f, libs);
                var m := Manager.Prepared(facts, mime).value;
                && base.index.docs
                   == Manager.DocsAfterWrite(old(base.index.docs),
                                             Manager.StepOf(operation, path, facts, base.config, old(base.indexedFiles),
                                                            raised) == Manager.AddStep,
                                             m, text, now, writerError)
                && LoggedFailures(base.logger, Manager.ExtractionErrors(base.config, path, f, libs)
                                               + Manager.WriterErrors(m.path, writerError))
                && (vectorDb != null && chunker != null && !IsBlank(text) ==>
                      (vectorDb.rows, vectorDb.docs)
                      == Reindexed(old(vectorDb.rows), old(vectorDb.docs), path, del, chunkerRaises,
                                   chunker.Chunks(text, path, ChunkFileMetadata(m)), add, vectorDb.config.modelName))
                && (vectorDb != null && (chunker == null || IsBlank(text)) ==> unchanged(vectorDb))
    {
      if operation == DeleteOp {
        DeleteEverywhere(path, writerError, del);
        return;
      }
      ProcessFileEnhanced(path, operation, facts, f, libs, raised, writerError, now, del, chunkerRaises, add);
    }

    /** The delete branch: both stores delete; the path leaves the indexed
        set only when both report success; no counter moves. */
    method DeleteEverywhere(path: string, writerError: Option<string>, del: VectorDelete)
      requires Valid()
      modifies base, base.index, base.logger, vectorDb
      ensures Valid() && base.isRunning == old(base.isRunning) && base.stats == old(base.stats)
      ensures base.indexedFiles
              == if writerError.None? && Indexer.CountPath(old(base.index.docs), path) > 0
                    && old(VectorDeleteOk(path, del))
                 then old(base.indexedFiles) - {path} else old(base.indexedFiles)
      ensures base.index.docs == (if writerError.None? then Indexer.WithoutPath(old(base.index.docs), path)
                                  else old(base.index.docs))
      ensures writerError.None? ==> unchanged(base.logger)
      ensures writerError.Some? ==> LoggedFailure(base.logger, path, writerError.value)
      ensures vectorDb != null ==>
                var (_, rows1, docs1) := EmbeddingDb.DeleteEffect(old(vectorDb.rows), old(vectorDb.docs), path,
                                                                  del.selected, del.deleted, del.rowsDeleted,
                                                                  del.persisted);
                vectorDb.rows == rows1 && vectorDb.docs == docs1
    {
      var keywordOk := base.index.DeleteDocument(path, writerError);
      var vectorOk := true;
      if vectorDb != null {
        vectorOk := vectorDb.DeleteDocumentChunks(path, del.selected, del.deleted, del.rowsDeleted, del.persisted);
      }
      if keywordOk && vectorOk {
        base.indexedFiles := base.indexedFiles - {path};
      }
    }

    /** `_process_file_enhanced`, with an exception escaping the extraction
        executor counted as the caller's handler counts it. */
    method ProcessFileEnhanced(path: string, operation: string, facts: FileFacts, f: Extractor.FileContent,
                               libs: Extractor.Libraries, raised: Option<string>, writerError: Option<string>,
                               now: real, del: VectorDelete, chunkerRaises: bool, add: VectorAdd)
      requires Valid() && operation != DeleteOp
      modifies base, base.index, base.logger, vectorDb
      ensures Valid() && base.isRunning == old(base.isRunning)
      ensures var step := Manager.StepOf(operation, path, facts, base.config, old(base.indexedFiles), raised);
              (base.stats, base.indexedFiles)
              == EnhancedTrack(step, path, old(base.stats), old(base.indexedFiles),
                               Manager.KeywordOk(step, path, old(base.index.docs), writerError))
      ensures Manager.StepOf(operation, path, facts, base.config, old(base.indexedFiles), raised)
                in {Manager.SkipStep, Manager.NoMetadataStep, Manager.RaiseStep} ==>
                unchanged(base.index) && unchanged(base.logger) && (vectorDb != null ==> unchanged(vectorDb))
      ensures Manager.StepOf(operation, path, facts, base.config, old(base.indexedFiles), raised)
                in {Manager.AddStep, Manager.UpdateStep} ==>
                var (text, mime) := Manager.Extracted(base.config, path, f, libs);
                var m := Manager.Prepared(facts, mime).value;
                && base.index.docs
                   == Manager.DocsAfterWrite(old(base.index.docs),
                                             Manager.StepOf(operation, path, facts, base.config, old(base.indexedFiles),
                                                            raised) == Manager.AddStep,
                                             m, text, now, writerError)
                && LoggedFailures(base.logger, Manager.ExtractionErrors(base.config, path, f, libs)
                                               + Manager.WriterErrors(m.path, writerError))
                && (vectorDb != null && chunker != null && !IsBlank(text) ==>
                      (vectorDb.rows, vectorDb.docs)
                      == Reindexed(old(vectorDb.rows), old(vectorDb.docs), path, del, chunkerRaises,
                                   chunker.Chunks(text, path, ChunkFileMetadata(m)), add, vectorDb.config.modelName))
                && (vectorDb != null && (chunker == null || IsBlank(text)) ==> unchanged(vectorDb))
    {
      ghost var step := Manager.StepOf(operation, path, facts, base.config, base.indexedFiles, raised);
      if !ShouldIndexFile(facts, base.config) {
        assert step == Manager.SkipStep;
        base.stats := base.stats.(filesSkipped := base.stats.filesSkipped + 1);
        return;
      }
      var metadata := GetFileMetadata(facts);
      if metadata.None? {
        assert step == Manager.NoMetadataStep;
        base.stats := base.stats.(filesFailed := base.stats.filesFailed + 1);
        return;
      }
      if raised.Some? {
        assert step == Manager.RaiseStep;
        base.stats := base.stats.(filesFailed := base.stats.filesFailed + 1);
        return;
      }
      assert step == (if operation == CreateOp || path !in base.indexedFiles then Manager.AddStep else Manager.UpdateStep);
      IndexFile(path, operation, metadata.value, f, libs, writerError, now, del, chunkerRaises, add);
    }

    /** Extraction and the two writes for a file with metadata `m0`. */
    method IndexFile(path: string, operation: string, m0: FileMetadata, f: Extractor.FileContent,
                     libs: Extractor.Libraries, writerError: Option<string>, now: real, del: VectorDelete,
                     chunkerRaises: bool, add: VectorAdd)
      requires Valid()
      modifies base, base.index, base.logger, vectorDb
      ensures Valid() && base.isRunning == old(base.isRunning)
      ensures var (text, mime) := Manager.Extracted(base.config, path, f, libs);
              var m := m0.(mimeType := mime);
              var isAdd := operation == CreateOp || path !in old(base.indexedFiles);
              && (base.stats, base.indexedFiles)
                 == EnhancedTrack(if isAdd then Manager.AddStep else Manager.UpdateStep, path, old(base.stats),
                                  old(base.indexedFiles), writerError.None?)
              && base.index.docs == Manager.DocsAfterWrite(old(base.index.docs), isAdd, m, text, now, writerError)
              && LoggedFailures(base.logger, Manager.ExtractionErrors(base.config, path, f, libs)
                                             + Manager.WriterErrors(m.path, writerError))
              && (vectorDb != null && chunker != null && !IsBlank(text) ==>
                    (vectorDb.rows, vectorDb.docs)
                    == Reindexed(old(vectorDb.rows), old(vectorDb.docs), path, del, chunkerRaises,
                                 chunker.Chunks(text, path, ChunkFileMetadata(m)), add, vectorDb.config.modelName))
              && (vectorDb != null && (chunker == null || IsBlank(text)) ==> unchanged(vectorDb))
    {
      var text, mime := base.Extract(path, f, libs);
      IndexBoth(path, operation, m0.(mimeType := mime), text, writerError, now, del, chunkerRaises, add);
    }

    /** The two writes of an indexable file and the counters they move. */
    method IndexBoth(path: string, operation: string, m: FileMetadata, text: string, writerError: Option<string>,
                     now: real, del: VectorDelete, chunkerRaises: bool, add: VectorAdd)
      requires Valid()
      modifies base, base.index, base.logger, vectorDb
      ensures Valid() && base.isRunning == old(base.isRunning)
      ensures var isAdd := operation == CreateOp || path !in old(base.indexedFiles);
              && (base.stats, base.indexedFiles)
                 == EnhancedTrack(if isAdd then Manager.AddStep else Manager.UpdateStep, path, old(base.stats),
                                  old(base.indexedFiles), writerError.None?)
              && base.index.docs == Manager.DocsAfterWrite(old(base.index.docs), isAdd, m, text, now, writerError)
      ensures LoggedFailures(base.logger, Manager.WriterErrors(m.path, writerError))
      ensures vectorDb != null && chunker != null && !IsBlank(text) ==>
                (vectorDb.rows, vectorDb.docs)
                == Reindexed(old(vectorDb.rows), old(vectorDb.docs), path, del, chunkerRaises,
                             chunker.Chunks(text, path, ChunkFileMetadata(m)), add, vectorDb.config.modelName)
      ensures vectorDb != null && (chunker == null || IsBlank(text)) ==> unchanged(vectorDb)
    {
      var keywordOk := WriteKeyword(operation == CreateOp || path !in base.indexedFiles, m, text, writerError, now);
      if vectorDb != null && chunker != null && !IsBlank(text) {
        IndexVectors(path, m, text, del, chunkerRaises, add);
      }
      if keywordOk {
        base.indexedFiles := base.indexedFiles + {path};
        base.stats := base.stats.(filesProcessed := base.stats.filesProcessed + 1);
      } else {
        base.stats := base.stats.(filesFailed := base.stats.filesFailed + 1);
      }
    }

    /** The keyword write: an add or an update of `m` with `text`. */
    method WriteKeyword(add: bool, m: FileMetadata, text: string, writerError: Option<string>, now: real)
      returns (ok: bool)
      requires Valid()
      modifies base.index, base.logger
      ensures Valid()
      ensures ok <==> writerError.None?
      ensures base.index.docs == Manager.DocsAfterWrite(old(base.index.docs), add, m, text, now, writerError)
      ensures LoggedFailures(base.logger, Manager.WriterErrors(m.path, writerError))
    {
      if add {
        ok := base.index.AddDocument(m, text, now, writerError);
      } else {
        ok := base.index.UpdateDocument(m, text, now, writerError);
      }
    }

    /** The vector part: delete the path's chunks, chunk the text, and add
        the chunks when there are any. The outcome is only logged. */
    method IndexVectors(path: string, m: FileMetadata, text: string, del: VectorDelete, chunkerRaises: bool,
                        add: VectorAdd)
      requires vectorDb != null && chunker != null
      modifies vectorDb
      ensures (vectorDb.rows, vectorDb.docs)
              == Reindexed(old(vectorDb.rows), old(vectorDb.docs), path, del, chunkerRaises,
                           chunker.Chunks(text, path, ChunkFileMetadata(m)), add, vectorDb.config.modelName)
    {
      var _ := vectorDb.DeleteDocumentChunks(path, del.selected, del.deleted, del.rowsDeleted, del.persisted);
      if chunkerRaises {
        return;
      }
      var chunks := chunker.ChunkDocument(text, path, ChunkFileMetadata(m));
      if chunks != [] {
        var _ := vectorDb.AddChunks(chunks, add.insertFailsAt, StoredFlags(add, |chunks|), add.persisted, add.now);
      }
    }
  }
}
