/** The indexing manager: the per-file protocol over the keyword index, the
    set of indexed paths and the run statistics; the batching of a bulk
    run into the job queue; and the merged statistics report. The queue
    consumer, the executors, the file system watcher and directory
    discovery are concurrency or I/O and are not part of this model: each
    call is one sequential step, and what the file system and the
    backends answer is passed in. */
module Manager {
  import opened Wrappers
  import opened Values
  import opened Models
  import opened Config
  import opened FileUtils
  import opened Logger
  import Indexer
  import JobQueue
  import Extractor
  import StandaloneExtraction

  /** The `stats` record of the manager. */
  datatype Stats = Stats(filesProcessed: nat, filesSkipped: nat, filesFailed: nat, startTime: Option<real>)

  const FreshStats: Stats := Stats(0, 0, 0, None)

  /** The branch of `process_file` a call takes. `RaiseStep` is an
      exception escaping the extraction executor. */
  datatype Step = DeleteStep | SkipStep | NoMetadataStep | RaiseStep | AddStep | UpdateStep

  /** The branch taken for `path` and `operation`, given the file system's
      answers `facts`, the set of indexed paths, and the error the
      executor raises, if any. */
  function StepOf(operation: string, path: string, facts: FileFacts, config: IndexingConfig,
                  indexed: set<string>, raised: Option<string>): Step
  {
    if operation == DeleteOp then DeleteStep
    else if !ShouldIndexFile(facts, config) then SkipStep
    else if GetFileMetadata(facts).None? then NoMetadataStep
    else if raised.Some? then RaiseStep
    else if operation == CreateOp || path !in indexed then AddStep
    else UpdateStep
  }

  /** Operation "create", or a path not yet indexed, is added; any other
      non-delete operation on an indexed path is an update. */
  lemma AddOrUpdate(operation: string, path: string, facts: FileFacts, config: IndexingConfig,
                    indexed: set<string>, raised: Option<string>)
    requires operation != DeleteOp && ShouldIndexFile(facts, config)
    requires GetFileMetadata(facts).Some? && raised.None?
    ensures StepOf(operation, path, facts, config, indexed, raised) == AddStep
            <==> operation == CreateOp || path !in indexed
    ensures StepOf(operation, path, facts, config, indexed, raised) == UpdateStep
            <==> operation != CreateOp && path in indexed
  {
  }

  /** The bookkeeping of one `process_file` call. `ok` is what the keyword
      index reported: a document deleted, or the add or update written. */
  function Track(step: Step, path: string, stats: Stats, indexed: set<string>, ok: bool)
    : (r: (Stats, set<string>))
    // only this path's membership can change
    ensures r.1 - {path} == indexed - {path}
    // a delete touches no counter; the path leaves exactly when a document was deleted
    ensures step == DeleteStep ==> r.0 == stats && (path in r.1 <==> path in indexed && !ok)
    // any other branch moves at most one counter, by one, and a failed write moves none
    ensures step != DeleteStep ==>
              && r.0.filesProcessed >= stats.filesProcessed && r.0.filesSkipped >= stats.filesSkipped
              && r.0.filesFailed >= stats.filesFailed
              && r.0.filesProcessed + r.0.filesSkipped + r.0.filesFailed
                 == stats.filesProcessed + stats.filesSkipped + stats.filesFailed
                    + (if (step == AddStep || step == UpdateStep) && !ok then 0 else 1)
    ensures r.0.startTime == stats.startTime
    // a skipped file is counted skipped; a file without metadata, or one whose
    // processing raised, is counted failed; neither records the path
    ensures step == SkipStep ==> r.0.filesSkipped == stats.filesSkipped + 1 && r.1 == indexed
    ensures (step == NoMetadataStep || step == RaiseStep) ==>
              r.0.filesFailed == stats.filesFailed + 1 && r.1 == indexed
    // a successful add or update is counted as processed; only an add records the path
    ensures (step == AddStep || step == UpdateStep) ==>
              && r.0.filesProcessed == stats.filesProcessed + (if ok then 1 else 0)
              && (path in r.1 <==> path in indexed || (step == AddStep && ok))
  {
    match step
    case DeleteStep => (stats, if ok then indexed - {path} else indexed)
    case SkipStep => (stats.(filesSkipped := stats.filesSkipped + 1), indexed)
    case NoMetadataStep => (stats.(filesFailed := stats.filesFailed + 1), indexed)
    case RaiseStep => (stats.(filesFailed := stats.filesFailed + 1), indexed)
    case AddStep =>
      if ok then (stats.(filesProcessed := stats.filesProcessed + 1), indexed + {path}) else (stats, indexed)
    case UpdateStep =>
      (if ok then stats.(filesProcessed := stats.filesProcessed + 1) else stats, indexed)
  }

  /** What the keyword index reports for the branch: a deletion that found
      documents, or a write without a writer error. */
  function KeywordOk(step: Step, path: string, docs: seq<Indexer.StoredDoc>, writerError: Option<string>): bool {
    match step
    case DeleteStep => writerError.None? && Indexer.CountPath(docs, path) > 0
    case AddStep => writerError.None?
    case UpdateStep => writerError.None?
    case _ => false
  }

  /** The text and MIME type the configured executor extracts: the
      standalone function in a process pool, the logging extractor (which
      yields ("", "unknown") on a failure) otherwise. */
  function Extracted(config: IndexingConfig, path: string, f: Extractor.FileContent, libs: Extractor.Libraries)
    : (string, string)
  {
    if config.useProcessPool then StandaloneExtraction.StandaloneExtraction(f, libs)
    else match Extractor.Extraction(path, f, libs)
      case Ok(v) => v
      case Err(_) => ([], Extractor.UnknownMime)
  }

  /** The failures the configured extractor records: only the logging
      extractor records any. */
  function ExtractionErrors(config: IndexingConfig, path: string, f: Extractor.FileContent,
                            libs: Extractor.Libraries): (r: seq<ErrorEntry>)
    ensures config.useProcessPool ==> r == []
    ensures |r| <= 1
  {
    if !config.useProcessPool && Extractor.Extraction(path, f, libs).Err? then
      [ErrorEntry(path, Extractor.Extraction(path, f, libs).error)]
    else []
  }

  /** The failure a writer error records against the document's path. */
  function WriterErrors(docPath: string, writerError: Option<string>): seq<ErrorEntry> {
    if writerError.Some? then [ErrorEntry(docPath, writerError.value)] else []
  }

  /** The metadata a file is indexed with: `get_file_metadata` with the
      extracted MIME type filled in. */
  function Prepared(facts: FileFacts, mime: string): Option<FileMetadata> {
    match GetFileMetadata(facts)
    case Some(m) => Some(m.(mimeType := mime))
    case None => None
  }

  /** The keyword index after an add (`add`) or an update of `m` with
      `text`: unchanged when the writer fails. */
  function DocsAfterWrite(docs: seq<Indexer.StoredDoc>, add: bool, m: FileMetadata, text: string, now: real,
                          writerError: Option<string>): seq<Indexer.StoredDoc>
  {
    if writerError.Some? then docs
    else if add then docs + [Indexer.StoredOf(m, text, now)]
    else Indexer.WithoutPath(docs, m.path) + [Indexer.StoredOf(m, text, now)]
  }

  /** The logger's state changed as an indexed file changes it: the
      failures in `entries` recorded, then the file logged as processed
      with `size` bytes. */
  twostate predicate LoggedIndexing(l: IndexingLogger, entries: seq<ErrorEntry>, size: int)
    reads l
  {
    && l.errors == old(l.errors) + entries
    && l.filesFailed == old(l.filesFailed) + |entries|
    && l.filesProcessed == old(l.filesProcessed) + 1
    && l.totalSizeProcessed == old(l.totalSizeProcessed) + size
    && l.startTime == old(l.startTime)
  }

  /** The job a bulk run enqueues for one discovered file. */
  function BulkJob(path: string, now: real): (j: IndexingJob)
    ensures j.filePath == path && j.priority == Low && j.operation == CreateOp
  {
    IndexingJob(path, Low, CreateOp, now)
  }

  /** The jobs a bulk run enqueues for `files`, one per file, in order. */
  function JobsFor(files: seq<string>, now: real): seq<IndexingJob> {
    seq(|files|, k requires 0 <= k < |files| => BulkJob(files[k], now))
  }

  lemma JobsForAppend(a: seq<string>, b: seq<string>, now: real)
    ensures JobsFor(a + b, now) == JobsFor(a, now) + JobsFor(b, now)
  {
  }

  function Min(a: int, b: int): int {
    if a < b then a else b
  }

  /** The batches `range(i, len(files), size)` visits from `i` on:
      `files[i:i + size]` for each start. */
  function BatchesFrom(files: seq<string>, size: nat, i: nat): seq<seq<string>>
    requires size > 0
    decreases |files| - i
  {
    if i >= |files| then []
    else [files[i..Min(i + size, |files|)]] + BatchesFrom(files, size, i + size)
  }

  function Batches(files: seq<string>, size: nat): seq<seq<string>>
    requires size > 0
  {
    BatchesFrom(files, size, 0)
  }

  /** The batches concatenated in order. */
  function Flatten(batches: seq<seq<string>>): seq<string> {
    if batches == [] then [] else Flatten(batches[..|batches| - 1]) + batches[|batches| - 1]
  }

  lemma {:induction false} FlattenCons(b: seq<string>, rest: seq<seq<string>>)
    ensures Flatten([b] + rest) == b + Flatten(rest)
    decreases |rest|
  {
    if rest != [] {
      var n := |rest| - 1;
      assert ([b] + rest)[..|rest|] == [b] + rest[..n];
      FlattenCons(b, rest[..n]);
    }
  }

  /** The batches from `i` on are non-empty, hold at most `size` files each
      (all but the last exactly `size`), and concatenate to `files[i..]`. */
  lemma {:induction false} BatchesFromShape(files: seq<string>, size: nat, i: nat)
    requires size > 0 && i <= |files|
    ensures Flatten(BatchesFrom(files, size, i)) == files[i..]
    ensures forall k :: 0 <= k < |BatchesFrom(files, size, i)| ==>
              0 < |BatchesFrom(files, size, i)[k]| <= size
    ensures forall k :: 0 <= k < |BatchesFrom(files, size, i)| - 1 ==>
              |BatchesFrom(files, size, i)[k]| == size
    decreases |files| - i
  {
    if i < |files| {
      var b := files[i..Min(i + size, |files|)];
      var j := Min(i + size, |files|);
      BatchesFromShape(files, size, j);
      if i + size < |files| {
        assert BatchesFrom(files, size, i + size) == BatchesFrom(files, size, j);
      } else {
        assert BatchesFrom(files, size, i + size) == [];
        assert BatchesFrom(files, size, j) == [];
      }
      FlattenCons(b, BatchesFrom(files, size, i + size));
      assert files[i..] == b + files[j..];
    }
  }

  /** Bulk batching loses, repeats and reorders nothing: the batches
      concatenate to the discovered list, each holds between 1 and
      `batch_size` files, and there are ceil(n / batch_size) of them
      (n files fit in that many batches and not in one fewer). */
  lemma BatchesShape(files: seq<string>, size: nat)
    requires size > 0
    ensures Flatten(Batches(files, size)) == files
    ensures forall k :: 0 <= k < |Batches(files, size)| ==> 0 < |Batches(files, size)[k]| <= size
    ensures (|Batches(files, size)| - 1) * size < |files| <= |Batches(files, size)| * size
  {
    BatchesFromShape(files, size, 0);
    BatchCount(files, size, 0);
  }

  lemma {:induction false} BatchCount(files: seq<string>, size: nat, i: nat)
    requires size > 0 && i <= |files|
    ensures (|BatchesFrom(files, size, i)| - 1) * size < |files| - i <= |BatchesFrom(files, size, i)| * size
    decreases |files| - i
  {
    if i < |files| {
      if i + size < |files| {
        BatchCount(files, size, i + size);
      } else {
        assert BatchesFrom(files, size, i + size) == [];
      }
    }
  }

  /** Every discovered file is enqueued exactly once, in order, as a LOW
      priority "create" job. */
  lemma JobsForEachFileOnce(files: seq<string>, now: real)
    ensures |JobsFor(files, now)| == |files|
    ensures forall k :: 0 <= k < |files| ==>
              JobsFor(files, now)[k].filePath == files[k] && JobsFor(files, now)[k].priority == Low
              && JobsFor(files, now)[k].operation == CreateOp
    ensures multiset(seq(|files|, k requires 0 <= k < |files| => JobsFor(files, now)[k].filePath))
            == multiset(files)
  {
    assert seq(|files|, k requires 0 <= k < |files| => JobsFor(files, now)[k].filePath) == files;
  }

  /** How a bulk run ends: no files found, the `range` call rejecting a
      zero batch size (the exception escapes the run), or the session
      summary. */
  datatype BulkOutcome = NoFiles | ZeroBatchSize | Finished(summary: SessionSummary)

  /** The keys `get_index_stats` reports, None when its searcher raises
      (the empty dictionary). */
  function IndexStatsDict(s: Option<Indexer.IndexStats>, indexPath: string): (d: Dict)
    ensures s.None? ==> d == map[]
    ensures s.Some? ==> d.Keys == {"total_documents", "total_size_gb", "file_types", "index_path"}
  {
    match s
    case None => map[]
    case Some(st) =>
      map["total_documents" := VInt(st.totalDocuments), "total_size_gb" := VReal(st.totalSizeGb),
          "file_types" := VCounts(st.fileTypes), "index_path" := VStr(indexPath)]
  }

  const RuntimeKeys: set<string> :=
    {"files_processed", "files_failed", "files_skipped", "indexed_files_count", "queue_size", "is_running"}

  /** The runtime half of `get_stats`. */
  function RuntimeStats(stats: Stats, indexedCount: nat, queueSize: nat, running: bool): (d: Dict)
    ensures d.Keys == RuntimeKeys
  {
    map["files_processed" := VInt(stats.filesProcessed), "files_failed" := VInt(stats.filesFailed),
        "files_skipped" := VInt(stats.filesSkipped), "indexed_files_count" := VInt(indexedCount),
        "queue_size" := VInt(queueSize), "is_running" := VBool(running)]
  }

  /** `{**first, **second}`: every key of either, the second winning on a
      clash. */
  function MergeDicts(first: Dict, second: Dict): (r: Dict)
    ensures r.Keys == first.Keys + second.Keys
    ensures forall k :: k in second ==> r[k] == second[k]
    ensures forall k :: k in first && k !in second ==> r[k] == first[k]
  {
    first + second
  }

  /** The dictionary `get_stats` returns. */
  function StatsReport(index: Option<Indexer.IndexStats>, indexPath: string, stats: Stats, indexedCount: nat,
                       queueSize: nat, running: bool): Dict
  {
    MergeDicts(IndexStatsDict(index, indexPath), RuntimeStats(stats, indexedCount, queueSize, running))
  }

  /** Each runtime entry holds its counter. */
  lemma RuntimeStatsEntries(stats: Stats, indexedCount: nat, queueSize: nat, running: bool)
    ensures var r := RuntimeStats(stats, indexedCount, queueSize, running);
            && r["indexed_files_count"] == VInt(indexedCount) && r["queue_size"] == VInt(queueSize)
            && r["files_processed"] == VInt(stats.filesProcessed) && r["files_failed"] == VInt(stats.filesFailed)
            && r["files_skipped"] == VInt(stats.filesSkipped) && r["is_running"] == VBool(running)
  {
  }

  /** The report holds the runtime entries as they are (the indexed-file
      count is the size of the indexed set, whatever the index reports),
      and the index's entries when its searcher opened. */
  lemma StatsReportEntries(index: Option<Indexer.IndexStats>, indexPath: string, stats: Stats,
                           indexedCount: nat, queueSize: nat, running: bool)
    ensures var d := StatsReport(index, indexPath, stats, indexedCount, queueSize, running);
            && d.Keys == RuntimeKeys + IndexStatsDict(index, indexPath).Keys
            && (forall k :: k in RuntimeKeys ==> d[k] == RuntimeStats(stats, indexedCount, queueSize, running)[k])
            && d["indexed_files_count"] == VInt(indexedCount)
            && (index.Some? ==> d["total_documents"] == VInt(index.value.totalDocuments)
                                && d["file_types"] == VCounts(index.value.fileTypes)
                                && d["index_path"] == VStr(indexPath))
  {
    RuntimeStatsEntries(stats, indexedCount, queueSize, running);
    if index.Some? {
      assert "total_documents" !in RuntimeKeys && "file_types" !in RuntimeKeys && "index_path" !in RuntimeKeys;
    }
  }

  class SmartFileIndexer {
    const config: IndexingConfig
    const logger: IndexingLogger
    const extractor: Extractor.TextExtractor
    const index: Indexer.KeywordIndex
    const queue: JobQueue.IndexingQueue
    var isRunning: bool
    var indexedFiles: set<string>
    var stats: Stats

    /** The extractor and the keyword index log into the manager's logger. */
    ghost predicate Valid()
      reads this, logger
    {
      logger.Valid() && extractor.logger == logger && index.logger == logger
    }

    /** `SmartFileIndexer(config)`: a fresh logger, extractor and queue, the
        keyword index over the documents already on disk, nothing indexed
        in this run and every counter at zero. */
    constructor (config: Option<IndexingConfig>, existing: seq<Indexer.StoredDoc>)
      ensures Valid()
      ensures this.config == config.GetOr(DefaultIndexingConfig)
      ensures fresh(logger) && fresh(extractor) && fresh(index) && fresh(queue)
      ensures (logger.name, logger.moduleName) == IndexingLoggerNames
      ensures index.docs == existing && queue.jobs == []
      ensures !isRunning && indexedFiles == {} && stats == FreshStats
    {
      this.config := config.GetOr(DefaultIndexingConfig);
      var l := new IndexingLogger(IndexingLoggerNames.0, IndexingLoggerNames.1);
      logger := l;
      extractor := new Extractor.TextExtractor(l);
      index := new Indexer.KeywordIndex(existing, l);
      queue := new JobQueue.IndexingQueue();
      isRunning := false;
      indexedFiles := {};
      stats := FreshStats;
    }

    /** `process_file(path, operation)`. `facts` are the file system's
        answers for `path`, `f` and `libs` what extraction sees, `raised`
        an exception escaping the extraction executor, `writerError` the
        keyword index writer's error, `now` the indexing time and
        `duration` the measured processing time. */
    method ProcessFile(path: string, operation: string, facts: FileFacts, f: Extractor.FileContent,
                       libs: Extractor.Libraries, raised: Option<string>, writerError: Option<string>,
                       now: real, duration: real)
      requires Valid()
      modifies this, index, logger
      ensures Valid() && isRunning == old(isRunning)
      ensures var step := StepOf(operation, path, facts, config, old(indexedFiles), raised);
              (stats, indexedFiles) == Track(step, path, old(stats), old(indexedFiles),
                                             KeywordOk(step, path, old(index.docs), writerError))
      // a delete goes to the keyword index only; a writer error is logged
      ensures operation == DeleteOp ==>
                && index.docs == (if writerError.None? then Indexer.WithoutPath(old(index.docs), path)
                                  else old(index.docs))
                && (writerError.None? ==> unchanged(logger))
                && (writerError.Some? ==> LoggedFailure(logger, path, writerError.value))
      // skipped files and files without metadata touch neither the index nor the logger
      ensures StepOf(operation, path, facts, config, old(indexedFiles), raised) in {SkipStep, NoMetadataStep} ==>
                unchanged(index) && unchanged(logger)
      // an escaping exception is logged as a failure of the path
      ensures StepOf(operation, path, facts, config, old(indexedFiles), raised) == RaiseStep ==>
                unchanged(index) && LoggedFailure(logger, path, raised.value)
      // an add or update writes the extracted text and logs the file as processed, even when the write fails
      ensures StepOf(operation, path, facts, config, old(indexedFiles), raised) in {AddStep, UpdateStep} ==>
                var (text, mime) := Extracted(config, path, f, libs);
                var m := Prepared(facts, mime).value;
                && index.docs == DocsAfterWrite(old(index.docs),
                                                StepOf(operation, path, facts, config, old(indexedFiles), raised) == AddStep,
                                                m, text, now, writerError)
                && LoggedIndexing(logger, ExtractionErrors(config, path, f, libs) + WriterErrors(m.path, writerError),
                                  m.size)
    {
      ghost var step := StepOf(operation, path, facts, config, indexedFiles, raised);
      if operation == DeleteOp {
        DeleteFile(path, writerError);
        return;
      }
      if !ShouldIndexFile(facts, config) {
        assert step == SkipStep;
        stats := stats.(filesSkipped := stats.filesSkipped + 1);
        return;
      }
      var metadata := GetFileMetadata(facts);
      if metadata.None? {
        assert step == NoMetadataStep;
        stats := stats.(filesFailed := stats.filesFailed + 1);
        return;
      }
      if raised.Some? {
        assert step == RaiseStep;
        stats := stats.(filesFailed := stats.filesFailed + 1);
        logger.LogFileFailed(path, raised.value);
        return;
      }
      assert step == (if operation == CreateOp || path !in indexedFiles then AddStep else UpdateStep);
      assert Prepared(facts, Extracted(config, path, f, libs).1) == Some(metadata.value.(mimeType := Extracted(config, path, f, libs).1));
      IndexFile(path, operation, metadata.value, f, libs, writerError, now, duration);
    }

    /** The delete branch: the path leaves the indexed set exactly when the
        keyword index reports a deleted document; no counter moves. */
    method DeleteFile(path: string, writerError: Option<string>)
      requires Valid()
      modifies this, index, logger
      ensures Valid() && isRunning == old(isRunning) && stats == old(stats)
      ensures indexedFiles == if writerError.None? && Indexer.CountPath(old(index.docs), path) > 0
                              then old(indexedFiles) - {path} else old(indexedFiles)
      ensures index.docs == (if writerError.None? then Indexer.WithoutPath(old(index.docs), path)
                             else old(index.docs))
      ensures writerError.None? ==> unchanged(logger)
      ensures writerError.Some? ==> LoggedFailure(logger, path, writerError.value)
    {
      var ok := index.DeleteDocument(path, writerError);
      if ok {
        indexedFiles := indexedFiles - {path};
      }
    }

    /** Extraction, the add or update, and the processed-file log entry for
        a file with metadata `m0`. */
    method IndexFile(path: string, operation: string, m0: FileMetadata, f: Extractor.FileContent,
                     libs: Extractor.Libraries, writerError: Option<string>, now: real, duration: real)
      requires Valid()
      modifies this, index, logger
      ensures Valid() && isRunning == old(isRunning)
      ensures var (text, mime) := Extracted(config, path, f, libs);
              var m := m0.(mimeType := mime);
              var add := operation == CreateOp || path !in old(indexedFiles);
              && (stats, indexedFiles) == Track(if add then AddStep else UpdateStep, path, old(stats),
                                                old(indexedFiles), writerError.None?)
              && index.docs == DocsAfterWrite(old(index.docs), add, m, text, now, writerError)
              && LoggedIndexing(logger, ExtractionErrors(config, path, f, libs) + WriterErrors(m.path, writerError),
                                m.size)
    {
      var text, mime := Extract(path, f, libs);
      var m := m0.(mimeType := mime);
      Write(path, operation, m, text, writerError, now);
      logger.LogFileProcessed(path, m.size, duration);
    }

    /** The extraction step on the configured executor. */
    method Extract(path: string, f: Extractor.FileContent, libs: Extractor.Libraries)
      returns (text: string, mime: string)
      requires Valid()
      modifies logger
      ensures Valid()
      ensures (text, mime) == Extracted(config, path, f, libs)
      ensures logger.errors == old(logger.errors) + ExtractionErrors(config, path, f, libs)
      ensures logger.filesFailed == old(logger.filesFailed) + |ExtractionErrors(config, path, f, libs)|
      ensures logger.filesProcessed == old(logger.filesProcessed)
      ensures logger.totalSizeProcessed == old(logger.totalSizeProcessed)
      ensures logger.startTime == old(logger.startTime)
    {
      if config.useProcessPool {
        text, mime := StandaloneExtraction.ExtractTextStandalone(f, libs);
      } else {
        text, mime := extractor.ExtractText(path, f, libs);
      }
    }

    /** The add-or-update step: "create" or an unseen path is added (and
        recorded on success), anything else is updated; a successful write
        counts the file as processed, a failed one changes nothing here. */
    method Write(path: string, operation: string, m: FileMetadata, text: string,
                 writerError: Option<string>, now: real)
      requires Valid()
      modifies this, index, logger
      ensures Valid() && isRunning == old(isRunning)
      ensures var step := if operation == CreateOp || path !in old(indexedFiles) then AddStep else UpdateStep;
              (stats, indexedFiles) == Track(step, path, old(stats), old(indexedFiles), writerError.None?)
      ensures index.docs == DocsAfterWrite(old(index.docs), operation == CreateOp || path !in old(indexedFiles),
                                           m, text, now, writerError)
      ensures writerError.None? ==> unchanged(logger)
      ensures writerError.Some? ==> LoggedFailure(logger, m.path, writerError.value)
    {
      var ok;
      if operation == CreateOp || path !in indexedFiles {
        ok := index.AddDocument(m, text, now, writerError);
        if ok {
          indexedFiles := indexedFiles + {path};
          stats := stats.(filesProcessed := stats.filesProcessed + 1);
        }
      } else {
        ok := index.UpdateDocument(m, text, now, writerError);
        if ok {
          stats := stats.(filesProcessed := stats.filesProcessed + 1);
        }
      }
    }

    /** The batching part of `bulk_index`: starts a logging session, stamps
        the start time and, for discovered `files`, enqueues one LOW
        "create" job per file, batch by batch. A negative batch size makes
        `range` empty; a zero one makes it raise. The summary is read from
        the logger as it stands once the queue has been handed the jobs
        (draining it is the consumer's work). */
    method BulkIndex(files: seq<string>, now: real, summaryNow: real) returns (r: BulkOutcome)
      requires Valid()
      modifies this, logger, queue
      ensures Valid() && isRunning == old(isRunning) && indexedFiles == old(indexedFiles)
      ensures stats == old(stats).(startTime := Some(now))
      ensures logger.startTime == Some(now) && logger.errors == []
      ensures logger.filesProcessed == 0 && logger.filesFailed == 0 && logger.totalSizeProcessed == 0
      ensures files == [] ==> r == NoFiles && queue.jobs == old(queue.jobs)
      ensures files != [] && config.batchSize == 0 ==> r == ZeroBatchSize && queue.jobs == old(queue.jobs)
      ensures files != [] && config.batchSize < 0 ==>
                r == Finished(logger.SessionSummaryAt(summaryNow)) && queue.jobs == old(queue.jobs)
      ensures files != [] && config.batchSize > 0 ==>
                r == Finished(logger.SessionSummaryAt(summaryNow))
                && queue.jobs == old(queue.jobs) + JobsFor(files, now)
    {
      logger.StartSession(now);
      stats := stats.(startTime := Some(now));
      if files == [] {
        return NoFiles;
      }
      if config.batchSize == 0 {
        return ZeroBatchSize;
      }
      if config.batchSize > 0 {
        EnqueueBatches(files, config.batchSize, now);
      }
      r := Finished(logger.SessionSummaryAt(summaryNow));
    }

    /** One batch: each file put on the queue as a LOW "create" job. */
    method EnqueueBatch(batch: seq<string>, now: real)
      modifies queue
      ensures queue.jobs == old(queue.jobs) + JobsFor(batch, now)
    {
      for j := 0 to |batch|
        invariant queue.jobs == old(queue.jobs) + JobsFor(batch[..j], now)
      {
        queue.Put(BulkJob(batch[j], now));
        assert JobsFor(batch[..j + 1], now) == JobsFor(batch[..j], now) + [BulkJob(batch[j], now)];
      }
      assert batch[..|batch|] == batch;
    }

    /** The batch loop of `bulk_index`: `files[i:i + size]` for each start
        `i` of `range(0, len(files), size)`, each file of a batch put on the
        queue as a LOW "create" job. */
    method EnqueueBatches(files: seq<string>, size: nat, now: real)
      requires size > 0
      modifies queue
      ensures queue.jobs == old(queue.jobs) + JobsFor(files, now)
    {
      ghost var taken: seq<seq<string>> := [];
      var i: nat := 0;
      while i < |files|
        invariant taken + BatchesFrom(files, size, i) == Batches(files, size)
        invariant queue.jobs == old(queue.jobs) + JobsFor(Flatten(taken), now)
        decreases |files| - i
      {
        var batch := files[i..Min(i + size, |files|)];
        EnqueueBatch(batch, now);
        assert BatchesFrom(files, size, i) == [batch] + BatchesFrom(files, size, i + size);
        assert (taken + [batch]) + BatchesFrom(files, size, i + size) == taken + BatchesFrom(files, size, i);
        assert (taken + [batch])[..|taken|] == taken;
        assert Flatten(taken + [batch]) == Flatten(taken) + batch;
        JobsForAppend(Flatten(taken), batch, now);
        taken := taken + [batch];
        i := i + size;
      }
      assert taken == Batches(files, size);
      BatchesShape(files, size);
    }

    /** `get_stats`: the index statistics and the runtime counters in one
        dictionary, the runtime entries winning on a clash. `searcherOk`
        says whether the index searcher opens; `indexPath` is the index
        directory. */
    method GetStats(searcherOk: bool, indexPath: string) returns (d: Dict)
      ensures d == StatsReport(if searcherOk then Some(Indexer.IndexStatsOf(index.docs)) else None, indexPath,
                               stats, |indexedFiles|, |queue.jobs|, isRunning)
    {
      var s := index.GetIndexStats(searcherOk);
      d := MergeDicts(IndexStatsDict(s, indexPath),
                      RuntimeStats(stats, |indexedFiles|, queue.Size(), isRunning));
    }
  }
}
