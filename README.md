# DeepSearch indexing and search core, modelled in Dafny

DeepSearch is a local file indexer. It watches folders and extracts text from
documents (plain text, PDF, Word, Excel, PowerPoint, Jupyter notebooks). The
text goes into a keyword index and, when embeddings are enabled, into a
vector database of document chunks. A hybrid search then merges keyword and
semantic hits into one ranking.

This project models the sequential decision and bookkeeping code that sits
around the external libraries, and proves properties of it:

- `HybridSearch` models the hybrid result merger. It covers weight
  normalisation, mapping backend hits to ranked results, the merge by path
  through an insertion-ordered dictionary, the stable descending sort on the
  combined score, and truncation to the limit. It also covers the
  search-type dispatch.
- `Manager` models the per-file indexing protocol of `SmartFileIndexer`. It
  is a class over the indexed-file set and the skipped, failed and processed
  counters. It also covers bulk batching into LOW priority jobs and the
  statistics report.
- `EnhancedManager` models the dual keyword and chunk-store protocol of
  `EnhancedIndexingManager`. A delete goes to both stores. An add or update
  re-chunks non-blank text: the file's old chunks are deleted, then its new
  chunks are added. The Python subclass is modelled by composition: the
  enhanced manager holds the plain manager as `base`.
- `EmbeddingDb` models the chunk metadata table of `VectorDatabase`. It
  covers insert-or-replace by chunk id, delete by source path, the 200
  character preview, the similarity threshold filter with its fallback to
  configured defaults, and the statistics that read only the first model
  group.
- `Chunking` covers the chunker's cursor walk that assigns the
  `start_char`/`end_char` offsets, the chunk ids `path:chunk:i`, content
  cleaning, multi-document concatenation and the chunk statistics.
- `FileUtils` covers the indexing filter, the metadata field derivation, the
  text and document kind tests, and the human-readable size.
- `Logger` covers the session metrics: the counters, the error list, the
  summary with its error rate and last ten errors, and the choice of log
  directory.
- `Extractor` and `StandaloneExtraction` cover MIME routing, the 1 MiB
  truncation, the encoding fallback, and the assembly of notebook,
  spreadsheet, slide, PDF and Word text.
- `Watcher`, `JobQueue`, `Models` and `Indexer` cover the event-to-job
  mapping, the FIFO queue, job priority order, metadata validation, and the
  result contracts and statistics of the keyword index wrapper.
- `Text`, `Values`, `Wrappers`, `Seqs` and `Config` hold shared pieces:
  Python string rules (`strip`, `lower`, `find`, `join`, slicing, `str(n)`),
  dictionary values, Option/Result, a distinctness predicate, and the
  shipped configuration defaults.

## External inputs

Every backend is replaced by the answer it gives, passed in as a parameter:

- the Whoosh writer and searcher, the llama_index vector index and its query
  engine, SQLite, python-magic, the document parsers and the sentence
  splitter;
- file system facts (existence, `stat`, suffix, path parts, file content);
- the clock;
- success flags for each call that can fail.

A method's contract then states the new state and the result in terms of
those answers. Functions over the state, together with lemmas about them,
give what the source promises.

## Behaviour worth noting

- The queue is a plain FIFO. Redundant events for one file are not
  coalesced (`JobQueue.IndexingQueue.Put`).
- `get_document_hash` always returns None, so a file is never skipped
  because its content is unchanged (`Indexer.DocumentHash`).
- Keyword scores are used raw, with no normalisation. The default
  weights are 0.6 for keyword and 0.4 for semantic. A keyword-only result
  keeps its raw score (`HybridSearch.KeywordOnlyUnchanged`). Ties keep
  dictionary insertion order (`HybridSearch.CombinedOrdered`).
- The watcher's handlers call `asyncio.create_task` from the file system
  observer's own thread, where no event loop runs. Read as written, that
  call raises `RuntimeError` and queues nothing. `Watcher.FileSystemWatcher.OnEvent`
  models what the handlers are meant to queue, not that failure.
- The keyword index does not keep paths unique: adding a file twice stores
  two documents. A hybrid search without a vector store then lists the
  path once, holding its last keyword result
  (`HybridSearch.HybridWithoutVector`).
- Several semantic results for one file are folded into one entry. The
  last of them supplies the semantic score and chunk, and the entry is
  typed "hybrid" even when no keyword result has the file
  (`HybridSearch.SemanticChunksMerged`).

## Model

| member | source | states |
|---|---|---|
| Text.LStripShape | src/deepsearch/ai/chunking.py:117 | `lstrip()` cuts off exactly a whitespace prefix and keeps a suffix that starts with a non-space |
| Text.RStripShape | src/deepsearch/ai/chunking.py:117 | `rstrip()` cuts off exactly a whitespace suffix and keeps a prefix that ends with a non-space |
| Text.StripEnds | src/deepsearch/ai/chunking.py:117 | a stripped string is no longer than the input and has no whitespace at either end |
| Text.StripIsSlice | src/deepsearch/ai/chunking.py:117 | a stripped string is a contiguous slice of the input |
| Text.StripEmptyIffAllSpace | src/deepsearch/ai/chunking.py:67 | `not s.strip()` holds exactly when every character is whitespace (the empty string included) |
| Text.StripIdempotent | src/deepsearch/ai/chunking.py:117 | stripping twice is stripping once |
| Text.LowerChar | src/deepsearch/utils/file_utils.py:33 | lower-casing maps A-Z to a-z and leaves every other character |
| Text.Lower | src/deepsearch/utils/file_utils.py:33 | lower-casing keeps the length and works character by character |
| Text.LowerHasNoUpper | src/deepsearch/utils/file_utils.py:33-34 | a lowered string never equals a string that contains an upper-case letter |
| Text.LowerIdempotent | src/deepsearch/utils/file_utils.py:33 | lowering twice is lowering once |
| Text.Join | src/deepsearch/indexing/extractor.py:141 | `sep.join`: empty for no parts, the part itself for one |
| Text.JoinAppend | src/deepsearch/indexing/extractor.py:141 | joining one more part appends the separator and the part to the earlier join; one part alone gets no separator |
| Text.Take | src/deepsearch/indexing/extractor.py:187 | `s[:n]`: the first n elements for n ≥ 0, and for negative n all but the last -n |
| Text.NatToString | src/deepsearch/ai/chunking.py:89 | `str(n)`: at least one digit, at least two from 10 on, the last digit being n mod 10 |
| Text.NatToStringInjective | src/deepsearch/ai/chunking.py:89 | distinct numbers have distinct decimal renderings |
| Text.FindFromIndex | src/deepsearch/ai/chunking.py:81 | -1 or an index at or after the start |
| Text.FindFromIndexMeaning | src/deepsearch/ai/chunking.py:81 | the first occurrence at or after the start, and -1 only when there is none |
| Text.FindOrigin | src/deepsearch/ai/chunking.py:81 | `find`'s start: as given when non-negative, counted from the end (clamped at 0) when negative |
| Text.Find | src/deepsearch/ai/chunking.py:81 | -1 or an index at or after the origin |
| Text.FindMeaning | src/deepsearch/ai/chunking.py:81 | `str.find(sub, start)` is the first occurrence at or after the origin, and -1 only when there is none |
| Models.IndexingPriority.Value | src/deepsearch/indexing/models.py:14-20 | the numeric value of each priority level, at most 3 |
| Models.PriorityValues | src/deepsearch/indexing/models.py:14-20 | IMMEDIATE 0, HIGH 1, NORMAL 2, LOW 3; equal values mean the same level |
| Models.JobLessIsStrictOrder | src/deepsearch/indexing/models.py:59-60 | job `<` is irreflexive, asymmetric and transitive |
| Models.JobLessIgnoresOtherFields | src/deepsearch/indexing/models.py:59-60 | job `<` depends only on the two priorities, not on path, operation or time |
| Models.JobLessTotalOnPriorities | src/deepsearch/indexing/models.py:59-60 | neither job is below the other exactly when their priorities are equal |
| Models.NewFileMetadata | src/deepsearch/indexing/models.py:23-47 | validation succeeds iff the path exists and the size is not negative; an error names exactly the failing fields; a success holds the given fields |
| Models.NewFileMetadataDefaults | src/deepsearch/indexing/models.py:34-35 | without the optional arguments, `content_hash` and `indexed_time` are None |
| JobQueue.IndexingQueue.constructor | src/deepsearch/indexing/manager.py:36 | a new queue holds no jobs |
| JobQueue.IndexingQueue.Put | src/deepsearch/indexing/manager.py:36 | `put` appends the job at the back and changes nothing else (no coalescing) |
| JobQueue.IndexingQueue.Size | src/deepsearch/indexing/manager.py:304 | `qsize()` is the number of jobs held |
| Watcher.Requests | src/deepsearch/indexing/watcher.py:20-55 | a directory event requests nothing; created, modified and deleted request one "create", "update" or "delete" for the source path; a move requests a delete of the source and then a create of the destination |
| Watcher.MakeJob | src/deepsearch/indexing/watcher.py:61-66 | the job carries the path, the operation, HIGH priority and the clock reading |
| Watcher.JobsFor | src/deepsearch/indexing/watcher.py:20-66 | one job per request, in request order |
| Watcher.JobsForShape | src/deepsearch/indexing/watcher.py:22-66 | no job for a directory; every job is HIGH; a move gives exactly [delete source, create destination] |
| Watcher.Accepted | src/deepsearch/indexing/watcher.py:67-72 | the jobs whose put succeeded, drawn from the requested jobs |
| Watcher.AcceptedAll | src/deepsearch/indexing/watcher.py:67-72 | when every put succeeds, every job is enqueued |
| Watcher.FileSystemWatcher.constructor | src/deepsearch/indexing/watcher.py:16-18 | the watcher holds the shared queue |
| Watcher.FileSystemWatcher.AddToQueue | src/deepsearch/indexing/watcher.py:57-72 | a successful put appends the HIGH job; a failing put is dropped silently and the queue is unchanged |
| Watcher.FileSystemWatcher.OnEvent | src/deepsearch/indexing/watcher.py:20-72 | the queue gains exactly the event's jobs whose put succeeded, in order |
| Logger.LogDirectoryFor | src/deepsearch/indexing/logger.py:39-57 | the log directory is the module's own when it is one of the seven known names, otherwise "general" |
| Logger.CustomModuleLogsToGeneral | src/deepsearch/indexing/logger.py:54-57 | a module named "test_module" logs to the "general" directory (no directory of its own is created) |
| Logger.FactoryLoggersHaveOwnDirectories | src/deepsearch/indexing/logger.py:205-227 | each of the five factory loggers writes to its own module directory |
| Logger.ModuleLoggerName | src/deepsearch/indexing/logger.py:230-236 | the given logger name, or "deepsearch_" followed by the module name when none is given |
| Logger.LastN | src/deepsearch/indexing/logger.py:179 | `errors[-10:]`: the last min(10, n) errors, in their original order |
| Logger.ErrorRate | src/deepsearch/indexing/logger.py:161-178 | failed/(processed+failed), 0 when no file was seen, always between 0 and 1 |
| Logger.IndexingLogger.constructor | src/deepsearch/indexing/logger.py:14-30 | the name and module are kept; every counter is 0, no start time and no errors |
| Logger.IndexingLogger.StartSession | src/deepsearch/indexing/logger.py:116-122 | the start time is recorded; the processed, failed and size counters are reset to 0 and the error list emptied |
| Logger.IndexingLogger.LogFileProcessed | src/deepsearch/indexing/logger.py:125-129 | processed +1 and size added; failures, errors and start time unchanged |
| Logger.IndexingLogger.LogFileFailed | src/deepsearch/indexing/logger.py:131-135 | failed +1 and (path, message) appended to the errors; everything else unchanged |
| Logger.IndexingLogger.SessionSummaryAt | src/deepsearch/indexing/logger.py:153-180 | the counters as recorded; the total size in GiB (bytes / 1024³); elapsed time 0 without a start time; when elapsed is positive, files per second and MB per second whose product with elapsed gives back the files processed and the bytes / 1024², and both rates 0 otherwise; the error rate as above; the last ten errors |
| Logger.PerSecond | src/deepsearch/indexing/logger.py:169-175 | a rate over a positive elapsed time gives the amount back when multiplied by it; with no time elapsed the rate is 0 |
| Logger.FreshSessionSummary | src/deepsearch/indexing/logger.py:116-180 | right after `start_session` the summary shows no files, error rate 0 and no recent errors |
| FileUtils.Suffix | src/deepsearch/utils/file_utils.py:77-81 | `Path.suffix`: empty, or a dot followed by at least one character, taken from the end of the name and shorter than it |
| FileUtils.SuffixLower | src/deepsearch/utils/file_utils.py:33 | taking the suffix and lower-casing commute, so `suffix.lower()` is the suffix of the lowered name |
| FileUtils.ShouldIndexFile | src/deepsearch/utils/file_utils.py:15-48 | a file that is indexed exists and has a readable `stat` |
| FileUtils.ShouldIndexFileExactly | src/deepsearch/utils/file_utils.py:15-48 | indexed iff the path exists, the lowercased suffix is not excluded, no path component is an excluded directory, and `stat` works and reports a size at most `max_file_size` (equality allowed); these are the only reasons for rejection |
| FileUtils.UpperCaseExclusionNeverMatches | src/deepsearch/utils/file_utils.py:33-34 | adding an excluded extension that contains an upper-case letter never changes the decision |
| FileUtils.DefaultDSStoreEntryIsInert | src/deepsearch/indexing/config.py:51-64 | the shipped ".DS_Store" exclusion is such an entry: removing it changes no decision |
| FileUtils.GetFileMetadata | src/deepsearch/utils/file_utils.py:51-86 | None exactly when the path is missing, `stat` or hashing fails, or validation rejects the size; otherwise the resolved path, the name, the lowercased suffix as extension, the size, the type, an empty MIME type, the digest, and no indexing time |
| FileUtils.ExtensionAndFileType | src/deepsearch/utils/file_utils.py:77-81 | with a suffix the extension is "." followed by the file type; without one the extension is empty and the type is "unknown" |
| FileUtils.FileKindCaseInsensitive | src/deepsearch/utils/file_utils.py:110-196 | `is_text_file` and `is_document_file` give the same answer for names equal up to letter case |
| FileUtils.Pow1024 | src/deepsearch/utils/file_utils.py:216-218 | 1024 to the power i, at least 1 |
| FileUtils.FileSizeHuman | src/deepsearch/utils/file_utils.py:199-220 | "0 B" exactly for 0; otherwise the unit index counts the divisions by 1024, is capped at "TB", and value × 1024^index is the input; below "TB" the value is under 1024, and past "B" it is at least 1 |
| Chunking.CollapseWhitespaceShape | src/deepsearch/ai/chunking.py:109 | after `re.sub(r"\s+", " ", …)` the only whitespace is the plain space, no two spaces are adjacent, the result is empty only for empty input and ends in a space exactly when the input ends in whitespace |
| Chunking.RemoveControlShape | src/deepsearch/ai/chunking.py:112 | no character of the removed control ranges survives, and text whose only whitespace is the space keeps that property |
| Chunking.ReplaceCrLfPlain | src/deepsearch/ai/chunking.py:115 | `replace("\r\n", "\n")` leaves text without carriage returns unchanged |
| Chunking.ReplaceCrPlain | src/deepsearch/ai/chunking.py:115 | `replace("\r", "\n")` leaves text without carriage returns unchanged |
| Chunking.StripKeepsPlain | src/deepsearch/ai/chunking.py:117 | the final `strip()` keeps both properties |
| Chunking.CleanContentShape | src/deepsearch/ai/chunking.py:106-117 | cleaned content has no whitespace at either end, holds no newline, carriage return or tab (its only whitespace is the space) and no removed control character |
| Chunking.ChunkIdInjective | src/deepsearch/ai/chunking.py:89 | `f"{source_path}:chunk:{i}"` determines i: two indices with the same id are equal |
| Chunking.Starts | src/deepsearch/ai/chunking.py:79-86 | one recorded start offset per piece walked |
| Chunking.StartsPrefix | src/deepsearch/ai/chunking.py:79-86 | walking later pieces does not move the starts already recorded |
| Chunking.StartsAt | src/deepsearch/ai/chunking.py:81-86 | start k is where piece k is found from the cursor piece k-1 leaves (from 0 for the first), or that cursor when it is not found |
| Chunking.BuildChunks | src/deepsearch/ai/chunking.py:76-104 | one chunk per piece of the splitter's output |
| Chunking.BuildChunksShape | src/deepsearch/ai/chunking.py:79-102 | chunk k has index k, id `path:chunk:k`, the stripped piece as text, the document's path and metadata, `end_char = start_char + len(piece)`, and its piece is searched from `end_char - chunk_overlap` of the previous chunk (from 0 for the first); a negative cursor follows `str.find`'s rule |
| Chunking.WalkPieces | src/deepsearch/ai/chunking.py:76-104 | the cursor loop produces exactly the chunks `BuildChunks` describes |
| Chunking.DocumentChunker.constructor | src/deepsearch/ai/chunking.py:42-51 | the chunker keeps its size, its overlap and the configured splitter |
| Chunking.DocumentChunker.ChunkDocument | src/deepsearch/ai/chunking.py:53-104 | the method returns the specified chunks: none for blank content, otherwise the cleaned content's pieces walked with the cursor |
| Chunking.DocumentChunker.ChunksShape | src/deepsearch/ai/chunking.py:67-102 | empty or whitespace-only content yields []; otherwise one chunk per piece of the cleaned content, each as `BuildChunksShape` states |
| Chunking.DocumentChunker.ChunkIdsDistinct | src/deepsearch/ai/chunking.py:89 | the chunk ids of one document are pairwise distinct |
| Chunking.DocumentChunker.ChunkMultipleDocuments | src/deepsearch/ai/chunking.py:119-141 | the result is the in-order concatenation of each document's chunks, with missing metadata read as {} |
| Chunking.DocumentChunker.AllChunksFromDocuments | src/deepsearch/ai/chunking.py:119-141 | the combined length is the sum of the per-document counts, and every chunk carries the path and metadata (or {}) of one of the documents |
| Chunking.MinLength | src/deepsearch/ai/chunking.py:153 | the least chunk text length: a lower bound attained by some chunk |
| Chunking.MaxLength | src/deepsearch/ai/chunking.py:154 | the greatest chunk text length: an upper bound attained by some chunk |
| Chunking.SourcesBound | src/deepsearch/ai/chunking.py:156 | the number of distinct source paths is at most the number of chunks, and at least 1 when there are chunks |
| Chunking.MakeStats | src/deepsearch/ai/chunking.py:150-157 | the record holds the given counts, with the average times the count equal to the total |
| Chunking.ChunkStatsOf | src/deepsearch/ai/chunking.py:143-157 | {} exactly for no chunks; otherwise `total_chunks` is the count, `total_characters` the sum of text lengths, and the average is total/count |
| Chunking.ChunkStatsMeaning | src/deepsearch/ai/chunking.py:148-157 | min ≤ max, both bound every chunk's length and are attained, and `unique_sources` is the number of distinct paths, between 1 and the count |
| Chunking.OneDocumentOneSource | src/deepsearch/ai/chunking.py:156 | the chunks of one document have exactly one source |
| Extractor.Truncate | src/deepsearch/indexing/extractor.py:178-188 | text of at most 1024×1024 characters is kept whole; longer text becomes exactly its first 1024×1024 characters followed by "... [truncated]" |
| Extractor.TruncateIdempotent | src/deepsearch/indexing/extractor.py:178-179 | truncating a truncated text changes nothing |
| Extractor.EncodingsSkipped | src/deepsearch/indexing/extractor.py:171-182 | encodings that fail to decode are skipped until one reads |
| Extractor.FirstDecodingWins | src/deepsearch/indexing/extractor.py:171-182 | encodings are tried in the order utf-8, latin-1, cp1252, iso-8859-1, and the first that decodes gives the (truncated) text |
| Extractor.ExtractTextFile | src/deepsearch/indexing/extractor.py:167-193 | the encoding loop returns the specified text: the first decoded read, "" on another read error, and the lenient UTF-8 read when every encoding fails |
| Extractor.ExtractPdf | src/deepsearch/indexing/extractor.py:100-114 | each page's text followed by a newline, stripped; "" when the reader raises |
| Extractor.LStripAppend | src/deepsearch/indexing/extractor.py:111 | appending a character commutes with a non-empty `lstrip` |
| Extractor.StripDropsTrailingSpace | src/deepsearch/indexing/extractor.py:110-111 | a trailing whitespace character never survives `strip()` |
| Extractor.PdfSinglePage | src/deepsearch/indexing/extractor.py:109-111 | a one-page PDF yields that page's text, stripped |
| Extractor.DocxText | src/deepsearch/indexing/extractor.py:116-127 | "" when the parser raises; one paragraph gives that paragraph stripped; the result never starts or ends with whitespace |
| Extractor.AppendItems | src/deepsearch/indexing/extractor.py:138-161 | the inner loop appends each non-blank item's text and a newline, in order |
| Extractor.AssembleLines | src/deepsearch/indexing/extractor.py:136-161 | the nested loop assembles every group's items in order |
| Extractor.BlankItemsContributeNothing | src/deepsearch/indexing/extractor.py:140-160 | blank rows and blank shapes add nothing |
| Extractor.BlankGroupsContributeNothing | src/deepsearch/indexing/extractor.py:137-161 | when every item is blank, nothing is assembled |
| Extractor.PresentCells | src/deepsearch/indexing/extractor.py:139 | the cells that hold a value, never more than the row has |
| Extractor.EmptyRowIsBlank | src/deepsearch/indexing/extractor.py:139-140 | a row without a valued cell gives the empty text and is skipped |
| Extractor.ExtractXlsx | src/deepsearch/indexing/extractor.py:129-146 | each sheet's rows as their valued cells joined by single spaces, blank rows skipped, one per line, stripped; "" when the workbook cannot be loaded |
| Extractor.EmptyWorkbookText | src/deepsearch/indexing/extractor.py:137-143 | a workbook with no valued cell yields "" |
| Extractor.ExtractPptx | src/deepsearch/indexing/extractor.py:148-165 | each slide's shapes with non-blank text, one per line, stripped; "" when the presentation cannot be loaded |
| Extractor.TextlessSlidesText | src/deepsearch/indexing/extractor.py:158-160 | shapes without a text attribute never contribute |
| Extractor.AppendStreamOutputs | src/deepsearch/indexing/extractor.py:226-233 | only "stream" outputs add their text and a newline, in order |
| Extractor.ExtractNotebook | src/deepsearch/indexing/extractor.py:195-241 | markdown cells add their source and a blank line, code cells their source, a blank line and their stream outputs; the result is stripped; "" when the notebook cannot be read |
| Extractor.ContributingCells | src/deepsearch/indexing/extractor.py:207-223 | the markdown and code cells, in order |
| Extractor.OnlyMarkdownAndCodeCount | src/deepsearch/indexing/extractor.py:206-223 | dropping every cell that is neither markdown nor code leaves the notebook text unchanged |
| Extractor.NotebookRouteOnlyForOtherMimes | src/deepsearch/indexing/extractor.py:87-92 | a text/* or JSON MIME type takes the plain-text path even for ".ipynb"; the notebook path is taken exactly for ".ipynb" names whose type matched no earlier branch |
| Extractor.CanExtractMatchesRouting | src/deepsearch/indexing/extractor.py:243-254 | `can_extract` holds iff the type is one of the six listed or starts with "text/", which is exactly when routing reaches an extractor by type alone |
| Extractor.ExtractionErrors | src/deepsearch/indexing/extractor.py:66-103 | extraction raises exactly when MIME detection fails or the routed document type's library is missing; otherwise the detected type is reported, and an unrouted type gives "" |
| Extractor.TextExtractor.constructor | src/deepsearch/indexing/extractor.py:35-38 | the extractor logs into the logger it is given |
| Extractor.TextExtractor.ExtractText | src/deepsearch/indexing/extractor.py:59-98 | routes pdf, docx, xlsx, pptx, text/*, javascript/json, then ".ipynb", else ""; on an escaping exception it records one failure and returns ("", "unknown"); otherwise the logger is unchanged |
| StandaloneExtraction.RoutesAgreeExceptNotebooks | src/deepsearch/indexing/extraction_standalone.py:43-66 | the standalone dispatch is pdf, docx, xlsx, pptx, then text/* or javascript/json; it agrees with the logging extractor's except that a ".ipynb" file gets no extraction, and it has no notebook branch at all |
| StandaloneExtraction.StandaloneAgreesWithExtractor | src/deepsearch/indexing/extraction_standalone.py:30-165 | a detection failure gives ("", "unknown"); with the needed library present it extracts what the logging extractor does, notebooks aside; a missing library gives "" with the detected type instead of an error |
| StandaloneExtraction.ExtractTextStandalone | src/deepsearch/indexing/extraction_standalone.py:30-165 | the entry point returns the specified (text, MIME type) and records nothing in any logger |
| Indexer.StoredOf | src/deepsearch/indexing/indexer.py:67-79 | the written document carries the metadata's path, type, size and hash, the content, and the clock reading as `indexed_time` |
| Indexer.CountPath | src/deepsearch/indexing/indexer.py:121 | the number of documents `delete_by_term("path", …)` matches, at most the number held |
| Indexer.WithoutPath | src/deepsearch/indexing/indexer.py:121 | removes exactly the documents with that path: the others remain and the length drops by their count |
| Indexer.WithoutPathKeepsOthers | src/deepsearch/indexing/indexer.py:121-122 | deleting a path no document has changes nothing; the count is 0 exactly when no document has the path |
| Indexer.DocumentHash | src/deepsearch/indexing/indexer.py:138-147 | `get_document_hash` always returns None |
| Indexer.ContentHitOf | src/deepsearch/indexing/indexer.py:167-181 | the search dictionary of a ranked document keeps its path, MIME type and score; None when a stored field it reads is missing |
| Indexer.FilenameHitOf | src/deepsearch/indexing/indexer.py:194-205 | the filename-search dictionary keeps path and score and leaves out the MIME type and the created and indexed times |
| Indexer.Search | src/deepsearch/indexing/indexer.py:149-184 | one dictionary per ranked document in rank order; [] when the searcher or a field lookup raises |
| Indexer.SearchByFilename | src/deepsearch/indexing/indexer.py:186-210 | the same with the filename projection; [] on any failure |
| Indexer.SumCountsUpdate | src/deepsearch/indexing/indexer.py:230 | changing one count changes the sum of the counts by the difference |
| Indexer.AddOneKeepsSum | src/deepsearch/indexing/indexer.py:230 | `file_types[t] = file_types.get(t, 0) + 1` raises t's count by one, keeps the others, and raises the total by one |
| Indexer.HistogramCounts | src/deepsearch/indexing/indexer.py:227-230 | the histogram's keys are distinct, each count is the number of documents of that type (a missing type counting as "unknown"), and the counts sum to the number of documents visited |
| Indexer.KeywordIndex.constructor | src/deepsearch/indexing/indexer.py:20-56 | the index opens over the documents already stored and logs into the given logger |
| Indexer.KeywordIndex.AddDocument | src/deepsearch/indexing/indexer.py:58-83 | True iff the writer succeeds; on success the document is appended and nothing is logged; on failure the index is unchanged and one failure is recorded |
| Indexer.KeywordIndex.UpdateDocument | src/deepsearch/indexing/indexer.py:85-110 | True iff the writer succeeds; on success every document with the path is replaced by the new one; on failure the index is unchanged and one failure is recorded |
| Indexer.KeywordIndex.DeleteDocument | src/deepsearch/indexing/indexer.py:112-125 | True iff the writer succeeds and at least one document had the path; those documents are then removed; on failure the index is unchanged and one failure is recorded |
| Indexer.KeywordIndex.GetIndexStats | src/deepsearch/indexing/indexer.py:212-240 | None ({}) exactly when the searcher raises; otherwise the document count, the sum of sizes with missing ones as 0, that sum in GiB, and the file-type histogram |
| Indexer.IndexStatsHistogramTotal | src/deepsearch/indexing/indexer.py:220-235 | the reported `file_types` has distinct keys and counts summing to the number of documents |
| EmbeddingDb.Preview | src/deepsearch/ai/embedding_db.py:160-162 | the preview is the text itself up to 200 characters; a longer text gives its first 200 characters followed by "..." (203 in all) |
| EmbeddingDb.RowOf | src/deepsearch/ai/embedding_db.py:164-182 | the stored row has the chunk's path, index, offsets and metadata, its preview, the clock reading and the configured model name |
| EmbeddingDb.ToIndexDoc | src/deepsearch/ai/chunking.py:25-36 | the index document has the chunk's id and text; its metadata has the chunk's own keys plus the five chunk fields, which win on a clash, and every other key unchanged |
| EmbeddingDb.StoreRowsMeaning | src/deepsearch/ai/embedding_db.py:143-170 | insert-or-replace over a batch: an id no stored chunk has keeps its row or its absence; an id that was stored holds the row of the last chunk stored under it |
| EmbeddingDb.DistinctIdsAllStored | src/deepsearch/ai/embedding_db.py:143-144 | with distinct chunk ids every chunk whose insert went through has its own row |
| EmbeddingDb.RemoveDocs | src/deepsearch/ai/embedding_db.py:295-301 | a document is removed exactly when its id is among the selected ids and its deletion went through; a failing deletion is skipped |
| EmbeddingDb.RowsWithout | src/deepsearch/ai/embedding_db.py:304-309 | no row for the path remains, every other row is kept unchanged and no row is added |
| EmbeddingDb.Get | src/deepsearch/ai/embedding_db.py:227-230 | `metadata.get(key)` is Some of the value exactly when the key is present |
| EmbeddingDb.EffectiveTopK | src/deepsearch/ai/embedding_db.py:206 | a missing or zero `top_k` falls back to the configured value; any other value is used as given |
| EmbeddingDb.EffectiveThreshold | src/deepsearch/ai/embedding_db.py:207 | a missing or zero threshold falls back to the configured value; any other value is used as given |
| EmbeddingDb.FileTypeDistribution | src/deepsearch/ai/embedding_db.py:343-354 | the histogram has a key for exactly the file types present (not null) in the rows' metadata, each mapped to the number of rows with it |
| EmbeddingDb.Passing | src/deepsearch/ai/embedding_db.py:234-236 | the passing nodes are exactly the nodes scoring at least the threshold |
| EmbeddingDb.DeleteEffectClearsPath | src/deepsearch/ai/embedding_db.py:282-323 | a delete that selects and removes rows leaves no row for the path; rows of other paths are kept; nothing is added to either store; success implies the id query ran |
| EmbeddingDb.SingleModelCountsAll | src/deepsearch/ai/embedding_db.py:329-357 | with a single embedding model the reported `total_chunks` is the number of rows in the table |
| EmbeddingDb.VectorDatabase.constructor | src/deepsearch/ai/embedding_db.py:23-43 | opens over the table and the index found on disk with the given configuration |
| EmbeddingDb.VectorDatabase.StoreChunkMetadata | src/deepsearch/ai/embedding_db.py:156-189 | a successful insert sets the chunk id's row to `RowOf` the chunk (replacing any old one); a failing one leaves the table unchanged; the index is never touched |
| EmbeddingDb.VectorDatabase.AddChunks | src/deepsearch/ai/embedding_db.py:121-154 | no chunks: True and no change; an index insert that raises: False, with the earlier documents inserted and no row written; otherwise every document is inserted in order, the rows are stored, and the result is whether the persist succeeded |
| EmbeddingDb.VectorDatabase.ChunkMetadataFor | src/deepsearch/ai/embedding_db.py:245-268 | metadata is returned exactly when the lookup succeeds and a row exists, and it is that row's file metadata, indexed time and model |
| EmbeddingDb.VectorDatabase.HitOf | src/deepsearch/ai/embedding_db.py:223-232 | the result has the node's id, text and score (0.0 when it has none), its metadata fields looked up with `get`, and the row metadata |
| EmbeddingDb.VectorDatabase.KeptExactly | src/deepsearch/ai/embedding_db.py:219-236 | the kept results are the hits of exactly the nodes scoring at least the threshold, in engine order, each at or above the threshold |
| EmbeddingDb.VectorDatabase.SimilaritySearch | src/deepsearch/ai/embedding_db.py:205-243 | a query that raises gives []; otherwise the result is the threshold-filtered hits of the nodes retrieved for the effective top k |
| EmbeddingDb.VectorDatabase.DeleteDocumentChunks | src/deepsearch/ai/embedding_db.py:280-323 | a failing id query gives False with nothing changed; no rows for the path gives True with nothing changed; otherwise the documents with those ids are removed, the rows go only if their deletion succeeds, and the result is whether both the row deletion and the persist succeeded |
| EmbeddingDb.VectorDatabase.DatabaseStats | src/deepsearch/ai/embedding_db.py:325-367 | nothing when a query raises; an empty table reports 0, 0 and no model; otherwise the counts and model of the first model group; the file type histogram in both cases |
| HybridSearch.KeywordResults | src/deepsearch/search/hybrid_search.py:108-122 | one result per keyword hit, in backend order, with the hit's path, file name, file type, extension, size and modification time, rank i+1, the raw score as both keyword and combined score, semantic score 0, no chunk, and the given search type |
| HybridSearch.LastComponentShape | src/deepsearch/search/hybrid_search.py:145 | `split("/")[-1]` gives the longest slash-free suffix of the path: the whole path when it has no slash, otherwise the text after the last slash |
| HybridSearch.GetOrDefault | src/deepsearch/search/hybrid_search.py:146-157 | `get(key, default)` gives the stored value when the key is present and the default otherwise |
| HybridSearch.SemanticResultsMeaning | src/deepsearch/search/hybrid_search.py:138-171 | one result per similarity hit, in order, with its source path, rank i+1, the similarity as semantic and combined score, the chunk id and text, type "semantic"; no result at all when some hit has no string path (the error is caught) |
| HybridSearch.NormalizeWeights | src/deepsearch/search/hybrid_search.py:179-185 | a total weight of zero or less falls back to 0.6 and 0.4 |
| HybridSearch.NormalizeWeightsProportional | src/deepsearch/search/hybrid_search.py:179-182 | with a positive total the normalised weights sum to 1 and each is its weight divided by the total |
| HybridSearch.MergedMap | src/deepsearch/search/hybrid_search.py:213-243 | the merge dictionary is well formed: its insertion order lists each key once, and each entry is keyed by its own path |
| HybridSearch.InOrder | src/deepsearch/search/hybrid_search.py:246 | `list(results_map.values())` has one value per key, in insertion order |
| HybridSearch.InsertSorted | src/deepsearch/search/hybrid_search.py:247 | inserting into a list sorted by descending combined score keeps it sorted |
| HybridSearch.SortPermutes | src/deepsearch/search/hybrid_search.py:247 | the sort is a permutation of its input |
| HybridSearch.SortSorted | src/deepsearch/search/hybrid_search.py:247 | the sort orders by combined score, highest first |
| HybridSearch.SortStable | src/deepsearch/search/hybrid_search.py:247 | the sort is stable: the results with any one score keep their relative order |
| HybridSearch.SortDistinct | src/deepsearch/search/hybrid_search.py:247 | sorting keeps each path once |
| HybridSearch.AddKeywordKeys | src/deepsearch/search/hybrid_search.py:216-217 | after the keyword loop the keys are exactly the paths of the keyword results |
| HybridSearch.AddKeywordLast | src/deepsearch/search/hybrid_search.py:216-217 | a keyword result that no later keyword result shares a path with is stored under its path, so a repeated path keeps its last result |
| HybridSearch.AddSemanticKeys | src/deepsearch/search/hybrid_search.py:220-243 | after the semantic loop the keys are the earlier keys together with the paths of the semantic results |
| HybridSearch.AddSemanticFirstLast | src/deepsearch/search/hybrid_search.py:220-243 | for a path whose first semantic result is i and last is j: the entry is result j merged into the earlier entry; with no earlier entry it is result i stored as semantic-only, with j merged into it when j differs from i |
| HybridSearch.CombinedDistinct | src/deepsearch/search/hybrid_search.py:213-249 | the combined list holds each path once |
| HybridSearch.CombinedPaths | src/deepsearch/search/hybrid_search.py:213-249 | a path is in the combined list if and only if it is in the keyword list or the semantic list |
| HybridSearch.BothListsMerged | src/deepsearch/search/hybrid_search.py:216-236 | a path in both lists gives one "hybrid" result built from its last keyword result and its last semantic result: it keeps the keyword score, takes the semantic score and chunk, and combines them as kw * keyword + sw * semantic |
| HybridSearch.KeywordOnlyUnchanged | src/deepsearch/search/hybrid_search.py:216-246 | the last keyword result for a path that no semantic result has appears in the combined list unchanged |
| HybridSearch.SemanticOnlyWeighted | src/deepsearch/search/hybrid_search.py:237-243 | a path that only one semantic result and no keyword result has appears as a "semantic" result scored sw * semantic score |
| HybridSearch.SemanticChunksMerged | src/deepsearch/search/hybrid_search.py:220-243 | a path that two or more semantic results and no keyword result have gives one "hybrid" entry: the first result with the last one merged in, scored kw * the first one's keyword score + sw * the last one's semantic score, which is sw * that score when the keyword score is 0.0 |
| HybridSearch.TwoChunksOneFile | src/deepsearch/search/hybrid_search.py:220-243 | two semantic chunks of one file and no keyword results give exactly one entry, marked "hybrid", scored kw * the first chunk's keyword score + sw * the second chunk's semantic score |
| HybridSearch.CombinedOrdered | src/deepsearch/search/hybrid_search.py:246-249 | the combined list is sorted by descending combined score, and ties keep the dictionary's insertion order |
| HybridSearch.KeywordInOrder | src/deepsearch/search/hybrid_search.py:213-246 | with distinct paths and no semantic results the dictionary's values are the keyword results in their own order |
| HybridSearch.AddKeywordFirstOrder | src/deepsearch/search/hybrid_search.py:216-217 | the dictionary's keys are in order of each path's first keyword result |
| HybridSearch.KeywordDictShape | src/deepsearch/search/hybrid_search.py:213-217 | the keyword loop's dictionary, read as a list, has each keyword path exactly once, ordered by the path's first result and holding its last result |
| HybridSearch.HybridWithoutVector | src/deepsearch/search/hybrid_search.py:188-201 | without a vector store the hybrid search sorts the keyword results for limit * 2 by score and cuts them at `limit`, keeping one result per path: the path's last result, placed where its first result was |
| HybridSearch.HybridWithoutVectorDistinct | src/deepsearch/search/hybrid_search.py:188-201 | when the keyword hits have distinct paths, that is the first `limit` of the keyword results themselves, sorted by score |
| HybridSearch.HybridSearchManager.constructor | src/deepsearch/search/hybrid_search.py:46-66 | a vector searcher exists exactly when embeddings are enabled and the vector database opens |
| HybridSearch.HybridSearchManager.KeywordSearchOnly | src/deepsearch/search/hybrid_search.py:103-128 | the keyword hits mapped in order with type "keyword" |
| HybridSearch.HybridSearchManager.SearchByFilename | src/deepsearch/search/hybrid_search.py:251-278 | the file name hits mapped in order with type "filename" |
| HybridSearch.HybridSearchManager.SemanticSearchOnly | src/deepsearch/search/hybrid_search.py:130-171 | without a vector searcher it falls back to the keyword search; otherwise it gives the semantic mapping of the similarity hits |
| HybridSearch.HybridSearchManager.CombineSearchResults | src/deepsearch/search/hybrid_search.py:203-249 | the dictionary filled result by result and its values sorted give the combined list the lemmas above describe |
| HybridSearch.HybridSearchManager.HybridSearch | src/deepsearch/search/hybrid_search.py:173-201 | the combined keyword and semantic results for 2 * limit under the normalised weights, cut to `limit`; never more than `limit` results |
| HybridSearch.HybridSearchManager.Search | src/deepsearch/search/hybrid_search.py:68-101 | "keyword" and "semantic" route to their searches (semantic falling back to keyword without a vector searcher); any other type routes to the hybrid search |
| Manager.AddOrUpdate | src/deepsearch/indexing/manager.py:95-101 | a file that reaches the write is added exactly when the operation is "create" or the path is not yet indexed, and updated exactly otherwise |
| Manager.Track | src/deepsearch/indexing/manager.py:62-110 | only the path's membership of the indexed set changes; a delete moves no counter and drops the path exactly when a document was deleted; every other branch moves one counter by one, or none after a failed write; only a successful add records the path; a skip counts as skipped, a file without metadata or one that raised counts as failed, and neither records the path |
| Manager.ExtractionErrors | src/deepsearch/indexing/manager.py:81-90 | the process-pool route records no failure; the logging extractor records at most one |
| Manager.BulkJob | src/deepsearch/indexing/manager.py:206-211 | the bulk job for a file is a LOW priority "create" job for that path |
| Manager.JobsForAppend | src/deepsearch/indexing/manager.py:200-212 | the jobs for two lists of files are the jobs for each, concatenated |
| Manager.FlattenCons | src/deepsearch/indexing/manager.py:200-201 | concatenating a batch before the rest gives the batch followed by the rest's files |
| Manager.BatchesFromShape | src/deepsearch/indexing/manager.py:200-201 | the batches from a start on are non-empty, hold at most `batch_size` files (all but the last exactly that many) and concatenate to the rest of the list |
| Manager.BatchesShape | src/deepsearch/indexing/manager.py:199-201 | the batches concatenate to the discovered list, each holds 1 to `batch_size` files, and there are ceil(n / batch_size) of them |
| Manager.BatchCount | src/deepsearch/indexing/manager.py:200 | the number of batches b satisfies (b - 1) * size < n <= b * size |
| Manager.JobsForEachFileOnce | src/deepsearch/indexing/manager.py:199-212 | every discovered file is enqueued exactly once, in order, as a LOW priority "create" job |
| Manager.IndexStatsDict | src/deepsearch/indexing/indexer.py:212-240 | the index statistics dictionary has its four keys, and is empty when the searcher raises |
| Manager.RuntimeStats | src/deepsearch/indexing/manager.py:299-306 | the runtime dictionary has exactly the six runtime keys |
| Manager.MergeDicts | src/deepsearch/indexing/manager.py:308 | `{**first, **second}` has every key of either, the second's value winning on a clash |
| Manager.RuntimeStatsEntries | src/deepsearch/indexing/manager.py:299-306 | each runtime key holds its counter, the indexed set's size, the queue size or the running flag |
| Manager.StatsReportEntries | src/deepsearch/indexing/manager.py:296-308 | the report keeps every runtime entry as it is, and the index's entries when its searcher opened |
| Manager.SmartFileIndexer.constructor | src/deepsearch/indexing/manager.py:28-55 | a fresh logger ("deepsearch_indexer", "indexing"), extractor, index and queue sharing that logger; the default configuration when none is given; nothing indexed and every counter at zero |
| Manager.SmartFileIndexer.ProcessFile | src/deepsearch/indexing/manager.py:57-110 | the counters and indexed set follow `Track` for the branch taken; a delete touches only the keyword index; skipped files and files without metadata touch neither index nor logger; an escaping exception is logged as a failure; an add or update writes the extracted text with the extracted MIME type and logs the file as processed, even when the write fails |
| Manager.SmartFileIndexer.DeleteFile | src/deepsearch/indexing/manager.py:62-67 | the path leaves the indexed set exactly when a document was deleted; no counter moves; a writer error is logged |
| Manager.SmartFileIndexer.IndexFile | src/deepsearch/indexing/manager.py:80-106 | the extracted text is written with the extracted MIME type, the bookkeeping follows `Track`, and the logger records the extraction and writer failures and then the processed file |
| Manager.SmartFileIndexer.Extract | src/deepsearch/indexing/manager.py:81-90 | the text and MIME type of the configured executor; the logger gains only that executor's failures |
| Manager.SmartFileIndexer.Write | src/deepsearch/indexing/manager.py:94-103 | "create" or an unseen path is added and recorded on success, anything else is updated; a successful write counts as processed; the index holds what the writer left |
| Manager.SmartFileIndexer.BulkIndex | src/deepsearch/indexing/manager.py:160-227 | the session and the start time are reset; no files gives no summary and no jobs; a zero batch size raises; a negative one enqueues nothing; otherwise every file is enqueued as a LOW "create" job in order and the session summary is returned |
| Manager.SmartFileIndexer.EnqueueBatch | src/deepsearch/indexing/manager.py:205-212 | the queue gains one LOW "create" job per file of the batch, in order |
| Manager.SmartFileIndexer.EnqueueBatches | src/deepsearch/indexing/manager.py:199-212 | walking the `range` starts batch by batch the queue gains the jobs for all the files, in order |
| Manager.SmartFileIndexer.GetStats | src/deepsearch/indexing/manager.py:296-308 | the index statistics merged with the runtime statistics, which win on a clash |
| EnhancedManager.StoredFlags | src/deepsearch/ai/embedding_db.py:143-144 | one insert outcome per chunk |
| EnhancedManager.EnhancedTrack | src/deepsearch/indexing/enhanced_manager.py:59-171 | only the path's membership changes; a delete moves no counter and drops the path exactly when both stores report success; every other branch moves one counter by one; a successful add or update counts as processed and records the path (an update included), a failed one counts as failed and leaves the set; a skip counts as skipped, a file without metadata or one that raised counts as failed, and neither records the path |
| EnhancedManager.TracksAgree | src/deepsearch/indexing/enhanced_manager.py:160-171 | the enhanced bookkeeping equals the keyword-only manager's, except that a failed add or update also counts as failed |
| EnhancedManager.ChunkFileMetadata | src/deepsearch/indexing/enhanced_manager.py:127-135 | the chunk metadata has exactly the seven keys, holding the file name, extension, type, MIME type, size and both times |
| EnhancedManager.ReindexReplacesRows | src/deepsearch/indexing/enhanced_manager.py:120-143 | after a successful delete and insert the file's rows are exactly its new chunks' ids, each holding its stored chunk's row, and rows of other files are kept |
| EnhancedManager.EnhancedIndexingManager.constructor | src/deepsearch/indexing/enhanced_manager.py:21-51 | the base manager is built as before; the default AI configuration when none is given; the chunker and the vector database exist exactly when embeddings are enabled and the database opens, with the configured chunk size and overlap |
| EnhancedManager.EnhancedIndexingManager.ProcessFile | src/deepsearch/indexing/enhanced_manager.py:53-84 | the bookkeeping follows `EnhancedTrack`; a delete goes to both stores; a skipped file, a file without metadata or an escaping exception touches no store and records nothing in the logger; an add or update writes the keyword index and re-chunks non-blank text into the vector database |
| EnhancedManager.EnhancedIndexingManager.DeleteEverywhere | src/deepsearch/indexing/enhanced_manager.py:59-72 | the keyword delete and the vector delete both run; the path leaves the indexed set only when both report success; no counter moves |
| EnhancedManager.EnhancedIndexingManager.ProcessFileEnhanced | src/deepsearch/indexing/enhanced_manager.py:86-171 | skip, missing metadata and add/update branches as in `ProcessFile`, with the extraction and writer failures logged and no processed-file log entry |
| EnhancedManager.EnhancedIndexingManager.IndexFile | src/deepsearch/indexing/enhanced_manager.py:100-171 | the extracted text and MIME type go to both indexes, the bookkeeping follows `EnhancedTrack`, and the vector database is untouched for blank text or a missing chunker |
| EnhancedManager.EnhancedIndexingManager.IndexBoth | src/deepsearch/indexing/enhanced_manager.py:112-171 | the keyword write, then the vector re-index when the store, the chunker and non-blank text are all there, then the counters by the keyword outcome alone |
| EnhancedManager.EnhancedIndexingManager.WriteKeyword | src/deepsearch/indexing/enhanced_manager.py:113-117 | the add or update succeeds exactly when the writer does; the index holds what the writer left and a writer error is logged |
| EnhancedManager.EnhancedIndexingManager.IndexVectors | src/deepsearch/indexing/enhanced_manager.py:122-158 | the file's old chunks are deleted (the result ignored), then, unless the chunker raises, its chunks are added when there are any |

## Left out

- Text.Lower: only A-Z are lower-cased. Python's Unicode case mapping is not modelled, because the model has no Unicode tables; file suffixes and exclusion entries are ASCII in practice.
- Concurrency and scheduling are not modelled: the asyncio queue's blocking and capacity, `run_in_executor` with the process and thread pools, `process_queue`, `start`/`stop`, `start_monitoring`/`stop_monitoring`, the watchdog observer, timeouts and task creation. Each job is one sequential `ProcessFile` call, and the executor that runs an extraction is chosen by `use_process_pool`.
- Manager.SmartFileIndexer.BulkIndex: the discovered file list is a parameter. `os.walk` with its directory pruning, the existence checks of the monitored paths and the per-directory scan logging are file system I/O. One clock reading stands for the per-job `datetime.now()` values. The summary is read right after the jobs are queued, because draining the queue is `process_queue`'s concurrent work.
- Bulk progress logging (`log_progress` every ten batches, `log_directory_scan`) and the `batch_count` counter are not modelled, because they only feed log messages.
- Informational, debug and warning log messages (`logger.info`, `debug`, `warning`, plain `error`) and the performance logger are not modelled, because they change no state the model tracks. The model does track the recorded metrics and errors (`log_file_processed`, `log_file_failed`).
- MD5 hashing (RFC 1321) in `calculate_file_hash` is not modelled. Its result, or its failure, is a parameter of the file facts.
- Floating point is modelled as `real`: the GiB total, the per-second rates, the weights and the scores. Nothing is claimed about rounding or about `%.1f`-style formatting. `str()` of timestamps is not modelled: times are carried as numbers (`VReal`), not as their string form.
- The libraries are not modelled: Whoosh indexing, query parsing and ranking; llama_index embeddings, sentence splitting, document insertion, deletion and `persist`; the SQLite engine and `json_extract`; python-magic; PyPDF2, python-docx, openpyxl, python-pptx and JSON parsing. Their answers are parameters.
- EmbeddingDb.VectorDatabase.AddChunks: a chunk whose id is already in the vector index is added again, as a second document. How llama_index treats a duplicate id is part of the library. All rows of one call share one clock reading, where the source calls `datetime.now()` for each row.
- EmbeddingDb.SourceNode: a node's score is either a number or absent, and an absent score counts as 0.0. A score attribute that is present but holds None is not modelled: the threshold comparison would raise on it, and the search would return [].
- EmbeddingDb.VectorDatabase.DatabaseStats: SQLite does not specify the order of `GROUP BY` groups, so the model of the group listed first is a parameter.
- Manager.IndexStatsDict: `file_types` is carried as a map, so the insertion order of the dictionary that `get_index_stats` builds is not kept. No contract depends on that order.
- Vector database construction failures, `close`, and embedding model setup are not modelled. They are carried only as the flag saying whether the database opened.
- EnhancedManager.EnhancedIndexingManager.IndexVectors: an exception from the chunker is the flag `chunkerRaises`. `delete_document_chunks` and `add_chunks` catch their own errors, so the vector part raises nothing else.
- HybridSearch.HybridSearchManager.Search: the outer `except` that returns [] is not modelled. The backends' own handlers already turn every failure into [] (`Indexer.Search`), and so does a semantic hit without a string path (`HybridSearch.SemanticResultsMeaning`). No further exception is left to raise.
- `get_search_stats`, `close`, and the plain manager's `search`, `search_by_filename` and `optimize_index` delegations are not modelled, because they are one-line calls into the backends. The keyword searches themselves are modelled in `Indexer`. `_log_performance_stats` only writes log lines.
- `get_enhanced_stats` is not modelled. It is a dictionary report built from `get_stats` and `get_database_stats`, which are both modelled (`Manager.SmartFileIndexer.GetStats`, `EmbeddingDb.VectorDatabase.DatabaseStats`).
- `bulk_index_enhanced` is not modelled. It is `bulk_index` followed by a log line.
- `stop_enhanced` is not modelled. It is `stop` (concurrency) followed by `close`.
- The keyword index's `document_exists`, `optimize_index` and `close` are not modelled. They are single backend calls that the modelled protocol does not use.
- Logging handler and file setup and log directory listing are not modelled, because they are file system I/O. A test script expects a `test_module` log directory that the code does not create. The model follows the code (`Logger.CustomModuleLogsToGeneral`).
- Manager.SmartFileIndexer.BulkIndex: a batch size of 0 makes `range` raise `ValueError`. The model returns `ZeroBatchSize` for that case instead of an exception.
- Pydantic configuration parsing, field validation and path expansion are not modelled. The configurations are records holding the shipped defaults.
- The extractor's dependency check is not modelled, because it only logs warnings at construction. The standalone extractor's failure `print` is not modelled either, because it only prints.
- HybridSearch.Combined: the merge updates the result objects in place, so the keyword and semantic lists the caller handed in also see the merged fields. The model works on values and does not capture that sharing; it states only the returned list.
- Scripts, demos and package re-exports are not modelled.
