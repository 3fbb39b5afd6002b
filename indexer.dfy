/** The keyword index wrapper: result contracts of its writer operations,
    the hash stub, the search result projections and the aggregation in
    its statistics. The full-text engine itself (tokenising, query
    parsing, ranking) is not part of this model: what it answers is a
    parameter, and a writer or searcher that raises is `Some(message)` or
    a failure flag. */
module Indexer {
  import opened Wrappers
  import opened Seqs
  import opened Models
  import opened Logger

  /** One stored document. The content is indexed but not stored; it is kept
      here for the ranking engine. `fileType` and `size` are optional
      because an index opened from disk may hold documents without them. */
  datatype StoredDoc = StoredDoc(
    path: string,
    filename: string,
    extension: string,
    fileType: Option<string>,
    mimeType: string,
    size: Option<int>,
    modifiedTime: real,
    createdTime: real,
    contentHash: Option<string>,
    indexedTime: real,
    content: string)

  /** The document `add_document` / `update_document` write for `m`. */
  function StoredOf(m: FileMetadata, content: string, now: real): (d: StoredDoc)
    ensures d.path == m.path && d.fileType == Some(m.fileType) && d.size == Some(m.size)
    ensures d.contentHash == m.contentHash && d.indexedTime == now && d.content == content
  {
    StoredDoc(m.path, m.filename, m.extension, Some(m.fileType), m.mimeType, Some(m.size),
              m.modifiedTime, m.createdTime, m.contentHash, now, content)
  }

  /** Number of stored documents whose path is `p`. */
  function CountPath(docs: seq<StoredDoc>, p: string): (n: nat)
    ensures n <= |docs|
  {
    if docs == [] then 0
    else CountPath(docs[..|docs| - 1], p) + (if docs[|docs| - 1].path == p then 1 else 0)
  }

  /** The documents left after deleting every document whose path is `p`. */
  function WithoutPath(docs: seq<StoredDoc>, p: string): (r: seq<StoredDoc>)
    ensures |r| == |docs| - CountPath(docs, p)
    ensures forall d :: d in r <==> d in docs && d.path != p
  {
    if docs == [] then []
    else
      var n := |docs| - 1;
      WithoutPath(docs[..n], p) + (if docs[n].path == p then [] else [docs[n]])
  }

  /** Deleting a path keeps every other document, in order, and deleting a
      path no document has changes nothing. */
  lemma {:induction false} WithoutPathKeepsOthers(docs: seq<StoredDoc>, p: string)
    ensures CountPath(docs, p) == 0 ==> WithoutPath(docs, p) == docs
    ensures CountPath(docs, p) == 0 <==> forall d :: d in docs ==> d.path != p
  {
    if docs != [] {
      var n := |docs| - 1;
      WithoutPathKeepsOthers(docs[..n], p);
      assert docs == docs[..n] + [docs[n]];
    }
  }

  /** `get_document_hash` is a stub: it never reports a stored hash, so no
      caller can skip an unchanged file by comparing hashes. */
  function DocumentHash(path: string): (r: Option<string>)
    ensures r.None?
  {
    None
  }

  /** One search result dictionary. A filename search leaves out the MIME
      type and the created and indexed times (None here). */
  datatype KeywordHit = KeywordHit(
    path: string,
    filename: string,
    extension: string,
    fileType: string,
    mimeType: Option<string>,
    size: int,
    modifiedTime: real,
    createdTime: Option<real>,
    indexedTime: Option<real>,
    score: real)

  /** The content-search dictionary for a ranked document; None when a
      field it reads is not stored (the lookup raises). */
  function ContentHitOf(d: StoredDoc, score: real): (r: Option<KeywordHit>)
    ensures r.Some? <==> d.fileType.Some? && d.size.Some?
    ensures r.Some? ==> r.value.path == d.path && r.value.score == score
                        && r.value.mimeType == Some(d.mimeType)
  {
    if d.fileType.Some? && d.size.Some? then
      Some(KeywordHit(d.path, d.filename, d.extension, d.fileType.value, Some(d.mimeType),
                      d.size.value, d.modifiedTime, Some(d.createdTime), Some(d.indexedTime), score))
    else None
  }

  /** The filename-search dictionary for a ranked document. */
  function FilenameHitOf(d: StoredDoc, score: real): (r: Option<KeywordHit>)
    ensures r.Some? <==> d.fileType.Some? && d.size.Some?
    ensures r.Some? ==> r.value.path == d.path && r.value.score == score
                        && r.value.mimeType.None? && r.value.createdTime.None?
  {
    if d.fileType.Some? && d.size.Some? then
      Some(KeywordHit(d.path, d.filename, d.extension, d.fileType.value, None,
                      d.size.value, d.modifiedTime, None, None, score))
    else None
  }

  predicate AllProjectable(ranked: seq<(StoredDoc, real)>) {
    forall i :: 0 <= i < |ranked| ==> ranked[i].0.fileType.Some? && ranked[i].0.size.Some?
  }

  /** `search`: one dictionary per ranked document, in rank order; [] when
      the searcher raises (`ranked` is None) or any lookup raises. */
  function Search(ranked: Option<seq<(StoredDoc, real)>>): (r: seq<KeywordHit>)
    ensures ranked.None? || !AllProjectable(ranked.value) ==> r == []
    ensures ranked.Some? && AllProjectable(ranked.value) ==>
              |r| == |ranked.value| &&
              forall i :: 0 <= i < |r| ==> Some(r[i]) == ContentHitOf(ranked.value[i].0, ranked.value[i].1)
  {
    if ranked.None? || !AllProjectable(ranked.value) then []
    else
      var q := ranked.value;
      seq(|q|, i requires 0 <= i < |q| => ContentHitOf(q[i].0, q[i].1).value)
  }

  /** `search_by_filename`: the same, with the filename projection. */
  function SearchByFilename(ranked: Option<seq<(StoredDoc, real)>>): (r: seq<KeywordHit>)
    ensures ranked.None? || !AllProjectable(ranked.value) ==> r == []
    ensures ranked.Some? && AllProjectable(ranked.value) ==>
              |r| == |ranked.value| &&
              forall i :: 0 <= i < |r| ==> Some(r[i]) == FilenameHitOf(ranked.value[i].0, ranked.value[i].1)
  {
    if ranked.None? || !AllProjectable(ranked.value) then []
    else
      var q := ranked.value;
      seq(|q|, i requires 0 <= i < |q| => FilenameHitOf(q[i].0, q[i].1).value)
  }

  /** `doc.get("size", 0)` and `doc.get("file_type", "unknown")`. */
  function SizeOrZero(d: StoredDoc): int {
    d.size.GetOr(0)
  }

  function TypeOrUnknown(d: StoredDoc): string {
    d.fileType.GetOr("unknown")
  }

  function TotalSize(docs: seq<StoredDoc>): int {
    if docs == [] then 0 else TotalSize(docs[..|docs| - 1]) + SizeOrZero(docs[|docs| - 1])
  }

  /** A counting dictionary: keys in insertion order and their counts. */
  datatype Counter = Counter(keys: seq<string>, counts: map<string, int>)

  /** `counts[t] = counts.get(t, 0) + 1`: a new key goes to the end. */
  function AddOne(c: Counter, t: string): Counter {
    if t in c.counts then Counter(c.keys, c.counts[t := c.counts[t] + 1])
    else Counter(c.keys + [t], c.counts[t := 1])
  }

  /** The file-type histogram of the documents, in visiting order. */
  function Histogram(docs: seq<StoredDoc>): Counter {
    if docs == [] then Counter([], map[])
    else AddOne(Histogram(docs[..|docs| - 1]), TypeOrUnknown(docs[|docs| - 1]))
  }

  /** Sum of the counts of `keys`. */
  function SumCounts(keys: seq<string>, m: map<string, int>): int
    requires forall k :: k in keys ==> k in m
  {
    if keys == [] then 0 else SumCounts(keys[..|keys| - 1], m) + m[keys[|keys| - 1]]
  }

  ghost predicate WellFormed(c: Counter) {
    Distinct(c.keys) && (forall k :: k in c.keys <==> k in c.counts)
  }

  lemma {:induction false} SumCountsUpdate(keys: seq<string>, m: map<string, int>, t: string, v: int)
    requires Distinct(keys) && forall k :: k in keys ==> k in m
    ensures SumCounts(keys, m[t := v]) ==
            SumCounts(keys, m) + (if t in keys then v - m[t] else 0)
  {
    if keys != [] {
      var n := |keys| - 1;
      assert keys == keys[..n] + [keys[n]];
      SumCountsUpdate(keys[..n], m, t, v);
      if keys[n] == t {
        assert t !in keys[..n];
      }
    }
  }

  lemma AddOneKeepsSum(c: Counter, t: string)
    requires WellFormed(c)
    ensures WellFormed(AddOne(c, t))
    ensures SumCounts(AddOne(c, t).keys, AddOne(c, t).counts) == SumCounts(c.keys, c.counts) + 1
    ensures AddOne(c, t).counts[t] == (if t in c.counts then c.counts[t] else 0) + 1
    ensures forall k :: k != t && k in c.counts ==> AddOne(c, t).counts[k] == c.counts[k]
  {
    if t in c.counts {
      SumCountsUpdate(c.keys, c.counts, t, c.counts[t] + 1);
    } else {
      SumCountsUpdate(c.keys, c.counts, t, 1);
      var keys := c.keys + [t];
      assert keys[..|keys| - 1] == c.keys;
    }
  }

  /** The histogram's keys are distinct, each count is the number of
      documents of that type, and the counts add up to the number of
      documents visited. */
  lemma {:induction false} HistogramCounts(docs: seq<StoredDoc>)
    ensures WellFormed(Histogram(docs))
    ensures SumCounts(Histogram(docs).keys, Histogram(docs).counts) == |docs|
    ensures forall t :: t in Histogram(docs).counts ==>
              Histogram(docs).counts[t] == TypeCount(docs, t)
    ensures forall t :: t in Histogram(docs).counts <==> TypeCount(docs, t) > 0
  {
    if docs != [] {
      var n := |docs| - 1;
      HistogramCounts(docs[..n]);
      AddOneKeepsSum(Histogram(docs[..n]), TypeOrUnknown(docs[n]));
    }
  }

  /** Number of documents whose reported type is `t`. */
  function TypeCount(docs: seq<StoredDoc>, t: string): nat {
    if docs == [] then 0
    else TypeCount(docs[..|docs| - 1], t) + (if TypeOrUnknown(docs[|docs| - 1]) == t then 1 else 0)
  }

  datatype IndexStats = IndexStats(
    totalDocuments: int,
    totalSize: int,
    totalSizeGb: real,
    fileTypeOrder: seq<string>,
    fileTypes: map<string, int>)

  /** The statistics `get_index_stats` computes over the stored documents. */
  function IndexStatsOf(docs: seq<StoredDoc>): IndexStats {
    IndexStats(|docs|, TotalSize(docs), TotalSize(docs) as real / (1024 * 1024 * 1024) as real,
               Histogram(docs).keys, Histogram(docs).counts)
  }

  class KeywordIndex {
    var docs: seq<StoredDoc>
    /** The logger failures are recorded in (shared with the manager). */
    const logger: IndexingLogger

    constructor (existing: seq<StoredDoc>, logger: IndexingLogger)
      ensures docs == existing && this.logger == logger
    {
      docs := existing;
      this.logger := logger;
    }

    /** `add_document`: appends the document; a writer error records a
        failure and returns False. */
    method AddDocument(m: FileMetadata, content: string, now: real, writerError: Option<string>)
      returns (ok: bool)
      requires logger.Valid()
      modifies this, logger
      ensures logger.Valid()
      ensures ok <==> writerError.None?
      ensures ok ==> docs == old(docs) + [StoredOf(m, content, now)] && unchanged(logger)
      ensures !ok ==> docs == old(docs) && LoggedFailure(logger, m.path, writerError.value)
    {
      if writerError.Some? {
        logger.LogFileFailed(m.path, writerError.value);
        return false;
      }
      docs := docs + [StoredOf(m, content, now)];
      ok := true;
    }

    /** `update_document`: replaces every document with this path by the new
        one; a writer error records a failure and returns False. */
    method UpdateDocument(m: FileMetadata, content: string, now: real, writerError: Option<string>)
      returns (ok: bool)
      requires logger.Valid()
      modifies this, logger
      ensures logger.Valid()
      ensures ok <==> writerError.None?
      ensures ok ==> docs == WithoutPath(old(docs), m.path) + [StoredOf(m, content, now)]
                     && unchanged(logger)
      ensures !ok ==> docs == old(docs) && LoggedFailure(logger, m.path, writerError.value)
    {
      if writerError.Some? {
        logger.LogFileFailed(m.path, writerError.value);
        return false;
      }
      docs := WithoutPath(docs, m.path) + [StoredOf(m, content, now)];
      ok := true;
    }

    /** `delete_document`: True exactly when at least one document was
        deleted; a writer error records a failure and returns False. */
    method DeleteDocument(path: string, writerError: Option<string>) returns (ok: bool)
      requires logger.Valid()
      modifies this, logger
      ensures logger.Valid()
      ensures ok <==> writerError.None? && CountPath(old(docs), path) > 0
      ensures writerError.None? ==> docs == WithoutPath(old(docs), path) && unchanged(logger)
      ensures writerError.Some? ==> docs == old(docs) && LoggedFailure(logger, path, writerError.value)
    {
      if writerError.Some? {
        logger.LogFileFailed(path, writerError.value);
        return false;
      }
      var deleted := CountPath(docs, path);
      docs := WithoutPath(docs, path);
      ok := deleted > 0;
    }

    /** `get_index_stats`: visits every document, summing sizes (missing
        ones as 0) and counting file types (missing ones as "unknown");
        None (the empty dictionary) when the searcher raises. */
    method GetIndexStats(searcherOk: bool) returns (r: Option<IndexStats>)
      ensures r.Some? <==> searcherOk
      ensures r.Some? ==>
        && r.value.totalDocuments == |docs|
        && r.value.totalSize == TotalSize(docs)
        && r.value.totalSizeGb == TotalSize(docs) as real / (1024 * 1024 * 1024) as real
        && Counter(r.value.fileTypeOrder, r.value.fileTypes) == Histogram(docs)
    {
      if !searcherOk {
        return None;
      }
      var totalSize := 0;
      var keys: seq<string> := [];
      var counts: map<string, int> := map[];
      var i := 0;
      while i < |docs|
        invariant 0 <= i <= |docs|
        invariant totalSize == TotalSize(docs[..i])
        invariant Counter(keys, counts) == Histogram(docs[..i])
      {
        assert docs[..i + 1][..i] == docs[..i];
        var d := docs[i];
        totalSize := totalSize + d.size.GetOr(0);
        var t := d.fileType.GetOr("unknown");
        if t in counts {
          counts := counts[t := counts[t] + 1];
        } else {
          keys := keys + [t];
          counts := counts[t := 1];
        }
        i := i + 1;
      }
      assert docs[..i] == docs;
      r := Some(IndexStats(|docs|, totalSize, totalSize as real / (1024 * 1024 * 1024) as real,
                           keys, counts));
    }
  }

  /** The histogram in the statistics has one key per reported type and
      counts summing to the number of documents. */
  lemma IndexStatsHistogramTotal(docs: seq<StoredDoc>, s: IndexStats)
    requires Counter(s.fileTypeOrder, s.fileTypes) == Histogram(docs)
    ensures Distinct(s.fileTypeOrder)
    ensures forall k :: k in s.fileTypeOrder <==> k in s.fileTypes
    ensures SumCounts(s.fileTypeOrder, s.fileTypes) == |docs|
  {
    HistogramCounts(docs);
  }
}
