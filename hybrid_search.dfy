/** The hybrid search manager: keyword-only, semantic-only and hybrid
    search over the keyword index and the vector database, the merge of
    the two result lists by file path, and the filename search. What the
    keyword searcher and the vector database answer for a query is a
    parameter of the manager. */
module HybridSearch {
  import opened Wrappers
  import opened Values
  import opened Text
  import Indexer
  import EmbeddingDb

  /** The unified search result; the fields that are not set keep their
      defaults: scores 0.0, ranks 0, no chunk. */
  datatype SearchResult = SearchResult(
    path: string,
    filename: string,
    fileType: Value,
    extension: Value,
    size: Value,
    modifiedTime: Value,
    keywordScore: real,
    keywordRank: int,
    semanticScore: real,
    semanticRank: int,
    chunkText: Option<string>,
    chunkId: Option<string>,
    combinedScore: real,
    searchType: string)

  // ---------------------------------------------------------------------
  // Mapping backend results

  /** The result built from the keyword hit at rank `rank`. */
  function FromKeywordHit(h: Indexer.KeywordHit, rank: int, searchType: string): SearchResult {
    SearchResult(h.path, h.filename, VStr(h.fileType), VStr(h.extension), VInt(h.size),
                 VReal(h.modifiedTime), h.score, rank, 0.0, 0, None, None, h.score, searchType)
  }

  /** Keyword hits mapped in backend order: rank i+1, the raw score as both
      keyword and combined score, and the given search type. */
  function KeywordResults(hits: seq<Indexer.KeywordHit>, searchType: string): (r: seq<SearchResult>)
    ensures |r| == |hits|
    ensures forall i :: 0 <= i < |hits| ==>
              && r[i].path == hits[i].path && r[i].filename == hits[i].filename
              && r[i].fileType == VStr(hits[i].fileType) && r[i].extension == VStr(hits[i].extension)
              && r[i].size == VInt(hits[i].size) && r[i].modifiedTime == VReal(hits[i].modifiedTime)
              && r[i].keywordRank == i + 1
              && r[i].keywordScore == hits[i].score && r[i].combinedScore == hits[i].score
              && r[i].semanticScore == 0.0 && r[i].chunkId.None?
              && r[i].searchType == searchType
  {
    seq(|hits|, i requires 0 <= i < |hits| => FromKeywordHit(hits[i], i + 1, searchType))
  }

  /** `path.split("/")[-1]`: the text after the last slash. */
  function LastComponent(s: string): string {
    if s == [] then []
    else if s[|s| - 1] == '/' then []
    else LastComponent(s[..|s| - 1]) + [s[|s| - 1]]
  }

  /** The file name is the longest slash-free suffix of the path: a slash
      precedes it unless it is the whole path. */
  lemma {:induction false} LastComponentShape(s: string)
    ensures var r := LastComponent(s);
            && '/' !in r
            && |r| <= |s| && r == s[|s| - |r|..]
            && ('/' !in s ==> r == s)
            && (|r| < |s| ==> s[|s| - |r| - 1] == '/')
  {
    if s != [] && s[|s| - 1] != '/' {
      var n := |s| - 1;
      LastComponentShape(s[..n]);
      var r0 := LastComponent(s[..n]);
      assert s[..n][n - |r0|..] + [s[n]] == s[n - |r0|..];
      if |r0| < n {
        assert s[..n][n - |r0| - 1] == s[n - |r0| - 1];
      }
    }
  }

  /** `d.get(key, default)` */
  function GetOrDefault(d: Dict, key: string, default: Value): (v: Value)
    ensures key in d ==> v == d[key]
    ensures key !in d ==> v == default
  {
    if key in d then d[key] else default
  }

  /** `result.get("metadata", {}).get("file_metadata", {})` */
  function FileMetadataOf(h: EmbeddingDb.SimilarityHit): Dict {
    match h.metadata
    case NoMetadata => map[]
    case RowMetadata(fileMetadata, _, _) => fileMetadata
  }

  /** A similarity hit whose `source_path` is a string; on any other hit
      `split` raises. */
  predicate HasStringPath(h: EmbeddingDb.SimilarityHit) {
    h.sourcePath.Some? && h.sourcePath.value.VStr?
  }

  /** The result built from a similarity hit at rank `rank`. */
  function FromSimilarityHit(h: EmbeddingDb.SimilarityHit, rank: int): SearchResult
    requires HasStringPath(h)
  {
    var path := h.sourcePath.value.s;
    var fm := FileMetadataOf(h);
    SearchResult(path, LastComponent(path), GetOrDefault(fm, "file_type", VStr("unknown")),
                 GetOrDefault(fm, "extension", VStr("")), GetOrDefault(fm, "size", VInt(0)),
                 GetOrDefault(fm, "modified_time", VStr("")), 0.0, 0, h.score, rank,
                 Some(h.text), Some(h.chunkId), h.score, "semantic")
  }

  /** Every hit has a string source path. */
  predicate AllStringPaths(hits: seq<EmbeddingDb.SimilarityHit>) {
    forall i :: 0 <= i < |hits| ==> HasStringPath(hits[i])
  }

  /** The hits mapped in order, hit i at rank i+1. */
  function SemanticMapped(hits: seq<EmbeddingDb.SimilarityHit>): seq<SearchResult>
    requires AllStringPaths(hits)
  {
    if hits == [] then []
    else
      var n := |hits| - 1;
      SemanticMapped(hits[..n]) + [FromSimilarityHit(hits[n], n + 1)]
  }

  /** The semantic mapping; [] when some hit has no string source path
      (the mapping raises and the error is caught). */
  function SemanticResults(hits: seq<EmbeddingDb.SimilarityHit>): seq<SearchResult> {
    if AllStringPaths(hits) then SemanticMapped(hits) else []
  }

  /** Similarity hits mapped in order: rank i+1, the similarity as semantic
      and combined score, type "semantic", the chunk carried along; no
      result at all when some hit has no string source path. */
  lemma {:induction false} SemanticResultsMeaning(hits: seq<EmbeddingDb.SimilarityHit>)
    ensures var r := SemanticResults(hits);
      && (!AllStringPaths(hits) ==> r == [])
      && (AllStringPaths(hits) ==>
            && |r| == |hits|
            && forall i :: 0 <= i < |hits| ==>
                 && Some(VStr(r[i].path)) == hits[i].sourcePath
                 && r[i].semanticRank == i + 1
                 && r[i].semanticScore == hits[i].score && r[i].combinedScore == hits[i].score
                 && r[i].keywordScore == 0.0
                 && r[i].chunkId == Some(hits[i].chunkId) && r[i].chunkText == Some(hits[i].text)
                 && r[i].searchType == "semantic")
  {
    if AllStringPaths(hits) && hits != [] {
      var n := |hits| - 1;
      assert AllStringPaths(hits[..n]);
      SemanticResultsMeaning(hits[..n]);
    }
  }

  // ---------------------------------------------------------------------
  // Weights

  /** Weight normalisation: proportional weights summing to 1 when the
      total is positive, otherwise 0.6 and 0.4. */
  function NormalizeWeights(keywordWeight: real, semanticWeight: real): (w: (real, real))
    ensures keywordWeight + semanticWeight <= 0.0 ==> w == (0.6, 0.4)
  {
    var total := keywordWeight + semanticWeight;
    if total > 0.0 then (keywordWeight / total, semanticWeight / total) else (0.6, 0.4)
  }

  lemma NormalizeWeightsProportional(keywordWeight: real, semanticWeight: real)
    requires keywordWeight + semanticWeight > 0.0
    ensures var w := NormalizeWeights(keywordWeight, semanticWeight);
            var total := keywordWeight + semanticWeight;
            && w.0 + w.1 == 1.0
            && w.0 * total == keywordWeight && w.1 * total == semanticWeight
  {
    var total := keywordWeight + semanticWeight;
    var w := NormalizeWeights(keywordWeight, semanticWeight);
    assert keywordWeight / total + semanticWeight / total == (keywordWeight + semanticWeight) / total;
  }

  // ---------------------------------------------------------------------
  // Merging by path

  /** The `results_map` dictionary: keys in insertion order and the entry
      for each. */
  datatype Merged = Merged(order: seq<string>, entries: map<string, SearchResult>)

  /** Keys listed once each, exactly the keys of the map, each entry under
      its own path. */
  ghost predicate WellFormed(m: Merged) {
    && (forall i, j :: 0 <= i < j < |m.order| ==> m.order[i] != m.order[j])
    && (forall p :: p in m.entries <==> p in m.order)
    && (forall p :: p in m.entries ==> m.entries[p].path == p)
  }

  const Empty: Merged := Merged([], map[])

  /** `results_map[r.path] = r`: a new key goes to the end, an existing key
      keeps its place. */
  function Put(m: Merged, r: SearchResult): Merged {
    Merged(if r.path in m.entries then m.order else m.order + [r.path], m.entries[r.path := r])
  }

  /** The keyword loop. */
  function AddKeyword(m: Merged, rs: seq<SearchResult>): Merged {
    if rs == [] then m else Put(AddKeyword(m, rs[..|rs| - 1]), rs[|rs| - 1])
  }

  /** A semantic result merged into the existing entry for its path. */
  function MergeInto(existing: SearchResult, s: SearchResult, kw: real, sw: real): SearchResult {
    existing.(semanticScore := s.semanticScore, semanticRank := s.semanticRank,
              chunkText := s.chunkText, chunkId := s.chunkId, searchType := "hybrid",
              combinedScore := kw * existing.keywordScore + sw * s.semanticScore)
  }

  /** A semantic result for a path not yet in the map. */
  function SemanticOnly(s: SearchResult, sw: real): SearchResult {
    s.(searchType := "semantic", combinedScore := sw * s.semanticScore)
  }

  /** One step of the semantic loop: the existing entry is updated in
      place (its key keeps its place), a new path is put at the end. */
  function MergeOne(m: Merged, s: SearchResult, kw: real, sw: real): Merged {
    if s.path in m.entries then Merged(m.order, m.entries[s.path := MergeInto(m.entries[s.path], s, kw, sw)])
    else Put(m, SemanticOnly(s, sw))
  }

  /** The semantic loop. */
  function AddSemantic(m: Merged, rs: seq<SearchResult>, kw: real, sw: real): Merged {
    if rs == [] then m else MergeOne(AddSemantic(m, rs[..|rs| - 1], kw, sw), rs[|rs| - 1], kw, sw)
  }

  /** Putting a result keeps the dictionary well formed. */
  lemma PutWellFormed(m: Merged, r: SearchResult)
    requires WellFormed(m)
    ensures WellFormed(Put(m, r))
  {
  }

  lemma {:induction false} AddKeywordWellFormed(m: Merged, rs: seq<SearchResult>)
    requires WellFormed(m)
    ensures WellFormed(AddKeyword(m, rs))
  {
    if rs != [] {
      AddKeywordWellFormed(m, rs[..|rs| - 1]);
      PutWellFormed(AddKeyword(m, rs[..|rs| - 1]), rs[|rs| - 1]);
    }
  }

  lemma {:induction false} AddSemanticWellFormed(m: Merged, rs: seq<SearchResult>, kw: real, sw: real)
    requires WellFormed(m)
    ensures WellFormed(AddSemantic(m, rs, kw, sw))
  {
    if rs != [] {
      var n := |rs| - 1;
      AddSemanticWellFormed(m, rs[..n], kw, sw);
      var m0 := AddSemantic(m, rs[..n], kw, sw);
      if rs[n].path in m0.entries {
        assert MergeInto(m0.entries[rs[n].path], rs[n], kw, sw).path == rs[n].path;
      } else {
        PutWellFormed(m0, SemanticOnly(rs[n], sw));
      }
    }
  }

  /** The dictionary the two loops leave. */
  function MergedMap(keywordResults: seq<SearchResult>, semanticResults: seq<SearchResult>,
                     kw: real, sw: real): (m: Merged)
    ensures WellFormed(m)
  {
    AddKeywordWellFormed(Empty, keywordResults);
    AddSemanticWellFormed(AddKeyword(Empty, keywordResults), semanticResults, kw, sw);
    AddSemantic(AddKeyword(Empty, keywordResults), semanticResults, kw, sw)
  }

  /** `list(results_map.values())` */
  function InOrder(m: Merged): (r: seq<SearchResult>)
    requires WellFormed(m)
    ensures |r| == |m.order|
  {
    seq(|m.order|, i requires 0 <= i < |m.order| => m.entries[m.order[i]])
  }

  // ---------------------------------------------------------------------
  // Stable descending sort on the combined score

  /** Places `x` before the first element it does not score below. */
  function Insert(x: SearchResult, ys: seq<SearchResult>): seq<SearchResult> {
    if ys == [] || x.combinedScore >= ys[0].combinedScore then [x] + ys
    else [ys[0]] + Insert(x, ys[1..])
  }

  /** `sort(key=combined_score, reverse=True)` */
  function Sort(xs: seq<SearchResult>): seq<SearchResult> {
    if xs == [] then [] else Insert(xs[0], Sort(xs[1..]))
  }

  predicate SortedDesc(xs: seq<SearchResult>) {
    forall i, j :: 0 <= i < j < |xs| ==> xs[i].combinedScore >= xs[j].combinedScore
  }

  /** The elements scoring exactly `s`, in order. */
  function WithScore(xs: seq<SearchResult>, s: real): seq<SearchResult> {
    if xs == [] then [] else (if xs[0].combinedScore == s then [xs[0]] else []) + WithScore(xs[1..], s)
  }

  predicate DistinctPaths(xs: seq<SearchResult>) {
    forall i, j :: 0 <= i < j < |xs| ==> xs[i].path != xs[j].path
  }

  predicate HasPath(xs: seq<SearchResult>, p: string) {
    exists i :: 0 <= i < |xs| && xs[i].path == p
  }

  lemma {:induction false} InsertPermutes(x: SearchResult, ys: seq<SearchResult>)
    ensures multiset(Insert(x, ys)) == multiset{x} + multiset(ys)
  {
    if ys != [] && x.combinedScore < ys[0].combinedScore {
      InsertPermutes(x, ys[1..]);
      assert ys == [ys[0]] + ys[1..];
    }
  }

  lemma {:induction false} InsertSorted(x: SearchResult, ys: seq<SearchResult>)
    requires SortedDesc(ys)
    ensures SortedDesc(Insert(x, ys))
  {
    if ys != [] && x.combinedScore < ys[0].combinedScore {
      var t := ys[1..];
      InsertSorted(x, t);
      InsertPermutes(x, t);
      var r := Insert(x, ys);
      forall j | 0 < j < |r|
        ensures r[0].combinedScore >= r[j].combinedScore
      {
        assert r[j] in multiset(Insert(x, t));
      }
    }
  }

  lemma {:induction false} InsertDistinct(x: SearchResult, ys: seq<SearchResult>)
    requires DistinctPaths(ys) && !HasPath(ys, x.path)
    ensures DistinctPaths(Insert(x, ys))
  {
    if ys != [] && x.combinedScore < ys[0].combinedScore {
      var t := ys[1..];
      forall i | 0 <= i < |t|
        ensures t[i].path != x.path
      {
        assert t[i] == ys[i + 1];
      }
      InsertDistinct(x, t);
      InsertPermutes(x, t);
      var r := Insert(x, ys);
      forall j | 0 < j < |r|
        ensures r[0].path != r[j].path
      {
        assert r[j] in multiset(Insert(x, t));
        if r[j] != x {
          var i :| 0 <= i < |t| && t[i] == r[j];
          assert ys[i + 1] == r[j];
        }
      }
    }
  }

  /** Sorting reorders only: the result is a permutation of the input. */
  lemma {:induction false} SortPermutes(xs: seq<SearchResult>)
    ensures multiset(Sort(xs)) == multiset(xs)
    ensures |Sort(xs)| == |xs|
  {
    if xs != [] {
      SortPermutes(xs[1..]);
      InsertPermutes(xs[0], Sort(xs[1..]));
      assert xs == [xs[0]] + xs[1..];
    }
  }

  /** The sort orders by combined score, highest first. */
  lemma {:induction false} SortSorted(xs: seq<SearchResult>)
    ensures SortedDesc(Sort(xs))
  {
    if xs != [] {
      SortSorted(xs[1..]);
      InsertSorted(xs[0], Sort(xs[1..]));
    }
  }

  lemma {:induction false} InsertStable(x: SearchResult, ys: seq<SearchResult>, s: real)
    ensures WithScore(Insert(x, ys), s) == WithScore([x] + ys, s)
  {
    if ys != [] && x.combinedScore < ys[0].combinedScore {
      InsertStable(x, ys[1..], s);
      assert ([ys[0]] + Insert(x, ys[1..]))[1..] == Insert(x, ys[1..]);
      assert ([x] + ys)[1..] == ys;
      assert ([x] + ys[1..])[1..] == ys[1..];
    }
  }

  /** The sort is stable: the elements with any one score keep their
      relative order. */
  lemma {:induction false} SortStable(xs: seq<SearchResult>, s: real)
    ensures WithScore(Sort(xs), s) == WithScore(xs, s)
  {
    if xs != [] {
      SortStable(xs[1..], s);
      InsertStable(xs[0], Sort(xs[1..]), s);
      assert ([xs[0]] + Sort(xs[1..]))[1..] == Sort(xs[1..]);
    }
  }

  /** Sorting keeps every path once. */
  lemma {:induction false} SortDistinct(xs: seq<SearchResult>)
    requires DistinctPaths(xs)
    ensures DistinctPaths(Sort(xs))
  {
    if xs != [] {
      var t := xs[1..];
      SortDistinct(t);
      SortPermutes(t);
      forall i | 0 <= i < |Sort(t)|
        ensures Sort(t)[i].path != xs[0].path
      {
        assert Sort(t)[i] in multiset(t);
        var j :| 0 <= j < |t| && t[j] == Sort(t)[i];
        assert xs[j + 1] == t[j];
      }
      InsertDistinct(xs[0], Sort(t));
    }
  }

  // ---------------------------------------------------------------------
  // The combined list

  /** `_combine_search_results` */
  function Combined(keywordResults: seq<SearchResult>, semanticResults: seq<SearchResult>,
                    kw: real, sw: real): seq<SearchResult>
  {
    Sort(InOrder(MergedMap(keywordResults, semanticResults, kw, sw)))
  }

  /** The paths of a result list, in order. */
  function PathsOf(rs: seq<SearchResult>): (ps: seq<string>)
    ensures |ps| == |rs|
  {
    if rs == [] then [] else PathsOf(rs[..|rs| - 1]) + [rs[|rs| - 1].path]
  }

  lemma DistinctPrefix(rs: seq<SearchResult>, n: int)
    requires DistinctPaths(rs) && 0 <= n <= |rs|
    ensures DistinctPaths(rs[..n])
  {
    forall i, j | 0 <= i < j < n
      ensures rs[..n][i].path != rs[..n][j].path
    {
      assert rs[..n][i] == rs[i] && rs[..n][j] == rs[j];
    }
  }

  lemma HasPathPrefix(rs: seq<SearchResult>, p: string)
    requires rs != [] && HasPath(rs, p) && p != rs[|rs| - 1].path
    ensures HasPath(rs[..|rs| - 1], p)
  {
    var i :| 0 <= i < |rs| && rs[i].path == p;
    assert rs[..|rs| - 1][i] == rs[i];
  }

  lemma LastNotInPrefix(rs: seq<SearchResult>)
    requires rs != [] && DistinctPaths(rs)
    ensures !HasPath(rs[..|rs| - 1], rs[|rs| - 1].path)
  {
    var n := |rs| - 1;
    forall i | 0 <= i < n
      ensures rs[..n][i].path != rs[n].path
    {
      assert rs[..n][i] == rs[i];
    }
  }

  /** The keys the keyword loop leaves: the paths of its results. */
  lemma {:induction false} AddKeywordKeys(rs: seq<SearchResult>)
    ensures forall p :: p in AddKeyword(Empty, rs).entries <==> HasPath(rs, p)
  {
    if rs != [] {
      var n := |rs| - 1;
      AddKeywordKeys(rs[..n]);
      forall p | HasPath(rs, p) && p != rs[n].path
        ensures HasPath(rs[..n], p)
      {
        HasPathPrefix(rs, p);
      }
    }
  }

  /** A keyword result no later keyword result shares a path with is the
      entry for its path: a repeated path keeps its last result. */
  lemma {:induction false} AddKeywordLast(rs: seq<SearchResult>, i: int)
    requires 0 <= i < |rs|
    requires forall k :: i < k < |rs| ==> rs[k].path != rs[i].path
    ensures rs[i].path in AddKeyword(Empty, rs).entries
    ensures AddKeyword(Empty, rs).entries[rs[i].path] == rs[i]
  {
    var n := |rs| - 1;
    if i < n {
      var pre := rs[..n];
      assert pre[i] == rs[i];
      forall k | i < k < |pre|
        ensures pre[k].path != pre[i].path
      {
        assert pre[k] == rs[k];
      }
      AddKeywordLast(pre, i);
    }
  }

  /** With paths distinct, the keys are in result order. */
  lemma {:induction false} AddKeywordOrder(rs: seq<SearchResult>)
    requires DistinctPaths(rs)
    ensures AddKeyword(Empty, rs).order == PathsOf(rs)
  {
    if rs != [] {
      var n := |rs| - 1;
      DistinctPrefix(rs, n);
      AddKeywordOrder(rs[..n]);
      AddKeywordKeys(rs[..n]);
      LastNotInPrefix(rs);
    }
  }

  /** A path the prefix already has keeps its first index. */
  lemma FirstWithPrefix(rs: seq<SearchResult>, q: string)
    requires rs != [] && HasPath(rs[..|rs| - 1], q)
    ensures FirstWith(rs, q) == FirstWith(rs[..|rs| - 1], q)
    ensures 0 <= FirstWith(rs, q) < |rs| - 1
  {
  }

  /** Keys listed in order of their first keyword result. */
  ghost predicate FirstOrdered(rs: seq<SearchResult>, o: seq<string>) {
    && (forall a :: 0 <= a < |o| ==> 0 <= FirstWith(rs, o[a]))
    && (forall a, b :: 0 <= a < b < |o| ==> FirstWith(rs, o[a]) < FirstWith(rs, o[b]))
  }

  /** The keys are in order of first occurrence: a repeated path keeps the
      place its first keyword result gave it. */
  lemma {:induction false} AddKeywordFirstOrder(rs: seq<SearchResult>)
    ensures FirstOrdered(rs, AddKeyword(Empty, rs).order)
  {
    if rs != [] {
      var n := |rs| - 1;
      var pre := rs[..n];
      var m1 := AddKeyword(Empty, pre);
      AddKeywordFirstOrder(pre);
      AddKeywordWellFormed(Empty, pre);
      AddKeywordKeys(pre);
      var o := AddKeyword(Empty, rs).order;
      forall a | 0 <= a < |m1.order|
        ensures FirstWith(rs, m1.order[a]) == FirstWith(pre, m1.order[a]) < n
      {
        assert m1.order[a] in m1.entries;
        FirstWithPrefix(rs, m1.order[a]);
      }
      if rs[n].path !in m1.entries {
        var o := m1.order + [rs[n].path];
        assert AddKeyword(Empty, rs).order == o;
        assert FirstWith(rs, rs[n].path) == n;
        forall a, b | 0 <= a < b < |o|
          ensures FirstWith(rs, o[a]) < FirstWith(rs, o[b])
        {
          assert o[a] == m1.order[a];
          if b < |m1.order| {
            assert o[b] == m1.order[b];
          }
        }
      }
    }
  }

  /** The dictionary the keyword loop leaves, read as a list: each path of
      the keyword results once, at the place of its first result and
      holding its last one. */
  lemma KeywordDictShape(rs: seq<SearchResult>)
    ensures WellFormed(AddKeyword(Empty, rs))
    ensures var xs := InOrder(AddKeyword(Empty, rs));
            && DistinctPaths(xs)
            && (forall p :: HasPath(xs, p) <==> HasPath(rs, p))
            && (forall a :: 0 <= a < |xs| ==> 0 <= LastWith(rs, xs[a].path) && xs[a] == rs[LastWith(rs, xs[a].path)])
            && (forall a, b :: 0 <= a < b < |xs| ==> FirstWith(rs, xs[a].path) < FirstWith(rs, xs[b].path))
  {
    var mm := AddKeyword(Empty, rs);
    AddKeywordWellFormed(Empty, rs);
    var xs := InOrder(mm);
    InOrderDistinct(mm);
    AddKeywordKeys(rs);
    AddKeywordFirstOrder(rs);
    forall a | 0 <= a < |xs|
      ensures xs[a].path == mm.order[a]
      ensures 0 <= LastWith(rs, xs[a].path) && xs[a] == rs[LastWith(rs, xs[a].path)]
    {
      var p := mm.order[a];
      assert p in mm.entries;
      AddKeywordLast(rs, LastWith(rs, p));
    }
    forall p | HasPath(rs, p)
      ensures HasPath(xs, p)
    {
      assert p in mm.entries;
      var a :| 0 <= a < |mm.order| && mm.order[a] == p;
      assert xs[a].path == p;
    }
  }

  lemma {:induction false} PathsOfIndex(rs: seq<SearchResult>, i: int)
    requires 0 <= i < |rs|
    ensures PathsOf(rs)[i] == rs[i].path
  {
    if i < |rs| - 1 {
      PathsOfIndex(rs[..|rs| - 1], i);
    }
  }

  /** The keys the semantic loop leaves: the earlier keys and the paths of
      its results. */
  lemma {:induction false} AddSemanticKeys(m: Merged, rs: seq<SearchResult>, kw: real, sw: real)
    ensures forall p :: p in AddSemantic(m, rs, kw, sw).entries <==> p in m.entries || HasPath(rs, p)
  {
    if rs != [] {
      var n := |rs| - 1;
      AddSemanticKeys(m, rs[..n], kw, sw);
      forall p | HasPath(rs, p) && p != rs[n].path
        ensures HasPath(rs[..n], p)
      {
        HasPathPrefix(rs, p);
      }
    }
  }

  /** An entry whose path no semantic result has is left as it was. */
  lemma {:induction false} AddSemanticUntouched(m: Merged, rs: seq<SearchResult>, kw: real, sw: real, p: string)
    requires p in m.entries && !HasPath(rs, p)
    ensures p in AddSemantic(m, rs, kw, sw).entries
    ensures AddSemantic(m, rs, kw, sw).entries[p] == m.entries[p]
  {
    if rs != [] {
      var n := |rs| - 1;
      assert !HasPath(rs[..n], p) by {
        forall i | 0 <= i < n
          ensures rs[..n][i].path != p
        {
          assert rs[..n][i] == rs[i];
        }
      }
      AddSemanticUntouched(m, rs[..n], kw, sw, p);
    }
  }

  /** The last index holding path `p`, or -1 when none does. */
  function LastWith(rs: seq<SearchResult>, p: string): (l: int)
    ensures -1 <= l < |rs|
    ensures 0 <= l ==> rs[l].path == p && forall k :: l < k < |rs| ==> rs[k].path != p
    ensures l < 0 ==> !HasPath(rs, p)
  {
    if rs == [] then -1
    else if rs[|rs| - 1].path == p then |rs| - 1
    else
      var l := LastWith(rs[..|rs| - 1], p);
      assert forall k :: l < k < |rs| - 1 ==> rs[..|rs| - 1][k] == rs[k];
      assert l < 0 ==> !HasPath(rs, p) by {
        if l < 0 && HasPath(rs, p) {
          HasPathPrefix(rs, p);
        }
      }
      l
  }

  /** The first index holding path `p`, or -1 when none does. */
  function FirstWith(rs: seq<SearchResult>, p: string): (f: int)
    ensures -1 <= f < |rs|
    ensures 0 <= f ==> rs[f].path == p && forall k :: 0 <= k < f ==> rs[k].path != p
    ensures f < 0 ==> !HasPath(rs, p)
  {
    if rs == [] then -1
    else
      var f := FirstWith(rs[..|rs| - 1], p);
      assert forall k :: 0 <= k < |rs| - 1 ==> rs[..|rs| - 1][k] == rs[k];
      if 0 <= f then f
      else if rs[|rs| - 1].path == p then |rs| - 1
      else -1
  }

  /** Merging twice into one entry is merging the later result alone: every
      field a merge writes is overwritten, and the keyword score it reads is
      never written. */
  lemma MergeIntoTwice(e: SearchResult, a: SearchResult, b: SearchResult, kw: real, sw: real)
    ensures MergeInto(MergeInto(e, a, kw, sw), b, kw, sw) == MergeInto(e, b, kw, sw)
  {
  }

  /** One semantic step seen from the entry for path `q`: only the result's
      own path changes, merged into its entry or added semantic-only. */
  lemma MergeOneAt(m: Merged, s: SearchResult, kw: real, sw: real, q: string)
    ensures q in MergeOne(m, s, kw, sw).entries <==> q in m.entries || q == s.path
    ensures q != s.path && q in m.entries ==> MergeOne(m, s, kw, sw).entries[q] == m.entries[q]
    ensures q == s.path ==>
              MergeOne(m, s, kw, sw).entries[q]
              == if q in m.entries then MergeInto(m.entries[q], s, kw, sw) else SemanticOnly(s, sw)
  {
  }

  /** The entry the semantic loop leaves for a path whose first semantic
      result is i and whose last is j: the last result merged into the
      earlier entry; with no earlier entry, the first result stored as
      semantic-only, with any later one merged into it. */
  lemma {:induction false} AddSemanticFirstLast(m: Merged, rs: seq<SearchResult>, kw: real, sw: real, i: int, j: int)
    requires 0 <= i <= j < |rs| && rs[i].path == rs[j].path
    requires forall k :: 0 <= k < i ==> rs[k].path != rs[i].path
    requires forall k :: j < k < |rs| ==> rs[k].path != rs[j].path
    ensures rs[j].path in AddSemantic(m, rs, kw, sw).entries
    ensures AddSemantic(m, rs, kw, sw).entries[rs[j].path]
            == if rs[j].path in m.entries then MergeInto(m.entries[rs[j].path], rs[j], kw, sw)
               else if i == j then SemanticOnly(rs[j], sw)
               else MergeInto(SemanticOnly(rs[i], sw), rs[j], kw, sw)
  {
    var n := |rs| - 1;
    var pre := rs[..n];
    var p := rs[j].path;
    var m1 := AddSemantic(m, pre, kw, sw);
    assert AddSemantic(m, rs, kw, sw) == MergeOne(m1, rs[n], kw, sw);
    if j < n {
      assert pre[i] == rs[i] && pre[j] == rs[j];
      forall k | j < k < |pre|
        ensures pre[k].path != p
      {
        assert pre[k] == rs[k];
      }
      AddSemanticFirstLast(m, pre, kw, sw, i, j);
      MergeOneAt(m1, rs[n], kw, sw, p);
    } else if i == n {
      assert !HasPath(pre, p) by {
        forall k | 0 <= k < n
          ensures pre[k].path != p
        {
          assert pre[k] == rs[k];
        }
      }
      AddSemanticKeys(m, pre, kw, sw);
      if p in m.entries {
        AddSemanticUntouched(m, pre, kw, sw, p);
      }
      MergeOneAt(m1, rs[n], kw, sw, p);
    } else {
      assert pre[i] == rs[i];
      var l := LastWith(pre, p);
      AddSemanticFirstLast(m, pre, kw, sw, i, l);
      MergeOneAt(m1, rs[n], kw, sw, p);
      if p in m.entries {
        MergeIntoTwice(m.entries[p], pre[l], rs[j], kw, sw);
      } else if i < l {
        MergeIntoTwice(SemanticOnly(rs[i], sw), pre[l], rs[j], kw, sw);
      }
    }
  }

  lemma InOrderDistinct(m: Merged)
    requires WellFormed(m)
    ensures DistinctPaths(InOrder(m))
  {
  }

  /** An entry of the dictionary is in the merged list. */
  lemma EntryInCombined(keywordResults: seq<SearchResult>, semanticResults: seq<SearchResult>,
                        kw: real, sw: real, p: string)
    requires p in MergedMap(keywordResults, semanticResults, kw, sw).entries
    ensures MergedMap(keywordResults, semanticResults, kw, sw).entries[p]
              in Combined(keywordResults, semanticResults, kw, sw)
  {
    var m := MergedMap(keywordResults, semanticResults, kw, sw);
    var xs := InOrder(m);
    SortPermutes(xs);
    var i :| 0 <= i < |m.order| && m.order[i] == p;
    assert xs[i] in multiset(Sort(xs));
  }

  /** The merged list has each path at most once. */
  lemma CombinedDistinct(keywordResults: seq<SearchResult>, semanticResults: seq<SearchResult>, kw: real, sw: real)
    ensures DistinctPaths(Combined(keywordResults, semanticResults, kw, sw))
  {
    var m := MergedMap(keywordResults, semanticResults, kw, sw);
    InOrderDistinct(m);
    SortDistinct(InOrder(m));
  }

  /** The paths of the merged list are those of the two lists taken
      together. */
  lemma CombinedPaths(keywordResults: seq<SearchResult>, semanticResults: seq<SearchResult>, kw: real, sw: real, p: string)
    ensures HasPath(Combined(keywordResults, semanticResults, kw, sw), p)
            <==> HasPath(keywordResults, p) || HasPath(semanticResults, p)
  {
    var m := MergedMap(keywordResults, semanticResults, kw, sw);
    var xs := InOrder(m);
    var r := Sort(xs);
    AddKeywordKeys(keywordResults);
    AddSemanticKeys(AddKeyword(Empty, keywordResults), semanticResults, kw, sw);
    if HasPath(r, p) {
      SortPermutes(xs);
      var i :| 0 <= i < |r| && r[i].path == p;
      assert r[i] in multiset(xs);
    }
    if p in m.entries {
      EntryInCombined(keywordResults, semanticResults, kw, sw, p);
      var j :| 0 <= j < |r| && r[j] == m.entries[p];
    }
  }

  /** A path in both lists is merged: its combined score is the weighted
      sum of both scores and its type is "hybrid". When a list holds the
      path more than once (several chunks of one file), the last result of
      each list decides. */
  lemma BothListsMerged(keywordResults: seq<SearchResult>, semanticResults: seq<SearchResult>,
                        kw: real, sw: real, i: int, j: int)
    requires 0 <= i < |keywordResults| && 0 <= j < |semanticResults|
    requires keywordResults[i].path == semanticResults[j].path
    requires forall k :: i < k < |keywordResults| ==> keywordResults[k].path != keywordResults[i].path
    requires forall k :: j < k < |semanticResults| ==> semanticResults[k].path != semanticResults[j].path
    ensures var r := MergeInto(keywordResults[i], semanticResults[j], kw, sw);
            && r in Combined(keywordResults, semanticResults, kw, sw)
            && r.path == keywordResults[i].path
            && r.searchType == "hybrid"
            && r.combinedScore == kw * keywordResults[i].keywordScore + sw * semanticResults[j].semanticScore
            && r.keywordScore == keywordResults[i].keywordScore
            && r.semanticScore == semanticResults[j].semanticScore
            && r.chunkId == semanticResults[j].chunkId
  {
    var p := semanticResults[j].path;
    var m0 := AddKeyword(Empty, keywordResults);
    AddKeywordLast(keywordResults, i);
    var f := FirstWith(semanticResults, p);
    AddSemanticFirstLast(m0, semanticResults, kw, sw, f, j);
    EntryInCombined(keywordResults, semanticResults, kw, sw, p);
  }

  /** A path only the keyword list has keeps its last keyword result
      untouched: raw score, type as mapped. */
  lemma KeywordOnlyUnchanged(keywordResults: seq<SearchResult>, semanticResults: seq<SearchResult>,
                             kw: real, sw: real, i: int)
    requires 0 <= i < |keywordResults| && !HasPath(semanticResults, keywordResults[i].path)
    requires forall k :: i < k < |keywordResults| ==> keywordResults[k].path != keywordResults[i].path
    ensures keywordResults[i] in Combined(keywordResults, semanticResults, kw, sw)
  {
    var m0 := AddKeyword(Empty, keywordResults);
    AddKeywordLast(keywordResults, i);
    AddSemanticUntouched(m0, semanticResults, kw, sw, keywordResults[i].path);
    EntryInCombined(keywordResults, semanticResults, kw, sw, keywordResults[i].path);
  }

  /** A path only the semantic list has, held by one semantic result, is
      weighted by the semantic weight alone and typed "semantic". */
  lemma SemanticOnlyWeighted(keywordResults: seq<SearchResult>, semanticResults: seq<SearchResult>,
                             kw: real, sw: real, j: int)
    requires 0 <= j < |semanticResults| && !HasPath(keywordResults, semanticResults[j].path)
    requires forall k :: 0 <= k < |semanticResults| && k != j ==> semanticResults[k].path != semanticResults[j].path
    ensures var r := SemanticOnly(semanticResults[j], sw);
            && r in Combined(keywordResults, semanticResults, kw, sw)
            && r.path == semanticResults[j].path
            && r.searchType == "semantic"
            && r.combinedScore == sw * semanticResults[j].semanticScore
            && r.semanticScore == semanticResults[j].semanticScore
  {
    var m0 := AddKeyword(Empty, keywordResults);
    AddKeywordKeys(keywordResults);
    AddSemanticFirstLast(m0, semanticResults, kw, sw, j, j);
    EntryInCombined(keywordResults, semanticResults, kw, sw, semanticResults[j].path);
  }

  /** A path only the semantic list has, held by several semantic results
      (several chunks of one file): the later ones are merged into the
      first, so the file is typed "hybrid" and scored on its last chunk,
      weighted with the first's keyword score (0.0 for a mapped semantic
      result). */
  lemma SemanticChunksMerged(keywordResults: seq<SearchResult>, semanticResults: seq<SearchResult>,
                             kw: real, sw: real, i: int, j: int)
    requires 0 <= i < j < |semanticResults| && semanticResults[i].path == semanticResults[j].path
    requires !HasPath(keywordResults, semanticResults[j].path)
    requires forall k :: 0 <= k < i ==> semanticResults[k].path != semanticResults[i].path
    requires forall k :: j < k < |semanticResults| ==> semanticResults[k].path != semanticResults[j].path
    ensures var r := MergeInto(SemanticOnly(semanticResults[i], sw), semanticResults[j], kw, sw);
            && r in Combined(keywordResults, semanticResults, kw, sw)
            && r.path == semanticResults[j].path
            && r.searchType == "hybrid"
            && r.combinedScore == kw * semanticResults[i].keywordScore + sw * semanticResults[j].semanticScore
            && (semanticResults[i].keywordScore == 0.0 ==> r.combinedScore == sw * semanticResults[j].semanticScore)
            && r.semanticScore == semanticResults[j].semanticScore
            && r.chunkId == semanticResults[j].chunkId
  {
    var m0 := AddKeyword(Empty, keywordResults);
    AddKeywordKeys(keywordResults);
    AddSemanticFirstLast(m0, semanticResults, kw, sw, i, j);
    EntryInCombined(keywordResults, semanticResults, kw, sw, semanticResults[j].path);
  }

  /** Two semantic results for one file (two of its chunks) with no keyword
      result: the second is merged into the first, so the file is typed
      "hybrid" and scored on the second chunk alone, weighted with the
      first's keyword score (0.0 for a mapped semantic result). */
  lemma TwoChunksOneFile(a: SearchResult, b: SearchResult, kw: real, sw: real)
    requires a.path == b.path
    ensures var r := MergeInto(SemanticOnly(a, sw), b, kw, sw);
            && Combined([], [a, b], kw, sw) == [r]
            && r.searchType == "hybrid"
            && r.combinedScore == kw * a.keywordScore + sw * b.semanticScore
  {
    var r := MergeInto(SemanticOnly(a, sw), b, kw, sw);
    assert [a, b][..1] == [a];
    assert [a][..0] == [];
    assert AddSemantic(Empty, [], kw, sw) == Empty;
    var m1 := AddSemantic(Empty, [a], kw, sw);
    assert m1 == MergeOne(Empty, a, kw, sw);
    assert m1.entries == map[a.path := SemanticOnly(a, sw)] && m1.order == [a.path];
    var m2 := AddSemantic(Empty, [a, b], kw, sw);
    assert m2 == MergeOne(m1, b, kw, sw);
    assert m2.order == [a.path] && m2.entries[a.path] == r;
    assert MergedMap([], [a, b], kw, sw) == m2;
    assert InOrder(m2) == [r];
    assert Sort([r]) == Insert(r, []) == [r];
  }

  /** The merged list is ordered by combined score, highest first; equal
      scores keep the dictionary's insertion order (keyword entries
      first). */
  lemma CombinedOrdered(keywordResults: seq<SearchResult>, semanticResults: seq<SearchResult>,
                        kw: real, sw: real, s: real)
    ensures SortedDesc(Combined(keywordResults, semanticResults, kw, sw))
    ensures var m := MergedMap(keywordResults, semanticResults, kw, sw);
            WithScore(Combined(keywordResults, semanticResults, kw, sw), s) == WithScore(InOrder(m), s)
  {
    var m := MergedMap(keywordResults, semanticResults, kw, sw);
    SortSorted(InOrder(m));
    SortStable(InOrder(m), s);
  }

  /** With paths distinct and no semantic results, the dictionary lists the
      keyword results in their own order. */
  lemma KeywordInOrder(rs: seq<SearchResult>, kw: real, sw: real)
    requires DistinctPaths(rs)
    ensures InOrder(MergedMap(rs, [], kw, sw)) == rs
  {
    var m := MergedMap(rs, [], kw, sw);
    AddKeywordOrder(rs);
    forall i | 0 <= i < |rs|
      ensures InOrder(m)[i] == rs[i]
    {
      PathsOfIndex(rs, i);
      AddKeywordLast(rs, i);
    }
  }

  // ---------------------------------------------------------------------
  // The manager

  class HybridSearchManager {
    /** `keyword_searcher.search(query, limit)` */
    const keywordSearch: (string, int) -> seq<Indexer.KeywordHit>
    /** `keyword_searcher.search_by_filename(query, limit)` */
    const filenameSearch: (string, int) -> seq<Indexer.KeywordHit>
    /** `vector_searcher.similarity_search(query, top_k)`; None when there is
        no vector searcher. */
    const vectorSearch: Option<(string, int) -> seq<EmbeddingDb.SimilarityHit>>

    /** The vector searcher exists only when embeddings are enabled and the
        vector database opened. */
    constructor (keywordSearch: (string, int) -> seq<Indexer.KeywordHit>,
                 filenameSearch: (string, int) -> seq<Indexer.KeywordHit>,
                 enableEmbeddings: bool, vectorOpened: bool,
                 similaritySearch: (string, int) -> seq<EmbeddingDb.SimilarityHit>)
      ensures this.keywordSearch == keywordSearch && this.filenameSearch == filenameSearch
      ensures enableEmbeddings && vectorOpened <==> vectorSearch.Some?
      ensures vectorSearch.Some? ==> vectorSearch.value == similaritySearch
    {
      this.keywordSearch := keywordSearch;
      this.filenameSearch := filenameSearch;
      this.vectorSearch := if enableEmbeddings && vectorOpened then Some(similaritySearch) else None;
    }

    /** `_keyword_search_only` */
    method KeywordSearchOnly(query: string, limit: int) returns (results: seq<SearchResult>)
      ensures results == KeywordResults(keywordSearch(query, limit), "keyword")
    {
      var hits := keywordSearch(query, limit);
      results := [];
      for i := 0 to |hits|
        invariant results == KeywordResults(hits[..i], "keyword")
      {
        results := results + [FromKeywordHit(hits[i], i + 1, "keyword")];
      }
      assert hits[..|hits|] == hits;
    }

    /** `search_by_filename`: the keyword mapping with type "filename". */
    method SearchByFilename(query: string, limit: int) returns (results: seq<SearchResult>)
      ensures results == KeywordResults(filenameSearch(query, limit), "filename")
    {
      var hits := filenameSearch(query, limit);
      results := [];
      for i := 0 to |hits|
        invariant results == KeywordResults(hits[..i], "filename")
      {
        results := results + [FromKeywordHit(hits[i], i + 1, "filename")];
      }
      assert hits[..|hits|] == hits;
    }

    /** `_semantic_search_only`: without a vector searcher, the keyword-only
        search; otherwise the mapped similarity hits. */
    method SemanticSearchOnly(query: string, limit: int) returns (results: seq<SearchResult>)
      ensures vectorSearch.None? ==> results == KeywordResults(keywordSearch(query, limit), "keyword")
      ensures vectorSearch.Some? ==> results == SemanticResults(vectorSearch.value(query, limit))
    {
      if vectorSearch.None? {
        results := KeywordSearchOnly(query, limit);
        return;
      }
      var hits := vectorSearch.value(query, limit);
      results := [];
      for i := 0 to |hits|
        invariant AllStringPaths(hits[..i])
        invariant results == SemanticMapped(hits[..i])
      {
        if !HasStringPath(hits[i]) {
          assert !AllStringPaths(hits);
          return [];
        }
        assert hits[..i + 1][..i] == hits[..i];
        results := results + [FromSimilarityHit(hits[i], i + 1)];
      }
      assert hits[..|hits|] == hits;
    }

    /** The semantic list the hybrid search merges: none without a vector
        searcher. */
    function SemanticForHybrid(query: string, limit: int): seq<SearchResult> {
      if vectorSearch.Some? then SemanticResults(vectorSearch.value(query, limit * 2)) else []
    }

    /** `_hybrid_search` */
    function HybridResults(query: string, limit: int, keywordWeight: real, semanticWeight: real): seq<SearchResult> {
      var w := NormalizeWeights(keywordWeight, semanticWeight);
      Take(Combined(KeywordResults(keywordSearch(query, limit * 2), "keyword"),
                    SemanticForHybrid(query, limit), w.0, w.1), limit)
    }

    /** `_combine_search_results`, filling the dictionary entry by entry and
        sorting its values. */
    static method CombineSearchResults(keywordResults: seq<SearchResult>, semanticResults: seq<SearchResult>,
                                       kw: real, sw: real) returns (combined: seq<SearchResult>)
      ensures combined == Combined(keywordResults, semanticResults, kw, sw)
    {
      var order: seq<string> := [];
      var entries: map<string, SearchResult> := map[];
      for i := 0 to |keywordResults|
        invariant Merged(order, entries) == AddKeyword(Empty, keywordResults[..i])
      {
        assert keywordResults[..i + 1][..i] == keywordResults[..i];
        var r := keywordResults[i];
        if r.path !in entries {
          order := order + [r.path];
        }
        entries := entries[r.path := r];
      }
      assert keywordResults[..|keywordResults|] == keywordResults;
      ghost var start := Merged(order, entries);
      for j := 0 to |semanticResults|
        invariant Merged(order, entries) == AddSemantic(start, semanticResults[..j], kw, sw)
      {
        assert semanticResults[..j + 1][..j] == semanticResults[..j];
        var s := semanticResults[j];
        assert semanticResults[..j + 1][j] == s;
        assert AddSemantic(start, semanticResults[..j + 1], kw, sw) == MergeOne(Merged(order, entries), s, kw, sw);
        var entry;
        if s.path in entries {
          var existing := entries[s.path];
          entry := existing.(semanticScore := s.semanticScore, semanticRank := s.semanticRank,
                             chunkText := s.chunkText, chunkId := s.chunkId, searchType := "hybrid",
                             combinedScore := kw * existing.keywordScore + sw * s.semanticScore);
          assert entry == MergeInto(existing, s, kw, sw);
        } else {
          order := order + [s.path];
          entry := s.(searchType := "semantic", combinedScore := sw * s.semanticScore);
          assert entry == SemanticOnly(s, sw) && entry.path == s.path;
        }
        entries := entries[s.path := entry];
      }
      assert semanticResults[..|semanticResults|] == semanticResults;
      assert Merged(order, entries) == MergedMap(keywordResults, semanticResults, kw, sw);
      var values := InOrder(Merged(order, entries));
      combined := Sort(values);
    }

    /** `_hybrid_search`: normalise the weights, ask each side for twice the
        limit, merge, and keep the first `limit` results. */
    method HybridSearch(query: string, limit: int, keywordWeight: real, semanticWeight: real)
      returns (results: seq<SearchResult>)
      ensures results == HybridResults(query, limit, keywordWeight, semanticWeight)
      ensures limit >= 0 ==> |results| <= limit
    {
      var w := NormalizeWeights(keywordWeight, semanticWeight);
      var kw, sw := w.0, w.1;
      var keywordResults := KeywordSearchOnly(query, limit * 2);
      var semanticResults := [];
      if vectorSearch.Some? {
        semanticResults := SemanticSearchOnly(query, limit * 2);
      }
      var combined := CombineSearchResults(keywordResults, semanticResults, kw, sw);
      results := Take(combined, limit);
    }

    /** `search`: "keyword" runs the keyword-only search, "semantic" the
        semantic-only one, any other type the hybrid search. */
    method Search(query: string, searchType: string, limit: int, keywordWeight: real, semanticWeight: real)
      returns (results: seq<SearchResult>)
      ensures searchType == "keyword" ==> results == KeywordResults(keywordSearch(query, limit), "keyword")
      ensures searchType == "semantic" && vectorSearch.None? ==>
                results == KeywordResults(keywordSearch(query, limit), "keyword")
      ensures searchType == "semantic" && vectorSearch.Some? ==>
                results == SemanticResults(vectorSearch.value(query, limit))
      ensures searchType != "keyword" && searchType != "semantic" ==>
                results == HybridResults(query, limit, keywordWeight, semanticWeight)
    {
      if searchType == "keyword" {
        results := KeywordSearchOnly(query, limit);
      } else if searchType == "semantic" {
        results := SemanticSearchOnly(query, limit);
      } else {
        results := HybridSearch(query, limit, keywordWeight, semanticWeight);
      }
    }
  }

  /** Without a vector searcher the hybrid search is the keyword results
      for `limit * 2`, one per path, sorted by their raw scores and cut at
      the limit. Each path appears once, at the rank of its first keyword
      result and holding its last one. */
  lemma HybridWithoutVector(m: HybridSearchManager, query: string, limit: int, keywordWeight: real, semanticWeight: real)
    requires m.vectorSearch.None?
    ensures var ks := KeywordResults(m.keywordSearch(query, limit * 2), "keyword");
            var w := NormalizeWeights(keywordWeight, semanticWeight);
            var xs := InOrder(MergedMap(ks, [], w.0, w.1));
            && m.HybridResults(query, limit, keywordWeight, semanticWeight) == Take(Sort(xs), limit)
            && DistinctPaths(xs)
            && (forall p :: HasPath(xs, p) <==> HasPath(ks, p))
            && (forall a :: 0 <= a < |xs| ==> 0 <= LastWith(ks, xs[a].path) && xs[a] == ks[LastWith(ks, xs[a].path)])
            && (forall a, b :: 0 <= a < b < |xs| ==> FirstWith(ks, xs[a].path) < FirstWith(ks, xs[b].path))
  {
    var ks := KeywordResults(m.keywordSearch(query, limit * 2), "keyword");
    var w := NormalizeWeights(keywordWeight, semanticWeight);
    assert MergedMap(ks, [], w.0, w.1) == AddKeyword(Empty, ks);
    KeywordDictShape(ks);
  }

  /** With distinct paths, that is the keyword results themselves, sorted
      and cut at the limit. */
  lemma HybridWithoutVectorDistinct(m: HybridSearchManager, query: string, limit: int, keywordWeight: real, semanticWeight: real)
    requires m.vectorSearch.None?
    requires DistinctPaths(KeywordResults(m.keywordSearch(query, limit * 2), "keyword"))
    ensures m.HybridResults(query, limit, keywordWeight, semanticWeight)
            == Take(Sort(KeywordResults(m.keywordSearch(query, limit * 2), "keyword")), limit)
  {
    var ks := KeywordResults(m.keywordSearch(query, limit * 2), "keyword");
    var w := NormalizeWeights(keywordWeight, semanticWeight);
    KeywordInOrder(ks, w.0, w.1);
  }
}
