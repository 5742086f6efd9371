/**
 * The retrieval pipeline: a plain search or a wider search followed by a
 * rerank on a second similarity score, and the assembly of the retrieved
 * documents into one context string.
 *
 * The rerank score (cosine similarity of the query's and the document's
 * embeddings) is an abstract function of the two texts.
 */
module Retrieval {
  import opened Common
  import opened Text
  import opened SearchModelSetup

  /** The rerank score of a document text for a query. */
  type Similarity = (string, string) -> Score

  // ---------------------------------------------------------------------
  // Python's `sorted(..., key=..., reverse=True)`: a stable sort by
  // descending key, computed on positions
  // ---------------------------------------------------------------------

  predicate InRange(order: seq<nat>, n: nat) {
    forall k :: 0 <= k < |order| ==> order[k] < n
  }

  /** Keys never increase along the order. */
  predicate SortedDesc(order: seq<nat>, keys: seq<Score>)
    requires InRange(order, |keys|)
  {
    forall k, l :: 0 <= k < l < |order| ==> keys[order[k]] >= keys[order[l]]
  }

  /** Positions with equal keys keep their original order. */
  predicate Stable(order: seq<nat>, keys: seq<Score>)
    requires InRange(order, |keys|)
  {
    forall k, l :: 0 <= k < l < |order| && keys[order[k]] == keys[order[l]] ==> order[k] < order[l]
  }

  /** Where a stable descending insertion puts position `i`: after the last
      entry whose key is at least its own. */
  function InsertPos(order: seq<nat>, i: nat, keys: seq<Score>): (p: nat)
    requires i < |keys| && InRange(order, |keys|)
    ensures p <= |order|
    ensures forall k :: p <= k < |order| ==> keys[order[k]] < keys[i]
    ensures p == 0 || keys[order[p - 1]] >= keys[i]
    decreases |order|
  {
    if order == [] then 0
    else if keys[order[|order| - 1]] >= keys[i] then |order|
    else InsertPos(order[..|order| - 1], i, keys)
  }

  /** `r` is `order` with `i` inserted at index `p`. */
  predicate InsertedAt(r: seq<nat>, order: seq<nat>, p: nat, i: nat) {
    && p <= |order| && |r| == |order| + 1 && r[p] == i
    && (forall k :: 0 <= k < p ==> r[k] == order[k])
    && (forall k :: p < k < |r| ==> r[k] == order[k - 1])
  }

  /** Insert position `i` into an order sorted by descending key. */
  function InsertByKey(order: seq<nat>, i: nat, keys: seq<Score>): (r: seq<nat>)
    requires i < |keys| && InRange(order, |keys|)
    ensures InsertedAt(r, order, InsertPos(order, i, keys), i)
    ensures forall x :: x in r <==> x in order || x == i
    ensures InRange(order, i) ==> InRange(r, i + 1)
  {
    var p := InsertPos(order, i, keys);
    assert order == order[..p] + order[p..];
    order[..p] + [i] + order[p..]
  }

  /** The positions 0 .. n-1 in the order a stable descending sort puts them. */
  function SortOrder(keys: seq<Score>, n: nat): (r: seq<nat>)
    requires n <= |keys|
    ensures |r| == n && InRange(r, n)
    ensures forall j :: 0 <= j < n ==> j in r
  {
    if n == 0 then [] else InsertByKey(SortOrder(keys, n - 1), n - 1, keys)
  }

  /** Every entry before the insertion point has a key at least that of `i`. */
  lemma {:induction false} BeforeInsertPos(order: seq<nat>, i: nat, keys: seq<Score>)
    requires i < |keys| && InRange(order, |keys|) && SortedDesc(order, keys)
    ensures forall k :: 0 <= k < InsertPos(order, i, keys) ==> keys[order[k]] >= keys[i]
  {
    var p := InsertPos(order, i, keys);
    forall k | 0 <= k < p ensures keys[order[k]] >= keys[i] {
      assert keys[order[k]] >= keys[order[p - 1]];
    }
  }

  /** Inserting a new, larger position keeps an order sorted, stable and
      free of repeats. */
  lemma {:induction false} InsertByKeyKeepsOrder(order: seq<nat>, i: nat, keys: seq<Score>)
    requires i < |keys| && InRange(order, i)
    requires SortedDesc(order, keys) && Stable(order, keys) && Distinct(order)
    ensures InRange(InsertByKey(order, i, keys), i + 1)
    ensures SortedDesc(InsertByKey(order, i, keys), keys)
    ensures Stable(InsertByKey(order, i, keys), keys)
    ensures Distinct(InsertByKey(order, i, keys))
  {
    var r := InsertByKey(order, i, keys);
    var p := InsertPos(order, i, keys);
    BeforeInsertPos(order, i, keys);
    forall k, l | 0 <= k < l < |r|
      ensures keys[r[k]] >= keys[r[l]] && (keys[r[k]] == keys[r[l]] ==> r[k] < r[l]) && r[k] != r[l]
    {
      if l < p {
        assert r[k] == order[k] && r[l] == order[l];
      } else if l == p {
        assert r[k] == order[k];
      } else if k < p {
        assert r[k] == order[k] && r[l] == order[l - 1];
      } else if k == p {
        assert r[l] == order[l - 1];
      } else {
        assert r[k] == order[k - 1] && r[l] == order[l - 1];
      }
    }
  }

  /** The sort order is a permutation of 0 .. n-1 that is sorted by
      descending key and stable. */
  lemma {:induction false} SortOrderCorrect(keys: seq<Score>, n: nat)
    requires n <= |keys|
    ensures Distinct(SortOrder(keys, n))
    ensures SortedDesc(SortOrder(keys, n), keys)
    ensures Stable(SortOrder(keys, n), keys)
  {
    if n > 0 {
      var prev := SortOrder(keys, n - 1);
      SortOrderCorrect(keys, n - 1);
      InsertByKeyKeepsOrder(prev, n - 1, keys);
      assert SortOrder(keys, n) == InsertByKey(prev, n - 1, keys);
    }
  }

  /** A prefix of a sorted, stable order without repeats is one too. */
  lemma {:induction false} PrefixKeepsOrder(order: seq<nat>, m: nat, keys: seq<Score>)
    requires m <= |order| && InRange(order, |keys|)
    requires Distinct(order) && SortedDesc(order, keys) && Stable(order, keys)
    ensures InRange(order[..m], |keys|)
    ensures Distinct(order[..m]) && SortedDesc(order[..m], keys) && Stable(order[..m], keys)
  {
    assert forall k :: 0 <= k < m ==> order[..m][k] == order[k];
  }

  // ---------------------------------------------------------------------
  // `_rerank`
  // ---------------------------------------------------------------------

  /** The rerank scores of the candidates, in candidate order. */
  function Keys(cands: seq<SearchResult>, query: string, similarity: Similarity): (r: seq<Score>)
    ensures |r| == |cands|
    ensures forall i :: 0 <= i < |r| ==> r[i] == similarity(query, cands[i].text)
  {
    seq(|cands|, i requires 0 <= i < |cands| => similarity(query, cands[i].text))
  }

  /** The candidates kept by the rerank, best first: positions into the
      candidate list. */
  function RerankOrder(cands: seq<SearchResult>, query: string, similarity: Similarity, topK: nat): (r: seq<nat>)
    ensures |r| == Min(topK, |cands|) && InRange(r, |cands|)
  {
    Take(SortOrder(Keys(cands, query, similarity), |cands|), topK)
  }

  /** What `_rerank` returns: the kept candidates in rerank order, each with
      its rerank score and its new rank. */
  function Reranked(cands: seq<SearchResult>, query: string, similarity: Similarity, topK: nat)
    : (r: seq<SearchResult>)
    ensures |r| == Min(topK, |cands|)
  {
    var order := RerankOrder(cands, query, similarity, topK);
    seq(|order|, k requires 0 <= k < |order| =>
      cands[order[k]].(rerankScore := Some(similarity(query, cands[order[k]].text)), rank := k + 1))
  }

  /** Each returned result is a candidate, with its text, id, metadata,
      similarity and distance unchanged, its rerank score set, and rank k+1
      at index k. */
  lemma {:induction false} RerankEntries(cands: seq<SearchResult>, query: string, similarity: Similarity, topK: nat)
    ensures forall k :: 0 <= k < |Reranked(cands, query, similarity, topK)| ==>
      && RerankOrder(cands, query, similarity, topK)[k] < |cands|
      && Reranked(cands, query, similarity, topK)[k]
         == cands[RerankOrder(cands, query, similarity, topK)[k]].(
              rerankScore := Some(Keys(cands, query, similarity)[RerankOrder(cands, query, similarity, topK)[k]]),
              rank := k + 1)
  {
  }

  /** The kept candidates are distinct, in non-increasing rerank score, with
      ties in their original order. */
  lemma {:induction false} RerankSorted(cands: seq<SearchResult>, query: string, similarity: Similarity, topK: nat)
    ensures Distinct(RerankOrder(cands, query, similarity, topK))
    ensures SortedDesc(RerankOrder(cands, query, similarity, topK), Keys(cands, query, similarity))
    ensures Stable(RerankOrder(cands, query, similarity, topK), Keys(cands, query, similarity))
  {
    var keys := Keys(cands, query, similarity);
    var full := SortOrder(keys, |cands|);
    SortOrderCorrect(keys, |cands|);
    PrefixKeepsOrder(full, Min(topK, |cands|), keys);
  }

  /** In an order sorted by descending key, no position outside a prefix has
      a larger key than one inside it. */
  lemma {:induction false} PrefixHoldsBest(full: seq<nat>, m: nat, keys: seq<Score>)
    requires m <= |full| && InRange(full, |keys|) && SortedDesc(full, keys)
    ensures forall j, k :: j in full && j !in full[..m] && 0 <= k < m ==> keys[j] <= keys[full[k]]
  {
    forall j, k | j in full && j !in full[..m] && 0 <= k < m
      ensures keys[j] <= keys[full[k]]
    {
      forall l | 0 <= l < m ensures full[l] != j {
        assert full[l] == full[..m][l] && full[..m][l] in full[..m];
      }
      var l :| 0 <= l < |full| && full[l] == j;
      assert k < l;
    }
  }

  /** No candidate the rerank leaves out scores higher than one it keeps. */
  lemma {:induction false} RerankKeepsBest(cands: seq<SearchResult>, query: string, similarity: Similarity, topK: nat)
    ensures forall j, k ::
      (0 <= j < |cands| && j !in RerankOrder(cands, query, similarity, topK)
       && 0 <= k < |RerankOrder(cands, query, similarity, topK)|)
      ==> Keys(cands, query, similarity)[j] <= Keys(cands, query, similarity)[RerankOrder(cands, query, similarity, topK)[k]]
  {
    var keys := Keys(cands, query, similarity);
    var full := SortOrder(keys, |cands|);
    SortOrderCorrect(keys, |cands|);
    PrefixHoldsBest(full, Min(topK, |cands|), keys);
  }

  /** Rerank scores, as `_rerank` writes them into every candidate. */
  function Rescored(cands: seq<SearchResult>, query: string, similarity: Similarity): (r: seq<SearchResult>)
    ensures |r| == |cands|
    ensures forall i :: 0 <= i < |r| ==> r[i] == cands[i].(rerankScore := Some(similarity(query, cands[i].text)))
  {
    seq(|cands|, i requires 0 <= i < |cands| => cands[i].(rerankScore := Some(similarity(query, cands[i].text))))
  }

  /** Python's `sorted(rs, key=lambda x: x['rerank_score'], reverse=True)`
      on candidates that all carry a rerank score. */
  function SortedByRerankScore(rs: seq<SearchResult>): (r: seq<SearchResult>)
    ensures |r| == |rs|
  {
    var keys := seq(|rs|, i requires 0 <= i < |rs| => rs[i].rerankScore.GetOr(0));
    var order := SortOrder(keys, |rs|);
    seq(|rs|, k requires 0 <= k < |rs| => rs[order[k]])
  }

  /** `_rerank`: score every candidate, sort, renumber the first `top_k`,
      return them. */
  method Rerank(cands: seq<SearchResult>, query: string, similarity: Similarity, topK: nat)
    returns (results: seq<SearchResult>)
    ensures results == Reranked(cands, query, similarity, topK)
  {
    var scored := ScoreCandidates(cands, query, similarity);
    var reranked := SortedByRerankScore(scored);
    results := RenumberTop(reranked, topK);
    RerankedBySort(cands, query, similarity, topK);
  }

  /** The scoring loop of `_rerank`: every candidate gets its rerank score. */
  method ScoreCandidates(cands: seq<SearchResult>, query: string, similarity: Similarity)
    returns (scored: seq<SearchResult>)
    ensures scored == Rescored(cands, query, similarity)
  {
    scored := cands;
    var i := 0;
    while i < |scored|
      invariant i <= |scored| == |cands|
      invariant forall j :: 0 <= j < i ==> scored[j] == cands[j].(rerankScore := Some(similarity(query, cands[j].text)))
      invariant forall j :: i <= j < |scored| ==> scored[j] == cands[j]
    {
      scored := scored[i := scored[i].(rerankScore := Some(similarity(query, scored[i].text)))];
      i := i + 1;
    }
  }

  /** The renumbering loop of `_rerank`: ranks 1..n on the first `top_k`,
      which are returned. */
  method RenumberTop(sorted: seq<SearchResult>, topK: nat) returns (results: seq<SearchResult>)
    ensures results == Renumber(Take(sorted, topK))
  {
    var reranked := sorted;
    var n := Min(topK, |sorted|);
    var i := 0;
    while i < n
      invariant i <= n && |reranked| == |sorted|
      invariant forall k :: 0 <= k < |reranked| ==>
        reranked[k] == if k < i then sorted[k].(rank := k + 1) else sorted[k]
    {
      reranked := reranked[i := reranked[i].(rank := i + 1)];
      i := i + 1;
    }
    results := reranked[..n];
  }

  /** Scoring, sorting by the stored score and renumbering the first `top_k`
      is the specified rerank. */
  lemma {:induction false} RerankedBySort(cands: seq<SearchResult>, query: string, similarity: Similarity, topK: nat)
    ensures Renumber(Take(SortedByRerankScore(Rescored(cands, query, similarity)), topK))
         == Reranked(cands, query, similarity, topK)
  {
    RescoredKeys(cands, query, similarity);
  }

  /** The keys `sorted` reads from the rescored candidates are the rerank
      scores, so the method and the specification sort the same way. */
  lemma {:induction false} RescoredKeys(cands: seq<SearchResult>, query: string, similarity: Similarity)
    ensures var rs := Rescored(cands, query, similarity);
      seq(|rs|, i requires 0 <= i < |rs| => rs[i].rerankScore.GetOr(0)) == Keys(cands, query, similarity)
  {
  }

  // ---------------------------------------------------------------------
  // The context string
  // ---------------------------------------------------------------------

  const ContextSeparator := "\n\n---\n\n"

  /** "[문서 i] (페이지 p)\n<text>" for the result numbered i. */
  function ContextEntry(i: nat, r: SearchResult): string {
    "[문서 " + NatToString(i) + "] (페이지 " + PageLabel(r.metadata.pageNumber) + ")\n" + r.text
  }

  function ContextEntries(rs: seq<SearchResult>): (r: seq<string>)
    ensures |r| == |rs|
    ensures forall k :: 0 <= k < |r| ==> r[k] == ContextEntry(k + 1, rs[k])
  {
    seq(|rs|, k requires 0 <= k < |rs| => ContextEntry(k + 1, rs[k]))
  }

  /** The context of the results: their entries, numbered by position and
      joined by the separator. */
  function Context(rs: seq<SearchResult>): string {
    Join(ContextEntries(rs), ContextSeparator)
  }

  /** No results give the empty context, and every result makes it
      non-empty. */
  lemma {:induction false} ContextEmpty(rs: seq<SearchResult>)
    ensures Context(rs) == "" <==> rs == []
  {
    if rs != [] {
      JoinLength(ContextEntries(rs), ContextSeparator);
      assert |ContextEntry(1, rs[0])| > 0;
      SumLenPositive(ContextEntries(rs));
    }
  }

  lemma {:induction false} SumLenPositive(parts: seq<string>)
    requires parts != [] && parts[0] != []
    ensures SumLen(parts) > 0
  {
  }

  /** One more result adds the separator and its entry, numbered next. */
  lemma {:induction false} ContextSnoc(rs: seq<SearchResult>, r: SearchResult)
    requires rs != []
    ensures Context(rs + [r]) == Context(rs) + ContextSeparator + ContextEntry(|rs| + 1, r)
  {
    assert ContextEntries(rs + [r]) == ContextEntries(rs) + [ContextEntry(|rs| + 1, r)];
    JoinSnoc(ContextEntries(rs), ContextEntry(|rs| + 1, r), ContextSeparator);
  }

  /** The loop of `retrieve_with_context`: one entry per result, then join. */
  method BuildContext(results: seq<SearchResult>) returns (context: string)
    ensures context == Context(results)
  {
    var parts: seq<string> := [];
    var i := 0;
    while i < |results|
      invariant i <= |results|
      invariant parts == ContextEntries(results[..i])
    {
      parts := parts + [ContextEntry(i + 1, results[i])];
      i := i + 1;
    }
    assert results[..i] == results;
    context := Join(parts, ContextSeparator);
  }

  // ---------------------------------------------------------------------
  // The retriever object
  // ---------------------------------------------------------------------

  /** What `retrieve` returns: the search for `top_k`, or with `rerank` the
      rerank of a search for `top_k * 3`; a failed search fails the call. */
  function RetrieveSpec(m: SearchModelState, similarity: Similarity, query: string, topK: nat, rerank: bool)
    : (r: Result<seq<SearchResult>, SearchError>)
    ensures r.Err? <==> m.backend != "chroma" && m.backend != "faiss" && !m.numpyLoaded
  {
    var found := Dispatch(m.backend, m.numpyLoaded, m.chunks, m.stores, query, if rerank then topK * 3 else topK);
    if found.Err? then Err(found.error)
    else if rerank then Ok(Reranked(found.value, query, similarity, topK))
    else Ok(found.value)
  }

  /** The fields of a search model that decide its answers. */
  datatype SearchModelState = SearchModelState(backend: string, numpyLoaded: bool, chunks: seq<StoredChunk>, stores: Stores)

  /** The results of `retrieve_with_context` and their context string. */
  datatype Retrieved = Retrieved(results: seq<SearchResult>, context: string)

  class Retriever {
    const searchModel: SearchModel
    const similarity: Similarity

    ghost function ModelState(): SearchModelState
      reads searchModel
    {
      SearchModelState(searchModel.backend, searchModel.numpyLoaded, searchModel.chunks, searchModel.stores)
    }

    /** `Retriever(collection_name)`: a search model with backend "auto". */
    constructor(chunks: seq<StoredChunk>, stores: Stores, ok: Loaders, similarity: Similarity)
      ensures fresh(searchModel)
      ensures searchModel.backend == SelectBackend("auto", ok).backend
      ensures searchModel.numpyLoaded <==> searchModel.backend == "numpy" && ok.numpy
      ensures searchModel.chunks == chunks && searchModel.stores == stores
      ensures this.similarity == similarity
    {
      searchModel := new SearchModel("auto", chunks, stores, ok);
      this.similarity := similarity;
    }

    /** `retrieve`. */
    method Retrieve(query: string, topK: nat, rerank: bool) returns (results: Result<seq<SearchResult>, SearchError>)
      ensures results == RetrieveSpec(ModelState(), similarity, query, topK, rerank)
    {
      if rerank {
        var initial := searchModel.Search(query, topK * 3);
        if initial.Err? {
          return Err(initial.error);
        }
        var reranked := Rerank(initial.value, query, similarity, topK);
        results := Ok(reranked);
      } else {
        results := searchModel.Search(query, topK);
      }
    }

    /** `retrieve_with_context`: never reranks; the context is built only
        when the search succeeds. */
    method RetrieveWithContext(query: string, topK: nat) returns (r: Result<Retrieved, SearchError>)
      ensures var spec := RetrieveSpec(ModelState(), similarity, query, topK, false);
        r == if spec.Ok? then Ok(Retrieved(spec.value, Context(spec.value))) else Err(spec.error)
    {
      var results := Retrieve(query, topK, false);
      if results.Err? {
        return Err(results.error);
      }
      var context := BuildContext(results.value);
      r := Ok(Retrieved(results.value, context));
    }
  }

  /** `retrieve_documents`: a fresh retriever (backend "auto"), then
      `retrieve`. */
  method RetrieveDocuments(chunks: seq<StoredChunk>, stores: Stores, ok: Loaders, similarity: Similarity,
                           query: string, topK: nat, rerank: bool)
    returns (results: Result<seq<SearchResult>, SearchError>)
    ensures var backend := SelectBackend("auto", ok).backend;
      results == RetrieveSpec(SearchModelState(backend, backend == "numpy" && ok.numpy, chunks, stores),
                              similarity, query, topK, rerank)
  {
    var retriever := new Retriever(chunks, stores, ok, similarity);
    results := retriever.Retrieve(query, topK, rerank);
  }
}
