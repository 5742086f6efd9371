/**
 * The search model: choosing a vector-store backend from the outcomes of the
 * loaders, dispatching a query to the chosen store, turning the store's raw
 * answer into ranked result records, and filtering those by page range.
 *
 * The embedding model and the stores themselves are black boxes: a store is a
 * function from the query (and `top_k`) to its raw answer, and distances and
 * similarities are abstract scores.
 */
module SearchModelSetup {
  import opened Common
  import opened Text

  // ---------------------------------------------------------------------
  // Records
  // ---------------------------------------------------------------------

  /** A chunk as read from the chunk file; every key may be missing. */
  datatype StoredChunk = StoredChunk(text: Option<string>, pageNumber: Option<int>, chunkId: Option<int>,
                                     charCount: Option<int>, sourceFile: Option<string>)

  const NoChunk := StoredChunk(None, None, None, None, None)

  /** The metadata of a result; metadata stored in Chroma may lack any key. */
  datatype Metadata = Metadata(pageNumber: Option<int>, chunkId: Option<int>, charCount: Option<int>,
                               sourceFile: Option<string>, globalChunkId: Option<int>)

  const EmptyMetadata := Metadata(None, None, None, None, None)

  /** How a page number is printed in a context entry: the number, or "N/A"
      when the metadata has none. */
  function PageLabel(page: Option<int>): string {
    match page
    case Some(p) => IntToString(p)
    case None => "N/A"
  }

  /** A search result record; `rerankScore` is only set by the reranker. */
  datatype SearchResult = SearchResult(rank: int, id: string, text: string, metadata: Metadata,
                                       distance: Score, similarity: Score, rerankScore: Option<Score>)

  /** What FAISS answers for one query: parallel index and distance lists,
      with -1 where it found nothing. */
  datatype FaissResponse = FaissResponse(indices: seq<int>, distances: seq<Score>)

  /** What Chroma answers for one query (the first row of each list); a missing
      list is `None`. */
  datatype ChromaResponse = ChromaResponse(documents: seq<string>, metadatas: Option<seq<Metadata>>,
                                           distances: Option<seq<Score>>, ids: Option<seq<string>>)

  /** The cosine ranking over the stored embeddings, best first: (chunk
      index, similarity) pairs. */
  datatype NumpyResponse = NumpyResponse(ranked: seq<(nat, Score)>)

  /** The loaded stores, as functions of the query (and of `top_k` for the
      stores that take it), and the conversion of an L2 distance to a
      similarity. */
  datatype Stores = Stores(chroma: (string, nat) -> ChromaResponse,
                           faiss: (string, nat) -> FaissResponse,
                           numpy: string -> NumpyResponse,
                           l2ToSimilarity: Score -> Score)

  // ---------------------------------------------------------------------
  // Backend selection
  // ---------------------------------------------------------------------

  datatype Store = ChromaStore | FaissStore | NumpyStore

  /** Whether each loader succeeds: opening the Chroma collection, reading
      the FAISS index, loading the NumPy embeddings. */
  datatype Loaders = Loaders(chroma: bool, faiss: bool, numpy: bool)

  predicate Loads(s: Store, ok: Loaders) {
    match s
    case ChromaStore => ok.chroma
    case FaissStore => ok.faiss
    case NumpyStore => ok.numpy
  }

  function StoreName(s: Store): string {
    match s
    case ChromaStore => "chroma"
    case FaissStore => "faiss"
    case NumpyStore => "numpy"
  }

  /** The chosen backend and the loaders run, in the order they ran. */
  datatype Selection = Selection(backend: string, tried: seq<Store>)

  /** The backend choice of the initialiser. The loaders run one after the
      other; every loader but the last failed, the last one succeeded unless
      it is NumPy (whose outcome is not looked at), and the backend is the
      last loader's name. "auto" tries Chroma, FAISS, NumPy in that order; an
      explicit "chroma" or "faiss" falls back to NumPy and never to the other
      store; any other string loads NumPy directly. */
  function SelectBackend(requested: string, ok: Loaders): (r: Selection)
    ensures r.backend == "chroma" || r.backend == "faiss" || r.backend == "numpy"
    ensures |r.tried| > 0 && r.backend == StoreName(r.tried[|r.tried| - 1])
    ensures forall k :: 0 <= k < |r.tried| - 1 ==> !Loads(r.tried[k], ok)
    ensures Loads(r.tried[|r.tried| - 1], ok) || r.tried[|r.tried| - 1] == NumpyStore
    ensures requested == "auto" ==> r.tried <= [ChromaStore, FaissStore, NumpyStore]
    ensures requested == "chroma" ==> r.tried[0] == ChromaStore && FaissStore !in r.tried
    ensures requested == "faiss" ==> r.tried[0] == FaissStore && ChromaStore !in r.tried
    ensures requested != "auto" && requested != "chroma" && requested != "faiss" ==> r.tried == [NumpyStore]
  {
    if requested == "auto" then
      if ok.chroma then Selection("chroma", [ChromaStore])
      else if ok.faiss then Selection("faiss", [ChromaStore, FaissStore])
      else Selection("numpy", [ChromaStore, FaissStore, NumpyStore])
    else if requested == "chroma" then
      if ok.chroma then Selection("chroma", [ChromaStore]) else Selection("numpy", [ChromaStore, NumpyStore])
    else if requested == "faiss" then
      if ok.faiss then Selection("faiss", [FaissStore]) else Selection("numpy", [FaissStore, NumpyStore])
    else Selection("numpy", [NumpyStore])
  }

  /** The NumPy loader's own outcome never changes the choice. */
  lemma {:induction false} NumpyOutcomeIgnored(requested: string, ok: Loaders)
    ensures SelectBackend(requested, ok) == SelectBackend(requested, ok.(numpy := !ok.numpy))
  {
  }

  // ---------------------------------------------------------------------
  // FAISS and NumPy result records
  // ---------------------------------------------------------------------

  /** `self.chunks[idx]` when the index is inside the chunk list, else `{}`. */
  function ChunkAt(chunks: seq<StoredChunk>, idx: nat): StoredChunk {
    if idx < |chunks| then chunks[idx] else NoChunk
  }

  /** The record the FAISS and NumPy builders make for a chunk index. */
  function IndexEntry(chunks: seq<StoredChunk>, rank: int, idx: nat, distance: Score, similarity: Score): SearchResult {
    var c := ChunkAt(chunks, idx);
    SearchResult(rank, "chunk_" + NatToString(idx), c.text.GetOr(""),
                 Metadata(Some(c.pageNumber.GetOr(0)), Some(c.chunkId.GetOr(idx)), Some(c.charCount.GetOr(0)),
                          Some(c.sourceFile.GetOr("")), None),
                 distance, similarity, None)
  }

  /** An index outside the chunk list is not dropped: it gets empty text and
      default metadata whose chunk id is the index itself. */
  lemma {:induction false} IndexEntryOutOfRange(chunks: seq<StoredChunk>, rank: int, idx: nat, distance: Score, similarity: Score)
    requires idx >= |chunks|
    ensures var e := IndexEntry(chunks, rank, idx, distance, similarity);
      && e.text == "" && e.id == "chunk_" + NatToString(idx)
      && e.metadata == Metadata(Some(0), Some(idx), Some(0), Some(""), None)
  {
  }

  /** Number of entries `zip` pairs up. */
  function FaissLength(resp: FaissResponse): nat {
    Min(|resp.indices|, |resp.distances|)
  }

  /** The FAISS records for the first `n` raw entries: an entry with a
      negative index is skipped, any other gives a record ranked by its raw
      position. */
  function FaissResults(chunks: seq<StoredChunk>, resp: FaissResponse, l2ToSimilarity: Score -> Score, n: nat)
    : (r: seq<SearchResult>)
    requires n <= FaissLength(resp)
    ensures |r| <= n
    decreases n
  {
    if n == 0 then []
    else
      var rest := FaissResults(chunks, resp, l2ToSimilarity, n - 1);
      if resp.indices[n - 1] < 0 then rest else rest + [FaissRecord(chunks, resp, l2ToSimilarity, n - 1)]
  }

  /** The record for raw entry `p`: rank `p + 1`, the entry's chunk and
      distance, and the distance converted to a similarity. */
  function FaissRecord(chunks: seq<StoredChunk>, resp: FaissResponse, l2ToSimilarity: Score -> Score, p: nat): (r: SearchResult)
    requires p < FaissLength(resp) && resp.indices[p] >= 0
    ensures r.rank == p + 1
  {
    IndexEntry(chunks, p + 1, resp.indices[p], resp.distances[p], l2ToSimilarity(resp.distances[p]))
  }

  /** Every FAISS record comes from a raw entry with a non-negative index:
      its rank is one more than that entry's position, and it carries that
      entry's chunk, distance and converted similarity. */
  predicate FromRawEntries(r: seq<SearchResult>, chunks: seq<StoredChunk>, resp: FaissResponse,
                           l2ToSimilarity: Score -> Score, n: nat)
    requires n <= FaissLength(resp)
  {
    forall k :: 0 <= k < |r| ==>
      && 1 <= r[k].rank <= n
      && resp.indices[r[k].rank - 1] >= 0
      && r[k] == FaissRecord(chunks, resp, l2ToSimilarity, r[k].rank - 1)
  }

  lemma {:induction false} FaissResultsSound(chunks: seq<StoredChunk>, resp: FaissResponse, l2ToSimilarity: Score -> Score, n: nat)
    requires n <= FaissLength(resp)
    ensures FromRawEntries(FaissResults(chunks, resp, l2ToSimilarity, n), chunks, resp, l2ToSimilarity, n)
    decreases n
  {
    if n > 0 {
      FaissResultsSound(chunks, resp, l2ToSimilarity, n - 1);
      FaissResultsSoundStep(chunks, resp, l2ToSimilarity, n - 1);
    }
  }

  lemma {:induction false} FaissResultsSoundStep(chunks: seq<StoredChunk>, resp: FaissResponse, l2ToSimilarity: Score -> Score, n: nat)
    requires n < FaissLength(resp)
    requires FromRawEntries(FaissResults(chunks, resp, l2ToSimilarity, n), chunks, resp, l2ToSimilarity, n)
    ensures FromRawEntries(FaissResults(chunks, resp, l2ToSimilarity, n + 1), chunks, resp, l2ToSimilarity, n + 1)
  {
    var rest := FaissResults(chunks, resp, l2ToSimilarity, n);
    if resp.indices[n] >= 0 {
      FromRawEntriesSnoc(rest, chunks, resp, l2ToSimilarity, n);
    } else {
      FromRawEntriesGrow(rest, chunks, resp, l2ToSimilarity, n);
    }
  }

  lemma {:induction false} FromRawEntriesGrow(r: seq<SearchResult>, chunks: seq<StoredChunk>, resp: FaissResponse,
                           l2ToSimilarity: Score -> Score, n: nat)
    requires n < FaissLength(resp) && FromRawEntries(r, chunks, resp, l2ToSimilarity, n)
    ensures FromRawEntries(r, chunks, resp, l2ToSimilarity, n + 1)
  {
  }

  lemma {:induction false} FromRawEntriesSnoc(r: seq<SearchResult>, chunks: seq<StoredChunk>, resp: FaissResponse,
                           l2ToSimilarity: Score -> Score, n: nat)
    requires n < FaissLength(resp) && resp.indices[n] >= 0 && FromRawEntries(r, chunks, resp, l2ToSimilarity, n)
    ensures FromRawEntries(r + [FaissRecord(chunks, resp, l2ToSimilarity, n)], chunks, resp, l2ToSimilarity, n + 1)
  {
    var r' := r + [FaissRecord(chunks, resp, l2ToSimilarity, n)];
    assert forall k :: 0 <= k < |r| ==> r'[k] == r[k];
  }

  /** Ranks lie in 1..n and strictly increase along the list. */
  predicate RanksIncreaseWithin(r: seq<SearchResult>, n: nat) {
    && (forall k :: 0 <= k < |r| ==> 1 <= r[k].rank <= n)
    && (forall k, l :: 0 <= k < l < |r| ==> r[k].rank < r[l].rank)
  }

  /** FAISS records keep the raw order: ranks strictly increase (so skipped
      entries leave gaps in the ranks). */
  lemma {:induction false} FaissResultsOrdered(chunks: seq<StoredChunk>, resp: FaissResponse, l2ToSimilarity: Score -> Score, n: nat)
    requires n <= FaissLength(resp)
    ensures RanksIncreaseWithin(FaissResults(chunks, resp, l2ToSimilarity, n), n)
    decreases n
  {
    if n > 0 {
      FaissResultsOrdered(chunks, resp, l2ToSimilarity, n - 1);
      FaissOrderedStep(chunks, resp, l2ToSimilarity, n - 1);
    }
  }

  lemma {:induction false} FaissOrderedStep(chunks: seq<StoredChunk>, resp: FaissResponse, l2ToSimilarity: Score -> Score, n: nat)
    requires n < FaissLength(resp)
    requires RanksIncreaseWithin(FaissResults(chunks, resp, l2ToSimilarity, n), n)
    ensures RanksIncreaseWithin(FaissResults(chunks, resp, l2ToSimilarity, n + 1), n + 1)
  {
    var rest := FaissResults(chunks, resp, l2ToSimilarity, n);
    if resp.indices[n] >= 0 {
      RanksIncreaseSnoc(rest, FaissRecord(chunks, resp, l2ToSimilarity, n), n);
    }
  }

  lemma {:induction false} RanksIncreaseSnoc(r: seq<SearchResult>, e: SearchResult, n: nat)
    requires RanksIncreaseWithin(r, n) && e.rank == n + 1
    ensures RanksIncreaseWithin(r + [e], n + 1)
  {
    var r' := r + [e];
    assert forall k :: 0 <= k < |r| ==> r'[k] == r[k];
  }

  /** Every raw entry among the first `n` with a non-negative index has a
      record. */
  predicate KeepsEveryHit(r: seq<SearchResult>, resp: FaissResponse, n: nat)
    requires n <= FaissLength(resp)
  {
    forall p :: 0 <= p < n && resp.indices[p] >= 0 ==> exists k :: 0 <= k < |r| && r[k].rank == p + 1
  }

  /** No raw entry with a non-negative index is lost. */
  lemma {:induction false} FaissResultsComplete(chunks: seq<StoredChunk>, resp: FaissResponse, l2ToSimilarity: Score -> Score, n: nat)
    requires n <= FaissLength(resp)
    ensures KeepsEveryHit(FaissResults(chunks, resp, l2ToSimilarity, n), resp, n)
    decreases n
  {
    if n > 0 {
      FaissResultsComplete(chunks, resp, l2ToSimilarity, n - 1);
      var rest := FaissResults(chunks, resp, l2ToSimilarity, n - 1);
      var r := FaissResults(chunks, resp, l2ToSimilarity, n);
      assert forall k :: 0 <= k < |rest| ==> r[k] == rest[k];
      forall p | 0 <= p < n && resp.indices[p] >= 0
        ensures exists k :: 0 <= k < |r| && r[k].rank == p + 1
      {
        if p == n - 1 {
          assert r[|rest|].rank == n;
        } else {
          var k :| 0 <= k < |rest| && rest[k].rank == p + 1;
          assert r[k].rank == p + 1;
        }
      }
    }
  }

  /** `_search_faiss` after the index search: skip entries with a negative
      index and build a record for each other one. */
  method BuildFaissResults(chunks: seq<StoredChunk>, resp: FaissResponse, l2ToSimilarity: Score -> Score)
    returns (results: seq<SearchResult>)
    ensures results == FaissResults(chunks, resp, l2ToSimilarity, FaissLength(resp))
  {
    results := [];
    var rank := 0;
    while rank < FaissLength(resp)
      invariant rank <= FaissLength(resp)
      invariant results == FaissResults(chunks, resp, l2ToSimilarity, rank)
    {
      if resp.indices[rank] >= 0 {
        results := results + [FaissRecord(chunks, resp, l2ToSimilarity, rank)];
      }
      rank := rank + 1;
    }
  }

  /** The NumPy records for the first `top_k` entries of the ranking. */
  function NumpyResults(chunks: seq<StoredChunk>, resp: NumpyResponse, topK: nat): (r: seq<SearchResult>)
    ensures |r| == Min(topK, |resp.ranked|)
    ensures forall k :: 0 <= k < |r| ==>
      var (idx, sim) := resp.ranked[k];
      && r[k].rank == k + 1 && r[k].similarity == sim && r[k].distance == 1 - sim
      && r[k] == IndexEntry(chunks, k + 1, idx, 1 - sim, sim)
  {
    var top := Take(resp.ranked, topK);
    seq(|top|, k requires 0 <= k < |top| => IndexEntry(chunks, k + 1, top[k].0, 1 - top[k].1, top[k].1))
  }

  /** `_search_numpy` after the ranking. */
  method BuildNumpyResults(chunks: seq<StoredChunk>, resp: NumpyResponse, topK: nat)
    returns (results: seq<SearchResult>)
    ensures results == NumpyResults(chunks, resp, topK)
  {
    var top := Take(resp.ranked, topK);
    results := [];
    var rank := 0;
    while rank < |top|
      invariant rank <= |top|
      invariant |results| == rank
      invariant forall k :: 0 <= k < rank ==> results[k] == IndexEntry(chunks, k + 1, top[k].0, 1 - top[k].1, top[k].1)
    {
      var (idx, sim) := top[rank];
      results := results + [IndexEntry(chunks, rank + 1, idx, 1 - sim, sim)];
      rank := rank + 1;
    }
  }

  // ---------------------------------------------------------------------
  // Chroma result records and metadata hydration
  // ---------------------------------------------------------------------

  /** Python's `xs[i]`: negative indices count from the end, anything else
      out of range is an IndexError (`None`). */
  function PyIndex<T>(xs: seq<T>, i: int): (r: Option<T>)
    ensures r.Some? <==> -|xs| <= i < |xs|
    ensures 0 <= i < |xs| ==> r == Some(xs[i])
    ensures -|xs| <= i < 0 ==> r == Some(xs[|xs| + i])
  {
    if 0 <= i < |xs| then Some(xs[i])
    else if -|xs| <= i < 0 then Some(xs[|xs| + i])
    else None
  }

  /** The chunk number a Chroma result is looked up by: the metadata's
      `global_chunk_id`, else the number after the last '_' of the id (when
      the id has a '_' and that part parses). */
  function HydrationKey(meta: Metadata, docId: string): Option<int> {
    if meta.globalChunkId.Some? then meta.globalChunkId
    else if Contains(docId, "_") then ParseInt(AfterLast(docId, "_"))
    else None
  }

  /** The metadata after the hydration step: when it has no `source_file`
      and there are chunks, copy the looked-up chunk's `source_file`, if the
      key is below the chunk count, indexes a chunk, and that chunk has one.
      Any failure inside leaves the metadata as it was. */
  function Hydrate(meta: Metadata, docId: string, chunks: seq<StoredChunk>): Metadata {
    if meta.sourceFile.Some? || chunks == [] then meta
    else
      var key := HydrationKey(meta, docId);
      if key.None? || key.value >= |chunks| then meta
      else
        var chunk := PyIndex(chunks, key.value);
        if chunk.Some? && chunk.value.sourceFile.Some? then meta.(sourceFile := chunk.value.sourceFile)
        else meta
  }

  /** Hydration never overwrites a `source_file`, never touches another key,
      and a `source_file` it adds comes from the chunk the key selects. */
  lemma {:induction false} HydrateOnlyAddsSource(meta: Metadata, docId: string, chunks: seq<StoredChunk>)
    ensures var h := Hydrate(meta, docId, chunks);
      && h.(sourceFile := meta.sourceFile) == meta
      && (meta.sourceFile.Some? ==> h == meta)
      && (h != meta ==>
            var key := HydrationKey(meta, docId);
            && key.Some? && key.value < |chunks|
            && PyIndex(chunks, key.value).Some?
            && h.sourceFile == PyIndex(chunks, key.value).value.sourceFile
            && h.sourceFile.Some?)
  {
  }

  /** An id written as "chunk_<n>" (the FAISS and NumPy id format) leads the
      hydration back to chunk n when the metadata carries no chunk number. */
  lemma {:induction false} HydrateByChunkId(meta: Metadata, n: nat, chunks: seq<StoredChunk>)
    requires meta.sourceFile.None? && meta.globalChunkId.None?
    requires n < |chunks| && chunks[n].sourceFile.Some?
    ensures Hydrate(meta, "chunk_" + NatToString(n), chunks) == meta.(sourceFile := chunks[n].sourceFile)
  {
    var id := "chunk_" + NatToString(n);
    var digits := NatToString(n);
    assert id == "chunk" + ['_'] + digits;
    AfterLastChar("chunk", '_', digits);
    assert id[5..6] == "_";
    ContainsAt(id, "_", 5);
    ParseIntOfNatToString(n);
  }

  /** The metadata's own `global_chunk_id` takes precedence over the id. */
  lemma {:induction false} HydrateByGlobalId(meta: Metadata, docId: string, chunks: seq<StoredChunk>)
    requires meta.sourceFile.None? && meta.globalChunkId.Some?
    requires 0 <= meta.globalChunkId.value < |chunks| && chunks[meta.globalChunkId.value].sourceFile.Some?
    ensures Hydrate(meta, docId, chunks) == meta.(sourceFile := chunks[meta.globalChunkId.value].sourceFile)
  {
  }

  /** A negative number after the '_' indexes from the end of the chunk list,
      as Python does: "chunk_-1" takes the last chunk's source. */
  lemma {:induction false} HydrateNegativeId(a: StoredChunk, b: StoredChunk)
    requires b.sourceFile.Some?
    ensures Hydrate(EmptyMetadata, "chunk_-1", [a, b]) == EmptyMetadata.(sourceFile := b.sourceFile)
  {
    assert HydrationKey(EmptyMetadata, "chunk_-1") == Some(-1) by { NegativeIdKey(); }
  }

  lemma {:induction false} NegativeIdKey()
    ensures Contains("chunk_-1", "_") && ParseInt(AfterLast("chunk_-1", "_")) == Some(-1)
  {
    var id := "chunk_-1";
    assert id == "chunk" + ['_'] + "-1";
    AfterLastChar("chunk", '_', "-1");
    assert id[5..6] == "_";
    ContainsAt(id, "_", 5);
    MinusOne();
  }

  lemma {:induction false} MinusOne()
    ensures ParseInt("-1") == Some(-1)
  {
    assert IsStripped("-1");
    StripStripped("-1");
    assert "-1"[1..] == "1";
    assert DigitsValue("1") == 1 by { assert "1"[..0] == []; }
  }

  /** Number of entries `zip` pairs up: the documents, and each of the other
      lists when it is present. */
  function ChromaLength(resp: ChromaResponse): nat {
    var n := |resp.documents|;
    var n := if resp.metadatas.Some? then Min(n, |resp.metadatas.value|) else n;
    var n := if resp.distances.Some? then Min(n, |resp.distances.value|) else n;
    if resp.ids.Some? then Min(n, |resp.ids.value|) else n
  }

  function DistanceAt(resp: ChromaResponse, i: nat): Score
    requires i < ChromaLength(resp)
  {
    if resp.distances.Some? then resp.distances.value[i] else 0
  }

  function IdAt(resp: ChromaResponse, i: nat): string
    requires i < ChromaLength(resp)
  {
    if resp.ids.Some? then resp.ids.value[i] else ""
  }

  function ChromaEntry(resp: ChromaResponse, i: nat, meta: Metadata): SearchResult
    requires i < ChromaLength(resp)
  {
    var d := DistanceAt(resp, i);
    SearchResult(i + 1, IdAt(resp, i), resp.documents[i], meta, d, 1 - d, None)
  }

  /** Without a metadata list every entry is given the same dict (`[{}] * n`),
      so hydrations accumulate in it: its contents after the first `n`
      entries. */
  function SharedMetadata(chunks: seq<StoredChunk>, resp: ChromaResponse, n: nat): Metadata
    requires n <= ChromaLength(resp)
  {
    if n == 0 then EmptyMetadata
    else Hydrate(SharedMetadata(chunks, resp, n - 1), IdAt(resp, n - 1), chunks)
  }

  /** The Chroma records. With a metadata list each entry's own metadata is
      hydrated; without one, every record shows the one shared dict in its
      final state. */
  function ChromaResults(chunks: seq<StoredChunk>, resp: ChromaResponse): seq<SearchResult> {
    var n := ChromaLength(resp);
    if resp.metadatas.Some? then
      seq(n, i requires 0 <= i < n => ChromaEntry(resp, i, Hydrate(resp.metadatas.value[i], IdAt(resp, i), chunks)))
    else
      var shared := SharedMetadata(chunks, resp, n);
      seq(n, i requires 0 <= i < n => ChromaEntry(resp, i, shared))
  }

  /** One record per zipped entry, ranked 1..n in order, with the entry's
      document, id ("" without an id list), distance (0 without a distance
      list) and similarity 1 - distance. */
  lemma {:induction false} ChromaResultsShape(chunks: seq<StoredChunk>, resp: ChromaResponse)
    ensures var r := ChromaResults(chunks, resp);
      && |r| == ChromaLength(resp)
      && forall k :: 0 <= k < |r| ==>
           && r[k].rank == k + 1 && r[k].text == resp.documents[k]
           && r[k].id == (if resp.ids.Some? then resp.ids.value[k] else "")
           && r[k].distance == (if resp.distances.Some? then resp.distances.value[k] else 0)
           && r[k].similarity == 1 - r[k].distance
  {
  }

  /** Once the shared dict has a `source_file`, later hydrations leave it
      alone. */
  lemma {:induction false} SharedMetadataSettled(chunks: seq<StoredChunk>, resp: ChromaResponse, i: nat, n: nat)
    requires i <= n <= ChromaLength(resp)
    requires SharedMetadata(chunks, resp, i).sourceFile.Some?
    ensures SharedMetadata(chunks, resp, n) == SharedMetadata(chunks, resp, i)
    decreases n
  {
    if n > i {
      SharedMetadataSettled(chunks, resp, i, n - 1);
    }
  }

  /** While no entry's own hydration succeeds, the shared dict stays empty. */
  lemma {:induction false} SharedMetadataEmpty(chunks: seq<StoredChunk>, resp: ChromaResponse, n: nat)
    requires n <= ChromaLength(resp)
    requires forall j :: 0 <= j < n ==> Hydrate(EmptyMetadata, IdAt(resp, j), chunks) == EmptyMetadata
    ensures SharedMetadata(chunks, resp, n) == EmptyMetadata
    decreases n
  {
    if n > 0 {
      SharedMetadataEmpty(chunks, resp, n - 1);
    }
  }

  /** Without a metadata list, every record shows the source found for the
      first entry whose hydration succeeds, whichever entry it belongs to. */
  lemma {:induction false} SharedMetadataFirstHydration(chunks: seq<StoredChunk>, resp: ChromaResponse, i: nat, n: nat)
    requires i < n <= ChromaLength(resp)
    requires forall j :: 0 <= j < i ==> Hydrate(EmptyMetadata, IdAt(resp, j), chunks) == EmptyMetadata
    requires Hydrate(EmptyMetadata, IdAt(resp, i), chunks) != EmptyMetadata
    ensures SharedMetadata(chunks, resp, n) == Hydrate(EmptyMetadata, IdAt(resp, i), chunks)
  {
    SharedMetadataEmpty(chunks, resp, i);
    HydrateOnlyAddsSource(EmptyMetadata, IdAt(resp, i), chunks);
    SharedMetadataSettled(chunks, resp, i + 1, n);
  }

  lemma {:induction false} ChromaSharedMetadata(chunks: seq<StoredChunk>, resp: ChromaResponse)
    requires resp.metadatas.None?
    ensures var r := ChromaResults(chunks, resp);
      forall k, l :: 0 <= k < |r| && 0 <= l < |r| ==> r[k].metadata == r[l].metadata
  {
  }

  /** `_search_chroma` after the query: zip the lists, hydrate each entry's
      metadata in place and build the records. */
  method BuildChromaResults(chunks: seq<StoredChunk>, resp: ChromaResponse)
    returns (results: seq<SearchResult>)
    ensures results == ChromaResults(chunks, resp)
  {
    var n := ChromaLength(resp);
    var shared := EmptyMetadata;
    results := [];
    var i := 0;
    while i < n
      invariant i <= n
      invariant |results| == i
      invariant resp.metadatas.None? ==> shared == SharedMetadata(chunks, resp, i)
      invariant forall k :: 0 <= k < i ==>
        results[k] == ChromaEntry(resp, k,
          if resp.metadatas.Some? then Hydrate(resp.metadatas.value[k], IdAt(resp, k), chunks) else shared)
    {
      var meta := if resp.metadatas.Some? then resp.metadatas.value[i] else shared;
      meta := Hydrate(meta, IdAt(resp, i), chunks);
      if resp.metadatas.None? {
        // every entry holds the same dict: earlier records see the update too
        shared := meta;
        results := seq(|results|, k requires 0 <= k < |results| => results[k].(metadata := shared));
      }
      results := results + [ChromaEntry(resp, i, meta)];
      i := i + 1;
    }
  }

  // ---------------------------------------------------------------------
  // Dispatch and page filtering
  // ---------------------------------------------------------------------

  /** Why a search fails: the NumPy backend was chosen but its embeddings
      were never loaded, so `_search_numpy` divides `None` and raises. */
  datatype SearchError = EmbeddingsNotLoaded

  /** What `search` returns: the chosen backend's records, and only those,
      or the error of a NumPy search without embeddings. Only the NumPy
      search can fail, and it fails exactly when nothing was loaded. */
  function Dispatch(backend: string, numpyLoaded: bool, chunks: seq<StoredChunk>, stores: Stores,
                    query: string, topK: nat)
    : (r: Result<seq<SearchResult>, SearchError>)
    ensures r.Err? <==> backend != "chroma" && backend != "faiss" && !numpyLoaded
  {
    if backend == "chroma" then Ok(ChromaResults(chunks, stores.chroma(query, topK)))
    else if backend == "faiss" then
      var resp := stores.faiss(query, topK);
      Ok(FaissResults(chunks, resp, stores.l2ToSimilarity, FaissLength(resp)))
    else if numpyLoaded then Ok(NumpyResults(chunks, stores.numpy(query), topK))
    else Err(EmbeddingsNotLoaded)
  }

  /** The search consults the chosen store only: two sets of stores that
      agree on it give the same results. */
  lemma {:induction false} DispatchOnlyChosen(backend: string, numpyLoaded: bool, chunks: seq<StoredChunk>,
                                              s1: Stores, s2: Stores, query: string, topK: nat)
    requires backend == "chroma" ==> s1.chroma(query, topK) == s2.chroma(query, topK)
    requires backend == "faiss" ==> s1.faiss(query, topK) == s2.faiss(query, topK) && s1.l2ToSimilarity == s2.l2ToSimilarity
    requires backend != "chroma" && backend != "faiss" ==> s1.numpy(query) == s2.numpy(query)
    ensures Dispatch(backend, numpyLoaded, chunks, s1, query, topK) == Dispatch(backend, numpyLoaded, chunks, s2, query, topK)
  {
  }

  datatype PageRange = PageRange(start: int, end: int)

  predicate InPages(r: SearchResult, range: PageRange) {
    range.start <= r.metadata.pageNumber.GetOr(0) <= range.end
  }

  /** The results whose page (0 when missing) lies in the range, in order. */
  function PageFilter(rs: seq<SearchResult>, range: PageRange): (r: seq<SearchResult>)
    decreases |rs|
  {
    if rs == [] then []
    else PageFilter(rs[..|rs| - 1], range) + (if InPages(rs[|rs| - 1], range) then [rs[|rs| - 1]] else [])
  }

  /** The positions the page filter keeps, in order. */
  function PagePositions(rs: seq<SearchResult>, range: PageRange): seq<nat>
    decreases |rs|
  {
    if rs == [] then []
    else PagePositions(rs[..|rs| - 1], range) + (if InPages(rs[|rs| - 1], range) then [|rs| - 1] else [])
  }

  /** The filter keeps exactly the in-range positions, in increasing order. */
  lemma {:induction false} PageFilterKeeps(rs: seq<SearchResult>, range: PageRange)
    ensures var f := PageFilter(rs, range);
      var ps := PagePositions(rs, range);
      && |f| == |ps|
      && (forall k :: 0 <= k < |ps| ==> ps[k] < |rs| && f[k] == rs[ps[k]])
      && (forall k, l :: 0 <= k < l < |ps| ==> ps[k] < ps[l])
      && (forall i :: 0 <= i < |rs| ==> (i in ps <==> InPages(rs[i], range)))
    decreases |rs|
  {
    if rs != [] {
      var init := rs[..|rs| - 1];
      PageFilterKeeps(init, range);
      forall i | 0 <= i < |init| ensures rs[i] == init[i] { }
    }
  }

  /** `r['rank'] = i + 1` over the list. */
  function Renumber(rs: seq<SearchResult>): (r: seq<SearchResult>)
    ensures |r| == |rs|
    ensures forall k :: 0 <= k < |r| ==> r[k] == rs[k].(rank := k + 1)
  {
    seq(|rs|, k requires 0 <= k < |rs| => rs[k].(rank := k + 1))
  }

  /** What `search_with_filter` returns for the results of the `top_k * 3`
      search. */
  function WithFilter(all: seq<SearchResult>, topK: nat, filter: Option<PageRange>): (r: seq<SearchResult>)
    ensures filter.None? ==> r == Take(all, topK)
    ensures filter.Some? ==>
      && |r| == Min(topK, |PageFilter(all, filter.value)|)
      && forall k :: 0 <= k < |r| ==>
           r[k].rank == k + 1 && InPages(r[k], filter.value)
           && r[k] == PageFilter(all, filter.value)[k].(rank := k + 1)
  {
    match filter
    case None => Take(all, topK)
    case Some(range) =>
      PageFilterIn(all, range);
      Renumber(Take(PageFilter(all, range), topK))
  }

  lemma {:induction false} PageFilterIn(rs: seq<SearchResult>, range: PageRange)
    ensures forall k :: 0 <= k < |PageFilter(rs, range)| ==> InPages(PageFilter(rs, range)[k], range)
    decreases |rs|
  {
    if rs != [] {
      PageFilterIn(rs[..|rs| - 1], range);
    }
  }

  // ---------------------------------------------------------------------
  // The search model object
  // ---------------------------------------------------------------------

  /** The page filtering of `search_with_filter` over the results of the
      search for `top_k * 3`. */
  method FilterResults(all: seq<SearchResult>, topK: nat, filter: Option<PageRange>) returns (results: seq<SearchResult>)
    ensures results == WithFilter(all, topK, filter)
  {
    if filter.Some? {
      var range := filter.value;
      var filtered: seq<SearchResult> := [];
      var j := 0;
      while j < |all|
        invariant j <= |all|
        invariant filtered == PageFilter(all[..j], range)
      {
        assert all[..j + 1][..j] == all[..j];
        if InPages(all[j], range) {
          filtered := filtered + [all[j]];
        }
        j := j + 1;
      }
      assert all[..j] == all;
      var top := Take(filtered, topK);
      var i := 0;
      while i < |top|
        invariant i <= |top|
        invariant |top| == Min(topK, |filtered|)
        invariant forall k :: 0 <= k < |top| ==>
          top[k] == if k < i then filtered[k].(rank := k + 1) else filtered[k]
      {
        top := top[i := top[i].(rank := i + 1)];
        i := i + 1;
      }
      return top;
    }
    return Take(all, topK);
  }

  class SearchModel {
    var backend: string
    var chunks: seq<StoredChunk>
    var stores: Stores
    /** Whether `numpy_embeddings` holds the loaded embeddings: it starts as
        `None` and only a successful NumPy loader sets it. */
    var numpyLoaded: bool

    /** The backend is one of the three stores, and embeddings are loaded
        only when the NumPy loader ran, that is, on the NumPy backend. */
    ghost predicate Valid()
      reads this
    {
      && (backend == "chroma" || backend == "faiss" || backend == "numpy")
      && (numpyLoaded ==> backend == "numpy")
    }

    /** `SearchModel(collection_name, backend)`: load the chunks, then choose
        the backend from the loaders' outcomes. A missing chunk file reads as
        an empty chunk list. */
    constructor(backend: string, chunks: seq<StoredChunk>, stores: Stores, ok: Loaders)
      ensures Valid()
      ensures this.backend == SelectBackend(backend, ok).backend
      ensures numpyLoaded <==> this.backend == "numpy" && ok.numpy
      ensures this.chunks == chunks && this.stores == stores
    {
      this.backend := backend;
      this.chunks := chunks;
      this.stores := stores;
      numpyLoaded := false;
      new;
      Initialize(ok);
    }

    /** `_initialize`: the loader chain. The NumPy loader runs exactly when
        the chain ends on the NumPy backend; a failed load leaves the
        embeddings as they were. */
    method Initialize(ok: Loaders)
      modifies this
      ensures backend == SelectBackend(old(backend), ok).backend
      ensures numpyLoaded <==> old(numpyLoaded) || (backend == "numpy" && ok.numpy)
      ensures chunks == old(chunks) && stores == old(stores)
    {
      if backend == "auto" {
        if ok.chroma {
          backend := "chroma";
        } else if ok.faiss {
          backend := "faiss";
        } else {
          backend := "numpy";
          numpyLoaded := numpyLoaded || ok.numpy;
        }
      } else if backend == "chroma" {
        if !ok.chroma {
          backend := "numpy";
          numpyLoaded := numpyLoaded || ok.numpy;
        }
      } else if backend == "faiss" {
        if !ok.faiss {
          backend := "numpy";
          numpyLoaded := numpyLoaded || ok.numpy;
        }
      } else {
        backend := "numpy";
        numpyLoaded := numpyLoaded || ok.numpy;
      }
    }

    /** `search`: run the chosen store and build its records; the NumPy
        search without embeddings raises. */
    method Search(query: string, topK: nat) returns (results: Result<seq<SearchResult>, SearchError>)
      ensures results == Dispatch(backend, numpyLoaded, chunks, stores, query, topK)
    {
      if backend == "chroma" {
        var rs := BuildChromaResults(chunks, stores.chroma(query, topK));
        results := Ok(rs);
      } else if backend == "faiss" {
        var rs := BuildFaissResults(chunks, stores.faiss(query, topK), stores.l2ToSimilarity);
        results := Ok(rs);
      } else if numpyLoaded {
        var rs := BuildNumpyResults(chunks, stores.numpy(query), topK);
        results := Ok(rs);
      } else {
        results := Err(EmbeddingsNotLoaded);
      }
    }

    /** `search_with_filter`: search for three times as many, keep those on
        the pages asked for, renumber and cut to `top_k`; a failed search
        fails the call. */
    method SearchWithFilter(query: string, topK: nat, filter: Option<PageRange>)
      returns (results: Result<seq<SearchResult>, SearchError>)
      ensures var all := Dispatch(backend, numpyLoaded, chunks, stores, query, topK * 3);
        results == if all.Ok? then Ok(WithFilter(all.value, topK, filter)) else Err(all.error)
    {
      var all := Search(query, topK * 3);
      if all.Err? {
        return Err(all.error);
      }
      var kept := FilterResults(all.value, topK, filter);
      results := Ok(kept);
    }
  }
}
