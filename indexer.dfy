// The vector index: keeps the chunk payloads under integer ids and answers
// nearest-neighbour queries, by brute-force cosine ranking or through an HNSW index.
module Indexer {
  import opened Wrappers
  import opened Tables
  import Collections

  /** The `index` field: not built yet, the matrix of vectors for brute-force search, or
      an HNSW index holding the same vectors under ids `0 .. N-1`. */
  datatype IndexState = NotBuilt | BruteForce(vectors: seq<seq<real>>) | Hnsw(hnswVectors: seq<seq<real>>)

  /** One search hit. */
  datatype SearchResult = SearchResult(id: nat, distance: real, score: real, rank: nat, data: Payload)

  /** The summary dictionary `build_index` returns. */
  datatype BuildInfo = BuildInfo(index: IndexState, idToData: map<nat, Payload>, embeddingSize: nat, indexType: string)

  function IndexTypeName(useHnsw: bool): string {
    if useHnsw then "hnsw" else "brute_force"
  }

  function Vectors(es: seq<Chunk>): seq<seq<real>>
  {
    seq(|es|, i requires 0 <= i < |es| => es[i].embedding)
  }

  /** The id map after writing `id_to_data[i]` for each chunk `i` of `es`, in order, over
      the map `m` left by earlier builds. */
  function Rebuilt(m: map<nat, Payload>, es: seq<Chunk>): (r: map<nat, Payload>)
    ensures forall i :: 0 <= i < |es| ==> i in r && r[i] == PayloadOf(es[i])
    ensures forall k :: k in m && k >= |es| ==> k in r && r[k] == m[k]
    ensures forall k :: k in r ==> k in m || k < |es|
  {
    if |es| == 0 then m
    else
      var init := es[..|es| - 1];
      assert forall i :: 0 <= i < |es| - 1 ==> init[i] == es[i];
      Rebuilt(m, init)[|es| - 1 := PayloadOf(es[|es| - 1])]
  }

  /** A smaller rebuild after a larger one: the ids past the new chunks still hold the
      payloads of the earlier build, because the map is never cleared. */
  lemma StaleEntriesSurvive(m: map<nat, Payload>, first: seq<Chunk>, second: seq<Chunk>, k: nat)
    requires |second| <= k < |first|
    ensures k in Rebuilt(Rebuilt(m, first), second)
    ensures Rebuilt(Rebuilt(m, first), second)[k] == PayloadOf(first[k])
  {
  }

  function MinNat(a: nat, b: nat): nat { if a <= b then a else b }

  /** `0, 1, .., n-1`. */
  function Range(n: nat): (r: seq<nat>)
    ensures |r| == n && forall i :: 0 <= i < n ==> r[i] == i
  {
    seq(n, i requires 0 <= i < n => i)
  }

  /** The cosine score of stored vector `i` against the query. */
  function ScoreKey(vectors: seq<seq<real>>, q: seq<real>, sim: (seq<real>, seq<real>) -> real): nat -> real {
    (i: nat) => if i < |vectors| then sim(vectors[i], q) else 0.0
  }

  /** `np.argsort(-scores)`, ties broken towards the lower id. */
  function Order(vectors: seq<seq<real>>, q: seq<real>, sim: (seq<real>, seq<real>) -> real): seq<nat> {
    Collections.SortDesc<nat>(Range(|vectors|), ScoreKey(vectors, q, sim))
  }

  /** `np.argsort(-scores)[:k]`. */
  function TopIndices(vectors: seq<seq<real>>, q: seq<real>, sim: (seq<real>, seq<real>) -> real, k: nat): seq<nat> {
    OrderFacts(vectors, q, sim);
    Order(vectors, q, sim)[..MinNat(k, |vectors|)]
  }

  /** The ranking is a permutation of the ids `0 .. N-1`, sorted by descending score. */
  lemma OrderFacts(vectors: seq<seq<real>>, q: seq<real>, sim: (seq<real>, seq<real>) -> real)
    ensures |Order(vectors, q, sim)| == |vectors|
    ensures forall i :: 0 <= i < |Order(vectors, q, sim)| ==> Order(vectors, q, sim)[i] < |vectors|
    ensures forall d :: 0 <= d < |vectors| ==> d in Order(vectors, q, sim)
    ensures Collections.Distinct(Order(vectors, q, sim))
  {
    var n := |vectors|;
    var key := ScoreKey(vectors, q, sim);
    var range := Range(n);
    var order := Order(vectors, q, sim);
    assert Collections.Distinct(range);
    Collections.SortDescDistinct<nat>(range, key);
    Collections.SortDescPerm<nat>(range, key);
    forall i | 0 <= i < |order|
      ensures order[i] < n
    {
      assert order[i] in multiset(order);
      assert order[i] in multiset(range);
    }
    forall d | 0 <= d < n
      ensures d in order
    {
      assert range[d] == d;
      assert d in multiset(range);
      assert d in multiset(order);
    }
  }

  /** min(k, N) distinct ids below N. */
  lemma TopIndicesShape(vectors: seq<seq<real>>, q: seq<real>, sim: (seq<real>, seq<real>) -> real, k: nat)
    ensures |TopIndices(vectors, q, sim, k)| == MinNat(k, |vectors|)
    ensures forall i :: 0 <= i < |TopIndices(vectors, q, sim, k)| ==> TopIndices(vectors, q, sim, k)[i] < |vectors|
    ensures forall i, j :: 0 <= i < j < |TopIndices(vectors, q, sim, k)| ==>
              TopIndices(vectors, q, sim, k)[i] != TopIndices(vectors, q, sim, k)[j]
  {
    var order := Order(vectors, q, sim);
    OrderFacts(vectors, q, sim);
    var top := TopIndices(vectors, q, sim, k);
    assert top == order[..MinNat(k, |vectors|)];
    assert forall i :: 0 <= i < |top| ==> top[i] == order[i];
  }

  /** Scores do not increase along the selection, and every id left out scores no higher
      than every id kept. */
  lemma TopIndicesRanked(vectors: seq<seq<real>>, q: seq<real>, sim: (seq<real>, seq<real>) -> real, k: nat)
    ensures var top := TopIndices(vectors, q, sim, k);
            && (forall i :: 0 <= i < |top| ==> top[i] < |vectors|)
            && (forall i, j :: 0 <= i < j < |top| ==>
                  sim(vectors[top[i]], q) >= sim(vectors[top[j]], q))
            && (forall d :: 0 <= d < |vectors| && d !in top ==>
                  forall i :: 0 <= i < |top| ==> sim(vectors[d], q) <= sim(vectors[top[i]], q))
  {
    var n := |vectors|;
    var key := ScoreKey(vectors, q, sim);
    var order := Order(vectors, q, sim);
    var top := TopIndices(vectors, q, sim, k);
    OrderFacts(vectors, q, sim);
    assert top == order[..MinNat(k, n)];
    assert Collections.SortedDesc(order, key);
    assert forall i :: 0 <= i < |top| ==> top[i] == order[i];
    assert forall i :: 0 <= i < |top| ==> key(top[i]) == sim(vectors[top[i]], q);
    forall d | 0 <= d < n && d !in top
      ensures forall i :: 0 <= i < |top| ==> sim(vectors[d], q) <= sim(vectors[top[i]], q)
    {
      assert d in order;
      var p :| 0 <= p < |order| && order[p] == d;
      assert p >= |top|;
      assert key(d) == sim(vectors[d], q);
    }
  }

  /** The top-k selection: min(k, N) distinct ids below N, with non-increasing scores, and
      every id left out scoring no higher than every id kept. */
  lemma TopIndicesFacts(vectors: seq<seq<real>>, q: seq<real>, sim: (seq<real>, seq<real>) -> real, k: nat)
    ensures var top := TopIndices(vectors, q, sim, k);
            && |top| == MinNat(k, |vectors|)
            && (forall i :: 0 <= i < |top| ==> top[i] < |vectors|)
            && (forall i, j :: 0 <= i < j < |top| ==> top[i] != top[j])
            && (forall i, j :: 0 <= i < j < |top| ==>
                  sim(vectors[top[i]], q) >= sim(vectors[top[j]], q))
            && (forall d :: 0 <= d < |vectors| && d !in top ==>
                  forall i :: 0 <= i < |top| ==> sim(vectors[d], q) <= sim(vectors[top[i]], q))
  {
    TopIndicesShape(vectors, q, sim, k);
    TopIndicesRanked(vectors, q, sim, k);
  }

  /** The brute-force results: one hit per selected id, in order, ranked from 0. */
  function BruteForceResults(vs: seq<seq<real>>, q: seq<real>, sim: (seq<real>, seq<real>) -> real, topK: nat,
                             idToData: map<nat, Payload>): seq<SearchResult>
    requires forall i :: 0 <= i < |vs| ==> i in idToData
  {
    var top := TopIndices(vs, q, sim, topK);
    TopIndicesShape(vs, q, sim, topK);
    seq(|top|, j requires 0 <= j < |top| =>
      var score := sim(vs[top[j]], q);
      SearchResult(top[j], 1.0 - score, score, j, idToData[top[j]]))
  }

  /** Brute-force search returns min(top_k, N) hits with distinct ids below N, ranked
      0, 1, .. in output order, best score first, `distance = 1 - score`, the payload of
      each id, and no id left out scoring higher than any id returned. */
  lemma BruteForceFacts(vs: seq<seq<real>>, q: seq<real>, sim: (seq<real>, seq<real>) -> real, topK: nat,
                        idToData: map<nat, Payload>)
    requires forall i :: 0 <= i < |vs| ==> i in idToData
    ensures var rs := BruteForceResults(vs, q, sim, topK, idToData);
      && |rs| == MinNat(topK, |vs|)
      && (forall i :: 0 <= i < |rs| ==>
            && rs[i].rank == i && rs[i].id < |vs|
            && rs[i].score == sim(vs[rs[i].id], q)
            && rs[i].distance == 1.0 - rs[i].score
            && rs[i].data == idToData[rs[i].id])
      && (forall i, j :: 0 <= i < j < |rs| ==> rs[i].id != rs[j].id && rs[i].score >= rs[j].score)
      && (forall d :: 0 <= d < |vs| && (forall i :: 0 <= i < |rs| ==> rs[i].id != d) ==>
            forall i :: 0 <= i < |rs| ==> sim(vs[d], q) <= rs[i].score)
  {
    var rs := BruteForceResults(vs, q, sim, topK, idToData);
    var top := TopIndices(vs, q, sim, topK);
    TopIndicesFacts(vs, q, sim, topK);
    assert forall i :: 0 <= i < |rs| ==> rs[i].id == top[i];
  }

  /** Every vector has the length of the first, as `np.array` needs to build a matrix. */
  predicate SameLength(vs: seq<seq<real>>) {
    forall i :: 0 <= i < |vs| ==> |vs[i]| == |vs[0]|
  }

  /** The brute-force branch of `search`: `np.dot` raises ValueError for a query whose
      length is not the index's dimension; otherwise the ranked hits. */
  function BruteForceSearch(vs: seq<seq<real>>, q: seq<real>, sim: (seq<real>, seq<real>) -> real, topK: nat,
                            idToData: map<nat, Payload>): Result<seq<SearchResult>>
    requires forall i :: 0 <= i < |vs| ==> i in idToData
  {
    if |vs| > 0 && |q| != |vs[0]| then Err("ValueError") else Ok(BruteForceResults(vs, q, sim, topK, idToData))
  }

  /** The results from the HNSW branch: the neighbour list as ranked, score `1 - distance`;
      an id without a payload fails like the dictionary lookup does. */
  function HnswResults(hits: seq<(nat, real)>, idToData: map<nat, Payload>, from: nat): (r: Result<seq<SearchResult>>)
    requires from <= |hits|
    ensures r.Ok? <==> forall i :: from <= i < |hits| ==> hits[i].0 in idToData
    ensures r.Ok? ==> |r.value| == |hits| - from
    ensures r.Ok? ==> forall i :: 0 <= i < |r.value| ==>
                        && r.value[i].id == hits[from + i].0
                        && r.value[i].distance == hits[from + i].1
                        && r.value[i].score == 1.0 - hits[from + i].1
                        && r.value[i].rank == from + i
                        && r.value[i].data == idToData[hits[from + i].0]
    decreases |hits| - from
  {
    if from == |hits| then Ok([])
    else if hits[from].0 !in idToData then Err("KeyError")
    else
      match HnswResults(hits, idToData, from + 1)
      case Err(e) => Err(e)
      case Ok(rest) =>
        var (id, dist) := hits[from];
        Ok([SearchResult(id, dist, 1.0 - dist, from, idToData[id])] + rest)
  }

  class VectorIndexBuilder {
    var useHnsw: bool
    var index: IndexState
    var idToData: map<nat, Payload>
    var embeddingSize: Option<nat>

    /** A built index agrees with the configured kind, knows its vector length, and has a
        payload for every stored vector. */
    ghost predicate Valid()
      reads this
    {
      && (index.BruteForce? ==> !useHnsw)
      && (index.Hnsw? ==> useHnsw)
      && (index != NotBuilt ==> embeddingSize.Some? && |Stored()| > 0 && SameLength(Stored())
                                  && forall i :: 0 <= i < |Stored()| ==> i in idToData)
    }

    function Stored(): seq<seq<real>>
      reads this
    {
      match index
      case NotBuilt => []
      case BruteForce(vs) => vs
      case Hnsw(vs) => vs
    }

    /** HNSW is used only when it was asked for and the library is available. */
    constructor(requested: bool, hnswAvailable: bool)
      ensures useHnsw == (requested && hnswAvailable)
      ensures index == NotBuilt && idToData == map[] && embeddingSize == None
      ensures Valid()
    {
      useHnsw := requested && hnswAvailable;
      index := NotBuilt;
      idToData := map[];
      embeddingSize := None;
    }

    /** `build_index`: with no chunks nothing changes. Otherwise the vector length becomes
        that of the first chunk; vectors of unequal length make `np.array` raise ValueError
        before anything else is stored. Else the vectors become the index and the payloads
        are written under ids 0 .. N-1 over whatever the map held before. */
    method BuildIndex(embeddings: seq<Chunk>) returns (r: Result<Option<BuildInfo>>)
      requires Valid()
      modifies this
      ensures Valid()
      ensures |embeddings| == 0 ==> r == Ok(None) && unchanged(this)
      ensures |embeddings| > 0 && !SameLength(Vectors(embeddings)) ==>
        && r == Err("ValueError")
        && embeddingSize == Some(|embeddings[0].embedding|)
        && useHnsw == old(useHnsw) && index == old(index) && idToData == old(idToData)
      ensures |embeddings| > 0 && SameLength(Vectors(embeddings)) ==>
        && useHnsw == old(useHnsw)
        && index == (if useHnsw then Hnsw(Vectors(embeddings)) else BruteForce(Vectors(embeddings)))
        && embeddingSize == Some(|embeddings[0].embedding|)
        && idToData == Rebuilt(old(idToData), embeddings)
        && r == Ok(Some(BuildInfo(index, idToData, |embeddings[0].embedding|, IndexTypeName(useHnsw))))
    {
      if |embeddings| == 0 {
        return Ok(None);
      }
      var vectors := Vectors(embeddings);
      embeddingSize := Some(|vectors[0]|);
      if !SameLength(vectors) {
        return Err("ValueError");
      }
      if useHnsw {
        index := Hnsw(vectors);
      } else {
        index := BruteForce(vectors);
      }
      ghost var before := idToData;
      for i := 0 to |embeddings|
        invariant idToData == Rebuilt(before, embeddings[..i])
        invariant useHnsw == old(useHnsw) && embeddingSize == Some(|vectors[0]|)
        invariant index == (if useHnsw then Hnsw(vectors) else BruteForce(vectors))
      {
        var e := embeddings[i];
        idToData := idToData[i := Payload(e.tableIdx, e.chunkType, e.content, e.metadata)];
        assert embeddings[..i + 1][..i] == embeddings[..i];
      }
      assert embeddings[..|embeddings|] == embeddings;
      r := Ok(Some(BuildInfo(index, idToData, |vectors[0]|, IndexTypeName(useHnsw))));
    }

    /** `search`: nothing before a build; the HNSW branch reports the neighbour list it is
        given; the brute-force branch fails on a query of another dimension and otherwise
        ranks every stored vector by cosine score. */
    method Search(queryVector: seq<real>, topK: nat, sim: (seq<real>, seq<real>) -> real,
                  knn: (seq<real>, nat) -> seq<(nat, real)>)
      returns (res: Result<seq<SearchResult>>)
      requires Valid()
      ensures index.NotBuilt? ==> res == Ok([])
      ensures index.Hnsw? ==> res == HnswResults(knn(queryVector, topK), idToData, 0)
      ensures index.BruteForce? ==> res == BruteForceSearch(index.vectors, queryVector, sim, topK, idToData)
      ensures index.BruteForce? ==> (res.Err? <==> |queryVector| != |index.vectors[0]|)
    {
      if index.NotBuilt? {
        return Ok([]);
      }
      if useHnsw {
        return HnswResults(knn(queryVector, topK), idToData, 0);
      }
      if |queryVector| != |index.vectors[0]| {
        return Err("ValueError");
      }
      var results := CollectResults(index.vectors, queryVector, sim, topK, idToData);
      res := Ok(results);
    }
  }

  /** The brute-force branch of `search`: the top ids, then one hit per id. */
  method CollectResults(vs: seq<seq<real>>, q: seq<real>, sim: (seq<real>, seq<real>) -> real, topK: nat,
                        idToData: map<nat, Payload>)
    returns (results: seq<SearchResult>)
    requires forall i :: 0 <= i < |vs| ==> i in idToData
    ensures results == BruteForceResults(vs, q, sim, topK, idToData)
  {
    var top := TopIndices(vs, q, sim, topK);
    TopIndicesShape(vs, q, sim, topK);
    ghost var spec := BruteForceResults(vs, q, sim, topK, idToData);
    results := [];
    for i := 0 to |top|
      invariant |results| == i
      invariant forall j :: 0 <= j < i ==> results[j] == spec[j]
    {
      var id := top[i];
      var score := sim(vs[id], q);
      results := results + [SearchResult(id, 1.0 - score, score, i, idToData[id])];
    }
  }
}
