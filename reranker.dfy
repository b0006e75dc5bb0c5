/**
 * The cross-encoder reranker: every retrieved hit gets a relevance score
 * written into it, then the hits are sorted by that score, highest first and
 * stably, and the top `k` are kept. Without a model the hits pass through.
 */
module Reranker {
  import opened Wrappers
  import opened Text
  import opened VectorStore

  /** The loaded scorer, or the pass-through fallback after a failed load. */
  datatype Model = CrossEncoder(score: (string, string) -> real) | PassThrough

  /** `x` comes before `y` in a descending stable order on `keys`. */
  predicate Before(keys: seq<real>, x: nat, y: nat) {
    x < |keys| && y < |keys| && (keys[x] > keys[y] || (keys[x] == keys[y] && x < y))
  }

  predicate Ordered(keys: seq<real>, p: seq<nat>) {
    forall a, b :: 0 <= a < b < |p| ==> Before(keys, p[a], p[b])
  }

  /** Inserts index `i` behind every index whose key is at least as large. */
  function Insert(keys: seq<real>, p: seq<nat>, i: nat): (q: seq<nat>)
    ensures |q| == |p| + 1
    ensures forall x :: x in q <==> x in p || x == i
  {
    if p == [] then [i]
    else if p[0] < |keys| && i < |keys| && keys[p[0]] < keys[i] then [i] + p
    else [p[0]] + Insert(keys, p[1..], i)
  }

  lemma {:induction false} InsertOrdered(keys: seq<real>, p: seq<nat>, i: nat)
    requires i < |keys| && Ordered(keys, p)
    requires forall x :: x in p ==> x < i
    ensures Ordered(keys, Insert(keys, p, i))
    decreases |p|
  {
    var q := Insert(keys, p, i);
    if p != [] {
      assert p[0] in p;
      if keys[p[0]] < keys[i] {
        forall b | 0 < b < |q| ensures Before(keys, q[0], q[b]) {
          assert q[b] == p[b - 1];
          if b > 1 {
            assert Before(keys, p[0], p[b - 1]);
          }
        }
      } else {
        assert forall x :: x in p[1..] ==> x in p;
        InsertOrdered(keys, p[1..], i);
        var t := Insert(keys, p[1..], i);
        assert q == [p[0]] + t;
        forall b | 0 < b < |q| ensures Before(keys, q[0], q[b]) {
          assert q[b] in t;
          if q[b] != i {
            var c :| 0 <= c < |p[1..]| && p[1..][c] == q[b];
            assert Before(keys, p[0], p[c + 1]);
          }
        }
      }
    }
  }

  function Range(n: nat): (r: seq<nat>)
    ensures |r| == n
    ensures forall j :: 0 <= j < n ==> r[j] == j
  {
    seq(n, j requires 0 <= j < n => j)
  }

  /**
   * The permutation of `0 .. n-1` that `sorted(..., reverse=True)` applies:
   * descending by key, equal keys in their original order.
   */
  function Rank(keys: seq<real>, n: nat): (p: seq<nat>)
    requires n <= |keys|
    ensures |p| == n
    ensures forall x: nat :: x in p <==> x < n
    ensures forall k :: 0 <= k < n ==> p[k] < n
    ensures Ordered(keys, p)
  {
    if n == 0 then []
    else
      var p := Rank(keys, n - 1);
      InsertOrdered(keys, p, n - 1);
      var q := Insert(keys, p, n - 1);
      assert forall k :: 0 <= k < n ==> q[k] in q;
      q
  }

  /** An ordered ranking never repeats an index, so it really is a permutation. */
  lemma RankDistinct(keys: seq<real>, n: nat, a: nat, b: nat)
    requires n <= |keys| && a < b < n
    ensures Rank(keys, n)[a] != Rank(keys, n)[b]
  {
    var p := Rank(keys, n);
    assert Before(keys, p[a], p[b]);
  }

  /** The key the sort uses; every hit carries one once the scores are written. */
  function Keys(hs: seq<Hit>): (ks: seq<real>)
    ensures |ks| == |hs|
    ensures forall i :: 0 <= i < |hs| ==> ks[i] == hs[i].rerankScore.GetOr(0.0)
  {
    seq(|hs|, i requires 0 <= i < |hs| => hs[i].rerankScore.GetOr(0.0))
  }

  /** `sorted(hs, key=rerank_score, reverse=True)`. */
  function SortByScore(hs: seq<Hit>): (r: seq<Hit>)
    ensures |r| == |hs|
    ensures forall k :: 0 <= k < |r| ==> r[k] == hs[Rank(Keys(hs), |hs|)[k]]
    ensures forall a, b :: 0 <= a < b < |r| ==> Keys(r)[a] >= Keys(r)[b]
    ensures forall h :: h in r <==> h in hs
  {
    var p := Rank(Keys(hs), |hs|);
    var r := seq(|p|, k requires 0 <= k < |p| => hs[p[k]]);
    assert forall a, b :: 0 <= a < b < |r| ==> Before(Keys(hs), p[a], p[b]);
    forall h | h in hs ensures h in r {
      var i :| 0 <= i < |hs| && hs[i] == h;
      assert i in p;
      var k :| 0 <= k < |p| && p[k] == i;
      assert r[k] == h;
    }
    forall h | h in r ensures h in hs {
      var k :| 0 <= k < |r| && r[k] == h;
      assert hs[p[k]] == h;
    }
    r
  }

  /** Equal scores keep their input order. */
  lemma SortIsStable(hs: seq<Hit>, a: nat, b: nat)
    requires a < b < |hs|
    requires Keys(hs)[Rank(Keys(hs), |hs|)[a]] == Keys(hs)[Rank(Keys(hs), |hs|)[b]]
    ensures Rank(Keys(hs), |hs|)[a] < Rank(Keys(hs), |hs|)[b]
  {
    var p := Rank(Keys(hs), |hs|);
    assert Before(Keys(hs), p[a], p[b]);
  }

  /** The hits with the scorer's verdict on `(query, text)` written in. */
  function Scored(hs: seq<Hit>, query: string, score: (string, string) -> real): (r: seq<Hit>)
    ensures |r| == |hs|
    ensures forall i :: 0 <= i < |hs| ==>
      r[i] == hs[i].(rerankScore := Some(score(query, hs[i].text)))
  {
    seq(|hs|, i requires 0 <= i < |hs| => hs[i].(rerankScore := Some(score(query, hs[i].text))))
  }

  /**
   * What `rerank` returns with a model: at most `top_k` scored hits, highest
   * score first, each one of the scored inputs.
   */
  lemma RerankResult(hs: seq<Hit>, query: string, score: (string, string) -> real, topK: int)
    ensures var r := PyTake(SortByScore(Scored(hs, query, score)), topK);
      && (topK >= 0 ==> |r| == Min(topK, |hs|))
      && (forall k :: 0 <= k < |r| ==> r[k] in Scored(hs, query, score) && r[k].rerankScore.Some?)
      && (forall a, b :: 0 <= a < b < |r| ==> r[a].rerankScore.value >= r[b].rerankScore.value)
  {
    var sc := Scored(hs, query, score);
    var sorted := SortByScore(sc);
    var r := PyTake(sorted, topK);
    forall k | 0 <= k < |r| ensures r[k] in sc && r[k].rerankScore.Some? {
      assert r[k] == sorted[k];
      assert sorted[k] in sc;
    }
    forall a, b | 0 <= a < b < |r| ensures r[a].rerankScore.value >= r[b].rerankScore.value {
      assert Keys(sorted)[a] >= Keys(sorted)[b];
    }
  }

  /** What `rerank` returns: nothing for no hits, the first `k` without a model, else the best `k` scored. */
  function Reranked(model: Model, query: string, hs: seq<Hit>, topK: int): (r: seq<Hit>)
    ensures hs == [] ==> r == []
    ensures model.PassThrough? ==> r == PyTake(hs, topK)
    ensures model.CrossEncoder? ==> r == PyTake(SortByScore(Scored(hs, query, model.score)), topK)
  {
    if hs == [] then []
    else match model
      case PassThrough => PyTake(hs, topK)
      case CrossEncoder(score) => PyTake(SortByScore(Scored(hs, query, score)), topK)
  }

  const DefaultModel: string := "cross-encoder/ms-marco-MiniLM-L-6-v2"

  /** `model_name or DEFAULT_MODEL`: a missing or empty name selects the default. */
  function ModelName(modelName: Option<string>): (name: string)
    ensures modelName.Some? && modelName.value != "" ==> name == modelName.value
    ensures modelName == None || modelName == Some("") ==> name == DefaultModel
  {
    if modelName.Some? && modelName.value != "" then modelName.value else DefaultModel
  }

  class Reranker {
    const modelName: string
    const model: Model

    /** The name falls back to the default model; the outcome of loading the model is given. */
    constructor(modelName: Option<string>, model: Model)
      ensures this.modelName == ModelName(modelName) && this.model == model
    {
      this.modelName := ModelName(modelName);
      this.model := model;
    }

    /** `get_model_info`'s status. */
    function Status(): (s: string)
      ensures s == "loaded" <==> model.CrossEncoder?
      ensures s == "fallback" <==> model.PassThrough?
    {
      if model.CrossEncoder? then "loaded" else "fallback"
    }

    /** `rerank`: writes a score into every hit, then returns the best `top_k`. */
    method Rerank(query: string, documents: array<Hit>, topK: int) returns (ranked: seq<Hit>)
      modifies documents
      ensures documents.Length == 0 ==> ranked == [] && documents[..] == old(documents[..])
      ensures model.PassThrough? ==> documents[..] == old(documents[..]) && ranked == PyTake(old(documents[..]), topK)
      ensures model.CrossEncoder? && documents.Length > 0 ==>
        documents[..] == Scored(old(documents[..]), query, model.score)
      ensures ranked == Reranked(model, query, old(documents[..]), topK)
    {
      if documents.Length == 0 {
        return [];
      }
      if model.PassThrough? {
        return PyTake(documents[..], topK);
      }
      var n := documents.Length;
      var scores := seq(n, i requires 0 <= i < n reads documents => model.score(query, documents[i].text));
      for i := 0 to n
        invariant forall j :: 0 <= j < i ==>
          documents[j] == old(documents[j]).(rerankScore := Some(model.score(query, old(documents[j]).text)))
        invariant forall j :: i <= j < n ==> documents[j] == old(documents[j])
        invariant forall j :: 0 <= j < n ==> scores[j] == model.score(query, old(documents[j]).text)
      {
        documents[i] := documents[i].(rerankScore := Some(scores[i]));
      }
      assert documents[..] == Scored(old(documents[..]), query, model.score);
      ranked := PyTake(SortByScore(documents[..]), topK);
    }
  }
}
