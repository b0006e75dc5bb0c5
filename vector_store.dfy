/**
 * Bookkeeping of the vector store over one collection, modelled as a map from
 * chunk id to the stored text and metadata. Embedding and nearest-neighbour
 * search belong to the vector database; a query's answer is an input here.
 */
module VectorStore {
  import opened Wrappers
  import opened Text
  import opened DocumentProcessor

  /** Stored metadata; entries written by other tools may lack any key. */
  datatype Meta = Meta(source: Option<string>, chunkIdx: Option<nat>, charCount: Option<nat>)

  datatype Record = Record(text: string, meta: Meta)

  /** One search hit; `rerankScore` is the key the reranker adds later. */
  datatype Hit = Hit(text: string, metadata: Meta, score: real, rerankScore: Option<real>)

  /** The columns a collection query answers with, one row per match. */
  datatype QueryResult = QueryResult(documents: seq<string>, metadatas: seq<Meta>, distances: seq<real>)

  /** The nearest-neighbour query: text, number of results, optional `source` filter. */
  type QueryService = (string, int, Option<string>) -> QueryResult

  function MetaOf(m: ChunkMetadata): Meta {
    Meta(Some(m.source), Some(m.chunkIdx), Some(m.charCount))
  }

  /** The id under which a chunk is stored. */
  function ChunkId(source: string, idx: nat): (id: string)
    ensures IsPrefix(source + "_chunk_", id)
  {
    source + "_chunk_" + NatToString(idx)
  }

  /** Distinct chunk indices of one source never share an id. */
  lemma ChunkIdInjective(source: string, i: nat, j: nat)
    requires ChunkId(source, i) == ChunkId(source, j)
    ensures i == j
  {
    var p := source + "_chunk_";
    assert ChunkId(source, i)[|p|..] == NatToString(i);
    assert ChunkId(source, j)[|p|..] == NatToString(j);
    NatToStringInjective(i, j);
  }

  function Ids(chunks: seq<DocumentChunk>, source: string): (ids: seq<string>)
    ensures |ids| == |chunks|
    ensures forall i :: 0 <= i < |chunks| ==> ids[i] == ChunkId(source, chunks[i].metadata.chunkIdx)
  {
    seq(|chunks|, i requires 0 <= i < |chunks| => ChunkId(source, chunks[i].metadata.chunkIdx))
  }

  function Records(chunks: seq<DocumentChunk>): (rs: seq<Record>)
    ensures |rs| == |chunks|
    ensures forall i :: 0 <= i < |chunks| ==> rs[i] == Record(chunks[i].text, MetaOf(chunks[i].metadata))
  {
    seq(|chunks|, i requires 0 <= i < |chunks| => Record(chunks[i].text, MetaOf(chunks[i].metadata)))
  }

  /** A collection upsert: the rows are written in order, a later row replacing an earlier one. */
  function Upsert(m: map<string, Record>, ids: seq<string>, rs: seq<Record>): (r: map<string, Record>)
    requires |ids| == |rs|
    ensures r.Keys == m.Keys + set i | 0 <= i < |ids| :: ids[i]
    decreases |ids|
  {
    if ids == [] then m
    else
      var ids0 := ids[..|ids| - 1];
      var r0 := Upsert(m, ids0, rs[..|rs| - 1]);
      assert (set i | 0 <= i < |ids| :: ids[i]) == (set i | 0 <= i < |ids0| :: ids0[i]) + {ids[|ids| - 1]};
      r0[ids[|ids| - 1] := rs[|rs| - 1]]
  }

  /** Only the given ids are touched: every other entry keeps its value or absence. */
  lemma {:induction false} UpsertOutside(m: map<string, Record>, ids: seq<string>, rs: seq<Record>, k: string)
    requires |ids| == |rs|
    requires k !in ids
    ensures k in Upsert(m, ids, rs) <==> k in m
    ensures k in m ==> Upsert(m, ids, rs)[k] == m[k]
    decreases |ids|
  {
    if ids != [] {
      UpsertOutside(m, ids[..|ids| - 1], rs[..|rs| - 1], k);
    }
  }

  /** A given id ends up holding the row of its last occurrence. */
  lemma {:induction false} UpsertLast(m: map<string, Record>, ids: seq<string>, rs: seq<Record>, j: nat)
    requires |ids| == |rs| && j < |ids|
    requires forall l :: j < l < |ids| ==> ids[l] != ids[j]
    ensures ids[j] in Upsert(m, ids, rs) && Upsert(m, ids, rs)[ids[j]] == rs[j]
    decreases |ids|
  {
    if j < |ids| - 1 {
      UpsertLast(m, ids[..|ids| - 1], rs[..|rs| - 1], j);
    }
  }

  /** The last index at which `k` occurs. */
  function LastIndex(ids: seq<string>, k: string): (j: nat)
    requires k in ids
    ensures j < |ids| && ids[j] == k
    ensures forall l :: j < l < |ids| ==> ids[l] != k
  {
    if ids[|ids| - 1] == k then |ids| - 1 else LastIndex(ids[..|ids| - 1], k)
  }

  /** Upserting the same rows twice gives the same collection as upserting them once. */
  lemma UpsertIdempotent(m: map<string, Record>, ids: seq<string>, rs: seq<Record>)
    requires |ids| == |rs|
    ensures Upsert(Upsert(m, ids, rs), ids, rs) == Upsert(m, ids, rs)
  {
    var once := Upsert(m, ids, rs);
    var twice := Upsert(once, ids, rs);
    forall k | k in ids
      ensures k in once && k in twice && twice[k] == once[k]
    {
      var j := LastIndex(ids, k);
      UpsertLast(m, ids, rs, j);
      UpsertLast(once, ids, rs, j);
    }
    forall k | k !in ids
      ensures (k in twice <==> k in once) && (k in once ==> twice[k] == once[k])
    {
      UpsertOutside(once, ids, rs, k);
    }
    assert twice.Keys == once.Keys;
  }

  /** Ids of well-numbered chunks of one source are pairwise distinct. */
  lemma NumberedIdsDistinct(chunks: seq<DocumentChunk>, source: string, i: nat, j: nat)
    requires WellNumbered(chunks, source)
    requires i < j < |chunks|
    ensures Ids(chunks, source)[i] != Ids(chunks, source)[j]
  {
    if Ids(chunks, source)[i] == Ids(chunks, source)[j] {
      ChunkIdInjective(source, i, j);
    }
  }

  /** After ingesting the chunker's output, chunk `i` is stored under `ChunkId(source, i)`. */
  lemma StoredUnderItsId(m: map<string, Record>, chunks: seq<DocumentChunk>, source: string, i: nat)
    requires WellNumbered(chunks, source) && i < |chunks|
    ensures var stored := Upsert(m, Ids(chunks, source), Records(chunks));
      ChunkId(source, i) in stored
      && stored[ChunkId(source, i)] == Record(chunks[i].text, Meta(Some(source), Some(i), Some(|chunks[i].text|)))
  {
    var ids := Ids(chunks, source);
    forall l | i < l < |ids| ensures ids[l] != ids[i] {
      NumberedIdsDistinct(chunks, source, i, l);
    }
    UpsertLast(m, ids, Records(chunks), i);
  }

  /** `min(top_k, count or 1)`: the number of results requested from the collection. */
  function NResults(topK: int, count: nat): (n: int)
    ensures n <= topK
    ensures count > 0 ==> n <= count && (n == count || n == topK)
    ensures count == 0 ==> n <= 1 && (n == 1 || n == topK)
    ensures topK >= 1 ==> n >= 1
  {
    Min(topK, if count == 0 then 1 else count)
  }

  /**
   * The hits read off a query result: one per row that all three columns
   * have, the distance turned into a similarity, no rerank score yet.
   */
  function HitsOf(res: QueryResult): (hits: seq<Hit>)
    ensures |hits| == Min(|res.documents|, Min(|res.metadatas|, |res.distances|))
    ensures forall i :: 0 <= i < |hits| ==>
      hits[i] == Hit(res.documents[i], res.metadatas[i], 1.0 - res.distances[i], None)
  {
    var n := Min(|res.documents|, Min(|res.metadatas|, |res.distances|));
    seq(n, i requires 0 <= i < n => Hit(res.documents[i], res.metadatas[i], 1.0 - res.distances[i], None))
  }

  /** The `where` clause: no filter for a missing or empty source name. */
  function Where(sourceFilter: Option<string>): (w: Option<string>)
    ensures w == None <==> (sourceFilter == None || sourceFilter == Some(""))
    ensures w != None ==> w == sourceFilter
  {
    if sourceFilter.Some? && sourceFilter.value != "" then sourceFilter else None
  }

  /** The source name reported for an entry. */
  function SourceOf(r: Record): string {
    r.meta.source.GetOr("unknown")
  }

  /** Python's `<` on strings: code point by code point, a proper prefix first. */
  predicate LexLess(a: string, b: string)
    decreases |a|
  {
    b != [] && (a == [] || a[0] < b[0] || (a[0] == b[0] && LexLess(a[1..], b[1..])))
  }

  lemma {:induction false} LexIrreflexive(a: string)
    ensures !LexLess(a, a)
    decreases |a|
  {
    if a != [] {
      LexIrreflexive(a[1..]);
    }
  }

  lemma {:induction false} LexTransitive(a: string, b: string, c: string)
    requires LexLess(a, b) && LexLess(b, c)
    ensures LexLess(a, c)
    decreases |a|
  {
    if a != [] && a[0] == b[0] && b[0] == c[0] {
      LexTransitive(a[1..], b[1..], c[1..]);
    }
  }

  lemma {:induction false} LexTotal(a: string, b: string)
    requires a != b
    ensures LexLess(a, b) || LexLess(b, a)
    decreases |a|
  {
    if a != [] && b != [] && a[0] == b[0] {
      assert a == [a[0]] + a[1..] && b == [b[0]] + b[1..];
      LexTotal(a[1..], b[1..]);
    }
  }

  lemma LexAsymmetric(a: string, b: string)
    requires LexLess(a, b)
    ensures !LexLess(b, a)
  {
    if LexLess(b, a) {
      LexTransitive(a, b, a);
      LexIrreflexive(a);
    }
  }

  ghost predicate StrictlySorted(r: seq<string>) {
    forall i, j :: 0 <= i < j < |r| ==> LexLess(r[i], r[j])
  }

  /** The least element of a non-empty finite set of strings. */
  ghost function Least(s: set<string>): (m: string)
    requires s != {}
    ensures m in s
    ensures forall x :: x in s && x != m ==> LexLess(m, x)
    decreases |s|
  {
    var x :| x in s;
    if s == {x} then x
    else
      var m := Least(s - {x});
      if LexLess(x, m) then
        forall y | y in s - {x} && y != m ensures LexLess(x, y) {
          LexTransitive(x, m, y);
        }
        x
      else
        LexTotal(x, m);
        m
  }

  /** `sorted(s)` for a set of strings. */
  ghost function SortedSet(s: set<string>): (r: seq<string>)
    ensures StrictlySorted(r)
    ensures forall x :: x in r <==> x in s
    decreases |s|
  {
    if s == {} then []
    else
      var m := Least(s);
      var rest := SortedSet(s - {m});
      forall j | 0 <= j < |rest| ensures LexLess(m, rest[j]) {
        assert rest[j] in rest;
      }
      var r := [m] + rest;
      assert forall i, j :: 0 < i < j < |r| ==> r[i] == rest[i - 1] && r[j] == rest[j - 1];
      r
  }

  /** Sorting is determined by the elements: two strictly sorted lists with the same members are equal. */
  lemma {:induction false} SortedUnique(a: seq<string>, b: seq<string>)
    requires StrictlySorted(a) && StrictlySorted(b)
    requires forall x :: x in a <==> x in b
    ensures a == b
    decreases |a|
  {
    assert a != [] ==> a[0] in b;
    assert b != [] ==> b[0] in a;
    if a != [] && b != [] {
      if a[0] != b[0] {
        assert b[0] in a;
        assert a[0] in b;
        var i :| 0 <= i < |a| && a[i] == b[0];
        var j :| 0 <= j < |b| && b[j] == a[0];
        assert LexLess(a[0], b[0]) by { assert i > 0; }
        assert LexLess(b[0], a[0]) by { assert j > 0; }
        LexAsymmetric(a[0], b[0]);
      }
      forall x ensures x in a[1..] <==> x in b[1..] {
        if x in a[1..] {
          var i :| 1 <= i < |a| && a[i] == x;
          LexIrreflexive(x);
          assert x in a;
          var j :| 0 <= j < |b| && b[j] == x;
          assert j != 0;
          assert b[1..][j - 1] == x;
        }
        if x in b[1..] {
          var j :| 1 <= j < |b| && b[j] == x;
          LexIrreflexive(x);
          assert x in b;
          var i :| 0 <= i < |a| && a[i] == x;
          assert i != 0;
          assert a[1..][i - 1] == x;
        }
      }
      SortedUnique(a[1..], b[1..]);
    }
  }

  datatype DeleteOutcome = Deleted(count: nat) | SourceNotFound(message: string)

  class VectorStore {
    var collection: map<string, Record>

    /**
     * Opening the store reopens the persisted collection, which holds whatever
     * earlier runs stored in it: a fresh database directory gives `map[]`.
     */
    constructor(persisted: map<string, Record>)
      ensures collection == persisted
    {
      collection := persisted;
    }

    /** `get_doc_count`. */
    function DocCount(): (n: nat)
      reads this
      ensures n == 0 <==> collection == map[]
    {
      |collection.Keys|
    }

    /** The distinct source names reported by the stored entries. */
    ghost function Sources(): set<string>
      reads this
    {
      set k | k in collection :: SourceOf(collection[k])
    }

    /** `list_sources`: sorted, duplicate free, `[]` for an empty collection. */
    ghost function ListSources(): (r: seq<string>)
      reads this
      ensures StrictlySorted(r)
      ensures forall x :: x in r <==> exists k :: k in collection && SourceOf(collection[k]) == x
      ensures collection == map[] ==> r == []
    {
      if DocCount() == 0 then [] else SortedSet(Sources())
    }

    /** `add_documents`: upsert the chunks under their ids; nothing happens for `[]`. */
    method AddDocuments(chunks: seq<DocumentChunk>, source: string)
      modifies this
      ensures collection == Upsert(old(collection), Ids(chunks, source), Records(chunks))
      ensures chunks == [] ==> collection == old(collection)
    {
      if chunks == [] {
        return;
      }
      var ids := Ids(chunks, source);
      var records := Records(chunks);
      collection := Upsert(collection, ids, records);
    }

    /** `similarity_search`: one hit per returned row, in the service's order, scored `1 - distance`. */
    method SimilaritySearch(query: string, topK: int, sourceFilter: Option<string>, service: QueryService)
      returns (hits: seq<Hit>)
      ensures hits == HitsOf(service(query, NResults(topK, DocCount()), Where(sourceFilter)))
    {
      var results := service(query, NResults(topK, DocCount()), Where(sourceFilter));
      var n := Min(|results.documents|, Min(|results.metadatas|, |results.distances|));
      hits := [];
      for i := 0 to n
        invariant |hits| == i
        invariant forall l :: 0 <= l < i ==>
          hits[l] == Hit(results.documents[l], results.metadatas[l], 1.0 - results.distances[l], None)
      {
        hits := hits + [Hit(results.documents[i], results.metadatas[i], 1.0 - results.distances[i], None)];
      }
    }

    /** `delete_source`: removes exactly the entries of that source, or fails when there are none. */
    method DeleteSource(source: string) returns (outcome: DeleteOutcome)
      modifies this
      ensures var matching := set k | k in old(collection) && old(collection)[k].meta.source == Some(source);
        && (outcome.SourceNotFound? <==> matching == {})
        && (outcome.SourceNotFound? ==> collection == old(collection))
        && (outcome.Deleted? ==> outcome.count == |matching|)
      ensures forall k :: k in collection <==> k in old(collection) && old(collection)[k].meta.source != Some(source)
      ensures forall k :: k in collection ==> collection[k] == old(collection)[k]
    {
      var ids := set k | k in collection && collection[k].meta.source == Some(source);
      assert forall k :: k in collection && collection[k].meta.source == Some(source) ==> k in ids;
      if ids != {} {
        collection := map k | k in collection && k !in ids :: collection[k];
        outcome := Deleted(|ids|);
      } else {
        outcome := SourceNotFound("Source '" + source + "' not found in vector store");
      }
    }
  }
}
