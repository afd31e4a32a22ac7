/**
 * Semantic search over document chunks. The similarity SQL is modelled as a
 * function over the chunk table: keep the organization's chunks that have an
 * embedding and belong to an active document and whose similarity
 * `1 - distance` reaches the threshold, order them by ascending distance and
 * keep the first `limit`. The cosine distance operator is the parameter
 * `dist`; the query embedding comes from the embedding service as a value.
 */
module Search {
  import opened Text
  import opened Embeddings

  /** A `document_chunks` row joined with its document. */
  datatype ChunkRow = ChunkRow(
    id: string, documentId: string, chunkIndex: int, content: string,
    organizationId: string, embedding: Option<Vector>,
    documentTitle: string, documentActive: bool)

  /** One result dict of `_vector_similarity_search`. */
  datatype Hit = Hit(id: string, documentId: string, chunkIndex: int, content: string,
                     documentTitle: string, similarityScore: real)

  /** What the search calls raise. */
  datatype SearchError =
    | QueryNotEmbedded(cause: EmbedError)   // `generate_single_embedding` raised
    | NegativeLimit                          // the database rejects `LIMIT` below zero
    | ChunkWithoutEmbedding                  // the reference chunk has no embedding

  /** `dc.embedding <=> q` for a row with an embedding. Rows without one never
      pass the `IS NOT NULL` filter, so the value given to them is never used. */
  function RowDistance(r: ChunkRow, q: Vector, dist: (Vector, Vector) -> real): real {
    match r.embedding
      case None => 0.0
      case Some(e) => dist(e, q)
  }

  /** The `WHERE` clause of the similarity SQL. */
  predicate Passes(r: ChunkRow, org: string, q: Vector, minSim: real, dist: (Vector, Vector) -> real) {
    r.organizationId == org && r.embedding.Some? && r.documentActive
    && 1.0 - RowDistance(r, q, dist) >= minSim
  }

  /** The rows that pass the `WHERE` clause, in table order. */
  function Eligible(rows: seq<ChunkRow>, org: string, q: Vector, minSim: real, dist: (Vector, Vector) -> real)
    : (r: seq<ChunkRow>)
    ensures |r| <= |rows|
    ensures forall x :: x in r <==> x in rows && Passes(x, org, q, minSim, dist)
  {
    if rows == [] then []
    else
      var rest := Eligible(rows[1..], org, q, minSim, dist);
      assert forall x :: x in rows <==> x == rows[0] || x in rows[1..];
      if Passes(rows[0], org, q, minSim, dist) then [rows[0]] + rest else rest
  }

  /** A higher threshold never lets more rows through. */
  lemma {:induction false} EligibleMonotone(rows: seq<ChunkRow>, org: string, q: Vector, low: real, high: real,
                                            dist: (Vector, Vector) -> real)
    requires low <= high
    ensures |Eligible(rows, org, q, high, dist)| <= |Eligible(rows, org, q, low, dist)|
  {
    if rows != [] {
      EligibleMonotone(rows[1..], org, q, low, high, dist);
    }
  }

  /** Rows in ascending distance order. */
  predicate SortedByDistance(rows: seq<ChunkRow>, q: Vector, dist: (Vector, Vector) -> real) {
    forall i, j :: 0 <= i < j < |rows| ==> RowDistance(rows[i], q, dist) <= RowDistance(rows[j], q, dist)
  }

  /** Puts `r` in front of the first row of `sorted` that is no closer. */
  function Insert(r: ChunkRow, sorted: seq<ChunkRow>, q: Vector, dist: (Vector, Vector) -> real): (res: seq<ChunkRow>)
    ensures multiset(res) == multiset(sorted) + multiset{r}
    ensures forall x :: x in res <==> x == r || x in sorted
    ensures SortedByDistance(sorted, q, dist) ==> SortedByDistance(res, q, dist)
  {
    if sorted == [] then [r]
    else if RowDistance(r, q, dist) <= RowDistance(sorted[0], q, dist) then [r] + sorted
    else
      var rest := Insert(r, sorted[1..], q, dist);
      assert sorted == [sorted[0]] + sorted[1..];
      assert forall x :: x in sorted <==> x == sorted[0] || x in sorted[1..];
      assert SortedByDistance(sorted, q, dist) ==> SortedByDistance([sorted[0]] + rest, q, dist) by {
        if SortedByDistance(sorted, q, dist) {
          InsertBehindHead(r, sorted, rest, q, dist);
        }
      }
      [sorted[0]] + rest
  }

  /** When `r` is farther than the head of a sorted list, the head may stay in
      front of the rest with `r` inserted. */
  lemma InsertBehindHead(r: ChunkRow, sorted: seq<ChunkRow>, rest: seq<ChunkRow>, q: Vector,
                         dist: (Vector, Vector) -> real)
    requires sorted != [] && SortedByDistance(sorted, q, dist)
    requires RowDistance(sorted[0], q, dist) < RowDistance(r, q, dist)
    requires SortedByDistance(rest, q, dist)
    requires forall x :: x in rest <==> x == r || x in sorted[1..]
    ensures SortedByDistance([sorted[0]] + rest, q, dist)
  {
    forall j | 0 <= j < |rest|
      ensures RowDistance(sorted[0], q, dist) <= RowDistance(rest[j], q, dist)
    {
      assert rest[j] in rest;
      if rest[j] != r {
        var i :| 0 <= i < |sorted[1..]| && sorted[1..][i] == rest[j];
        assert sorted[i + 1] == rest[j];
      }
    }
    var s := [sorted[0]] + rest;
    forall a, b | 0 <= a < b < |s| ensures RowDistance(s[a], q, dist) <= RowDistance(s[b], q, dist) {
      if a > 0 {
        assert s[a] == rest[a - 1] && s[b] == rest[b - 1];
      }
    }
  }

  /** `ORDER BY dc.embedding <=> q`: an insertion sort that keeps rows at equal
      distance in table order. */
  function SortByDistance(rows: seq<ChunkRow>, q: Vector, dist: (Vector, Vector) -> real): (res: seq<ChunkRow>)
    ensures multiset(res) == multiset(rows) && |res| == |rows|
    ensures SortedByDistance(res, q, dist)
  {
    if rows == [] then []
    else
      assert rows == [rows[0]] + rows[1..];
      Insert(rows[0], SortByDistance(rows[1..], q, dist), q, dist)
  }

  /** The result dict made of a row. */
  function HitOf(r: ChunkRow, q: Vector, dist: (Vector, Vector) -> real): Hit {
    Hit(r.id, r.documentId, r.chunkIndex, r.content, r.documentTitle, 1.0 - RowDistance(r, q, dist))
  }

  /** The rows the similarity SQL returns, or the database's error for a negative `LIMIT`. */
  function SqlRows(table: seq<ChunkRow>, org: string, q: Vector, minSim: real, limit: int,
                   dist: (Vector, Vector) -> real): (r: Result<seq<ChunkRow>, SearchError>)
    ensures r.Err? <==> limit < 0
  {
    if limit < 0 then Err(NegativeLimit)
    else
      var ordered := SortByDistance(Eligible(table, org, q, minSim, dist), q, dist);
      Ok(if limit <= |ordered| then ordered[..limit] else ordered)
  }

  /** What the similarity SQL promises: every returned row belongs to the
      organization, has an embedding and an active document, and reaches the
      threshold; the rows come by ascending distance; and there are
      `min(limit, number of passing rows)` of them. */
  lemma SqlRowsSpec(table: seq<ChunkRow>, org: string, q: Vector, minSim: real, limit: int,
                    dist: (Vector, Vector) -> real)
    requires limit >= 0
    ensures var rows := SqlRows(table, org, q, minSim, limit, dist).value;
      var n := |Eligible(table, org, q, minSim, dist)|;
      |rows| == (if limit <= n then limit else n)
      && (forall k :: 0 <= k < |rows| ==> rows[k] in table && Passes(rows[k], org, q, minSim, dist))
      && SortedByDistance(rows, q, dist)
  {
    var ordered := SortByDistance(Eligible(table, org, q, minSim, dist), q, dist);
    var rows := SqlRows(table, org, q, minSim, limit, dist).value;
    assert rows == ordered[..|rows|];
    forall k | 0 <= k < |rows| ensures rows[k] in table && Passes(rows[k], org, q, minSim, dist) {
      assert rows[k] in multiset(ordered);
    }
  }

  /** The returned rows are the closest ones: no passing row left out is
      closer than a returned one. */
  lemma SqlRowsClosest(table: seq<ChunkRow>, org: string, q: Vector, minSim: real, limit: int,
                       dist: (Vector, Vector) -> real)
    requires limit >= 0
    ensures var rows := SqlRows(table, org, q, minSim, limit, dist).value;
      forall x, k :: x in table && Passes(x, org, q, minSim, dist) && x !in rows && 0 <= k < |rows|
                     ==> RowDistance(rows[k], q, dist) <= RowDistance(x, q, dist)
  {
    var ordered := SortByDistance(Eligible(table, org, q, minSim, dist), q, dist);
    var rows := SqlRows(table, org, q, minSim, limit, dist).value;
    assert rows == ordered[..|rows|];
    forall x, k | x in table && Passes(x, org, q, minSim, dist) && x !in rows && 0 <= k < |rows|
      ensures RowDistance(rows[k], q, dist) <= RowDistance(x, q, dist)
    {
      assert x in multiset(ordered);
      var j :| 0 <= j < |ordered| && ordered[j] == x;
      assert |rows| <= j;
    }
  }

  /** The organization's searches. */
  class VectorSearchService {
    const organizationId: string

    constructor (organizationId: string)
      ensures this.organizationId == organizationId
    {
      this.organizationId := organizationId;
    }

    /** `_vector_similarity_search`: runs the SQL and turns each fetched row into
        a result dict, in order. The `queryset` argument is not read. */
    method VectorSimilaritySearch(table: seq<ChunkRow>, q: Vector, limit: int, minSim: real,
                                  dist: (Vector, Vector) -> real)
      returns (r: Result<seq<Hit>, SearchError>)
      ensures r == SearchResult(table, organizationId, q, minSim, limit, dist)
    {
      var fetched := SqlRows(table, organizationId, q, minSim, limit, dist);
      if fetched.Err? {
        return Err(fetched.error);
      }
      var results: seq<Hit> := [];
      for k := 0 to |fetched.value|
        invariant |results| == k
        invariant forall p :: 0 <= p < k ==> results[p] == HitOf(fetched.value[p], q, dist)
      {
        results := results + [HitOf(fetched.value[k], q, dist)];
      }
      assert results == seq(|fetched.value|, k requires 0 <= k < |fetched.value| => HitOf(fetched.value[k], q, dist));
      r := Ok(results);
    }

    /** `search`: the query's embedding, then the similarity SQL. The
        `document_ids` filter is applied to a queryset the SQL never reads. */
    method Search(table: seq<ChunkRow>, queryEmbedding: Result<Vector, EmbedError>, limit: int, minSim: real,
                  documentIds: seq<string>, dist: (Vector, Vector) -> real)
      returns (r: Result<seq<Hit>, SearchError>)
      ensures queryEmbedding.Err? ==> r == Err(QueryNotEmbedded(queryEmbedding.error))
      ensures queryEmbedding.Ok? ==> r == SearchResult(table, organizationId, queryEmbedding.value, minSim, limit, dist)
    {
      if queryEmbedding.Err? {
        return Err(QueryNotEmbedded(queryEmbedding.error));
      }
      r := VectorSimilaritySearch(table, queryEmbedding.value, limit, minSim, dist);
    }

    /** `search_by_document`: `search` with the one document id. */
    method SearchByDocument(table: seq<ChunkRow>, queryEmbedding: Result<Vector, EmbedError>, documentId: string,
                            limit: int, minSim: real, dist: (Vector, Vector) -> real)
      returns (r: Result<seq<Hit>, SearchError>)
      ensures queryEmbedding.Err? ==> r == Err(QueryNotEmbedded(queryEmbedding.error))
      ensures queryEmbedding.Ok? ==> r == SearchResult(table, organizationId, queryEmbedding.value, minSim, limit, dist)
    {
      r := Search(table, queryEmbedding, limit, minSim, [documentId], dist);
    }

    /** `get_similar_chunks`: an id not found in the organization gives no
        results; a chunk without an embedding raises; otherwise the chunk's
        embedding is the query. The exclusion of the reference chunk is applied
        to a queryset the SQL never reads. */
    method GetSimilarChunks(table: seq<ChunkRow>, chunkId: string, limit: int, minSim: real,
                            dist: (Vector, Vector) -> real)
      returns (r: Result<seq<Hit>, SearchError>)
      ensures FindChunk(table, chunkId, organizationId).None? ==> r == Ok([])
      ensures FindChunk(table, chunkId, organizationId).Some? && !HasEmbedding(FindChunk(table, chunkId, organizationId).value)
        ==> r == Err(ChunkWithoutEmbedding)
      ensures var c := FindChunk(table, chunkId, organizationId);
        c.Some? && HasEmbedding(c.value) ==>
          r == SearchResult(table, organizationId, c.value.embedding.value, minSim, limit, dist)
    {
      var chunk := FindChunk(table, chunkId, organizationId);
      if chunk.None? {
        return Ok([]);
      }
      if !HasEmbedding(chunk.value) {
        return Err(ChunkWithoutEmbedding);
      }
      r := VectorSimilaritySearch(table, chunk.value.embedding.value, limit, minSim, dist);
    }
  }

  /** The result dicts of the similarity SQL, or its error. */
  function SearchResult(table: seq<ChunkRow>, org: string, q: Vector, minSim: real, limit: int,
                        dist: (Vector, Vector) -> real): Result<seq<Hit>, SearchError>
  {
    match SqlRows(table, org, q, minSim, limit, dist)
      case Err(e) => Err(e)
      case Ok(rows) => Ok(seq(|rows|, k requires 0 <= k < |rows| => HitOf(rows[k], q, dist)))
  }

  /** `DocumentChunk.objects.get(id=chunk_id, organization_id=org)`: the chunk with
      that id in the organization (ids are primary keys, so there is at most one). */
  function FindChunk(table: seq<ChunkRow>, chunkId: string, org: string): (r: Option<ChunkRow>)
    ensures r.Some? ==> r.value in table && r.value.id == chunkId && r.value.organizationId == org
    ensures r.None? ==> forall x :: x in table ==> !(x.id == chunkId && x.organizationId == org)
  {
    if table == [] then None
    else if table[0].id == chunkId && table[0].organizationId == org then Some(table[0])
    else FindChunk(table[1..], chunkId, org)
  }

  /** `chunk.embedding` is truthy: present and not empty. */
  predicate HasEmbedding(c: ChunkRow) {
    c.embedding.Some? && c.embedding.value != []
  }

  /** What a search returns: rows of the organization with an embedding and an
      active document, each scoring `1 - distance` at least the threshold, in
      non-increasing score order, at most `limit` of them; and raising the
      threshold never returns more rows. */
  lemma SearchResultSpec(table: seq<ChunkRow>, org: string, q: Vector, minSim: real, limit: int,
                         dist: (Vector, Vector) -> real)
    requires limit >= 0
    ensures var hits := SearchResult(table, org, q, minSim, limit, dist).value;
      |hits| <= limit
      && (forall k :: 0 <= k < |hits| ==>
            hits[k].similarityScore >= minSim
            && exists x :: x in table && x.organizationId == org && x.embedding.Some? && x.documentActive
                           && hits[k] == HitOf(x, q, dist))
      && (forall i, j :: 0 <= i < j < |hits| ==> hits[i].similarityScore >= hits[j].similarityScore)
    ensures forall higher: real :: higher >= minSim ==>
      |SearchResult(table, org, q, higher, limit, dist).value| <= |SearchResult(table, org, q, minSim, limit, dist).value|
  {
    SqlRowsSpec(table, org, q, minSim, limit, dist);
    var rows := SqlRows(table, org, q, minSim, limit, dist).value;
    var hits := SearchResult(table, org, q, minSim, limit, dist).value;
    forall k | 0 <= k < |hits|
      ensures hits[k].similarityScore >= minSim
      ensures exists x :: x in table && x.organizationId == org && x.embedding.Some? && x.documentActive
                          && hits[k] == HitOf(x, q, dist)
    {
      assert hits[k] == HitOf(rows[k], q, dist);
    }
    forall higher: real | higher >= minSim
      ensures |SearchResult(table, org, q, higher, limit, dist).value| <= |SearchResult(table, org, q, minSim, limit, dist).value|
    {
      EligibleMonotone(table, org, q, minSim, higher, dist);
    }
  }

  /** The document filter has no effect: a search restricted to some documents
      returns rows of any document. With one active chunk of document "other" and
      a distance of 0, searching within ["mine"] returns that chunk. */
  lemma DocumentFilterIgnored()
    ensures var row := ChunkRow("c1", "other", 0, "text", "org", Some([1.0]), "Other", true);
      var dist := (a: Vector, b: Vector) => 0.0;
      SearchResult([row], "org", [1.0], 0.7, 10, dist) == Ok([HitOf(row, [1.0], dist)])
      && HitOf(row, [1.0], dist).documentId !in ["mine"]
  {
    var row := ChunkRow("c1", "other", 0, "text", "org", Some([1.0]), "Other", true);
    var dist := (a: Vector, b: Vector) => 0.0;
    assert Passes(row, "org", [1.0], 0.7, dist);
    assert Eligible([row], "org", [1.0], 0.7, dist) == [row];
    assert SortByDistance([row], [1.0], dist) == [row];
    assert SqlRows([row], "org", [1.0], 0.7, 10, dist) == Ok([row]);
    var hits := SearchResult([row], "org", [1.0], 0.7, 10, dist).value;
    assert |hits| == 1 && hits[0] == HitOf(row, [1.0], dist);
    assert hits == [HitOf(row, [1.0], dist)];
  }

  /** The search the `document_ids` argument evidently asks for: the SQL over the
      chunks of the listed documents only (all documents when the list is empty). */
  function SearchInDocuments(table: seq<ChunkRow>, org: string, q: Vector, minSim: real, limit: int,
                             documentIds: seq<string>, dist: (Vector, Vector) -> real): Result<seq<Hit>, SearchError>
  {
    SearchResult(if documentIds == [] then table else InDocuments(table, documentIds), org, q, minSim, limit, dist)
  }

  /** The rows of the listed documents, in table order. */
  function InDocuments(table: seq<ChunkRow>, documentIds: seq<string>): (r: seq<ChunkRow>)
    ensures forall x :: x in r <==> x in table && x.documentId in documentIds
  {
    if table == [] then []
    else
      var rest := InDocuments(table[1..], documentIds);
      assert forall x :: x in table <==> x == table[0] || x in table[1..];
      if table[0].documentId in documentIds then [table[0]] + rest else rest
  }

  /** With the filter applied, every hit belongs to a listed document. */
  lemma SearchInDocumentsSpec(table: seq<ChunkRow>, org: string, q: Vector, minSim: real, limit: int,
                              documentIds: seq<string>, dist: (Vector, Vector) -> real)
    requires limit >= 0 && documentIds != []
    ensures var hits := SearchInDocuments(table, org, q, minSim, limit, documentIds, dist).value;
      forall k :: 0 <= k < |hits| ==> hits[k].documentId in documentIds
  {
    var sub := InDocuments(table, documentIds);
    SearchResultSpec(sub, org, q, minSim, limit, dist);
  }

  /** The reference chunk is not excluded: a chunk of an active document whose
      distance to itself is 0 comes back as its own most similar chunk. */
  lemma SimilarChunksIncludeReference()
    ensures var row := ChunkRow("c1", "d1", 0, "text", "org", Some([1.0]), "Doc", true);
      var dist := (a: Vector, b: Vector) => 0.0;
      SearchResult([row], "org", row.embedding.value, 0.8, 5, dist) == Ok([HitOf(row, [1.0], dist)])
      && HitOf(row, [1.0], dist).id == "c1"
  {
    var row := ChunkRow("c1", "d1", 0, "text", "org", Some([1.0]), "Doc", true);
    var dist := (a: Vector, b: Vector) => 0.0;
    assert Passes(row, "org", [1.0], 0.8, dist);
    assert Eligible([row], "org", [1.0], 0.8, dist) == [row];
    assert SortByDistance([row], [1.0], dist) == [row];
    assert SqlRows([row], "org", [1.0], 0.8, 5, dist) == Ok([row]);
    var hits := SearchResult([row], "org", [1.0], 0.8, 5, dist).value;
    assert |hits| == 1 && hits[0] == HitOf(row, [1.0], dist);
    assert hits == [HitOf(row, [1.0], dist)];
  }

  /** The similar-chunks search the exclusion evidently asks for: the SQL over the
      chunks other than the reference one. */
  function SimilarChunksExcluding(table: seq<ChunkRow>, org: string, chunkId: string, q: Vector, minSim: real,
                                  limit: int, dist: (Vector, Vector) -> real): Result<seq<Hit>, SearchError>
  {
    SearchResult(Without(table, chunkId), org, q, minSim, limit, dist)
  }

  /** `.exclude(id=chunk_id)`: the rows with another id, in table order. */
  function Without(table: seq<ChunkRow>, chunkId: string): (r: seq<ChunkRow>)
    ensures forall x :: x in r <==> x in table && x.id != chunkId
  {
    if table == [] then []
    else
      var rest := Without(table[1..], chunkId);
      assert forall x :: x in table <==> x == table[0] || x in table[1..];
      if table[0].id != chunkId then [table[0]] + rest else rest
  }

  /** With the exclusion applied, the reference chunk is never among the results. */
  lemma SimilarChunksExcludingSpec(table: seq<ChunkRow>, org: string, chunkId: string, q: Vector, minSim: real,
                                   limit: int, dist: (Vector, Vector) -> real)
    requires limit >= 0
    ensures var hits := SimilarChunksExcluding(table, org, chunkId, q, minSim, limit, dist).value;
      forall k :: 0 <= k < |hits| ==> hits[k].id != chunkId
  {
    SearchResultSpec(Without(table, chunkId), org, q, minSim, limit, dist);
  }
}
