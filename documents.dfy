/**
 * The uploaded document and its stored chunks. A document's chunk rows are
 * kept on the document itself, as the sequence of rows whose foreign key
 * points at it; the database's `unique_chunk_per_doc` constraint says no two
 * of them share a `chunk_index`.
 */
module Documents {
  import opened Text
  import opened Embeddings

  /** `Document.Status`. */
  datatype Status = Pending | Processing | Completed | Failed

  /** A value of the document's JSON metadata. */
  datatype MetaValue = MetaText(text: string) | MetaCount(count: int)

  /** A `DocumentChunk` row. */
  datatype StoredChunk = StoredChunk(organizationId: string, content: string, chunkIndex: int,
                                     embedding: Option<Vector>)

  /** The fields of a document that processing changes. */
  datatype DocumentState = DocumentState(
    status: Status, errorMessage: string, textContent: string,
    metadata: map<string, MetaValue>, processedAt: Option<int>, chunks: seq<StoredChunk>)

  /** `unique_chunk_per_doc`: no two chunks of a document share an index. */
  predicate DistinctIndices(chunks: seq<StoredChunk>) {
    forall i, j :: 0 <= i < j < |chunks| ==> chunks[i].chunkIndex != chunks[j].chunkIndex
  }

  /** PDF metadata strings as JSON metadata values. */
  function TextValues(m: map<string, string>): (r: map<string, MetaValue>)
    ensures r.Keys == m.Keys
    ensures forall k :: k in m ==> r[k] == MetaText(m[k])
  {
    map k | k in m :: MetaText(m[k])
  }

  /** `dict.update`: the entries of `update` win. */
  function Updated(m: map<string, MetaValue>, update: map<string, MetaValue>): (r: map<string, MetaValue>)
    ensures r.Keys == m.Keys + update.Keys
    ensures forall k :: k in update ==> r[k] == update[k]
    ensures forall k :: k in m && k !in update ==> r[k] == m[k]
  {
    m + update
  }

  /** An uploaded PDF and its processing state. */
  class Document {
    const id: string
    const title: string
    const organizationId: string
    /** Whether a file is attached (`document.file` is truthy). */
    const hasFile: bool
    var status: Status
    var errorMessage: string
    var textContent: string
    var metadata: map<string, MetaValue>
    var processedAt: Option<int>
    var chunks: seq<StoredChunk>

    /** A freshly uploaded document: pending, with no text and no chunks. */
    constructor (id: string, title: string, organizationId: string, hasFile: bool)
      ensures this.id == id && this.title == title && this.organizationId == organizationId
      ensures this.hasFile == hasFile
      ensures State() == DocumentState(Pending, "", "", map[], None, [])
    {
      this.id := id;
      this.title := title;
      this.organizationId := organizationId;
      this.hasFile := hasFile;
      status := Pending;
      errorMessage := "";
      textContent := "";
      metadata := map[];
      processedAt := None;
      chunks := [];
    }

    /** The fields processing changes, as one value. */
    function State(): DocumentState
      reads this
    {
      DocumentState(status, errorMessage, textContent, metadata, processedAt, chunks)
    }
  }
}
