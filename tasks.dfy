/**
 * The background task that processes one uploaded document: it moves the
 * document from PENDING (or FAILED) through PROCESSING to COMPLETED or FAILED,
 * storing the extracted text, the chunks and whatever embeddings could be made.
 * The chunker's and the embedding service's answers, the outcome of the bulk
 * insert and the clock are inputs.
 */
module Tasks {
  import opened Text
  import opened Embeddings
  import opened TextChunker
  import opened PdfExtractor
  import opened Documents

  /** The returned summary dict. */
  datatype TaskResult =
    | ErrorResult(detail: string)
    | Skipped(detail: string)
    | FailedResult(detail: string)
    | CompletedResult(documentId: string, pageCount: nat, chunkCount: nat, textLength: nat, hasEmbeddings: bool)

  /** What the task's collaborators answer for this document: the file's read
      outcome and the PDF parser, the chunker's result, the configured OpenAI
      key, the embedding service's result, whether the bulk insert raises for a
      reason other than a duplicate chunk index, the message of a chunker
      exception, and the clock. */
  datatype Inputs = Inputs(
    content: Result<seq<Byte>, string>, parse: seq<Byte> -> Result<ParsedPdf, string>,
    chunked: Result<seq<TextChunk>, ChunkError>, openaiKey: string,
    embedded: Result<seq<Option<Vector>>, EmbedError>, insertRaises: bool,
    describe: ChunkError -> string, now: int)

  const NotFoundDetail: string := "Document not found"
  const AlreadyProcessedDetail: string := "Already processed"
  const NoFileMessage: string := "No file attached to document."
  const NoTextMessage: string := "No text could be extracted from the PDF."
  const NoChunksMessage: string := "Text chunking produced no chunks."
  const UnexpectedPrefix: string := "Unexpected error: "

  /** `embedding if embedding else None`: an empty vector is stored as none. */
  function StoredEmbedding(e: Option<Vector>): Option<Vector> {
    if e.Some? && e.value != [] then e else None
  }

  /** The embeddings paired with the chunks: one empty slot per chunk, replaced
      by the service's answer only when an OpenAI key is configured and the
      service succeeds. */
  function EmbeddingsFor(chunks: seq<TextChunk>, openaiKey: string, embedded: Result<seq<Option<Vector>>, EmbedError>)
    : seq<Option<Vector>>
  {
    if openaiKey != "" && embedded.Ok? then embedded.value
    else seq(|chunks|, _ => None)
  }

  /** `zip(chunks, embeddings)` turned into chunk rows: as many as the shorter
      list, each keeping its chunk's content and chunker index. */
  function Zipped(org: string, chunks: seq<TextChunk>, embeddings: seq<Option<Vector>>): (rows: seq<StoredChunk>)
    ensures |rows| == if |chunks| <= |embeddings| then |chunks| else |embeddings|
    ensures forall k :: 0 <= k < |rows| ==>
      rows[k] == StoredChunk(org, chunks[k].content, chunks[k].chunkIndex, StoredEmbedding(embeddings[k]))
  {
    var n := if |chunks| <= |embeddings| then |chunks| else |embeddings|;
    seq(n, k requires 0 <= k < n => StoredChunk(org, chunks[k].content, chunks[k].chunkIndex, StoredEmbedding(embeddings[k])))
  }

  /** `any(e is not None for e in embeddings)`. */
  predicate AnyPresent(embeddings: seq<Option<Vector>>) {
    exists k :: 0 <= k < |embeddings| && embeddings[k].Some?
  }

  /** The document marked failed with `message`, and the task's answer. */
  function Fail(s: DocumentState, message: string, detail: string): (DocumentState, TaskResult) {
    (s.(status := Failed, errorMessage := message), FailedResult(detail))
  }

  /** The run of the task on a document that is not yet completed: its final
      state and its answer. */
  function Run(before: DocumentState, documentId: string, org: string, hasFile: bool, inputs: Inputs)
    : (DocumentState, TaskResult)
  {
    var processing := before.(status := Processing, errorMessage := "");
    if !hasFile then Fail(processing, NoFileMessage, NoFileMessage)
    else
      var extraction := FileExtraction(inputs.content, inputs.parse);
      if extraction.Err? then Fail(processing, extraction.error.message, extraction.error.message)
      else
        var text := extraction.value.text;
        if IsBlank(text) then Fail(processing, NoTextMessage, NoTextMessage)
        else
          var withText := processing.(textContent := text,
            metadata := Updated(Updated(processing.metadata, map["page_count" := MetaCount(extraction.value.pageCount)]),
                                TextValues(extraction.value.metadata)));
          AfterText(withText, documentId, org, extraction.value.pageCount, |text|, inputs)
  }

  /** The run from the chunking step on, once the text is stored. */
  function AfterText(withText: DocumentState, documentId: string, org: string, pageCount: nat, textLength: nat,
                     inputs: Inputs): (DocumentState, TaskResult)
  {
    if inputs.chunked.Err? then
      var d := inputs.describe(inputs.chunked.error);
      Fail(withText, UnexpectedPrefix + d, d)
    else if inputs.chunked.value == [] then Fail(withText, NoChunksMessage, NoChunksMessage)
    else
      var chunks := inputs.chunked.value;
      var embeddings := EmbeddingsFor(chunks, inputs.openaiKey, inputs.embedded);
      var rows := Zipped(org, chunks, embeddings);
      var stored := if inputs.insertRaises || !DistinctIndices(rows) then [] else rows;
      (withText.(chunks := stored, status := Completed, processedAt := Some(inputs.now)),
       CompletedResult(documentId, pageCount, |rows|, textLength, AnyPresent(embeddings)))
  }

  /** A run that reaches PROCESSING always ends COMPLETED or FAILED; it fails
      exactly when it answers "failed", with the answer's detail as the error
      message (prefixed for an unexpected exception); and only a completed run
      sets the processing time. */
  lemma RunEnds(before: DocumentState, documentId: string, org: string, hasFile: bool, inputs: Inputs)
    ensures var (after, result) := Run(before, documentId, org, hasFile, inputs);
      (after.status == Completed || after.status == Failed)
      && (after.status == Failed <==> result.FailedResult?)
      && (after.status == Completed <==> result.CompletedResult?)
      && (result.FailedResult? ==>
            after.errorMessage == result.detail || after.errorMessage == UnexpectedPrefix + result.detail)
      && (result.FailedResult? ==> after.processedAt == before.processedAt && after.chunks == before.chunks)
      && (result.CompletedResult? ==> after.errorMessage == "" && after.processedAt == Some(inputs.now))
  {
  }

  /** A completed run: the document has text, its old rows are gone, and the
      stored rows are the zip of chunks and embeddings, or none when the insert
      failed; their number is the shorter length; without a key or after an
      embedding failure no row has an embedding and the answer says so. */
  lemma RunStoresChunks(before: DocumentState, documentId: string, org: string, hasFile: bool, inputs: Inputs)
    requires Run(before, documentId, org, hasFile, inputs).1.CompletedResult?
    ensures var (after, result) := Run(before, documentId, org, hasFile, inputs);
      var chunks := inputs.chunked.value;
      var embeddings := EmbeddingsFor(chunks, inputs.openaiKey, inputs.embedded);
      hasFile && inputs.chunked.Ok? && chunks != [] && !IsBlank(after.textContent)
      && (after.chunks == [] || after.chunks == Zipped(org, chunks, embeddings))
      && (after.chunks != [] ==> DistinctIndices(after.chunks))
      && result.chunkCount == (if |chunks| <= |embeddings| then |chunks| else |embeddings|)
      && (!(inputs.openaiKey != "" && inputs.embedded.Ok?) ==>
            result.chunkCount == |chunks| && !result.hasEmbeddings
            && forall k :: 0 <= k < |after.chunks| ==> after.chunks[k].embedding.None?)
  {
    var chunks := inputs.chunked.value;
    var embeddings := EmbeddingsFor(chunks, inputs.openaiKey, inputs.embedded);
    if !(inputs.openaiKey != "" && inputs.embedded.Ok?) {
      assert forall k :: 0 <= k < |embeddings| ==> embeddings[k].None?;
    }
  }

  /** Chunks numbered in increasing order, as the chunker produces them, always
      satisfy the per-document uniqueness of `chunk_index`, so then only a
      failure of the database itself leaves the document without rows. */
  lemma ZippedDistinct(org: string, chunks: seq<TextChunk>, embeddings: seq<Option<Vector>>)
    requires Increasing(chunks)
    ensures DistinctIndices(Zipped(org, chunks, embeddings))
  {
    var rows := Zipped(org, chunks, embeddings);
    forall i, j | 0 <= i < j < |rows| ensures rows[i].chunkIndex != rows[j].chunkIndex {
      assert rows[i].chunkIndex == chunks[i].chunkIndex && rows[j].chunkIndex == chunks[j].chunkIndex;
    }
  }

  /** `process_document`: an unknown id is reported; a completed document is
      skipped and left as it is, so running the task again changes nothing;
      any other document goes through `Run`. */
  method ProcessDocument(documents: map<string, Document>, documentId: string, inputs: Inputs)
    returns (r: TaskResult)
    modifies if documentId in documents then {documents[documentId]} else {}
    ensures documentId !in documents ==> r == ErrorResult(NotFoundDetail)
    ensures documentId in documents && old(documents[documentId].status) == Completed ==>
      r == Skipped(AlreadyProcessedDetail) && unchanged(documents[documentId])
    ensures documentId in documents && old(documents[documentId].status) != Completed ==>
      var d := documents[documentId];
      (d.State(), r) == Run(old(d.State()), documentId, d.organizationId, d.hasFile, inputs)
  {
    if documentId !in documents {
      return ErrorResult(NotFoundDetail);
    }
    var document := documents[documentId];
    if document.status == Completed {
      return Skipped(AlreadyProcessedDetail);
    }
    document.status := Processing;
    document.errorMessage := "";
    if !document.hasFile {
      r := MarkFailed(document, NoFileMessage, NoFileMessage);
      return;
    }
    var extraction := ExtractTextFromFile(inputs.content, inputs.parse);
    if extraction.Err? {
      r := MarkFailed(document, extraction.error.message, extraction.error.message);
      return;
    }
    var fullText := extraction.value.text;
    if IsBlank(fullText) {
      r := MarkFailed(document, NoTextMessage, NoTextMessage);
      return;
    }
    document.textContent := fullText;
    document.metadata := Updated(document.metadata, map["page_count" := MetaCount(extraction.value.pageCount)]);
    document.metadata := Updated(document.metadata, TextValues(extraction.value.metadata));
    r := ChunkAndStore(document, documentId, extraction.value.pageCount, |fullText|, inputs);
  }

  /** The task from the chunking step on: fail without chunks, otherwise pair
      the chunks with the embeddings, replace the document's rows and complete it. */
  method ChunkAndStore(document: Document, documentId: string, pageCount: nat, textLength: nat, inputs: Inputs)
    returns (r: TaskResult)
    modifies document
    ensures (document.State(), r) ==
      AfterText(old(document.State()), documentId, document.organizationId, pageCount, textLength, inputs)
  {
    if inputs.chunked.Err? {
      var detail := inputs.describe(inputs.chunked.error);
      r := MarkFailed(document, UnexpectedPrefix + detail, detail);
      return;
    }
    var chunks := inputs.chunked.value;
    if chunks == [] {
      r := MarkFailed(document, NoChunksMessage, NoChunksMessage);
      return;
    }
    var embeddings: seq<Option<Vector>> := seq(|chunks|, _ => None);
    if inputs.openaiKey != "" && inputs.embedded.Ok? {
      embeddings := inputs.embedded.value;
    }
    document.chunks := [];
    var n := if |chunks| <= |embeddings| then |chunks| else |embeddings|;
    var chunkObjects: seq<StoredChunk> := [];
    for k := 0 to n
      invariant |chunkObjects| == k
      invariant forall p :: 0 <= p < k ==>
        chunkObjects[p] == StoredChunk(document.organizationId, chunks[p].content, chunks[p].chunkIndex,
                                       StoredEmbedding(embeddings[p]))
    {
      var embedding := if embeddings[k].Some? && embeddings[k].value != [] then embeddings[k] else None;
      chunkObjects := chunkObjects + [StoredChunk(document.organizationId, chunks[k].content, chunks[k].chunkIndex, embedding)];
    }
    assert chunkObjects == Zipped(document.organizationId, chunks, embeddings);
    if !inputs.insertRaises && DistinctIndices(chunkObjects) {
      document.chunks := chunkObjects;
    }
    document.status := Completed;
    document.processedAt := Some(inputs.now);
    r := CompletedResult(documentId, pageCount, |chunkObjects|, textLength, AnyPresent(embeddings));
  }

  /** Marks the document failed with `message` and answers "failed" with `detail`. */
  method MarkFailed(document: Document, message: string, detail: string) returns (r: TaskResult)
    modifies document
    ensures (document.State(), r) == Fail(old(document.State()), message, detail)
  {
    document.status := Failed;
    document.errorMessage := message;
    r := FailedResult(detail);
  }
}
