/**
 * The document processing pipeline: extract the PDF text, chunk it, embed the
 * chunks, and store them in place of the document's old chunks. The chunker's
 * and the embedding service's answers for this document are parameters; the
 * extraction is the modelled PDF extractor over the file's read outcome and a
 * parser.
 */
module DocumentProcessing {
  import opened Text
  import opened Embeddings
  import opened TextChunker
  import opened PdfExtractor
  import opened Documents

  /** Why chunking failed. */
  datatype ChunkFailure =
    | UnexpectedKeyword(name: string)   // the call passed an argument `chunk_text` does not accept
    | ChunkerRaised(error: ChunkError)

  /** What raised inside the pipeline. */
  datatype Cause =
    | NoFileAttached
    | ExtractionFailed(extractionError: ExtractionError)
    | ChunkingFailed(failure: ChunkFailure)
    | EmbeddingFailed(reason: Reason)     // an `EmbeddingError`, re-raised with its message
    | EmbeddingRaised(embedError: EmbedError)// any other exception from the embedding service
    | MissingAttribute(name: string)      // an `AttributeError`

  /** `DocumentProcessingError`: "Document with ID … not found", or
      "Failed to process document <title>: <cause>". */
  datatype ProcessingError = NotFound(documentId: string) | ProcessFailed(title: string, cause: Cause)

  /** The returned statistics. */
  datatype ProcessSummary = ProcessSummary(documentId: string, chunksCreated: nat, embeddingsGenerated: nat,
                                           textLength: nat)

  /** `len([e for e in embeddings if e is not None])`. */
  function CountPresent(embeddings: seq<Option<Vector>>): (n: nat)
    ensures n <= |embeddings|
    ensures n == 0 <==> forall k :: 0 <= k < |embeddings| ==> embeddings[k].None?
    ensures n == |embeddings| <==> forall k :: 0 <= k < |embeddings| ==> embeddings[k].Some?
  {
    if embeddings == [] then 0
    else
      assert forall k :: 1 <= k < |embeddings| ==> embeddings[k] == embeddings[1..][k - 1];
      (if embeddings[0].Some? then 1 else 0) + CountPresent(embeddings[1..])
  }

  /** The chunk row made for chunk `i`: its content, index `i`, and the `i`-th
      embedding when there is one. */
  function NewChunk(org: string, chunks: seq<TextChunk>, embeddings: seq<Option<Vector>>, i: nat): StoredChunk
    requires i < |chunks|
  {
    StoredChunk(org, chunks[i].content, i, if i < |embeddings| then embeddings[i] else None)
  }

  /** The chunk rows made for all chunks: one per chunk, in order, numbered
      from 0 whatever index the chunker gave, so the per-document uniqueness of
      `chunk_index` holds; each pairs its chunk with the embedding at the same
      position, or with none when the embeddings run out. */
  function NewChunks(org: string, chunks: seq<TextChunk>, embeddings: seq<Option<Vector>>): (rows: seq<StoredChunk>)
    ensures |rows| == |chunks|
    ensures DistinctIndices(rows)
    ensures forall i :: 0 <= i < |rows| ==>
      rows[i].chunkIndex == i && rows[i].content == chunks[i].content && rows[i].organizationId == org
      && (i < |embeddings| ==> rows[i].embedding == embeddings[i])
      && (i >= |embeddings| ==> rows[i].embedding.None?)
  {
    seq(|chunks|, i requires 0 <= i < |chunks| => NewChunk(org, chunks, embeddings, i))
  }

  /** The document after a successful save: the new rows replace all old ones,
      the text and the PDF metadata are stored, and it is completed without
      an error message at time `now`. */
  function Saved(before: DocumentState, org: string, chunks: seq<TextChunk>, embeddings: seq<Option<Vector>>,
                 extraction: Extraction, now: int): DocumentState
  {
    DocumentState(Completed, "", extraction.text, Updated(before.metadata, TextValues(extraction.metadata)),
                  Some(now), NewChunks(org, chunks, embeddings))
  }

  /** Runs the pipeline on one document. */
  class DocumentProcessor {
    const document: Document

    constructor (document: Document)
      ensures this.document == document
    {
      this.document := document;
    }

    /** `_extract_text`: a document without a file fails; an extraction error
        fails with the extractor's message. */
    method ExtractText(content: Result<seq<Byte>, string>, parse: seq<Byte> -> Result<ParsedPdf, string>)
      returns (r: Result<Extraction, Cause>)
      ensures !document.hasFile ==> r == Err(NoFileAttached)
      ensures document.hasFile && FileExtraction(content, parse).Err? ==>
        r == Err(ExtractionFailed(FileExtraction(content, parse).error))
      ensures document.hasFile && FileExtraction(content, parse).Ok? ==> r == Ok(FileExtraction(content, parse).value)
    {
      if !document.hasFile {
        return Err(NoFileAttached);
      }
      var extraction := ExtractTextFromFile(content, parse);
      match extraction {
        case Err(e) => r := Err(ExtractionFailed(e));
        case Ok(x) => r := Ok(x);
      }
    }

    /** `_chunk_text` as written: it passes `preserve_sentences=True`, which
        `chunk_text` does not accept, so the call raises `TypeError` before the
        chunker runs, whatever the text. */
    method ChunkTextAsWritten(text: string, chunkSize: int, chunkOverlap: int) returns (r: Result<seq<TextChunk>, Cause>)
      ensures r == Err(ChunkingFailed(UnexpectedKeyword("preserve_sentences")))
    {
      r := Err(ChunkingFailed(UnexpectedKeyword("preserve_sentences")));
    }

    /** `process` as written: it fails on a missing file or an extraction error,
        and otherwise at the chunking step, so it never completes and never
        touches the document. */
    method Process(chunkSize: int, chunkOverlap: int, content: Result<seq<Byte>, string>,
                   parse: seq<Byte> -> Result<ParsedPdf, string>)
      returns (r: Result<ProcessSummary, ProcessingError>)
      ensures r.Err?
      ensures !document.hasFile ==> r == Err(ProcessFailed(document.title, NoFileAttached))
      ensures document.hasFile && FileExtraction(content, parse).Err? ==>
        r == Err(ProcessFailed(document.title, ExtractionFailed(FileExtraction(content, parse).error)))
      ensures document.hasFile && FileExtraction(content, parse).Ok? ==>
        r == Err(ProcessFailed(document.title, ChunkingFailed(UnexpectedKeyword("preserve_sentences"))))
    {
      var extraction := ExtractText(content, parse);
      if extraction.Err? {
        return Err(ProcessFailed(document.title, extraction.error));
      }
      var chunks := ChunkTextAsWritten(extraction.value.text, chunkSize, chunkOverlap);
      r := Err(ProcessFailed(document.title, chunks.error));
    }

    /** `_generate_embeddings`: no chunks need no embeddings and the service is
        not asked; an `EmbeddingError` is re-raised with its reason, any other
        failure propagates. */
    method GenerateEmbeddings(chunks: seq<TextChunk>, embedded: Result<seq<Option<Vector>>, EmbedError>)
      returns (r: Result<seq<Option<Vector>>, Cause>)
      ensures chunks == [] ==> r == Ok([])
      ensures chunks != [] && embedded.Ok? ==> r == Ok(embedded.value)
      ensures chunks != [] && embedded.Err? && embedded.error.EmbeddingError? ==>
        r == Err(EmbeddingFailed(embedded.error.reason))
      ensures chunks != [] && embedded.Err? && !embedded.error.EmbeddingError? ==>
        r == Err(EmbeddingRaised(embedded.error))
    {
      if chunks == [] {
        return Ok([]);
      }
      match embedded {
        case Ok(v) => r := Ok(v);
        case Err(EmbeddingError(reason)) => r := Err(EmbeddingFailed(reason));
        case Err(e) => r := Err(EmbeddingRaised(e));
      }
    }

    /** `_save_chunks_and_embeddings` as written: inside one transaction it
        deletes the old rows, then reads `chunk_data.metadata`, which a chunk
        does not have. With at least one chunk this raises `AttributeError` and
        the transaction rolls back, leaving the document as it was. */
    method SaveChunksAndEmbeddings(chunks: seq<TextChunk>, embeddings: seq<Option<Vector>>, extraction: Extraction,
                                   now: int)
      returns (r: Result<ProcessSummary, Cause>)
      modifies document
      ensures chunks != [] ==> r == Err(MissingAttribute("metadata")) && document.State() == old(document.State())
      ensures chunks == [] ==>
        r == Ok(ProcessSummary(document.id, 0, CountPresent(embeddings), |extraction.text|))
        && document.State() == Saved(old(document.State()), document.organizationId, chunks, embeddings, extraction, now)
    {
      var rollback := document.chunks;
      document.chunks := [];
      if chunks != [] {
        document.chunks := rollback;
        return Err(MissingAttribute("metadata"));
      }
      assert NewChunks(document.organizationId, chunks, embeddings) == [];
      FinishSave(embeddings, extraction, now);
      r := Ok(ProcessSummary(document.id, 0, CountPresent(embeddings), |extraction.text|));
    }

    /** `_save_chunks_and_embeddings` without the metadata read: the new rows
        replace the old ones and the document is completed. */
    method SaveChunks(chunks: seq<TextChunk>, embeddings: seq<Option<Vector>>, extraction: Extraction, now: int)
      returns (r: ProcessSummary)
      modifies document
      ensures r == ProcessSummary(document.id, |chunks|, CountPresent(embeddings), |extraction.text|)
      ensures document.State() == Saved(old(document.State()), document.organizationId, chunks, embeddings, extraction, now)
    {
      document.chunks := [];
      var chunkObjects: seq<StoredChunk> := [];
      for i := 0 to |chunks|
        invariant |chunkObjects| == i
        invariant forall k :: 0 <= k < i ==> chunkObjects[k] == NewChunk(document.organizationId, chunks, embeddings, k)
      {
        var embedding := if i < |embeddings| then embeddings[i] else None;
        chunkObjects := chunkObjects + [StoredChunk(document.organizationId, chunks[i].content, i, embedding)];
      }
      assert chunkObjects == NewChunks(document.organizationId, chunks, embeddings);
      document.chunks := chunkObjects;
      FinishSave(embeddings, extraction, now);
      r := ProcessSummary(document.id, |chunkObjects|, CountPresent(embeddings), |extraction.text|);
    }

    /** The document fields written after the rows: text, metadata, status,
        error message and processing time. */
    method FinishSave(embeddings: seq<Option<Vector>>, extraction: Extraction, now: int)
      modifies document
      ensures document.State() ==
        DocumentState(Completed, "", extraction.text, Updated(old(document.metadata), TextValues(extraction.metadata)),
                      Some(now), old(document.chunks))
    {
      document.textContent := extraction.text;
      document.metadata := Updated(document.metadata, TextValues(extraction.metadata));
      document.status := Completed;
      document.errorMessage := "";
      document.processedAt := Some(now);
    }

    /** `process` with `_chunk_text` calling `chunk_text` as it accepts and with
        the chunks saved without the metadata read: every failure leaves the
        document as it was and names its cause; success stores the new rows and
        completes the document. */
    method ProcessFixed(chunkSize: int, chunkOverlap: int, content: Result<seq<Byte>, string>,
                        parse: seq<Byte> -> Result<ParsedPdf, string>,
                        chunked: Result<seq<TextChunk>, ChunkError>,
                        embedded: Result<seq<Option<Vector>>, EmbedError>, now: int)
      returns (r: Result<ProcessSummary, ProcessingError>)
      modifies document
      ensures !document.hasFile ==> r == Err(ProcessFailed(document.title, NoFileAttached))
      ensures document.hasFile && FileExtraction(content, parse).Err? ==>
        r == Err(ProcessFailed(document.title, ExtractionFailed(FileExtraction(content, parse).error)))
      ensures document.hasFile && FileExtraction(content, parse).Ok? && chunked.Err? ==>
        r == Err(ProcessFailed(document.title, ChunkingFailed(ChunkerRaised(chunked.error))))
      ensures document.hasFile && FileExtraction(content, parse).Ok? && chunked.Ok? && chunked.value != []
              && embedded.Err? && embedded.error.EmbeddingError? ==>
        r == Err(ProcessFailed(document.title, EmbeddingFailed(embedded.error.reason)))
      ensures document.hasFile && FileExtraction(content, parse).Ok? && chunked.Ok? && chunked.value != []
              && embedded.Err? && !embedded.error.EmbeddingError? ==>
        r == Err(ProcessFailed(document.title, EmbeddingRaised(embedded.error)))
      ensures r.Err? ==> document.State() == old(document.State())
      ensures r.Ok? ==>
        var extraction := FileExtraction(content, parse).value;
        var chunks := chunked.value;
        var embeddings := if chunks == [] then [] else embedded.value;
        document.hasFile && FileExtraction(content, parse).Ok? && chunked.Ok? && (chunks == [] || embedded.Ok?)
        && r.value == ProcessSummary(document.id, |chunks|, CountPresent(embeddings), |extraction.text|)
        && document.State() == Saved(old(document.State()), document.organizationId, chunks, embeddings, extraction, now)
    {
      var extraction := ExtractText(content, parse);
      if extraction.Err? {
        return Err(ProcessFailed(document.title, extraction.error));
      }
      if chunked.Err? {
        return Err(ProcessFailed(document.title, ChunkingFailed(ChunkerRaised(chunked.error))));
      }
      var embeddings := GenerateEmbeddings(chunked.value, embedded);
      if embeddings.Err? {
        return Err(ProcessFailed(document.title, embeddings.error));
      }
      var summary := SaveChunks(chunked.value, embeddings.value, extraction.value, now);
      r := Ok(summary);
    }
  }

  /** `process_document_by_id`: an unknown id fails; otherwise the document is
      processed as written. */
  method ProcessDocumentById(documents: map<string, Document>, documentId: string, chunkSize: int, chunkOverlap: int,
                             content: Result<seq<Byte>, string>, parse: seq<Byte> -> Result<ParsedPdf, string>)
    returns (r: Result<ProcessSummary, ProcessingError>)
    ensures documentId !in documents ==> r == Err(NotFound(documentId))
    ensures documentId in documents ==>
      var d := documents[documentId];
      var extraction := FileExtraction(content, parse);
      r.Err?
      && (!d.hasFile ==> r == Err(ProcessFailed(d.title, NoFileAttached)))
      && (d.hasFile && extraction.Err? ==> r == Err(ProcessFailed(d.title, ExtractionFailed(extraction.error))))
      && (d.hasFile && extraction.Ok? ==>
            r == Err(ProcessFailed(d.title, ChunkingFailed(UnexpectedKeyword("preserve_sentences")))))
  {
    if documentId !in documents {
      return Err(NotFound(documentId));
    }
    var processor := new DocumentProcessor(documents[documentId]);
    r := processor.Process(chunkSize, chunkOverlap, content, parse);
  }
}
