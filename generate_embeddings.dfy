/**
 * The `generate_embeddings` management command: it finds completed documents
 * whose chunks lack embeddings (or, in force mode, all completed documents with
 * chunks), clears their embeddings in force mode and schedules a background
 * embedding job per document, counting what it did. Scheduling is a parameter
 * that says, per document id, whether dispatching the job raises.
 */
module EmbeddingBackfill {
  import opened Text
  import opened Embeddings
  import opened Documents

  /** What the command reads of a document. */
  datatype DocView = DocView(id: string, status: Status, chunks: seq<StoredChunk>)

  function View(d: Document): DocView
    reads d
  {
    DocView(d.id, d.status, d.chunks)
  }

  /** The views of the documents, in order. */
  function Views(docs: seq<Document>): (vs: seq<DocView>)
    reads docs
    ensures |vs| == |docs|
    ensures forall i :: 0 <= i < |docs| ==> vs[i] == DocView(docs[i].id, docs[i].status, docs[i].chunks)
  {
    if docs == [] then [] else [View(docs[0])] + Views(docs[1..])
  }

  /** The states of the documents, in order. */
  function States(docs: seq<Document>): (ss: seq<DocumentState>)
    reads docs
    ensures |ss| == |docs|
    ensures forall i :: 0 <= i < |docs| ==> ss[i] == docs[i].State()
  {
    if docs == [] then [] else [docs[0].State()] + States(docs[1..])
  }

  /** `chunks.filter(embedding__isnull=True).count()`. */
  function NullCount(chunks: seq<StoredChunk>): (n: nat)
    ensures n <= |chunks|
    ensures n > 0 <==> exists k :: 0 <= k < |chunks| && chunks[k].embedding.None?
  {
    if chunks == [] then 0
    else
      var rest := NullCount(chunks[..|chunks| - 1]);
      assert forall k :: 0 <= k < |chunks| - 1 ==> chunks[k] == chunks[..|chunks| - 1][k];
      rest + (if chunks[|chunks| - 1].embedding.None? then 1 else 0)
  }

  /** `chunks.update(embedding=None)`: every chunk loses its embedding. */
  function Cleared(chunks: seq<StoredChunk>): (r: seq<StoredChunk>)
    ensures |r| == |chunks|
    ensures forall k :: 0 <= k < |r| ==> r[k] == chunks[k].(embedding := None)
  {
    seq(|chunks|, k requires 0 <= k < |chunks| => chunks[k].(embedding := None))
  }

  /** The bulk query: completed documents with at least one chunk in force
      mode; otherwise completed documents the outer join gives a null
      embedding, which are those with a chunk without one and those with no
      chunks at all. */
  predicate Selected(v: DocView, force: bool) {
    v.status == Completed
    && if force then v.chunks != [] else v.chunks == [] || NullCount(v.chunks) > 0
  }

  /** The chunks a document contributes to the total: all of them in force mode,
      the ones without an embedding otherwise. */
  function Needing(v: DocView, force: bool): nat {
    if force then |v.chunks| else NullCount(v.chunks)
  }

  /** A selected document is listed and scheduled when it needs chunks or force is on. */
  predicate Listed(v: DocView, force: bool) {
    Selected(v, force) && (Needing(v, force) > 0 || force)
  }

  /** The counts the bulk run reports: documents found, documents scheduled,
      and chunks to process. */
  datatype BulkSummary = BulkSummary(found: nat, scheduled: nat, totalChunksToProcess: nat)

  /** What one document adds to the counts: it is found when selected, adds its
      needed chunks when selected, and is scheduled when listed outside a dry
      run and its dispatch does not raise. */
  function Step(v: DocView, force: bool, dryRun: bool, raises: string -> bool): BulkSummary {
    BulkSummary(if Selected(v, force) then 1 else 0,
                if Listed(v, force) && !dryRun && !raises(v.id) then 1 else 0,
                if Selected(v, force) then Needing(v, force) else 0)
  }

  function Plus(a: BulkSummary, b: BulkSummary): BulkSummary {
    BulkSummary(a.found + b.found, a.scheduled + b.scheduled, a.totalChunksToProcess + b.totalChunksToProcess)
  }

  /** The counts over the documents, in order. */
  function Tally(vs: seq<DocView>, force: bool, dryRun: bool, raises: string -> bool): BulkSummary {
    if vs == [] then BulkSummary(0, 0, 0)
    else Plus(Tally(vs[..|vs| - 1], force, dryRun, raises), Step(vs[|vs| - 1], force, dryRun, raises))
  }

  /** The chunks of a document after the bulk run: cleared when it is listed in
      a force run that is not a dry run, unchanged otherwise. */
  function ChunksAfter(v: DocView, force: bool, dryRun: bool): seq<StoredChunk> {
    if force && !dryRun && Listed(v, force) then Cleared(v.chunks) else v.chunks
  }

  /** `process_all_documents` over all documents in creation order (each
      document once). */
  method ProcessAllDocuments(documents: seq<Document>, dryRun: bool, force: bool, raises: string -> bool)
    returns (r: BulkSummary)
    requires forall i, j :: 0 <= i < j < |documents| ==> documents[i] != documents[j]
    modifies documents
    ensures r == Tally(old(Views(documents)), force, dryRun, raises)
    ensures forall i :: 0 <= i < |documents| ==>
      documents[i].chunks == ChunksAfter(old(View(documents[i])), force, dryRun)
    ensures forall i :: 0 <= i < |documents| ==>
      documents[i].State() == old(documents[i].State()).(chunks := documents[i].chunks)
  {
    ghost var before := Views(documents);
    ghost var states := States(documents);
    var counts := BulkSummary(0, 0, 0);
    for i := 0 to |documents|
      invariant Progress(documents, i, before, states, counts, force, dryRun, raises)
    {
      counts := VisitNext(documents, i, before, states, counts, dryRun, force, raises);
    }
    assert before[..|documents|] == before;
    r := counts;
  }

  /** The loop invariant of the bulk run after `i` documents: the counts are
      those of the first `i` views, the first `i` documents hold their chunks
      after the run, the rest are as they were, and no document changed
      anything but its chunks. */
  ghost predicate Progress(documents: seq<Document>, i: nat, before: seq<DocView>, states: seq<DocumentState>,
                           counts: BulkSummary, force: bool, dryRun: bool, raises: string -> bool)
    reads documents
  {
    i <= |documents| == |before| == |states|
    && counts == Tally(before[..i], force, dryRun, raises)
    && (forall k :: 0 <= k < i ==> documents[k].chunks == ChunksAfter(before[k], force, dryRun))
    && (forall k :: 0 <= k < |documents| ==> documents[k].State() == states[k].(chunks := documents[k].chunks))
    && (forall k :: i <= k < |documents| ==> before[k] == DocView(documents[k].id, documents[k].status, documents[k].chunks))
  }

  /** One turn of the bulk loop: visit document `i` and add its step. */
  method VisitNext(documents: seq<Document>, i: nat, ghost before: seq<DocView>, ghost states: seq<DocumentState>,
                   counts: BulkSummary, dryRun: bool, force: bool, raises: string -> bool)
    returns (next: BulkSummary)
    requires forall p, q :: 0 <= p < q < |documents| ==> documents[p] != documents[q]
    requires i < |documents|
    requires Progress(documents, i, before, states, counts, force, dryRun, raises)
    modifies documents[i]
    ensures Progress(documents, i + 1, before, states, next, force, dryRun, raises)
  {
    TallySnoc(before, i, force, dryRun, raises);
    var step := Visit(documents[i], dryRun, force, raises);
    next := Plus(counts, step);
  }

  /** The counts over one more document are the counts so far plus its step. */
  lemma TallySnoc(vs: seq<DocView>, i: nat, force: bool, dryRun: bool, raises: string -> bool)
    requires i < |vs|
    ensures Tally(vs[..i + 1], force, dryRun, raises) == Plus(Tally(vs[..i], force, dryRun, raises), Step(vs[i], force, dryRun, raises))
  {
    assert vs[..i + 1][..i] == vs[..i];
  }

  /** One document of the bulk loop: what it adds to the found, needed and
      scheduled counts, and its embeddings cleared when it is scheduled in
      force mode. */
  method Visit(document: Document, dryRun: bool, force: bool, raises: string -> bool)
    returns (step: BulkSummary)
    modifies document
    ensures step == Step(old(View(document)), force, dryRun, raises)
    ensures document.chunks == ChunksAfter(old(View(document)), force, dryRun)
    ensures document.State() == old(document.State()).(chunks := document.chunks)
  {
    var foundStep, needStep, scheduledStep := 0, 0, 0;
    var chunks := document.chunks;
    var selected := document.status == Completed
                    && if force then chunks != [] else chunks == [] || NullCount(chunks) > 0;
    if selected {
      foundStep := 1;
      needStep := if force then |chunks| else NullCount(chunks);
      if (needStep > 0 || force) && !dryRun {
        if force {
          document.chunks := Cleared(chunks);
        }
        if !raises(document.id) {
          scheduledStep := 1;
        }
      }
    }
    step := BulkSummary(foundStep, scheduledStep, needStep);
  }

  /** A dry run clears nothing and schedules nothing. */
  lemma {:induction false} DryRunSchedulesNothing(vs: seq<DocView>, force: bool, raises: string -> bool)
    ensures Tally(vs, force, true, raises).scheduled == 0
    ensures forall i :: 0 <= i < |vs| ==> ChunksAfter(vs[i], force, true) == vs[i].chunks
  {
    if vs != [] {
      DryRunSchedulesNothing(vs[..|vs| - 1], force, raises);
    }
  }

  /** Which documents are scheduled: in normal mode exactly the completed ones
      with a chunk lacking an embedding (a completed document without chunks is
      found but not scheduled); in force mode exactly the completed ones with
      chunks, and then every chunk of theirs counts. */
  lemma ListedSpec(v: DocView, force: bool)
    ensures !force ==> (Listed(v, force) <==> v.status == Completed && exists k :: 0 <= k < |v.chunks| && v.chunks[k].embedding.None?)
    ensures !force && v.status == Completed && v.chunks == [] ==> Selected(v, force) && !Listed(v, force)
    ensures force ==> (Listed(v, force) <==> v.status == Completed && v.chunks != [])
    ensures force && Listed(v, force) ==> Needing(v, force) == |v.chunks|
  {
  }

  /** No more documents are scheduled than found, no more chunks are counted
      than the documents hold, and in normal mode no more than they hold
      without an embedding. */
  lemma {:induction false} CountsBounded(vs: seq<DocView>, force: bool, dryRun: bool, raises: string -> bool)
    ensures Tally(vs, force, dryRun, raises).scheduled <= Tally(vs, force, dryRun, raises).found <= |vs|
    ensures Tally(vs, force, dryRun, raises).totalChunksToProcess <= TotalChunks(vs)
    ensures !force ==> Tally(vs, force, dryRun, raises).totalChunksToProcess <= TotalNull(vs)
  {
    if vs != [] {
      CountsBounded(vs[..|vs| - 1], force, dryRun, raises);
    }
  }

  /** All chunks of all documents. */
  function TotalChunks(vs: seq<DocView>): nat {
    if vs == [] then 0 else TotalChunks(vs[..|vs| - 1]) + |vs[|vs| - 1].chunks|
  }

  /** All chunks of all documents that lack an embedding. */
  function TotalNull(vs: seq<DocView>): nat {
    if vs == [] then 0 else TotalNull(vs[..|vs| - 1]) + NullCount(vs[|vs| - 1].chunks)
  }

  /** What the single-document run reports. */
  datatype SingleOutcome =
    | DocumentNotFound
    | NoChunks
    | Report(totalChunks: nat, withEmbeddings: nat, withoutEmbeddings: nat, action: Action)

  /** What the single-document run did about scheduling. */
  datatype Action = AlreadyEmbedded | WouldSchedule | Scheduled | ScheduleFailed

  /** `process_single_document`: an unknown id or a document without chunks is
      reported; otherwise the chunk counts are reported, and the document is
      scheduled when force is on or a chunk lacks an embedding; a dry run only
      says so, and force mode clears the embeddings before dispatching. */
  method ProcessSingleDocument(documents: map<string, Document>, documentId: string, dryRun: bool, force: bool,
                               raises: string -> bool)
    returns (r: SingleOutcome)
    modifies if documentId in documents then {documents[documentId]} else {}
    ensures documentId !in documents ==> r == DocumentNotFound
    ensures documentId in documents ==>
      var d := documents[documentId];
      var chunks := old(d.chunks);
      var without := NullCount(chunks);
      var act := force || without > 0;
      d.State() == old(d.State()).(chunks := d.chunks)
      && (chunks == [] ==> r == NoChunks && d.chunks == chunks)
      && (chunks != [] ==>
            r.Report? && r.totalChunks == |chunks| && r.withoutEmbeddings == without
            && r.withEmbeddings + r.withoutEmbeddings == r.totalChunks
            && (r.action == AlreadyEmbedded <==> !act)
            && (r.action == WouldSchedule <==> act && dryRun)
            && (r.action == Scheduled <==> act && !dryRun && !raises(d.id))
            && d.chunks == (if act && !dryRun && force then Cleared(chunks) else chunks))
  {
    if documentId !in documents {
      return DocumentNotFound;
    }
    var document := documents[documentId];
    var totalChunks := |document.chunks|;
    if totalChunks == 0 {
      return NoChunks;
    }
    var chunksWithoutEmbeddings := NullCount(document.chunks);
    var chunksWithEmbeddings := totalChunks - chunksWithoutEmbeddings;
    var shouldProcess := false;
    if force {
      shouldProcess := true;
    } else if chunksWithoutEmbeddings > 0 {
      shouldProcess := true;
    }
    var action := AlreadyEmbedded;
    if shouldProcess {
      if dryRun {
        action := WouldSchedule;
      } else {
        if force {
          document.chunks := Cleared(document.chunks);
        }
        action := if raises(document.id) then ScheduleFailed else Scheduled;
      }
    }
    r := Report(totalChunks, chunksWithEmbeddings, chunksWithoutEmbeddings, action);
  }
}
