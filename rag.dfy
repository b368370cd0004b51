/** The retrieval service (app/services/rag.py): ingestion of one document
    into the vector index, and a search scoped to one document.

    The embedder, the document loaders and the text splitter are libraries
    whose code is not part of this model; each is a function the service is
    built with, and the embedder and loader report an error message where the
    library would raise. */
module Rag {
  import opened Wrappers
  import opened Text
  import opened Store

  /** The splitter's configuration. */
  const ChunkSize: nat := 1000
  const ChunkOverlap: nat := 200

  datatype LoaderKind = PdfLoader | TextLoader

  /** A path ending in `.pdf`, in any letter case, is read as a PDF; every
      other path as text. */
  function SelectLoader(path: string): LoaderKind {
    if EndsWith(Lower(path), ".pdf") then PdfLoader else TextLoader
  }

  /** The PDF loader is chosen exactly for paths whose last four characters
      are `.`, `p`/`P`, `d`/`D`, `f`/`F`. */
  lemma SelectLoaderPdf(path: string)
    ensures SelectLoader(path) == PdfLoader <==>
      && 4 <= |path|
      && path[|path| - 4] == '.'
      && path[|path| - 3] in "pP"
      && path[|path| - 2] in "dD"
      && path[|path| - 1] in "fF"
  {
    if 4 <= |path| {
      var n := |path|;
      var tail := Lower(path)[n - 4..];
      assert tail == [LowerChar(path[n - 4]), LowerChar(path[n - 3]), LowerChar(path[n - 2]), LowerChar(path[n - 1])];
    }
  }

  /** `f"{document_id}_chunk_{i}"`. */
  function ChunkId(documentId: string, i: nat): string {
    documentId + "_chunk_" + NatToString(i)
  }

  /** A chunk id determines both its document id and its index. */
  lemma ChunkIdInjective(d1: string, i1: nat, d2: string, i2: nat)
    requires ChunkId(d1, i1) == ChunkId(d2, i2)
    ensures d1 == d2 && i1 == i2
  {
    var id := ChunkId(d1, i1);
    var n1, n2 := NatToString(i1), NatToString(i2);
    if |n1| < |n2| {
      SeparatorBeforeDigits(d1, n1, d2, n2);
    } else if |n2| < |n1| {
      SeparatorBeforeDigits(d2, n2, d1, n1);
    }
    assert n1 == id[|id| - |n1|..] == n2;
    NatToStringInjective(i1, i2);
    assert d1 == id[..|d1|] == d2;
  }

  /** The `_` ending `_chunk_` cannot sit where the other id has a digit. */
  lemma SeparatorBeforeDigits(d1: string, n1: string, d2: string, n2: string)
    requires forall k :: 0 <= k < |n2| ==> IsDigit(n2[k])
    requires d1 + "_chunk_" + n1 == d2 + "_chunk_" + n2
    ensures |n2| <= |n1|
  {
    var id := d1 + "_chunk_" + n1;
    assert id[|id| - |n1| - 1] == '_';
  }

  /** The metadata stored with chunk i. */
  function ChunkMetadata(documentId: string, i: nat, text: string): Metadata {
    map["document_id" := MetaStr(documentId), "chunk_index" := MetaInt(i), "text" := MetaStr(text)]
  }

  /** The index of the first chunk whose embedding fails, if any. */
  function FirstEmbedFailure(chunks: seq<string>, embed: string -> Result<Embedding>): (r: Option<nat>)
    ensures r.None? <==> forall k :: 0 <= k < |chunks| ==> embed(chunks[k]).Success?
    ensures r.Some? ==>
      && r.value < |chunks|
      && embed(chunks[r.value]).Failure?
      && forall k :: 0 <= k < r.value ==> embed(chunks[k]).Success?
  {
    if |chunks| == 0 then None
    else if embed(chunks[0]).Failure? then Some(0)
    else match FirstEmbedFailure(chunks[1..], embed)
      case None => None
      case Some(k) => Some(k + 1)
  }

  /** The batch the ingestion loop builds from the chunks: one record per
      chunk, or the error of the first embedding that fails. */
  function ChunkRecords(documentId: string, chunks: seq<string>, embed: string -> Result<Embedding>)
    : (r: Result<seq<Record>>)
    ensures r.Success? <==> forall k :: 0 <= k < |chunks| ==> embed(chunks[k]).Success?
    ensures r.Failure? ==> r.error == embed(chunks[FirstEmbedFailure(chunks, embed).value]).error
    ensures r.Success? ==>
      && |r.value| == |chunks|
      && forall k :: 0 <= k < |chunks| ==>
        && r.value[k].id == ChunkId(documentId, k)
        && r.value[k].vector == embed(chunks[k]).value
        && r.value[k].metadata ==
             map["document_id" := MetaStr(documentId), "chunk_index" := MetaInt(k), "text" := MetaStr(chunks[k])]
  {
    match FirstEmbedFailure(chunks, embed)
    case Some(k) => Failure(embed(chunks[k]).error)
    case None =>
      Success(seq(|chunks|, k requires 0 <= k < |chunks| =>
        Record(ChunkId(documentId, k), embed(chunks[k]).value, ChunkMetadata(documentId, k, chunks[k]))))
  }

  /** The records of one ingestion have pairwise distinct ids. */
  lemma ChunkRecordIdsDistinct(documentId: string, chunks: seq<string>, embed: string -> Result<Embedding>)
    requires ChunkRecords(documentId, chunks, embed).Success?
    ensures DistinctIds(ChunkRecords(documentId, chunks, embed).value)
  {
    var batch := ChunkRecords(documentId, chunks, embed).value;
    forall j, k | 0 <= j < k < |batch| ensures batch[j].id != batch[k].id {
      if batch[j].id == batch[k].id {
        ChunkIdInjective(documentId, j, documentId, k);
      }
    }
  }

  /** After a successful upsert of an ingestion's batch, chunk k of the
      document is stored under `ChunkId(documentId, k)` with its text. */
  lemma IngestedChunkStored(m: map<string, Record>, documentId: string, chunks: seq<string>,
                            embed: string -> Result<Embedding>, k: nat)
    requires ChunkRecords(documentId, chunks, embed).Success?
    requires k < |chunks|
    ensures var stored := Upserted(m, ChunkRecords(documentId, chunks, embed).value);
      && ChunkId(documentId, k) in stored
      && stored[ChunkId(documentId, k)].metadata == ChunkMetadata(documentId, k, chunks[k])
  {
    var batch := ChunkRecords(documentId, chunks, embed).value;
    ChunkRecordIdsDistinct(documentId, chunks, embed);
    UpsertedHolds(m, batch, k);
  }

  /** The success message: `f"Stored {n} chunks for document {document_id}"`. */
  function StoredMessage(n: nat, documentId: string): string {
    "Stored " + NatToString(n) + " chunks for document " + documentId
  }

  /** The status dictionary returned by an ingestion. */
  datatype IngestReport = Stored(message: string) | IngestError(message: string)

  /** `f"document_id = '{document_id}'"`: the filter that scopes a search. */
  function FilterFor(documentId: string): string {
    "document_id = '" + documentId + "'"
  }

  /** One formatted search hit; a field is None where `metadata.get` finds no key. */
  datatype FormattedResult = FormattedResult(
    id: string, score: real, text: Option<MetaValue>, chunkIndex: Option<MetaValue>, documentId: Option<MetaValue>)

  /** What `RAG.query` returns: the list of formatted hits, or the error dictionary. */
  datatype QueryOutcome = Results(items: seq<FormattedResult>) | QueryError(message: string)

  /** The message of the AttributeError raised by `None.get(...)`. */
  const NoMetadataMessage: string := "'NoneType' object has no attribute 'get'"

  /** `metadata.get(key)`. */
  function Get(md: Metadata, key: string): (v: Option<MetaValue>)
    ensures v.Some? <==> key in md
    ensures v.Some? ==> v.value == md[key]
  {
    if key in md then Some(md[key]) else None
  }

  /** The result list the formatting loop builds from the search hits. */
  function Formatted(matches: seq<Match>): (r: Result<seq<FormattedResult>>)
    ensures r.Success? <==> forall k :: 0 <= k < |matches| ==> matches[k].metadata.Some?
    ensures r.Failure? ==> r.error == NoMetadataMessage
    ensures r.Success? ==>
      && |r.value| == |matches|
      && forall k :: 0 <= k < |matches| ==>
        && r.value[k].id == matches[k].id
        && r.value[k].score == matches[k].score
        && r.value[k].text == Get(matches[k].metadata.value, "text")
        && r.value[k].chunkIndex == Get(matches[k].metadata.value, "chunk_index")
        && r.value[k].documentId == Get(matches[k].metadata.value, "document_id")
  {
    if forall k :: 0 <= k < |matches| ==> matches[k].metadata.Some? then
      Success(seq(|matches|, k requires 0 <= k < |matches| && matches[k].metadata.Some? =>
        var md := matches[k].metadata.value;
        FormattedResult(matches[k].id, matches[k].score, Get(md, "text"), Get(md, "chunk_index"), Get(md, "document_id"))))
    else Failure(NoMetadataMessage)
  }

  /** The formatting loop of `RAG.query`: one entry per hit, in the index's order. */
  method FormatMatches(matches: seq<Match>) returns (r: Result<seq<FormattedResult>>)
    ensures r == Formatted(matches)
  {
    var formatted: seq<FormattedResult> := [];
    for i := 0 to |matches|
      invariant |formatted| == i
      invariant forall k :: 0 <= k < i ==>
        && matches[k].metadata.Some?
        && var md := matches[k].metadata.value;
           formatted[k] == FormattedResult(matches[k].id, matches[k].score, Get(md, "text"), Get(md, "chunk_index"), Get(md, "document_id"))
    {
      var m := matches[i];
      if m.metadata.None? {
        assert Formatted(matches).Failure?;
        return Failure(NoMetadataMessage);
      }
      var md := m.metadata.value;
      formatted := formatted + [FormattedResult(m.id, m.score, Get(md, "text"), Get(md, "chunk_index"), Get(md, "document_id"))];
    }
    assert Formatted(matches).Success?;
    assert formatted == Formatted(matches).value;
    r := Success(formatted);
  }

  class Rag {
    const store: VectorStore
    /** `embeddings.embed_query`. */
    const embed: string -> Result<Embedding>
    /** `PyPDFLoader(path).load()` / `TextLoader(path).load()`: the page texts. */
    const load: (LoaderKind, string) -> Result<seq<string>>
    /** `text_splitter.split_documents`, given the chunk size and overlap. */
    const split: (seq<string>, nat, nat) -> seq<string>
    /** Every text sent to the embedder, in call order. */
    ghost var embedded: seq<string>
    /** Every loader run, in call order. */
    ghost var loaded: seq<(LoaderKind, string)>

    constructor (store: VectorStore, embed: string -> Result<Embedding>,
                 load: (LoaderKind, string) -> Result<seq<string>>, split: (seq<string>, nat, nat) -> seq<string>)
      ensures this.store == store && this.embed == embed && this.load == load && this.split == split
      ensures embedded == [] && loaded == []
    {
      this.store := store;
      this.embed := embed;
      this.load := load;
      this.split := split;
      embedded := [];
      loaded := [];
    }

    /** `RAG.process_and_store_document`: load, split, embed every chunk in
        order, then upsert the whole batch in one call. `existing` is the set
        of paths present on disk. */
    method ProcessAndStoreDocument(documentPath: string, documentId: string, existing: set<string>)
      returns (report: IngestReport)
      modifies this`embedded, this`loaded, store`records, store`upserts
      ensures documentPath !in existing ==>
        && report == IngestError("File not found: " + documentPath)
        && loaded == old(loaded) && embedded == old(embedded)
        && store.upserts == old(store.upserts) && store.records == old(store.records)
      ensures documentPath in existing ==>
        loaded == old(loaded) + [(SelectLoader(documentPath), documentPath)]
      ensures documentPath in existing && load(SelectLoader(documentPath), documentPath).Failure? ==>
        && report == IngestError(load(SelectLoader(documentPath), documentPath).error)
        && embedded == old(embedded)
        && store.upserts == old(store.upserts) && store.records == old(store.records)
      ensures documentPath in existing && load(SelectLoader(documentPath), documentPath).Success? ==>
        var chunks := split(load(SelectLoader(documentPath), documentPath).value, ChunkSize, ChunkOverlap);
        match ChunkRecords(documentId, chunks, embed)
        case Failure(e) =>
          && report == IngestError(e)
          && embedded == old(embedded) + chunks[..FirstEmbedFailure(chunks, embed).value + 1]
          && store.upserts == old(store.upserts) && store.records == old(store.records)
        case Success(batch) =>
          && embedded == old(embedded) + chunks
          && store.upserts == old(store.upserts) + [batch]
          && (store.writeFault.None? ==>
                report == Stored(StoredMessage(|chunks|, documentId))
                && store.records == Upserted(old(store.records), batch))
          && (store.writeFault.Some? ==>
                report == IngestError(store.writeFault.value) && store.records == old(store.records))
    {
      if documentPath !in existing {
        return IngestError("File not found: " + documentPath);
      }
      var kind := SelectLoader(documentPath);
      loaded := loaded + [(kind, documentPath)];
      var pages := load(kind, documentPath);
      if pages.Failure? {
        return IngestError(pages.error);
      }
      var chunks := split(pages.value, ChunkSize, ChunkOverlap);
      var vectors: seq<Record> := [];
      var i := 0;
      while i < |chunks|
        invariant 0 <= i <= |chunks|
        invariant |vectors| == i
        invariant forall k :: 0 <= k < i ==>
          embed(chunks[k]).Success? &&
          vectors[k] == Record(ChunkId(documentId, k), embed(chunks[k]).value, ChunkMetadata(documentId, k, chunks[k]))
        invariant embedded == old(embedded) + chunks[..i]
        invariant loaded == old(loaded) + [(kind, documentPath)]
        invariant store.upserts == old(store.upserts) && store.records == old(store.records)
      {
        var chunkId := ChunkId(documentId, i);
        var embedding := embed(chunks[i]);
        embedded := embedded + [chunks[i]];
        if embedding.Failure? {
          assert FirstEmbedFailure(chunks, embed) == Some(i);
          assert chunks[..i + 1] == chunks[..i] + [chunks[i]];
          return IngestError(embedding.error);
        }
        vectors := vectors + [Record(chunkId, embedding.value, ChunkMetadata(documentId, i, chunks[i]))];
        assert chunks[..i + 1] == chunks[..i] + [chunks[i]];
        i := i + 1;
      }
      assert chunks[..i] == chunks;
      assert vectors == ChunkRecords(documentId, chunks, embed).value;
      var fault := store.Upsert(vectors);
      if fault.Some? {
        return IngestError(fault.value);
      }
      report := Stored(StoredMessage(|vectors|, documentId));
    }

    /** `RAG.query`: embed the question, search the index scoped to the
        document, and format the hits; `top_k` defaults to 1. */
    method Query(question: string, documentId: string, topK: int := 1) returns (outcome: QueryOutcome)
      modifies this`embedded, store`searches
      ensures embedded == old(embedded) + [question]
      ensures embed(question).Failure? ==>
        outcome == QueryError(embed(question).error) && store.searches == old(store.searches)
      ensures embed(question).Success? ==>
        store.searches == old(store.searches) + [Search(embed(question).value, topK, FilterFor(documentId))]
      ensures embed(question).Success? && store.reply.Failure? ==>
        outcome == QueryError(store.reply.error)
      ensures embed(question).Success? && store.reply.Success? ==>
        outcome == match Formatted(store.reply.value)
                   case Success(items) => Results(items)
                   case Failure(e) => QueryError(e)
    {
      var queryEmbedding := embed(question);
      embedded := embedded + [question];
      if queryEmbedding.Failure? {
        return QueryError(queryEmbedding.error);
      }
      var results := store.Query(queryEmbedding.value, topK, FilterFor(documentId));
      if results.Failure? {
        return QueryError(results.error);
      }
      var formatted := FormatMatches(results.value);
      if formatted.Failure? {
        return QueryError(formatted.error);
      }
      outcome := Results(formatted.value);
    }
  }
}
