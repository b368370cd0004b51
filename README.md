# Verified model of the document-retrieval glue of GhomalaBackendV2

The repository is a small Flask service. Its upload route stores a file and
ingests it into a vector index: the file is loaded, split into chunks, and each
chunk is embedded and stored. Its query route takes a question and the path of
an uploaded file. It searches the index for chunks of that document and
returns them. The loaders, the splitter, the embedder and the index are
libraries or remote services. This project models only the code the
repository writes around them:

- `wrappers.dfy` (module `Wrappers`): `Option` and `Result`. A `Result`
  failure carries the message of the exception Python would raise.
- `text.dfy` (module `Text`): the Python string operations the code depends on.
  These are `str(n)`, `sep.join`, `s.split(c)` for a one-character separator,
  `lower`, `endswith`, and `xs[0]` / `xs[-1]` with their IndexError.
- `store.dfy` (module `Store`): the vector index as a class.
  - `records` is its contents by id.
  - `writeFault` and `reply` are set by the environment. They decide whether
    an upsert is rejected and what a search returns.
  - Ghost logs record every upserted batch and every search sent.
  - `Upserted` states what an upsert of a batch leaves in the index.
- `rag.dfy` (module `Rag`): the `RAG` service class of
  `app/services/rag.py`.
  - The embedder, the loaders and the splitter are functions the service is
    built with. Ghost logs record every embedder and loader call.
  - `ProcessAndStoreDocument` is the ingestion loop, and `Query` is the scoped
    search. `FormatMatches` is the result-formatting loop of `query`. It is a
    method of its own, specified by the function `Formatted`.
- `api.dfy` (module `Api`): the non-I/O logic of `app/routes/api.py`.
  - The upload route's naming and status choice.
  - The document-id extraction `file_path.split("/")[-1].split('_')[0]`.
  - The query route's response shaping.

Main results:

- Chunk ids are `{document_id}_chunk_{i}`. An id determines both the document
  id and the index, so the ids of one ingestion are pairwise distinct.
- The ingestion builds exactly one record per chunk, in chunk order. Each
  record's metadata holds the document id, the index and the chunk text.
- A missing file, a loader error or an embedding error leaves the index and
  the upsert log untouched. Otherwise exactly one batch is upserted.
- Upserting the same batch twice leaves the same records as upserting it
  once.
- The document-id extraction never raises. So the route's IndexError handler
  is dead.
- The id used at ingestion is recovered from both the `document_id` and the
  `file_path` that upload returns. The query after an upload therefore asks
  the service about that same id, always with `top_k=3`.
- `allowed_file` accepts every name. So the "Invalid file type" response
  never occurs.

Three points about the code's behaviour:

- Ingestion reports only a message `Stored {n} chunks for document {id}`, not a
  separate chunk count.
- `RAG.query` defaults to `top_k=1`. The route always passes 3.
- No scoping guarantee is modelled. The filter string is sent, but the index
  applies it, so the model does not promise that results belong to the
  document.

## Model

| member | source | states |
|---|---|---|
| `Text.NatToString` | app/services/rag.py:62 | `str(i)` is a non-empty string of decimal digits, one digit exactly for i below 10 |
| `Text.NatToStringInjective` | app/services/rag.py:62 | distinct chunk indices render to distinct strings |
| `Text.SplitOn` | app/routes/api.py:123 | `str.split` with a one-character separator always returns a non-empty list |
| `Text.SplitPiecesFree` | app/routes/api.py:123 | no piece of a split contains the separator |
| `Text.SplitPiecesAvoid` | app/routes/api.py:123 | a character absent from the string is absent from every piece |
| `Text.JoinSplit` | app/routes/api.py:123 | joining the pieces with the separator gives back the original string |
| `Text.SplitJoin` | app/routes/api.py:123 | splitting a join of separator-free pieces gives back the pieces |
| `Text.SplitNoSeparator` | app/routes/api.py:123 | a string without the separator splits into itself alone |
| `Text.SplitAppend` | app/routes/api.py:123 | splitting `p + c + s` gives the pieces of `p` followed by those of `s` |
| `Text.First` | app/routes/api.py:123 | `xs[0]` is defined exactly on non-empty lists and is their first element |
| `Text.Last` | app/routes/api.py:123 | `xs[-1]` is defined exactly on non-empty lists and is their last element |
| `Text.Lower` | app/services/rag.py:45 | lower-casing keeps the length |
| `Store.UpsertedOverrides` | app/services/rag.py:78 | an upsert overrides the old records with the batch's records, later entries winning |
| `Store.UpsertIdempotent` | app/services/rag.py:78 | upserting the same batch twice leaves the same records as once |
| `Store.UpsertedHolds` | app/services/rag.py:78 | with distinct ids, every record of the batch is stored under its own id |
| `Store.UpsertedKeeps` | app/services/rag.py:78 | ids outside the batch keep their old record or stay absent |
| `Store.VectorStore.constructor` | app/services/rag.py:20 | a new client sees the persistent index's existing records unchanged, with empty call logs |
| `Store.VectorStore.Upsert` | app/services/rag.py:78 | one call appends one batch to the log; on acceptance the records become `Upserted(old, batch)`; on rejection the error is returned |
| `Store.VectorStore.Query` | app/services/rag.py:102-108 | the search (vector, top_k, filter) is logged and the index's reply returned unchanged |
| `Rag.SelectLoaderPdf` | app/services/rag.py:45-48 | the PDF loader is chosen exactly when the path ends in `.pdf` in any letter case; otherwise the text loader |
| `Rag.ChunkIdInjective` | app/services/rag.py:61-62 | `{document_id}_chunk_{i}` determines both the document id and the index |
| `Rag.FirstEmbedFailure` | app/services/rag.py:61-63 | names the first chunk whose embedding fails; all chunks before it embed; none exists exactly when all embed |
| `Rag.ChunkRecords` | app/services/rag.py:60-75 | one record per chunk in chunk order, with id `ChunkId(d, i)`, the chunk's embedding, and metadata `document_id`, `chunk_index` = i and `text` = the chunk; fails with the first embedding error exactly when some embedding fails |
| `Rag.ChunkRecordIdsDistinct` | app/services/rag.py:61-62 | the records of one ingestion have pairwise distinct ids |
| `Rag.IngestedChunkStored` | app/services/rag.py:66-78 | after the batch is upserted, chunk k is stored under its id with its own metadata |
| `Rag.Get` | app/services/rag.py:118-120 | `metadata.get(key)` is defined exactly when the key is present and is its value |
| `Rag.Formatted` | app/services/rag.py:113-126 | the formatted list has the same length and order as the hits, with `id`/`score` copied from the hit and `text`/`chunk_index`/`document_id` from its metadata; a hit without metadata makes it the AttributeError message |
| `Rag.FormatMatches` | app/services/rag.py:113-123 | the formatting loop builds exactly `Formatted(matches)` |
| `Rag.Rag.constructor` | app/services/rag.py:11-26 | the service is built from one index, one embedder, the loaders and the splitter, with empty call logs |
| `Rag.Rag.ProcessAndStoreDocument` | app/services/rag.py:28-83 | a missing path gives `File not found: <path>` and calls nothing; otherwise the selected loader runs once; a loader error stops before any embedding; chunks are embedded in order up to and including the first failure, whose error is returned with no upsert; otherwise exactly one upsert of `ChunkRecords` follows, and its outcome decides between `Stored {n} chunks for document {id}` with the upserted records and the store's error with records unchanged |
| `Rag.Rag.Query` | app/services/rag.py:85-126 | the question is embedded once; an embedding error returns the error dictionary with no search; otherwise one search with the caller's `top_k` (default 1) and filter `document_id = '<id>'` is sent; the index's error or the formatting error becomes the error dictionary, else the formatted list |
| `Api.Upload` | app/routes/api.py:34-89 | 400 exactly when the `file` part is missing or has an empty name, with the matching message; the "Invalid file type" response never occurs; otherwise a save error gives 500 `Error saving file: …`, an ingestion error gives 500 `Error processing file: <message>`, and success gives 201 with `document_id` = `{file_id}_{secure_name}` and the joined upload path, ingestion being called with that path and `file_id` |
| `Api.ExtractNeverFails` | app/routes/api.py:121-131 | the extraction never raises IndexError, so the handler is dead; the id holds no `/` and no `_` |
| `Api.ExtractFromParts` | app/routes/api.py:123 | the extracted id is the last `/`-component up to its first `_`, or the whole component when it has none |
| `Api.UploadQueryRoundTrip` | app/routes/api.py:55-84 | for a file id free of `_` and `/` and a secured name free of `/`, extraction from the returned `document_id` and from the returned `file_path` both give the file id used at ingestion |
| `Text.Join` | app/routes/api.py:166 | `sep.join(parts)`: definition; its order property is stated in `Text.JoinAppend` and its inverse in `Text.JoinSplit` / `Text.SplitJoin` |
| `Text.JoinAppend` | app/routes/api.py:166 | joining one more part appends the separator and that part, so parts appear in list order |
| `Text.EndsWith` | app/services/rag.py:45 | `s.endswith(t)`: definition; its use in the loader choice is characterised by `Rag.SelectLoaderPdf` |
| `Store.Upserted` | app/services/rag.py:78 | definition of the records after an upsert; its properties are stated in `Store.UpsertedOverrides`, `Store.UpsertIdempotent`, `Store.UpsertedHolds` and `Store.UpsertedKeeps` |
| `Rag.SelectLoader` | app/services/rag.py:45-48 | definition of the loader choice; its property is stated in `Rag.SelectLoaderPdf` |
| `Rag.ChunkId` | app/services/rag.py:62 | definition of `f"{document_id}_chunk_{i}"`; its properties are stated in `Rag.ChunkIdInjective` and `Rag.ChunkRecordIdsDistinct` |
| `Rag.ChunkMetadata` | app/services/rag.py:69-73 | definition of the metadata map; its content is stated in `Rag.ChunkRecords` and `Rag.IngestedChunkStored` |
| `Rag.StoredMessage` | app/services/rag.py:79 | definition of the success message; its use is stated in `Rag.Rag.ProcessAndStoreDocument` |
| `Rag.FilterFor` | app/services/rag.py:107 | definition of the filter string; that it is sent with every search is stated in `Rag.Rag.Query` |
| `Api.AllowedFile` | app/routes/api.py:34-37 | definition: every name passes; that the "Invalid file type" response is unreachable is stated in `Api.Upload` |
| `Api.StoredName` | app/routes/api.py:58 | definition of `f"{file_id}_{filename}"`; its properties are stated in `Api.Upload` and `Api.UploadQueryRoundTrip` |
| `Api.JoinPath` | app/routes/api.py:65 | definition of two-argument `os.path.join`; used in `Api.UploadQueryRoundTrip` |
| `Api.UploadPath` | app/routes/api.py:65 | definition of the saved file's path; its property is stated in `Api.UploadQueryRoundTrip` |
| `Api.ExtractDocumentId` | app/routes/api.py:123 | definition of the extraction; its properties are stated in `Api.ExtractNeverFails` and `Api.ExtractFromParts` |
| `Api.ErrorResponse` | app/routes/api.py:109-115 | definition of the error JSON (status `error`, empty answer and sections, the error text and the code); its use is stated in `Api.ShapeQueryResponse` and `Api.HandleQuery` |
| `Api.TypeName` | app/routes/api.py:166 | definition of `type(x).__name__` for a metadata value; its use is stated in `Api.JoinedSections` |
| `Api.FirstNonText` | app/routes/api.py:166 | names the first hit whose text is not a string; none exists exactly when all texts are strings |
| `Api.JoinedSections` | app/routes/api.py:164-166 | the join fails exactly when some text is not a string, with Python's TypeError message naming the first such item and its type; otherwise it is the texts joined by a blank line in ranked order |
| `Api.SectionTexts` | app/routes/api.py:166 | the texts of the hits, one per hit in ranked order |
| `Api.ShapeQueryResponse` | app/routes/api.py:138-173 | a service error gives 500 `Query failed: <message>`; no hits give success with `No relevant information found.` and empty sections; one hit gives that hit as the answer and its text as the sections; two or more hits with a non-string text give 500 `Error processing query: <TypeError message>`; status `success` goes with 200 and `error` with 500 |
| `Api.RankedSections` | app/routes/api.py:156-166 | for hits with string texts, the answer is the top hit and the sections are all texts joined by a blank line in ranked order, which for one hit is its text alone |
| `Api.HandleQuery` | app/routes/api.py:106-115 | a body lacking `file_path` or `question` gives the 400 `Missing required parameters` response, whatever the service would answer |
| `Api.QueryAsksService` | app/routes/api.py:117-135 | a body with both keys always reaches the service, with the extracted id and `top_k=3`; the IndexError response never occurs |
| `Api.QueryAfterUpload` | app/routes/api.py:79-135 | querying with the `file_path` an upload returned asks the service about exactly the file id that upload ingested |

## Left out

- Loading and splitting are library code (`PyPDFLoader`, `TextLoader`,
  `RecursiveCharacterTextSplitter`). The loaders are one function that may
  fail. The splitter is one function given the chunk size 1000 and overlap
  200. Chunk offsets and boundaries are not modelled.
- The embedder and the index are network clients. The embedder is a function
  that may fail. The index's search reply and upsert rejection are set by the
  environment. Similarity ranking, server-side filtering and the "at most
  `top_k`" bound are not modelled: they happen inside the index.
- Embeddings and scores are floats. They are copied through unchanged and never
  inspected.
- `Store.VectorStore.Upsert`: a rejected batch writes nothing here. The real
  index gives no guarantee about which entries of a rejected batch landed.
- `Text.Lower`: only ASCII letters are lower-cased. The only use is the `.pdf`
  suffix test. No other character lower-cases to `.`, `p`, `d` or `f`, so the
  test is unaffected.
- `Api.Upload`: `uuid.uuid4` and `secure_filename` are parameters, as is any
  error from creating the folder or saving the file. Request parsing, saving
  and `jsonify` are I/O. The inner handler at app/routes/api.py:75-77 is not
  modelled: ingestion catches every exception itself.
- `Api.HandleQuery`: the body is a JSON object with string values. A body that
  is not an object (such as `null`) is not modelled; the route then raises
  outside its handlers. A non-string `file_path` is not modelled; it raises an
  AttributeError at app/routes/api.py:123 that `except IndexError` does not
  catch. A non-string `question` is not modelled either; it reaches the
  service, whose embedder fails and which returns its error dictionary.
- `chat_with_openai` and the OpenAI client are not modelled. They are an
  external call the routes never use.
- `get_rag_service`, the app factory, the blueprint registration and the
  configuration loading are not modelled. They are wiring.
- The `print` calls and the unused `allowed_extensions` list are not modelled.
- Concurrency between requests is not modelled. Each call runs to completion
  on its own.
