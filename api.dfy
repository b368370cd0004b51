/** The route logic of app/routes/api.py that is not I/O: the upload route's
    naming and status choice, the query route's document-id extraction and
    its response shaping. Request parsing, file saving and JSON encoding are
    not modelled; what they produce or raise is a parameter. */
module Api {
  import opened Wrappers
  import opened Text
  import opened Store
  import opened Rag

  /** `allowed_file`: its extension check is commented out, so every name passes. */
  function AllowedFile(filename: string): bool {
    true
  }

  /** `posixpath.join(a, b)`. */
  function JoinPath(a: string, b: string): string {
    if 0 < |b| && b[0] == '/' then b
    else if |a| == 0 || a[|a| - 1] == '/' then a + b
    else a + "/" + b
  }

  const UploadFolder: string := "uploads"

  /** The stored file name, `f"{file_id}_{filename}"`. */
  function StoredName(fileId: string, secureName: string): string {
    fileId + "_" + secureName
  }

  /** `os.path.join(<app root's parent>, 'uploads', filename)`. */
  function UploadPath(appRootParent: string, filename: string): string {
    JoinPath(JoinPath(appRootParent, UploadFolder), filename)
  }

  const InvalidFileTypeMessage: string := "Invalid file type. Only PDF files are allowed"

  datatype UploadBody =
    | UploadFailed(error: string)
    | Uploaded(documentId: string, status: string, extractedText: string, filePath: string)

  datatype UploadResponse = UploadResponse(body: UploadBody, code: int)

  /** The upload route. `filePart` is the file name of the request's `file`
      part, None when the request has none; `fileId` is the fresh
      `str(uuid.uuid4())`; `secure` is `secure_filename`; `saveFault` is the
      error creating the folder or saving the file raises, if any; `ingest`
      is `process_and_store_document`. */
  function Upload(filePart: Option<string>, fileId: string, secure: string -> string, appRootParent: string,
                  saveFault: Option<string>, ingest: (string, string) -> IngestReport): (r: UploadResponse)
    ensures r.code == 400 <==> filePart.None? || filePart.value == ""
    ensures r.code == 400 ==>
      r.body == UploadFailed(if filePart.None? then "No file part in the request" else "No file selected")
    ensures r.code in {201, 400, 500}
    ensures r != UploadResponse(UploadFailed(InvalidFileTypeMessage), 400)
    ensures r.code != 400 ==>
      var filename := StoredName(fileId, secure(filePart.value));
      var filePath := UploadPath(appRootParent, filename);
      && (saveFault.Some? ==> r == UploadResponse(UploadFailed("Error saving file: " + saveFault.value), 500))
      && (saveFault.None? && ingest(filePath, fileId).IngestError? ==>
            r == UploadResponse(UploadFailed("Error processing file: " + ingest(filePath, fileId).message), 500))
      && (saveFault.None? && ingest(filePath, fileId).Stored? ==>
            r == UploadResponse(Uploaded(filename, "success", "File uploaded successfully", filePath), 201))
  {
    if filePart.None? then UploadResponse(UploadFailed("No file part in the request"), 400)
    else if filePart.value == "" then UploadResponse(UploadFailed("No file selected"), 400)
    // a FileStorage is truthy exactly when its file name is non-empty
    else if filePart.value != "" && AllowedFile(filePart.value) then
      var filename := StoredName(fileId, secure(filePart.value));
      var filePath := UploadPath(appRootParent, filename);
      if saveFault.Some? then UploadResponse(UploadFailed("Error saving file: " + saveFault.value), 500)
      else match ingest(filePath, fileId)
        case IngestError(message) => UploadResponse(UploadFailed("Error processing file: " + message), 500)
        case Stored(_) => UploadResponse(Uploaded(filename, "success", "File uploaded successfully", filePath), 201)
    else UploadResponse(UploadFailed(InvalidFileTypeMessage), 400)
  }

  /** `file_path.split("/")[-1].split('_')[0]`; None where Python would raise IndexError. */
  function ExtractDocumentId(filePath: string): Option<string> {
    match Last(SplitOn(filePath, '/'))
    case None => None
    case Some(name) => First(SplitOn(name, '_'))
  }

  /** The extraction never raises, so the route's IndexError handler is dead;
      the id it yields holds no `/` and no `_`. */
  lemma ExtractNeverFails(filePath: string)
    ensures ExtractDocumentId(filePath).Some?
    ensures '/' !in ExtractDocumentId(filePath).value && '_' !in ExtractDocumentId(filePath).value
  {
    var parts := SplitOn(filePath, '/');
    var name := parts[|parts| - 1];
    SplitPiecesFree(filePath, '/');
    SplitPiecesFree(name, '_');
    SplitPiecesAvoid(name, '_', '/');
  }

  /** The extracted id is the last `/`-separated component up to its first
      `_`, or the whole component when it has no `_`: for a path
      `dir + id + rest` where `dir` is empty or ends in `/`, the component
      `id + rest` holds no `/`, and `rest` is empty or starts with `_`. */
  lemma ExtractFromParts(dir: string, id: string, rest: string)
    requires dir == "" || dir[|dir| - 1] == '/'
    requires '/' !in id && '/' !in rest && '_' !in id
    requires rest == "" || rest[0] == '_'
    ensures ExtractDocumentId(dir + id + rest) == Some(id)
  {
    var name := id + rest;
    assert '/' !in name;
    SplitNoSeparator(name, '/');
    if dir != "" {
      var front := dir[..|dir| - 1];
      assert dir + id + rest == front + ['/'] + name;
      SplitAppend(front, name, '/');
    } else {
      assert dir + id + rest == name;
    }
    assert Last(SplitOn(dir + id + rest, '/')) == Some(name);
    SplitNoSeparator(id, '_');
    if rest != "" {
      assert name == id + ['_'] + rest[1..];
      SplitAppend(id, rest[1..], '_');
    } else {
      assert name == id;
    }
  }

  /** Round trip from upload to query: with a file id free of `_` and `/`
      (a uuid4 string) and a secured name free of `/`, both the returned
      `document_id` and the returned `file_path` yield the file id the
      document was ingested under. */
  lemma UploadQueryRoundTrip(filePart: Option<string>, fileId: string, secure: string -> string,
                             appRootParent: string, saveFault: Option<string>, ingest: (string, string) -> IngestReport)
    requires filePart.Some? && '_' !in fileId && '/' !in fileId && '/' !in secure(filePart.value)
    requires Upload(filePart, fileId, secure, appRootParent, saveFault, ingest).code == 201
    ensures var r := Upload(filePart, fileId, secure, appRootParent, saveFault, ingest);
      && ExtractDocumentId(r.body.documentId) == Some(fileId)
      && ExtractDocumentId(r.body.filePath) == Some(fileId)
  {
    var secureName := secure(filePart.value);
    var filename := StoredName(fileId, secureName);
    var rest := "_" + secureName;
    assert filename == "" + fileId + rest;
    ExtractFromParts("", fileId, rest);
    var folder := JoinPath(appRootParent, UploadFolder);
    assert folder[|folder| - 1] == 's';
    assert UploadPath(appRootParent, filename) == (folder + "/") + fileId + rest;
    ExtractFromParts(folder + "/", fileId, rest);
  }

  /** A value of the `answer` field: a message, or the top result itself. */
  datatype Answer = AnswerText(text: string) | AnswerHit(hit: FormattedResult)

  /** The query route's JSON body and HTTP status; `relevantSections` is None
      where Python puts None (a hit without a `text` key). */
  datatype QueryResponse = QueryResponse(
    status: string, question: string, answer: Answer, relevantSections: Option<MetaValue>,
    error: Option<string>, code: int)

  const MissingParametersMessage: string := "Missing required parameters"
  const InvalidPathMessage: string := "Invalid file_path format. Expected format: uuid_filename"
  const NoInformationAnswer: string := "No relevant information found."
  const SectionSeparator: string := "\n\n"

  function ErrorResponse(question: string, error: string, code: int): QueryResponse {
    QueryResponse("error", question, AnswerText(""), Some(MetaStr("")), Some(error), code)
  }

  /** Python's name for the type of a metadata value. */
  function TypeName(v: Option<MetaValue>): string {
    match v
    case None => "NoneType"
    case Some(MetaStr(_)) => "str"
    case Some(MetaInt(_)) => "int"
    case Some(MetaOther(t)) => t
  }

  /** The position of the first hit whose text is not a string, if any. */
  function FirstNonText(items: seq<FormattedResult>): (r: Option<nat>)
    ensures r.None? <==> forall k :: 0 <= k < |items| ==> items[k].text.Some? && items[k].text.value.MetaStr?
    ensures r.Some? ==>
      && r.value < |items|
      && !(items[r.value].text.Some? && items[r.value].text.value.MetaStr?)
      && forall k :: 0 <= k < r.value ==> items[k].text.Some? && items[k].text.value.MetaStr?
  {
    if |items| == 0 then None
    else if !(items[0].text.Some? && items[0].text.value.MetaStr?) then Some(0)
    else match FirstNonText(items[1..])
      case None => None
      case Some(k) => Some(k + 1)
  }

  /** `"\n\n".join(result['text'] for result in results)`: the texts joined
      in ranked order, or the TypeError the first non-string raises. */
  function JoinedSections(items: seq<FormattedResult>): (r: Result<string>)
    ensures r.Failure? <==> FirstNonText(items).Some?
    ensures r.Failure? ==>
      var k := FirstNonText(items).value;
      r.error == "sequence item " + NatToString(k) + ": expected str instance, " + TypeName(items[k].text) + " found"
    ensures r.Success? ==> r.value == Join(SectionTexts(items), SectionSeparator)
  {
    match FirstNonText(items)
    case Some(k) =>
      Failure("sequence item " + NatToString(k) + ": expected str instance, " + TypeName(items[k].text) + " found")
    case None => Success(Join(SectionTexts(items), SectionSeparator))
  }

  /** The texts of hits whose texts are all strings, in ranked order. */
  function SectionTexts(items: seq<FormattedResult>): (texts: seq<string>)
    requires forall k :: 0 <= k < |items| ==> items[k].text.Some? && items[k].text.value.MetaStr?
    ensures |texts| == |items|
    ensures forall k :: 0 <= k < |items| ==> items[k].text == Some(MetaStr(texts[k]))
  {
    seq(|items|, k requires 0 <= k < |items| => items[k].text.value.s)
  }

  /** The part of the query route after the service call. */
  function ShapeQueryResponse(question: string, outcome: QueryOutcome): (r: QueryResponse)
    ensures r.question == question
    ensures r.code == 200 <==> r.status == "success"
    ensures r.code == 500 <==> r.status == "error"
    ensures outcome.QueryError? ==> r == ErrorResponse(question, "Query failed: " + outcome.message, 500)
    ensures outcome == Results([]) ==>
      r == QueryResponse("success", question, AnswerText(NoInformationAnswer), Some(MetaStr("")), None, 200)
    ensures outcome.Results? && |outcome.items| > 1 && JoinedSections(outcome.items).Failure? ==>
      r == ErrorResponse(question, "Error processing query: " + JoinedSections(outcome.items).error, 500)
    ensures outcome.Results? && |outcome.items| == 1 ==>
      r == QueryResponse("success", question, AnswerHit(outcome.items[0]), outcome.items[0].text, None, 200)
  {
    match outcome
    case QueryError(message) => ErrorResponse(question, "Query failed: " + message, 500)
    case Results(items) =>
      if |items| == 0 then
        QueryResponse("success", question, AnswerText(NoInformationAnswer), Some(MetaStr("")), None, 200)
      else
        var top := items[0];
        if |items| > 1 then
          match JoinedSections(items)
          case Failure(e) => ErrorResponse(question, "Error processing query: " + e, 500)
          case Success(sections) => QueryResponse("success", question, AnswerHit(top), Some(MetaStr(sections)), None, 200)
        else QueryResponse("success", question, AnswerHit(top), top.text, None, 200)
  }

  /** For a non-empty list of hits with string texts, the answer is the top
      hit and the relevant sections are all texts joined by a blank line, in
      ranked order; for a single hit that is just its text. */
  lemma RankedSections(question: string, items: seq<FormattedResult>)
    requires 1 <= |items|
    requires forall k :: 0 <= k < |items| ==> items[k].text.Some? && items[k].text.value.MetaStr?
    ensures ShapeQueryResponse(question, Results(items)) ==
      QueryResponse("success", question, AnswerHit(items[0]), Some(MetaStr(Join(SectionTexts(items), SectionSeparator))), None, 200)
  {
    var texts := SectionTexts(items);
    if |items| == 1 {
      assert Join(texts, SectionSeparator) == items[0].text.value.s;
    }
  }

  /** The query route. `body` is the request's JSON object; `service` is
      `rag_service.query`. A body without `file_path` or `question` is
      answered with a 400 that does not depend on the service. */
  function HandleQuery(body: map<string, string>, service: (string, string, int) -> QueryOutcome): (r: QueryResponse)
    ensures "file_path" !in body || "question" !in body ==>
      r == ErrorResponse(if "question" in body then body["question"] else "", MissingParametersMessage, 400)
  {
    if |body| == 0 || "file_path" !in body || "question" !in body then
      ErrorResponse(if "question" in body then body["question"] else "", MissingParametersMessage, 400)
    else
      var question := body["question"];
      match ExtractDocumentId(body["file_path"])
      case None => ErrorResponse(question, InvalidPathMessage, 400)
      case Some(documentId) => ShapeQueryResponse(question, service(question, documentId, 3))
  }

  /** A body with both keys always reaches the service, with the extracted
      document id and `top_k=3`; the IndexError response never occurs. */
  lemma QueryAsksService(body: map<string, string>, service: (string, string, int) -> QueryOutcome)
    requires "file_path" in body && "question" in body
    ensures ExtractDocumentId(body["file_path"]).Some?
    ensures HandleQuery(body, service) ==
      ShapeQueryResponse(body["question"], service(body["question"], ExtractDocumentId(body["file_path"]).value, 3))
  {
    ExtractNeverFails(body["file_path"]);
  }

  /** Querying with the `file_path` an upload returned asks the service
      about exactly the file id the upload ingested. */
  lemma QueryAfterUpload(filePart: Option<string>, fileId: string, secure: string -> string,
                         appRootParent: string, saveFault: Option<string>, ingest: (string, string) -> IngestReport,
                         question: string, service: (string, string, int) -> QueryOutcome)
    requires filePart.Some? && '_' !in fileId && '/' !in fileId && '/' !in secure(filePart.value)
    requires Upload(filePart, fileId, secure, appRootParent, saveFault, ingest).code == 201
    ensures var r := Upload(filePart, fileId, secure, appRootParent, saveFault, ingest);
      HandleQuery(map["file_path" := r.body.filePath, "question" := question], service) ==
        ShapeQueryResponse(question, service(question, fileId, 3))
  {
    var r := Upload(filePart, fileId, secure, appRootParent, saveFault, ingest);
    UploadQueryRoundTrip(filePart, fileId, secure, appRootParent, saveFault, ingest);
    QueryAsksService(map["file_path" := r.body.filePath, "question" := question], service);
  }
}
