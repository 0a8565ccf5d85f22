/** The HTTP handlers for files: upload, detail lookup and result read. They
    answer with a status and a JSON body instead of raising, and differ from
    the service in how they report a failed task. */
module FilesEndpoint {
  import opened Records
  import opened Backend
  import opened Intake
  import opened PageOrder
  import opened PageReading
  import FileService

  function ErrorReply(code: int, message: string): Reply
  {
    Reply(code, ErrorBody(code, message))
  }

  // ---------------------------------------------------------------------
  // Upload

  /** The answer to an object upload that raised `kind`: an `S3Error`
      becomes a 500; anything else is not caught here. */
  function UploadErrorReply(kind: ErrorKind): Reply
  {
    if kind == S3Error then ErrorReply(HttpInternalServerError, "Failed to upload file to storage")
    else Unhandled(kind)
  }

  /** The answer to a step after the object upload that raised `kind`: a 500
      whose message depends on the exception class. */
  function SaveErrorReply(kind: ErrorKind): Reply
  {
    match kind
    case SqlAlchemyError => ErrorReply(HttpInternalServerError, "Failed to save file metadata to database.")
    case CeleryError => ErrorReply(HttpInternalServerError, "Failed to queue file processing task.")
    case _ => ErrorReply(HttpInternalServerError, "Server error occurred while processing the file.")
  }

  function CreatedReply(row: FileRow, task: TaskRow): Reply
  {
    Reply(HttpCreated, UploadBody(FileUploadResponse(row.id, row.filename, row.fileType, StatusValue(task.status))))
  }

  /** What the endpoint answers for an upload that got to `st`: 201 with the
      new file and the status "pending" exactly when it was saved, 415
      exactly when the type was refused, 500 for every other handled
      failure, and only an object upload that raised something other than
      `S3Error` escapes. Unlike the service, no failure after the object
      upload escapes. */
  function UploadReply(u: Upload, fileId: string, taskId: string, st: Stage): (r: Reply)
    ensures r.Reply? ==> r.status in {HttpCreated, HttpUnsupportedMediaType, HttpInternalServerError}
    ensures (r.Reply? && r.status == HttpCreated) <==> st.Saved?
    ensures st.Saved? ==> r.body == UploadBody(FileUploadResponse(fileId, u.filename, u.contentType, "pending"))
    ensures (r.Reply? && r.status == HttpUnsupportedMediaType) <==> st.Rejected?
    ensures r.Unhandled? <==> st.UploadFailed? && st.kind != S3Error
    ensures st.SaveFailed? ==> r.Reply? && r.status == HttpInternalServerError
  {
    match st
    case Rejected => ErrorReply(HttpUnsupportedMediaType, RejectionMessage(u.contentType))
    case UploadFailed(kind) => UploadErrorReply(kind)
    case SaveFailed(_, kind) => SaveErrorReply(kind)
    case Saved => CreatedReply(SavedFile(fileId, u), SavedTask(taskId, fileId))
  }

  /** The upload handler: the same steps and compensation as the service,
      with every failure after the object upload answered rather than
      raised. */
  method UploadFile(w: World, u: Upload, fileId: string, taskId: string, f: Faults)
    returns (r: Reply)
    requires w.Idle()
    modifies w
    ensures w.State() == UploadEffect(old(w.State()), u, fileId, taskId, StageOf(u, f))
    ensures r == UploadReply(u, fileId, taskId, StageOf(u, f))
  {
    ghost var before := w.State();
    if u.contentType !in AllowedContentTypes {
      return ErrorReply(HttpUnsupportedMediaType, RejectionMessage(u.contentType));
    }
    var key := StorageKey(fileId, u.filename);
    var err := w.PutObject(key, f.upload);
    if err.Some? {
      return UploadErrorReply(err.value);
    }
    var failure := SaveOrCompensate(w, before, u, fileId, taskId, f);
    if failure.Some? {
      return SaveErrorReply(failure.value.1);
    }
    return CreatedReply(SavedFile(fileId, u), SavedTask(taskId, fileId));
  }

  /** The two upload handlers agree on everything but the failures they
      translate differently: both create the file exactly when the other
      does, and both refuse the same content types with 415. */
  lemma UploadVariantsAgree(u: Upload, fileId: string, taskId: string, f: Faults)
    ensures var st := StageOf(u, f);
      var service := FileService.UploadOutcome(u, fileId, taskId, st);
      var endpoint := UploadReply(u, fileId, taskId, st);
      && (service.Done? <==> endpoint.Reply? && endpoint.status == HttpCreated)
      && (service.Done? ==> endpoint.body == UploadBody(service.value))
      && (service.Fails? ==> endpoint == ErrorReply(service.error.statusCode, endpoint.body.message))
      && (service.Fails? && service.error.statusCode == HttpUnsupportedMediaType ==>
            endpoint == ErrorReply(HttpUnsupportedMediaType, service.error.message))
      && (endpoint.Unhandled? ==> service == Raises(endpoint.kind))
      && (service.Raises? && !endpoint.Unhandled? ==>
            endpoint == ErrorReply(HttpInternalServerError, "Server error occurred while processing the file."))
  {
  }

  // ---------------------------------------------------------------------
  // File lookup

  /** The detail handler: 404 exactly when there is no row, and otherwise
      200 with the row's fields unchanged. */
  function GetFileDetails(fileId: string, file: Option<FileRow>): (r: Reply)
    ensures r.Reply?
    ensures r.status == HttpOk <==> file.Some?
    ensures file.None? ==> r == ErrorReply(HttpNotFound, NotFoundMessage(fileId))
    ensures file.Some? ==>
      && r.body.DetailBody?
      && r.body.detail.id == file.value.id && r.body.detail.filename == file.value.filename
      && r.body.detail.storagePath == file.value.storagePath
      && r.body.detail.fileType == file.value.fileType
      && r.body.detail.totalPages == file.value.totalPages
  {
    match file
    case None => ErrorReply(HttpNotFound, NotFoundMessage(fileId))
    case Some(row) => Reply(HttpOk, DetailBody(DetailResponse(row)))
  }

  /** The handler and the service lookup agree: same details, same
      not-found status and message. */
  lemma DetailVariantsAgree(fileId: string, file: Option<FileRow>)
    ensures match FileService.GetFile(fileId, file)
      case Done(d) => GetFileDetails(fileId, file) == Reply(HttpOk, DetailBody(d))
      case Fails(e) => GetFileDetails(fileId, file) == ErrorReply(e.statusCode, e.message)
      case Raises(_) => false
  {
  }

  // ---------------------------------------------------------------------
  // Result read

  /** The handler's translation of a failed page read: always a 500 error
      body, with a message of its own for a missing object and for malformed
      JSON and a generic one for everything else. */
  function ReadErrorReply(kind: ErrorKind): (r: Reply)
    ensures r.Reply? && r.status == HttpInternalServerError && r.body.ErrorBody? && r.body.code == HttpInternalServerError
    ensures kind == S3Error ==> r.body.message == "Failed to retrieve result from storage."
    ensures kind == JsonDecodeError ==> r.body.message == "Malformed JSON in result data."
    ensures kind != S3Error && kind != JsonDecodeError ==>
      r.body.message == "Server error occurred while retrieving file results."
  {
    match kind
    case S3Error => ErrorReply(HttpInternalServerError, "Failed to retrieve result from storage.")
    case JsonDecodeError => ErrorReply(HttpInternalServerError, "Malformed JSON in result data.")
    case _ => ErrorReply(HttpInternalServerError, "Server error occurred while retrieving file results.")
  }

  /** What the result handler answers. No file or no task: 404. Pending or
      processing: 202 with no results. Failed: 200 with the status and no
      results. Completed: 200 with one entry per page row in page order, or a
      500 and no results when any stored result cannot be read. Nothing
      escapes. */
  function ResultReply(fileId: string, file: Option<FileRow>, task: Option<TaskRow>,
                       pages: seq<PageRow>, store: ResultStore): (r: Reply)
    ensures r.Reply?
    ensures file.None? || task.None? ==> r == ErrorReply(HttpNotFound, NotFoundMessage(fileId))
    ensures file.Some? && task.Some? && task.value.status in {Pending, Processing} ==>
      r.status == HttpAccepted && r.body.ResultBody? && r.body.result.results == []
    ensures file.Some? && task.Some? && task.value.status == Failed ==>
      r.status == HttpOk && r.body.ResultBody? && r.body.result.results == []
      && r.body.result.status == "failed"
    ensures file.Some? && task.Some? && task.value.status == Completed ==>
      (r.status == HttpOk <==> CompletedResults(pages, store).Ok?)
      && (r.status == HttpOk ==> r.body.ResultBody? && r.body.result.results == CompletedResults(pages, store).value)
      && (r.status != HttpOk ==> r.status == HttpInternalServerError && r.body.ErrorBody?)
      && (CompletedResults(pages, store).Err? ==> r == ReadErrorReply(CompletedResults(pages, store).error))
  {
    if file.None? || task.None? then ErrorReply(HttpNotFound, NotFoundMessage(fileId))
    else
      var row, t := file.value, task.value;
      match t.status
      case Pending => Reply(HttpAccepted, ResultBody(FileService.ResultResponse(row, t, [])))
      case Processing => Reply(HttpAccepted, ResultBody(FileService.ResultResponse(row, t, [])))
      case Failed => Reply(HttpOk, ResultBody(FileService.ResultResponse(row, t, [])))
      case Completed =>
        match CompletedResults(pages, store)
        case Ok(results) => Reply(HttpOk, ResultBody(FileService.ResultResponse(row, t, results)))
        case Err(kind) => ReadErrorReply(kind)
  }

  /** The result handler: the status checks, then the page rows sorted by
      page number and read one by one. */
  method GetFileResult(fileId: string, file: Option<FileRow>, task: Option<TaskRow>,
                       pages: seq<PageRow>, store: ResultStore)
    returns (r: Reply)
    ensures r == ResultReply(fileId, file, task, pages, store)
  {
    if file.None? || task.None? {
      return ErrorReply(HttpNotFound, NotFoundMessage(fileId));
    }
    var row, t := file.value, task.value;
    if t.status == Pending || t.status == Processing {
      return Reply(HttpAccepted, ResultBody(FileService.ResultResponse(row, t, [])));
    }
    if t.status == Failed {
      return Reply(HttpOk, ResultBody(FileService.ResultResponse(row, t, [])));
    }
    var sorted := SortByPage(pages);
    var read := CollectPageResults(sorted, store);
    match read
    case Ok(results) => r := Reply(HttpOk, ResultBody(FileService.ResultResponse(row, t, results)));
    case Err(kind) => r := ReadErrorReply(kind);
  }

  /** How the handler and the service read compare. They agree on the
      not-found answer, on the pending answer (under 202), on the results and
      on the storage and JSON errors. They differ on a failed task, a 500
      error in the service and a 200 with no results here, and on a page read
      that raises anything else, which the service lets propagate and the
      handler answers with a generic 500. */
  lemma ResultVariantsCompared(fileId: string, file: Option<FileRow>, task: Option<TaskRow>,
                               pages: seq<PageRow>, store: ResultStore)
    ensures var service := FileService.Results(fileId, file, task, pages, store);
      var endpoint := ResultReply(fileId, file, task, pages, store);
      && (file.None? || task.None? ==>
            service.Fails? && endpoint == ErrorReply(service.error.statusCode, service.error.message))
      && (file.Some? && task.Some? && task.value.status != Failed ==>
            && (service.Done? <==> endpoint.body.ResultBody?)
            && (service.Done? ==> endpoint.body == ResultBody(service.value))
            && (service.Fails? ==> endpoint == ErrorReply(service.error.statusCode, service.error.message))
            && (service.Raises? ==>
                  endpoint == ErrorReply(HttpInternalServerError, "Server error occurred while retrieving file results.")))
      && (file.Some? && task.Some? && task.value.status == Failed ==>
            service.Fails? && service.error.statusCode == HttpInternalServerError
            && endpoint.status == HttpOk && endpoint.body.ResultBody?)
  {
  }

  /** A missing result object for a completed file, reached before any other
      failing row in page order, is answered with the storage 500. */
  lemma {:induction false} MissingResultIsStorageErrorReply(fileId: string, row: FileRow, task: TaskRow,
                                                            pages: seq<PageRow>, store: ResultStore, i: nat)
    requires task.status == Completed
    requires i < |pages| && SortByPage(pages)[i].resultPath !in store
    requires forall k :: 0 <= k < i ==> ReadOne(SortByPage(pages)[k], store).Ok?
    ensures ResultReply(fileId, Some(row), Some(task), pages, store) ==
      ErrorReply(HttpInternalServerError, "Failed to retrieve result from storage.")
  {
    MissingResultAbortsRead(pages, store, i);
  }

  // ---------------------------------------------------------------------
  // As the response schemas declare them

  /** The detail handler with the declared `total_pages: int`: a row without
      a page count makes the response model raise a validation error, which
      nothing in the handler catches. */
  function GetFileDetailsAsWritten(fileId: string, file: Option<FileRow>): (r: Reply)
    ensures r.Unhandled? <==> file.Some? && file.value.totalPages.None?
    ensures r.Unhandled? ==> r.kind == ValidationError
    ensures !r.Unhandled? ==> r == GetFileDetails(fileId, file)
  {
    match file
    case None => ErrorReply(HttpNotFound, NotFoundMessage(fileId))
    case Some(row) =>
      if row.totalPages.None? then Unhandled(ValidationError) else Reply(HttpOk, DetailBody(DetailResponse(row)))
  }

  /** The result handler with the declared `total_pages: int`: every result
      body it would build for a file without a page count, for a pending,
      processing, failed or completed task alike, raises a validation error
      outside the handler's `try`. */
  function ResultReplyAsWritten(fileId: string, file: Option<FileRow>, task: Option<TaskRow>,
                                pages: seq<PageRow>, store: ResultStore): (r: Reply)
    ensures var fixed := ResultReply(fileId, file, task, pages, store);
      && (r.Unhandled? <==> fixed.body.ResultBody? && file.value.totalPages.None?)
      && (r.Unhandled? ==> r.kind == ValidationError)
      && (!r.Unhandled? ==> r == fixed)
  {
    var fixed := ResultReply(fileId, file, task, pages, store);
    if fixed.body.ResultBody? && fixed.body.result.totalPages.None? then Unhandled(ValidationError) else fixed
  }

  /** A freshly saved upload: as written, both its details and its results
      raise, since its page count is unset; the corrected handlers answer 200
      and 202 (pending, no results). */
  lemma SavedUploadRepliesRaiseAsWritten(fileId: string, taskId: string, u: Upload,
                                         pages: seq<PageRow>, store: ResultStore)
    ensures GetFileDetailsAsWritten(fileId, Some(SavedFile(fileId, u))) == Unhandled(ValidationError)
    ensures ResultReplyAsWritten(fileId, Some(SavedFile(fileId, u)), Some(SavedTask(taskId, fileId)), pages, store)
      == Unhandled(ValidationError)
    ensures GetFileDetails(fileId, Some(SavedFile(fileId, u))).status == HttpOk
    ensures ResultReply(fileId, Some(SavedFile(fileId, u)), Some(SavedTask(taskId, fileId)), pages, store)
      == Reply(HttpAccepted, ResultBody(FileResultResponse(fileId, u.filename, "pending", None, [])))
  {
  }
}
