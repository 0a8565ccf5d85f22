/** The file service: upload intake with compensation, the file lookup and
    the result read. Its errors are `FileServiceError`s with an HTTP status;
    exceptions it does not translate propagate to the caller. */
module FileService {
  import opened Records
  import opened Backend
  import opened Intake
  import opened PageOrder
  import opened PageReading

  // ---------------------------------------------------------------------
  // Upload intake

  /** The answer to a content type outside the allow-list. */
  function RejectedUpload(contentType: string): ServiceResult<FileUploadResponse>
  {
    Fails(ServiceError(RejectionMessage(contentType), HttpUnsupportedMediaType))
  }

  /** The answer to an object upload that raised `kind`: an `S3Error`
      becomes a 500, anything else propagates. */
  function UploadError(kind: ErrorKind): ServiceResult<FileUploadResponse>
  {
    if kind == S3Error then Fails(ServiceError("Error while upload file to storage", HttpInternalServerError))
    else Raises(kind)
  }

  /** The answer to a step after the object upload that raised `kind`. */
  function SaveError(kind: ErrorKind): ServiceResult<FileUploadResponse>
  {
    match kind
    case SqlAlchemyError =>
      Fails(ServiceError("Failed to store file metadata or queue processing task.", HttpInternalServerError))
    case CeleryError =>
      Fails(ServiceError("Failed to enqueue file processing task.", HttpInternalServerError))
    case _ => Raises(kind)
  }

  /** The answer to a saved upload: the stored row and the task status. */
  function Accepted(row: FileRow, task: TaskRow): ServiceResult<FileUploadResponse>
  {
    Done(FileUploadResponse(row.id, row.filename, row.fileType, StatusValue(task.status)))
  }

  /** What the service answers for an upload that got to `st`. It returns a
      response exactly when the upload was saved, and that response names the
      new file and the status "pending"; it answers 415 exactly when the type
      was refused; every other translated error is a 500; and only an
      exception other than `S3Error` (object upload) or `SqlAlchemyError` /
      `CeleryError` (later steps) propagates. */
  function UploadOutcome(u: Upload, fileId: string, taskId: string, st: Stage): (r: ServiceResult<FileUploadResponse>)
    ensures r.Done? <==> st.Saved?
    ensures r.Done? ==> r.value == FileUploadResponse(fileId, u.filename, u.contentType, "pending")
    ensures r.Fails? ==> r.error.statusCode == HttpUnsupportedMediaType || r.error.statusCode == HttpInternalServerError
    ensures (r.Fails? && r.error.statusCode == HttpUnsupportedMediaType) <==> st.Rejected?
    ensures r.Raises? <==>
      (st.UploadFailed? && st.kind != S3Error)
      || (st.SaveFailed? && st.kind != SqlAlchemyError && st.kind != CeleryError)
  {
    match st
    case Rejected => RejectedUpload(u.contentType)
    case UploadFailed(kind) => UploadError(kind)
    case SaveFailed(_, kind) => SaveError(kind)
    case Saved => Accepted(SavedFile(fileId, u), SavedTask(taskId, fileId))
  }

  /** Upload intake: the steps run one after the other on the world, each
      failure is translated by its handler, and every failure after the
      object upload rolls back the session and removes the object. */
  method HandleFileUpload(w: World, u: Upload, fileId: string, taskId: string, f: Faults)
    returns (r: ServiceResult<FileUploadResponse>)
    requires w.Idle()
    modifies w
    ensures w.State() == UploadEffect(old(w.State()), u, fileId, taskId, StageOf(u, f))
    ensures r == UploadOutcome(u, fileId, taskId, StageOf(u, f))
  {
    ghost var before := w.State();
    if u.contentType !in AllowedContentTypes {
      return RejectedUpload(u.contentType);
    }
    var key := StorageKey(fileId, u.filename);
    var err := w.PutObject(key, f.upload);
    if err.Some? {
      return UploadError(err.value);
    }
    var failure := SaveOrCompensate(w, before, u, fileId, taskId, f);
    if failure.Some? {
      return SaveError(failure.value.1);
    }
    return Accepted(SavedFile(fileId, u), SavedTask(taskId, fileId));
  }

  // ---------------------------------------------------------------------
  // File lookup

  /** The detail lookup: not found (404) exactly when there is no row, and
      otherwise the row's fields unchanged. */
  function GetFile(fileId: string, file: Option<FileRow>): (r: ServiceResult<FileDetailResponse>)
    ensures r.Done? <==> file.Some?
    ensures !r.Done? ==> r == Fails(ServiceError(NotFoundMessage(fileId), HttpNotFound))
    ensures r.Done? ==>
      && r.value.id == file.value.id && r.value.filename == file.value.filename
      && r.value.storagePath == file.value.storagePath && r.value.fileType == file.value.fileType
      && r.value.totalPages == file.value.totalPages
  {
    match file
    case None => Fails(ServiceError(NotFoundMessage(fileId), HttpNotFound))
    case Some(row) => Done(DetailResponse(row))
  }

  /** The detail lookup as the response schema declares it: the page count
      is a required integer, so a row whose count is still unset is refused
      with a validation error. */
  function GetFileAsWritten(fileId: string, file: Option<FileRow>): (r: ServiceResult<FileDetailResponse>)
    ensures r.Raises? <==> file.Some? && file.value.totalPages.None?
    ensures !r.Raises? ==> r == GetFile(fileId, file)
  {
    match file
    case None => Fails(ServiceError(NotFoundMessage(fileId), HttpNotFound))
    case Some(row) =>
      if row.totalPages.None? then Raises(ValidationError) else Done(DetailResponse(row))
  }

  /** Every file an upload saves has no page count yet, so as written its
      detail lookup raises, while the corrected lookup answers with its
      details. */
  lemma SavedFileDetailsRaiseAsWritten(fileId: string, u: Upload)
    ensures GetFileAsWritten(fileId, Some(SavedFile(fileId, u))) == Raises(ValidationError)
    ensures GetFile(fileId, Some(SavedFile(fileId, u))) ==
      Done(FileDetailResponse(fileId, u.filename, StorageKey(fileId, u.filename), u.contentType, None))
  {
  }

  // ---------------------------------------------------------------------
  // Result read

  /** The text of a task's error message as it is formatted into a string
      (a missing message reads "None"). */
  function ErrorText(message: Option<string>): string
  {
    match message
    case None => "None"
    case Some(m) => m
  }

  function ResultResponse(file: FileRow, task: TaskRow, results: seq<PageResult>): FileResultResponse
  {
    FileResultResponse(file.id, file.filename, StatusValue(task.status), file.totalPages, results)
  }

  /** The service's translation of a failed page read: a missing object and
      malformed JSON become 500s with their own messages; any other
      exception propagates unchanged. */
  function ReadError(kind: ErrorKind): (r: ServiceResult<FileResultResponse>)
    ensures r.Fails? <==> kind == S3Error || kind == JsonDecodeError
    ensures r.Fails? ==> r.error.statusCode == HttpInternalServerError
    ensures kind == S3Error ==> r.error.message == "Failed to retrieve result from storage."
    ensures kind == JsonDecodeError ==> r.error.message == "Malformed JSON in result data."
    ensures r.Raises? ==> r.kind == kind
    ensures !r.Done?
  {
    match kind
    case S3Error => Fails(ServiceError("Failed to retrieve result from storage.", HttpInternalServerError))
    case JsonDecodeError => Fails(ServiceError("Malformed JSON in result data.", HttpInternalServerError))
    case _ => Raises(kind)
  }

  /** What the result read answers. No file or no task: not found. Pending or
      processing: the status and no results. Failed: a 500 carrying the
      task's error message. Completed: one entry per page row in page order,
      or, when any stored result cannot be read, an error and no results at
      all. */
  function Results(fileId: string, file: Option<FileRow>, task: Option<TaskRow>,
                   pages: seq<PageRow>, store: ResultStore): (r: ServiceResult<FileResultResponse>)
    ensures file.None? || task.None? ==> r == Fails(ServiceError(NotFoundMessage(fileId), HttpNotFound))
    ensures r.Done? ==>
      && file.Some? && task.Some?
      && r.value.fileId == file.value.id && r.value.filename == file.value.filename
      && r.value.totalPages == file.value.totalPages
      && r.value.status == StatusValue(task.value.status)
    ensures file.Some? && task.Some? && task.value.status in {Pending, Processing} ==>
      r.Done? && r.value.results == []
    ensures file.Some? && task.Some? && task.value.status == Failed ==>
      r == Fails(ServiceError("File processing failed: " + ErrorText(task.value.errorMessage),
                              HttpInternalServerError))
    ensures file.Some? && task.Some? && task.value.status == Completed ==>
      (r.Done? <==> CompletedResults(pages, store).Ok?)
      && (r.Done? ==> r.value.results == CompletedResults(pages, store).value)
      && (CompletedResults(pages, store).Err? ==> r == ReadError(CompletedResults(pages, store).error))
  {
    if file.None? || task.None? then Fails(ServiceError(NotFoundMessage(fileId), HttpNotFound))
    else
      var row, t := file.value, task.value;
      match t.status
      case Pending => Done(ResultResponse(row, t, []))
      case Processing => Done(ResultResponse(row, t, []))
      case Failed =>
        Fails(ServiceError("File processing failed: " + ErrorText(t.errorMessage), HttpInternalServerError))
      case Completed =>
        match CompletedResults(pages, store)
        case Ok(results) => Done(ResultResponse(row, t, results))
        case Err(kind) => ReadError(kind)
  }

  /** The result read: the status checks, then the page rows sorted by page
      number and read one by one. */
  method GetResults(fileId: string, file: Option<FileRow>, task: Option<TaskRow>,
                    pages: seq<PageRow>, store: ResultStore)
    returns (r: ServiceResult<FileResultResponse>)
    ensures r == Results(fileId, file, task, pages, store)
  {
    if file.None? || task.None? {
      return Fails(ServiceError(NotFoundMessage(fileId), HttpNotFound));
    }
    var row, t := file.value, task.value;
    if t.status == Pending || t.status == Processing {
      return Done(ResultResponse(row, t, []));
    }
    if t.status == Failed {
      return Fails(ServiceError("File processing failed: " + ErrorText(t.errorMessage), HttpInternalServerError));
    }
    var sorted := SortByPage(pages);
    var read := CollectPageResults(sorted, store);
    match read
    case Ok(results) => r := Done(ResultResponse(row, t, results));
    case Err(kind) => r := ReadError(kind);
  }

  /** The result read as the response schema declares it: the page count is
      a required integer, so every response the read would return for a file
      whose count is unset is refused with a validation error. Errors and
      the failed-task answer are raised before any response is built. */
  function ResultsAsWritten(fileId: string, file: Option<FileRow>, task: Option<TaskRow>,
                            pages: seq<PageRow>, store: ResultStore): (r: ServiceResult<FileResultResponse>)
    ensures var fixed := Results(fileId, file, task, pages, store);
      && (r == Raises(ValidationError) <==> fixed == Raises(ValidationError) || (fixed.Done? && file.value.totalPages.None?))
      && (file.Some? && file.value.totalPages.Some? ==> r == fixed)
      && (!fixed.Done? ==> r == fixed)
  {
    match Results(fileId, file, task, pages, store)
    case Done(v) => if v.totalPages.None? then Raises(ValidationError) else Done(v)
    case other => other
  }

  /** Reading a file whose stored results include a missing object is a 500,
      both when the file is a completed upload with a page count (as written)
      and in the corrected read, provided every row before it in page order
      can be read. */
  lemma {:induction false} MissingResultIsStorageError(fileId: string, row: FileRow, task: TaskRow,
                                    pages: seq<PageRow>, store: ResultStore, i: nat)
    requires task.status == Completed
    requires i < |pages| && SortByPage(pages)[i].resultPath !in store
    requires forall k :: 0 <= k < i ==> ReadOne(SortByPage(pages)[k], store).Ok?
    ensures Results(fileId, Some(row), Some(task), pages, store) ==
      Fails(ServiceError("Failed to retrieve result from storage.", HttpInternalServerError))
    ensures ResultsAsWritten(fileId, Some(row), Some(task), pages, store) ==
      Results(fileId, Some(row), Some(task), pages, store)
  {
    MissingResultAbortsRead(pages, store, i);
  }

  /** A freshly saved upload: as written, reading its results raises, because
      its page count is unset; the corrected read answers pending with no
      results. */
  lemma SavedUploadReadRaisesAsWritten(fileId: string, taskId: string, u: Upload, pages: seq<PageRow>, store: ResultStore)
    ensures ResultsAsWritten(fileId, Some(SavedFile(fileId, u)), Some(SavedTask(taskId, fileId)), pages, store)
      == Raises(ValidationError)
  {
  }

  /** In the corrected read, a file just saved by an upload reads back as
      pending with no results. */
  lemma SavedUploadReadsPending(fileId: string, taskId: string, u: Upload, pages: seq<PageRow>, store: ResultStore)
    ensures Results(fileId, Some(SavedFile(fileId, u)), Some(SavedTask(taskId, fileId)), pages, store)
      == Done(FileResultResponse(fileId, u.filename, "pending", None, []))
  {
  }
}
