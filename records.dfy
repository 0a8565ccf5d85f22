/** Record shapes shared by the upload service and the file endpoints:
    task status, the File / Task / page-result rows, the response schemas,
    the exception classes the handlers distinguish, and the HTTP codes. */
module Records {

  datatype Option<+T> = None | Some(value: T)

  datatype Result<+T, +E> = Ok(value: T) | Err(error: E)

  /** The task lifecycle states of `TaskStatus`. */
  datatype TaskStatus = Pending | Processing | Completed | Failed

  /** The string value each status serialises to. */
  function StatusValue(s: TaskStatus): string
  {
    match s
    case Pending => "pending"
    case Processing => "processing"
    case Completed => "completed"
    case Failed => "failed"
  }

  /** The exception classes the handlers tell apart. `S3Error` is raised by
      the object store, `SqlAlchemyError` by the session, `CeleryError` by
      the broker, `JsonDecodeError` by the JSON parser, `ValidationError` by
      a response schema; every other exception is `OtherError`. */
  datatype ErrorKind =
    | S3Error
    | SqlAlchemyError
    | CeleryError
    | JsonDecodeError
    | ValidationError
    | OtherError

  const HttpOk: int := 200
  const HttpCreated: int := 201
  const HttpAccepted: int := 202
  const HttpNotFound: int := 404
  const HttpUnsupportedMediaType: int := 415
  const HttpInternalServerError: int := 500

  /** The content types an upload may declare. */
  const AllowedContentTypes: set<string> := {"application/pdf", "image/png", "image/jpeg"}

  /** A row of the `files` table. Ids are the text form of the UUID;
      `totalPages` is nullable. */
  datatype FileRow = FileRow(
    id: string,
    filename: string,
    storagePath: string,
    fileType: string,
    totalPages: Option<int>)

  /** A row of the `tasks` table. */
  datatype TaskRow = TaskRow(
    id: string,
    fileId: string,
    status: TaskStatus,
    errorMessage: Option<string>)

  /** A stored per-page OCR result: its page number and the key of its JSON
      object in the result bucket. */
  datatype PageRow = PageRow(pageNumber: int, resultPath: string)

  /** One entry of a result response. */
  datatype PageResult = PageResult(pageNumber: int, text: string)

  datatype FileUploadResponse = FileUploadResponse(
    id: string,
    filename: string,
    fileType: string,
    status: string)

  /** `totalPages` is optional here: see the finding about the schema in
      FileService (the schema as declared refuses a missing page count). */
  datatype FileDetailResponse = FileDetailResponse(
    id: string,
    filename: string,
    storagePath: string,
    fileType: string,
    totalPages: Option<int>)

  datatype FileResultResponse = FileResultResponse(
    fileId: string,
    filename: string,
    status: string,
    totalPages: Option<int>,
    results: seq<PageResult>)

  /** `FileServiceError`: a message and the HTTP status it maps to. */
  datatype ServiceError = ServiceError(message: string, statusCode: int)

  /** What a service call does: return a value, raise `FileServiceError`,
      or let some other exception propagate. */
  datatype ServiceResult<+T> =
    | Done(value: T)
    | Fails(error: ServiceError)
    | Raises(kind: ErrorKind)

  /** The JSON body of an endpoint response. */
  datatype Body =
    | UploadBody(upload: FileUploadResponse)
    | DetailBody(detail: FileDetailResponse)
    | ResultBody(result: FileResultResponse)
    | ErrorBody(code: int, message: string)

  /** What an endpoint does: answer with a status and a body, or let an
      exception escape to the framework. */
  datatype Reply =
    | Reply(status: int, body: Body)
    | Unhandled(kind: ErrorKind)

  function NotFoundMessage(fileId: string): string
  {
    "File with ID " + fileId + " not found."
  }

  /** The detail schema filled from a File row: every field copied. */
  function DetailResponse(row: FileRow): FileDetailResponse
  {
    FileDetailResponse(row.id, row.filename, row.storagePath, row.fileType, row.totalPages)
  }
}
