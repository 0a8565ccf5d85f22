# OCR file intake and result read, modelled in Dafny

The OCR service accepts uploaded documents (PDF, PNG, JPEG), stores each
one in an object-store bucket, records a File row and a pending Task row
in the database, and sends the task id to a processing worker. Later it
answers two questions about a file: its stored details, and the text
recognised on each page once the task has completed. The same logic
exists twice. One copy is the service layer, which raises
`FileServiceError` with an HTTP status. The other is the HTTP endpoint
layer, which answers with a JSON error body. The two copies differ in
which failures they translate and in how they report a failed task.

This project models:

- **Upload intake with compensation** (modules `Backend` and `Intake`).
  A `World` class holds the bucket, the rows staged in the database
  session, the committed rows and the broker queue. Each collaborator call
  takes the exception it raises, if any, as an input. `UploadEffect` is a
  function giving the world after an upload for each stage the upload can
  stop at. The service method `FileService.HandleFileUpload` and the
  endpoint method `FilesEndpoint.UploadFile` are both proved to produce
  exactly that world, and the reply given by their outcome functions.
- **The result read** (modules `PageOrder` and `PageReading`). Page rows
  are sorted by page number with a stable sort. Each stored JSON object is
  then read, and its `"text"` entry defaults to `""`. The first failure
  aborts the whole read. The loop that collects results is proved equal
  to a recursive specification, and that specification is proved
  all-or-nothing, ordered and faithful to each row.
- **The status-to-reply mapping** of both layers (modules `FileService`
  and `FilesEndpoint`), with lemmas saying where the two layers agree and
  where they differ.
- **The upload client's extension → content-type table** (modules
  `Paths` and `ContentTypes`). This includes a model of a path's
  `suffix` and of lower-casing, and the proof that the table's outputs
  meet the upload allow-list exactly on the known extensions.

File and task ids are parameters, because uuid generation is not modelled.
The object store, session and broker are the `World` fields. A stored
result is a `StoredObject`: a JSON object, another JSON document, text
that is not JSON, or bytes that are not UTF-8. A key absent from the
`ResultStore` is a missing object.

## Model

| member | source | states |
|---|---|---|
| Paths.Suffix | ocr-project/app/services/file_service.py:59 | The extension is empty or a '.' followed by at least one character and no further '.'. It contains no '/'. It is a tail of the path. It is empty when the last path component has no '.'. |
| Paths.SuffixIgnoresCase | ocr-project/test/test_upload.py:46 | Paths that agree up to case have extensions that agree up to case, so lower-casing before or after taking the suffix gives the same extension. |
| Paths.SuffixOfStemAndExtension | ocr-project/app/services/file_service.py:59-60 | A name made of a non-empty stem and an extension ('.' then at least one character other than '.' or '/') has exactly that extension. |
| ContentTypes.ForExtension | ocr-project/test/test_upload.py:47-53 | On a lower-cased extension, the type is allowed for upload exactly when the extension is one of .pdf, .png, .jpg or .jpeg. Every other extension gets the octet-stream fallback. |
| ContentTypes.ContentTypeOf | ocr-project/test/test_upload.py:45-53 | The chosen type is in the upload allow-list exactly when the lower-cased suffix is a known extension. Otherwise it is exactly "application/octet-stream". |
| ContentTypes.ContentTypeIgnoresCase | ocr-project/test/test_upload.py:46 | Paths that agree up to case get the same content type (".PDF" and ".pdf" alike). |
| ContentTypes.ContentTypeOfLowered | ocr-project/test/test_upload.py:46 | Lower-casing a path does not change its content type. |
| ContentTypes.ContentTypeOfKnownExtension | ocr-project/test/test_upload.py:47-53 | stem + ".pdf" gives application/pdf and ".png" gives image/png, in any case. ".jpg" and ".jpeg" both give image/jpeg. Any other extension gives the fallback. |
| ContentTypes.NoExtensionFallsBack | ocr-project/test/test_upload.py:53 | A name without an extension gets "application/octet-stream". |
| Intake.ClientTypeRejectedIffUnknown | ocr-project/test/test_upload.py:45-53 | An upload whose type the client chose from the extension is rejected exactly when the extension is unknown, which is exactly when the client fell back to octet-stream. |
| Intake.StorageKey | ocr-project/app/services/file_service.py:58-60 | The key is the file id followed by the file name's suffix. It is the bare id when the name has no extension. |
| Intake.FirstSaveFault | ocr-project/app/services/file_service.py:75-91 | No step of the save block fails exactly when none of the row add, task add, enqueue, commit or reload raises. |
| Intake.StageOf | ocr-project/app/services/file_service.py:44-120 | The upload is refused exactly when the type is outside the allow-list. It is saved exactly when the type is allowed and neither the object upload nor any save step raises. |
| Intake.UploadEffect | ocr-project/app/services/file_service.py:44-120 | Nothing stays staged after an upload. A failed upload leaves no new object, and after a save failure the key is gone from the bucket. A refused upload or a failed object upload changes nothing. A failure other than the reload leaves the rows untouched. The queue gains the task id exactly when the enqueue ran and succeeded. A saved upload adds one File row under the id, one pending Task row for it, and the object. |
| Backend.World.PutObject | ocr-project/app/services/file_service.py:64 | A successful object upload adds the key to the bucket and changes nothing else. A failed one changes nothing. |
| Backend.World.RemoveObject | ocr-project/app/services/file_service.py:95 | Removes the key from the bucket and changes nothing else. |
| Backend.World.AddFile | ocr-project/app/services/file_service.py:82 | Stages the File row under its id, or changes nothing when the call raises. |
| Backend.World.AddTask | ocr-project/app/services/file_service.py:85 | Stages the Task row under its id, or changes nothing when the call raises. |
| Backend.World.Delay | ocr-project/app/services/file_service.py:87 | Appends the task id to the queue, or changes nothing when the call raises. |
| Backend.World.Commit | ocr-project/app/services/file_service.py:89 | Publishes the staged rows into the committed rows and clears them. A failed commit changes nothing. |
| Backend.World.Refresh | ocr-project/app/services/file_service.py:90 | Reloads the task row. It reports its fault and changes no state. |
| Backend.World.Rollback | ocr-project/app/services/file_service.py:93 | Discards the staged rows and keeps the committed rows, bucket and queue. |
| Intake.SaveRows | ocr-project/app/services/file_service.py:75-90 | Runs the steps in source order and stops at the first failing one, which it reports. The bucket is untouched. The queue has the task id once the enqueue succeeded. The rows are committed once the commit succeeded, and otherwise unchanged. |
| Intake.SaveOrCompensate | ocr-project/app/services/file_service.py:75-113 | After the save block with rollback and object removal on any failure, the world is exactly `UploadEffect` at the stage reached. The failure reported is the first failing step. |
| Intake.CommitFailureStrandsMessage | ocr-project/app/services/file_service.py:87-89 | When the commit fails, the task id is already in the queue while no Task row with that id exists. |
| Intake.RefreshFailureStrandsRow | ocr-project/app/services/file_service.py:89-95 | When only the reload after the commit fails, the committed File row stays while its object is removed from the bucket. |
| FileService.UploadOutcome | ocr-project/app/services/file_service.py:49-120 | A response exists exactly when the upload was saved, and it names the new file with status "pending". The answer is 415 exactly when the type is refused. Every other translated error is 500. An exception propagates exactly when it is not S3Error on the object upload, or is neither SQLAlchemyError nor CeleryError after it. |
| FileService.HandleFileUpload | ocr-project/app/services/file_service.py:44-120 | The service upload leaves the world as `UploadEffect` says, for the stage the faults lead to, and answers `UploadOutcome`. |
| FileService.GetFile | ocr-project/app/services/file_service.py:123-138 | Returns details exactly when the row exists, copying id, filename, storage path, type and page count unchanged. Otherwise it fails with 404 "File with ID … not found.". |
| FileService.GetFileAsWritten | ocr-project/app/schema/files.py:14-20 | With the declared `total_pages: int`, the lookup raises a validation error exactly when the row exists without a page count. Otherwise it agrees with `GetFile`. |
| FileService.SavedFileDetailsRaiseAsWritten | ocr-project/app/schema/files.py:19 | The details of every freshly saved file raise as written, while the corrected lookup returns them with no page count. |
| PageOrder.Insert | ocr-project/app/services/file_service.py:168 | Inserting into a sorted list keeps it sorted, adds exactly that row to the multiset, and puts the row first or keeps the old first row. |
| PageOrder.SortByPage | ocr-project/app/services/file_service.py:168 | The output is in non-decreasing page-number order and is a permutation of the input. |
| PageOrder.SortKeepsRows | ocr-project/app/services/file_service.py:168 | Every input row is in the sorted output, and every output row is in the input. |
| PageOrder.InsertKeepsEquals | ocr-project/app/services/file_service.py:168 | Insertion places the new row first among its equals and moves no other row relative to its equals. |
| PageOrder.SortIsStable | ocr-project/app/services/file_service.py:168 | The sort is stable: the rows with any given page number keep their input order. |
| PageReading.ReadOne | ocr-project/app/services/file_service.py:172-184 | A row reads successfully exactly when its object exists, is a JSON object, and has a string "text" or no "text". The page number is copied. The text is "text", or "" when absent. The error is S3Error exactly for a missing object and JSONDecodeError exactly for non-JSON content. |
| PageReading.ReadPagesAllOrNothing | ocr-project/app/services/file_service.py:170-184 | The read succeeds exactly when every row reads. It then holds one entry per row, in row order, each that row's result. |
| PageReading.ReadPagesFirstError | ocr-project/app/services/file_service.py:170-196 | A failed read reports the error of the first row that cannot be read. |
| PageReading.ReadPagesErrorPersists | ocr-project/app/services/file_service.py:170-184 | Once a prefix of the rows fails, the whole read fails the same way. |
| PageReading.CollectPageResults | ocr-project/app/services/file_service.py:165-184 | The append loop returns exactly the all-or-nothing read of the rows. |
| PageReading.CompletedResultsSpec | ocr-project/app/services/file_service.py:165-204 | Results for a completed file exist exactly when every page row reads. They then have one entry per row, in non-decreasing page order, each the read of the matching sorted row. |
| FileService.ReadError | ocr-project/app/services/file_service.py:185-196 | A failed page read is a 500 exactly for a missing object ("Failed to retrieve result from storage.") and for malformed JSON ("Malformed JSON in result data."). Any other exception propagates unchanged. |
| FileService.Results | ocr-project/app/services/file_service.py:141-204 | No file or no task gives 404. Pending or processing gives the status, the file's page count and no results. Failed gives 500 "File processing failed: " + the error message. Completed gives exactly the completed results when every row reads, and otherwise the `ReadError` translation of the first failing row's error. |
| PageReading.MissingResultAbortsRead | ocr-project/app/services/file_service.py:170-189 | When, in page order, every row before a row with a missing object reads, the whole completed read fails with the storage error. |
| FileService.MissingResultIsStorageError | ocr-project/app/services/file_service.py:185-189 | In that case the service answers 500 "Failed to retrieve result from storage.", both in the corrected read and as written. |
| FileService.ResultsAsWritten | ocr-project/app/schema/files.py:28-33 | With the declared `total_pages: int`, the read raises a validation error exactly when the corrected read would return a response for a file without a page count (or itself raises one). Otherwise, and always for a file with a page count, it agrees with `Results`. |
| FileService.SavedUploadReadRaisesAsWritten | ocr-project/app/schema/files.py:32 | As written, reading the results of a freshly saved upload raises a validation error. |
| FileService.GetResults | ocr-project/app/services/file_service.py:141-204 | The service result read answers exactly `Results`. |
| FileService.SavedUploadReadsPending | ocr-project/app/services/file_service.py:150-157 | In the corrected read (optional page count), a freshly saved upload reads back as "pending" with no page count and no results. As written the read raises instead; see `SavedUploadReadRaisesAsWritten`. |
| FilesEndpoint.UploadReply | ocr-project/app/api/endpoints/files.py:50-141 | 201 with the new file and "pending" exactly when saved. 415 exactly when refused. 500 for every save failure. Only a non-S3Error object upload failure escapes. |
| FilesEndpoint.UploadFile | ocr-project/app/api/endpoints/files.py:45-141 | The endpoint upload leaves the world as `UploadEffect` says, with the same compensation as the service, and answers `UploadReply`. |
| FilesEndpoint.UploadVariantsAgree | ocr-project/app/api/endpoints/files.py:95-131 | Both upload handlers create the file in the same cases with the same body. Both answer refused types with the same 415. What the service lets escape after the object upload, the endpoint answers with 500 "Server error occurred while processing the file.". |
| FilesEndpoint.GetFileDetails | ocr-project/app/api/endpoints/files.py:144-169 | 200 exactly when the row exists, with its fields copied unchanged. Otherwise 404 with the not-found message. |
| FilesEndpoint.DetailVariantsAgree | ocr-project/app/api/endpoints/files.py:144-169 | The endpoint lookup answers what the service lookup returns, status and message included. |
| FilesEndpoint.ReadErrorReply | ocr-project/app/api/endpoints/files.py:232-256 | A failed page read is always a 500 error body: "Failed to retrieve result from storage." for a missing object, "Malformed JSON in result data." for malformed JSON, and "Server error occurred while retrieving file results." for anything else. |
| FilesEndpoint.ResultReply | ocr-project/app/api/endpoints/files.py:172-267 | No file or no task gives 404. Pending or processing gives 202 with no results. Failed gives 200 with status "failed" and no results. Completed gives 200 exactly when all rows read, with the completed results, and otherwise the `ReadErrorReply` of the first failing row's error. |
| FilesEndpoint.GetFileResult | ocr-project/app/api/endpoints/files.py:172-267 | The endpoint result read answers exactly `ResultReply`. |
| FilesEndpoint.ResultVariantsCompared | ocr-project/app/api/endpoints/files.py:172-267 | The two result reads agree on not-found answers, pending answers, results, and the storage and JSON errors. They differ in two cases. A failed task is a 500 in the service and a 200 with empty results at the endpoint. A page read that raises anything else propagates from the service and is a 500 "Server error occurred while retrieving file results." at the endpoint. |
| FilesEndpoint.MissingResultIsStorageErrorReply | ocr-project/app/api/endpoints/files.py:232-239 | A missing result object reached before any other failing row, in page order, is answered with 500 "Failed to retrieve result from storage.". |
| FilesEndpoint.GetFileDetailsAsWritten | ocr-project/app/api/endpoints/files.py:159-169 | With the declared `total_pages: int`, the detail handler raises an uncaught validation error exactly when the row exists without a page count. Otherwise it agrees with `GetFileDetails`. |
| FilesEndpoint.ResultReplyAsWritten | ocr-project/app/api/endpoints/files.py:188-267 | With the declared `total_pages: int`, the result handler raises an uncaught validation error exactly when it would answer with a result body for a file without a page count, whatever the task status. Otherwise it agrees with `ResultReply`. |
| FilesEndpoint.SavedUploadRepliesRaiseAsWritten | ocr-project/app/api/endpoints/files.py:159-198 | As written, both the details and the results of a freshly saved upload raise. The corrected handlers answer 200, and 202 with "pending" and no results. |

## Left out

- The OCR pipeline is left out. The worker `process_file` is only placeholder comments, so there is no behaviour to compare against. This covers page splitting, inference, the status moves to processing, completed or failed, and `total_pages` being set.
- `run_ocr` is left out because it is an HTTP call to an external service.
- MinIO client construction, bucket creation, settings and application wiring are left out because they are configuration and I/O.
- The task status lookup (`get_task`, `get_task_status`) is a read-through with a 404, and is not part of this model.
- The repositories and `FileStorage.upload_file` are not part of this model. Their effect is the `World` operations: staged writes that commit publishes and rollback discards, and a bucket as a set of keys.
- The model does not capture uuid generation. File and task ids are parameters.
- Timestamps (`uploaded_at`, `created_at`, `updated_at`), logging and HTTP rendering are left out.
- Paths.Suffix follows pathlib's rule as of Python 3.13 and earlier: the last '.' counts only when it is neither the first nor the last character of the final component. A later rule that treats a trailing '.' as a suffix is not modelled. It does not model pathlib's normalisation of trailing separators, repeated separators or "." components, and works on the text after the last '/'.
- Paths.Lower lower-cases ASCII letters only. Python's `str.lower` also folds non-ASCII letters, which no known extension contains.
- `file.content_type` being absent is not modelled. The content type is always a string.
- `FileHelper.is_allowed_file_type` (used by the service) and `FileService.is_allowed_file_type` from `app.services.file.file_service` (used by the endpoint, ocr-project/app/api/endpoints/files.py:30,39,50) are not part of this model. Both are taken to be membership in `ALLOWED_CONTENT_TYPES`.
- The model assumes `remove_object` during compensation does not raise. If it raised, the new exception would replace the handler's answer.
- The ORM relationships are modelled as record shapes: the file's task as one optional Task row, and `page_results` as a sequence of page rows. The shown File model declares no `page_results` relationship. The `task` backref on File would be a list, because `uselist=False` applies only to `Task.file`; it is read here as one row.
- PageReading.ReadOne treats a "text" entry that is not a string as a validation error from `PageResult`. It does not model pydantic coercion of other JSON values. Bytes that are not UTF-8 and JSON documents that are not objects are generic errors, because they raise `UnicodeDecodeError` and `AttributeError`.
- FileService.Results, FileService.SavedUploadReadsPending, FilesEndpoint.GetFileDetails and FilesEndpoint.ResultReply describe the corrected handlers, with an optional page count. The handlers as written are `FileService.ResultsAsWritten`, `FilesEndpoint.GetFileDetailsAsWritten` and `FilesEndpoint.ResultReplyAsWritten` (see "## Findings").
- The as-written members model only the page-count defect. Reading `file.task` as a list would also break the status check; that is left out with the ORM shapes above.

## Findings

| source | as written | input that shows it | evidently intended | confidence | as-written member | corrected member |
|---|---|---|---|---|---|---|
| ocr-project/app/schema/files.py:19 | `FileDetailResponse.total_pages` is a required `int`, but the column is nullable (ocr-project/app/models/file.py:13) and no upload sets it, so building the detail response raises a validation error | the details of any file just saved by an upload, whose page count is `None` | an optional page count (`int \| None`) copied from the row | not executed | FileService.GetFileAsWritten (shown by FileService.SavedFileDetailsRaiseAsWritten) | FileService.GetFile |
| ocr-project/app/schema/files.py:32 | `FileResultResponse.total_pages` is also a required `int`, so the pending, processing and completed answers of the result read raise a validation error for a file whose page count is unset | the results of any file just saved by an upload, whose task is pending and whose page count is `None` | an optional page count copied from the row | not executed | FileService.ResultsAsWritten (shown by FileService.SavedUploadReadRaisesAsWritten) | FileService.Results |
| ocr-project/app/api/endpoints/files.py:159-169 | the detail handler builds the same `FileDetailResponse` outside any `try`, so a row without a page count makes the request fail with an uncaught validation error | the details of any file just saved by an upload | a 200 with the page count as `null` | not executed | FilesEndpoint.GetFileDetailsAsWritten (shown by FilesEndpoint.SavedUploadRepliesRaiseAsWritten) | FilesEndpoint.GetFileDetails |
| ocr-project/app/api/endpoints/files.py:189-210 | the result handler builds `FileResultResponse` outside any `try` for pending, processing, failed and completed tasks, so each of them fails with an uncaught validation error for a file without a page count | the results of any file just saved by an upload | a 202 with status "pending", the page count as `null` and no results | not executed | FilesEndpoint.ResultReplyAsWritten (shown by FilesEndpoint.SavedUploadRepliesRaiseAsWritten) | FilesEndpoint.ResultReply |
