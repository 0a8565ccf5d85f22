/** What an upload does to the world, independently of how the service and
    the endpoint report it. The steps, in order: check the declared content
    type, build the storage key, upload the object, stage the File row and a
    pending Task row, send the task id to the worker, commit, reload the
    task. A failure after the object upload rolls the session back and
    removes the object again. */
module Intake {
  import opened Records
  import opened Paths
  import opened ContentTypes
  import opened Backend

  /** An uploaded file as the request carries it. */
  datatype Upload = Upload(filename: string, contentType: string)

  /** The steps after the object upload that can raise. */
  datatype Step = AddFileRow | AddTaskRow | Enqueue | Commit | Refresh

  /** The exception each collaborator raises, if any, in the order the steps
      run: object upload, File row, Task row, message, commit, reload. */
  datatype Faults = Faults(
    upload: Option<ErrorKind>,
    addFile: Option<ErrorKind>,
    addTask: Option<ErrorKind>,
    enqueue: Option<ErrorKind>,
    commit: Option<ErrorKind>,
    refresh: Option<ErrorKind>)

  /** How far an upload got. */
  datatype Stage =
    | Rejected
    | UploadFailed(kind: ErrorKind)
    | SaveFailed(step: Step, kind: ErrorKind)
    | Saved

  function RejectionMessage(contentType: string): string
  {
    "File type '" + contentType + "' is not allowed. Please upload a PDF, PNG, or JPG."
  }

  /** The object key: the file id followed by the extension of the uploaded
      file name, so the key is the bare id when the name has none. */
  function StorageKey(fileId: string, filename: string): (key: string)
    ensures |fileId| <= |key| && key[..|fileId|] == fileId
    ensures key[|fileId|..] == Suffix(filename)
    ensures '.' !in BaseName(filename) ==> key == fileId
  {
    fileId + Suffix(filename)
  }

  /** The File row an upload stages: no page count yet. */
  function SavedFile(fileId: string, u: Upload): FileRow
  {
    FileRow(fileId, u.filename, StorageKey(fileId, u.filename), u.contentType, None)
  }

  /** The Task row an upload stages. */
  function SavedTask(taskId: string, fileId: string): TaskRow
  {
    TaskRow(taskId, fileId, Pending, None)
  }

  /** The first step after the object upload that raises, with its
      exception. */
  function FirstSaveFault(f: Faults): (r: Option<(Step, ErrorKind)>)
    ensures r.None? <==>
      f.addFile.None? && f.addTask.None? && f.enqueue.None? && f.commit.None? && f.refresh.None?
  {
    if f.addFile.Some? then Some((AddFileRow, f.addFile.value))
    else if f.addTask.Some? then Some((AddTaskRow, f.addTask.value))
    else if f.enqueue.Some? then Some((Enqueue, f.enqueue.value))
    else if f.commit.Some? then Some((Commit, f.commit.value))
    else if f.refresh.Some? then Some((Refresh, f.refresh.value))
    else None
  }

  /** How far an upload of `u` gets under the faults `f`. A content type
      outside the allow-list stops it before anything else. */
  function StageOf(u: Upload, f: Faults): (st: Stage)
    ensures st.Rejected? <==> u.contentType !in AllowedContentTypes
    ensures st.Saved? <==>
      u.contentType in AllowedContentTypes && f.upload.None? && FirstSaveFault(f).None?
  {
    if u.contentType !in AllowedContentTypes then Rejected
    else if f.upload.Some? then UploadFailed(f.upload.value)
    else match FirstSaveFault(f)
      case Some((step, kind)) => SaveFailed(step, kind)
      case None => Saved
  }

  /** The message for the task reaches the broker exactly when the enqueue
      step ran and succeeded: a failing commit or reload cannot take it
      back. */
  predicate MessageSent(st: Stage)
  {
    st.Saved? || (st.SaveFailed? && (st.step == Commit || st.step == Refresh))
  }

  /** The world after an upload. Nothing staged is left behind; a failed
      upload leaves no new object in the bucket and, unless only the reload
      after the commit failed, no new rows; the queue gains at most the one
      task id, and gains it exactly when the message was sent; a saved upload
      has one File row under the new id, one pending Task row for it and its
      object in the bucket. */
  function UploadEffect(s: WorldState, u: Upload, fileId: string, taskId: string, st: Stage): (t: WorldState)
    requires NothingStaged(s)
    ensures NothingStaged(t)
    ensures !st.Saved? ==> t.bucket <= s.bucket
    ensures st.SaveFailed? ==> StorageKey(fileId, u.filename) !in t.bucket
    ensures st.Rejected? || st.UploadFailed? ==> t == s
    ensures !st.Saved? && !(st.SaveFailed? && st.step == Refresh) ==> t.files == s.files && t.tasks == s.tasks
    ensures t.queue == (if MessageSent(st) then s.queue + [taskId] else s.queue)
    ensures st.Saved? ==>
      && StorageKey(fileId, u.filename) in t.bucket
      && t.files == s.files[fileId := SavedFile(fileId, u)]
      && t.tasks == s.tasks[taskId := SavedTask(taskId, fileId)]
  {
    var key := StorageKey(fileId, u.filename);
    var committed := s.(files := s.files[fileId := SavedFile(fileId, u)],
                        tasks := s.tasks[taskId := SavedTask(taskId, fileId)]);
    match st
    case Rejected => s
    case UploadFailed(_) => s
    case Saved => committed.(bucket := s.bucket + {key}, queue := s.queue + [taskId])
    case SaveFailed(step, _) =>
      var rows := if step == Refresh then committed else s;
      rows.(bucket := s.bucket - {key},
            queue := if step == Commit || step == Refresh then s.queue + [taskId] else s.queue)
  }

  /** The body of the save block shared by both upload handlers: stage the
      File row and the Task row, send the task id, commit, reload. It stops
      at the first step that raises and reports that step; the bucket is
      untouched, the message is out once the enqueue step succeeded, and
      rows are committed once the commit succeeded. */
  method SaveRows(w: World, fileRow: FileRow, taskRow: TaskRow, f: Faults)
    returns (failure: Option<(Step, ErrorKind)>)
    requires w.Idle()
    modifies w
    ensures failure == FirstSaveFault(f)
    ensures w.bucket == old(w.bucket)
    ensures w.queue ==
      if failure.None? || failure.value.0 == Commit || failure.value.0 == Refresh
      then old(w.queue) + [taskRow.id] else old(w.queue)
    ensures failure.None? || failure.value.0 == Refresh ==>
      && w.Idle()
      && w.files == old(w.files)[fileRow.id := fileRow]
      && w.tasks == old(w.tasks)[taskRow.id := taskRow]
    ensures failure.Some? && failure.value.0 != Refresh ==>
      w.files == old(w.files) && w.tasks == old(w.tasks)
  {
    var err := w.AddFile(fileRow, f.addFile);
    if err.Some? {
      return Some((AddFileRow, err.value));
    }
    err := w.AddTask(taskRow, f.addTask);
    if err.Some? {
      return Some((AddTaskRow, err.value));
    }
    err := w.Delay(taskRow.id, f.enqueue);
    if err.Some? {
      return Some((Enqueue, err.value));
    }
    err := w.Commit(f.commit);
    if err.Some? {
      return Some((Commit, err.value));
    }
    err := w.Refresh(f.refresh);
    if err.Some? {
      return Some((Refresh, err.value));
    }
    return None;
  }

  /** The save block with its compensation, as both upload handlers run it
      once the object is stored: on any failure, roll the session back and
      remove the object. `before` is the world before the object upload. */
  method SaveOrCompensate(w: World, ghost before: WorldState, u: Upload, fileId: string, taskId: string, f: Faults)
    returns (failure: Option<(Step, ErrorKind)>)
    requires NothingStaged(before)
    requires u.contentType in AllowedContentTypes && f.upload.None?
    requires w.State() == before.(bucket := before.bucket + {StorageKey(fileId, u.filename)})
    modifies w
    ensures failure == FirstSaveFault(f)
    ensures w.State() == UploadEffect(before, u, fileId, taskId, StageOf(u, f))
  {
    var key := StorageKey(fileId, u.filename);
    var fileRow := SavedFile(fileId, u);
    failure := SaveRows(w, fileRow, SavedTask(taskId, fileRow.id), f);
    if failure.Some? {
      w.Rollback();
      w.RemoveObject(key);
      assert StageOf(u, f) == SaveFailed(failure.value.0, failure.value.1);
    } else {
      assert StageOf(u, f) == Saved;
    }
  }

  /** When the commit fails after the message was sent, the worker is asked
      to process a task that was never stored. */
  lemma CommitFailureStrandsMessage(s: WorldState, u: Upload, fileId: string, taskId: string, f: Faults)
    requires NothingStaged(s) && taskId !in s.tasks
    requires StageOf(u, f).SaveFailed? && StageOf(u, f).step == Commit
    ensures taskId in UploadEffect(s, u, fileId, taskId, StageOf(u, f)).queue
    ensures taskId !in UploadEffect(s, u, fileId, taskId, StageOf(u, f)).tasks
  {
  }

  /** When only the reload after the commit fails, the File row stays
      committed while its object is removed. */
  lemma RefreshFailureStrandsRow(s: WorldState, u: Upload, fileId: string, taskId: string, f: Faults)
    requires NothingStaged(s)
    requires StageOf(u, f).SaveFailed? && StageOf(u, f).step == Refresh
    ensures var t := UploadEffect(s, u, fileId, taskId, StageOf(u, f));
      fileId in t.files && t.files[fileId].storagePath !in t.bucket
  {
  }

  /** A file whose content type the upload client chose from its extension
      is turned away exactly when that extension is not one of the known
      ones, which is exactly when the client fell back to
      "application/octet-stream". */
  lemma ClientTypeRejectedIffUnknown(filename: string, f: Faults)
    ensures StageOf(Upload(filename, ContentTypeOf(filename)), f).Rejected?
      <==> Lower(Suffix(filename)) !in KnownExtensions
    ensures StageOf(Upload(filename, ContentTypeOf(filename)), f).Rejected?
      <==> ContentTypeOf(filename) == OctetStream
  {
  }
}
