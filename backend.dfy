/** The world an upload acts on: the file-storage bucket, the database
    session (rows staged in it and rows committed), and the broker queue of
    processing messages. Every operation that can fail takes the failure as
    an input: `fault` is the exception the collaborator raises, if any. */
module Backend {
  import opened Records

  /** A snapshot of the world. */
  datatype WorldState = WorldState(
    bucket: set<string>,
    stagedFiles: map<string, FileRow>,
    stagedTasks: map<string, TaskRow>,
    files: map<string, FileRow>,
    tasks: map<string, TaskRow>,
    queue: seq<string>)

  /** No row is waiting in the session: the state between two requests. */
  predicate NothingStaged(s: WorldState)
  {
    s.stagedFiles == map[] && s.stagedTasks == map[]
  }

  class World {
    /** Keys of the objects in the file-storage bucket. */
    var bucket: set<string>
    /** Rows added to the session and not yet committed, by id. */
    var stagedFiles: map<string, FileRow>
    var stagedTasks: map<string, TaskRow>
    /** Committed rows, by id. */
    var files: map<string, FileRow>
    var tasks: map<string, TaskRow>
    /** Task ids sent to the processing worker, oldest first. */
    var queue: seq<string>

    ghost function State(): WorldState
      reads this
    {
      WorldState(bucket, stagedFiles, stagedTasks, files, tasks, queue)
    }

    ghost predicate Idle()
      reads this
    {
      NothingStaged(State())
    }

    constructor ()
      ensures State() == WorldState({}, map[], map[], map[], map[], [])
    {
      bucket, stagedFiles, stagedTasks := {}, map[], map[];
      files, tasks, queue := map[], map[], [];
    }

    /** Stores an object under `key`; a failed upload stores nothing. */
    method PutObject(key: string, fault: Option<ErrorKind>) returns (err: Option<ErrorKind>)
      modifies this
      ensures err == fault
      ensures State() == if fault.None? then old(State()).(bucket := old(bucket) + {key}) else old(State())
    {
      err := fault;
      if fault.None? {
        bucket := bucket + {key};
      }
    }

    /** Removes the object under `key`, if there is one. */
    method RemoveObject(key: string)
      modifies this
      ensures State() == old(State()).(bucket := old(bucket) - {key})
    {
      bucket := bucket - {key};
    }

    /** Adds a File row to the session. */
    method AddFile(row: FileRow, fault: Option<ErrorKind>) returns (err: Option<ErrorKind>)
      modifies this
      ensures err == fault
      ensures State() ==
        if fault.None? then old(State()).(stagedFiles := old(stagedFiles)[row.id := row]) else old(State())
    {
      err := fault;
      if fault.None? {
        stagedFiles := stagedFiles[row.id := row];
      }
    }

    /** Adds a Task row to the session. */
    method AddTask(row: TaskRow, fault: Option<ErrorKind>) returns (err: Option<ErrorKind>)
      modifies this
      ensures err == fault
      ensures State() ==
        if fault.None? then old(State()).(stagedTasks := old(stagedTasks)[row.id := row]) else old(State())
    {
      err := fault;
      if fault.None? {
        stagedTasks := stagedTasks[row.id := row];
      }
    }

    /** Sends a processing message for `taskId` to the broker. */
    method Delay(taskId: string, fault: Option<ErrorKind>) returns (err: Option<ErrorKind>)
      modifies this
      ensures err == fault
      ensures State() ==
        if fault.None? then old(State()).(queue := old(queue) + [taskId]) else old(State())
    {
      err := fault;
      if fault.None? {
        queue := queue + [taskId];
      }
    }

    /** Publishes the staged rows; a failed commit publishes nothing and
        leaves them staged. */
    method Commit(fault: Option<ErrorKind>) returns (err: Option<ErrorKind>)
      modifies this
      ensures err == fault
      ensures State() ==
        if fault.None? then
          old(State()).(files := old(files) + old(stagedFiles), tasks := old(tasks) + old(stagedTasks),
                        stagedFiles := map[], stagedTasks := map[])
        else old(State())
    {
      err := fault;
      if fault.None? {
        files, tasks := files + stagedFiles, tasks + stagedTasks;
        stagedFiles, stagedTasks := map[], map[];
      }
    }

    /** Reloads a row from the database; it changes nothing. */
    method Refresh(fault: Option<ErrorKind>) returns (err: Option<ErrorKind>)
      ensures err == fault
    {
      err := fault;
    }

    /** Discards the staged rows. */
    method Rollback()
      modifies this
      ensures State() == old(State()).(stagedFiles := map[], stagedTasks := map[])
    {
      stagedFiles, stagedTasks := map[], map[];
    }
  }
}
