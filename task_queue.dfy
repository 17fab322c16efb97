/** The background task queue of services/task_queue.py, as a sequential
    state machine.  The two `queue.Queue`s are sequences (the inbox of
    pending tasks and the outbox of completed results), `running` and the
    worker list are fields, and one iteration of a worker thread's loop is
    one call of `WorkerStep`.

    What a task does to the database is specified by pure functions over a
    snapshot of the tables (`VideoTask`, `BatchTask`, `RunTask`); the
    methods that perform the row operations one by one are proved to have
    exactly that effect. */
module Tasks {
  import opened Common
  import opened Text
  import opened Catalog
  import VideoProcessor

  const StopKind: string := "stop"
  const VideoKind: string := "process_video"
  const BatchKind: string := "batch_process"
  const CleanupKind: string := "cleanup"

  /** The default of `TaskQueue(max_workers=2)`. */
  const DefaultMaxWorkers: nat := 2

  /** The dictionary a task carries.  The three shapes are those built by
      `add_video_processing_task`, `add_batch_processing_task` and
      `add_cleanup_task`; `NoData` is the `None` of a stop sentinel. */
  datatype TaskData =
    | VideoData(videoId: VideoId)
    | BatchData(videoIds: seq<VideoId>)
    | CleanupData(cleanupType: Option<string>)
    | NoData

  /** A `(task_type, task_data, task_id)` tuple of the inbox. */
  datatype Task = Task(kind: string, data: TaskData, id: Option<string>)

  /** The `('stop', None, None)` put by `stop`. */
  const Sentinel: Task := Task(StopKind, NoData, None)

  /** The exception that ends a task. */
  datatype TaskError =
    | UnknownTaskType(kind: string)
    | MissingField
    | VideoNotFound(videoId: VideoId)
    | AnalysisFailed(fault: VideoProcessor.Fault)

  /** The dictionary `_process_video_task` returns. */
  datatype VideoOutcome = VideoOutcome(success: bool, faces: AnalysisBlob, videoId: VideoId)

  /** One entry of a batch's `results`: `success` is `Processed?`. */
  datatype BatchEntry =
    | Processed(videoId: VideoId, outcome: VideoOutcome)
    | Failed(videoId: VideoId, error: TaskError)

  datatype CleanupOutcome =
    | CleanedNotifications
    | CleanedFiles(count: nat)
    | CleanupCompleted(cleanupType: string)

  /** What `_process_task` returns, by task type. */
  datatype TaskResult =
    | VideoResult(video: VideoOutcome)
    | BatchResult(total: nat, successful: nat, failed: int, results: seq<BatchEntry>)
    | CleanupResult(cleanup: CleanupOutcome)

  /** An entry of the outbox (the `completed_at` clock value is not modelled). */
  datatype Completed = Completed(taskId: Option<string>, taskType: string, result: TaskResult)

  /** The dictionary of `get_queue_status`. */
  datatype Status = Status(running: bool, workers: nat, pendingTasks: nat, completedResults: nat)

  /** How one iteration of a worker's loop ends. */
  datatype StepOutcome =
    | Exited            // `while self.running` is false: the thread ends
    | Idle              // `queue.Empty` after the timeout: `continue`
    | Terminated        // a stop task: `break`
    | Finished          // a result was put in the outbox
    | Dropped(error: TaskError)  // the run raised: an error notification

  // ---------------------------------------------------------------------
  // Task ids and worker names

  /** `f"{task_type}_{int(time.time() * 1000)}"`; the clock reading is a
      parameter. */
  function TaskId(kind: string, millis: nat): string
  {
    kind + "_" + NatToString(millis)
  }

  /** The id starts with the type of task and its part after the last `_` is
      the clock reading, whatever underscores the type holds; so two ids of
      one type differ exactly when their readings do. */
  lemma TaskIdParts(kind: string, millis: nat, millis': nat)
    ensures TaskId(kind, millis)[..|kind| + 1] == kind + "_"
    ensures AfterLast(TaskId(kind, millis), '_') == Some(NatToString(millis))
    ensures ParseNat(AfterLast(TaskId(kind, millis), '_').value) == millis
    ensures TaskId(kind, millis) == TaskId(kind, millis') <==> millis == millis'
  {
    var digits := NatToString(millis);
    assert forall i :: 0 <= i < |digits| ==> digits[i] != '_';
    AfterLastOf(kind, '_', digits);
    NatToStringRoundTrip(millis);
    NatToStringInjective(millis, millis');
    if TaskId(kind, millis) == TaskId(kind, millis') {
      assert TaskId(kind, millis)[|kind| + 1..] == digits;
      assert TaskId(kind, millis')[|kind| + 1..] == NatToString(millis');
    }
  }

  /** `f'TaskWorker-{i}'`. */
  function WorkerName(i: nat): string
  {
    "TaskWorker-" + NatToString(i)
  }

  /** The names of the threads one `start` creates, in creation order. */
  function WorkerNames(n: nat): (names: seq<string>)
    ensures |names| == n && forall i :: 0 <= i < n ==> names[i] == WorkerName(i)
  {
    seq(n, i requires 0 <= i => WorkerName(i))
  }

  /** The threads one `start` creates have pairwise distinct names. */
  lemma WorkerNamesDistinct(n: nat)
    ensures forall i, j :: 0 <= i < j < n ==> WorkerNames(n)[i] != WorkerNames(n)[j]
  {
    forall i, j | 0 <= i < j < n
      ensures WorkerNames(n)[i] != WorkerNames(n)[j]
    {
      NatToStringInjective(i, j);
      assert WorkerName(i)[11..] == NatToString(i);
      assert WorkerName(j)[11..] == NatToString(j);
    }
  }

  /** The `n` stop tasks `stop` puts. */
  function Sentinels(n: nat): (s: seq<Task>)
    ensures |s| == n && forall i :: 0 <= i < n ==> s[i] == Sentinel
  {
    seq(n, _ => Sentinel)
  }

  /** No stop task is pending. */
  predicate NoStops(tasks: seq<Task>)
  {
    forall i :: 0 <= i < |tasks| ==> tasks[i].kind != StopKind
  }

  /** The pending tasks other than stop tasks, in their order. */
  function WithoutStops(tasks: seq<Task>): (r: seq<Task>)
    ensures NoStops(r)
    ensures forall t :: t in r <==> t in tasks && t.kind != StopKind
  {
    if tasks == [] then []
    else WithoutStops(tasks[..|tasks| - 1]) + (if tasks[|tasks| - 1].kind != StopKind then [tasks[|tasks| - 1]] else [])
  }

  /** Discarding stop tasks keeps the queue order of what remains and
      changes nothing in a queue that holds none. */
  lemma {:induction false} WithoutStopsConcat(a: seq<Task>, b: seq<Task>)
    ensures WithoutStops(a + b) == WithoutStops(a) + WithoutStops(b)
  {
    if b != [] {
      assert (a + b)[..|a + b| - 1] == a + b[..|b| - 1];
      WithoutStopsConcat(a, b[..|b| - 1]);
    } else {
      assert a + b == a;
    }
  }

  lemma {:induction false} WithoutStopsNone(a: seq<Task>)
    requires NoStops(a)
    ensures WithoutStops(a) == a
  {
    if a != [] {
      var q, last := a[..|a| - 1], a[|a| - 1];
      assert NoStops(q) by {
        forall i | 0 <= i < |q|
          ensures q[i].kind != StopKind
        {
          assert q[i] == a[i];
        }
      }
      WithoutStopsNone(q);
      assert last.kind != StopKind;
      SnocSplit(a);
    }
  }

  // ---------------------------------------------------------------------
  // What a task does to the tables

  function Noted(db: Tables, level: Level, title: string): Tables
  {
    db.(notifications := db.notifications + [Notice(level, title)])
  }

  /** `_process_video_task` for an id: the start notice, then the lookup,
      then `process_video` and a notice that depends on whether anything
      was found. */
  function VideoTask(db: Tables, media: VideoProcessor.Media, videoId: VideoId): (Result<VideoOutcome, TaskError>, Tables)
  {
    var started := Noted(db, LevelInfo, "Procesamiento iniciado");
    if videoId !in db.videos then (Failure(VideoNotFound(videoId)), started)
    else match VideoProcessor.Job(db.persons, media, db.videos[videoId].filePath) {
      case Failure(f) => (Failure(AnalysisFailed(f)), started)
      case Success(apps) =>
        var blob := VideoProcessor.ResultBlob(db.persons, apps);
        var saved := started.(
          appearances := ReplaceAppearances(db.appearances, videoId, apps),
          videos := MarkProcessed(db.videos, videoId, blob));
        if blob != map[] then (Success(VideoOutcome(true, blob, videoId)), Noted(saved, LevelSuccess, "Video procesado"))
        else (Success(VideoOutcome(false, map[], videoId)), Noted(saved, LevelError, "Error en procesamiento"))
    }
  }

  /** A video task adds one start notice and, when the analysis completes,
      one closing notice: success exactly when some person was found.  A
      missing video or a failed analysis leaves every other table as it
      was; a completed one replaces the video's rows and marks it
      processed.  Persons are never touched. */
  lemma VideoTaskEffect(db: Tables, media: VideoProcessor.Media, videoId: VideoId)
    ensures var (r, db') := VideoTask(db, media, videoId);
      && db'.persons == db.persons
      && db'.notifications[..|db.notifications| + 1] == db.notifications + [Notice(LevelInfo, "Procesamiento iniciado")]
      && (r.Failure? ==>
            && db'.notifications == db.notifications + [Notice(LevelInfo, "Procesamiento iniciado")]
            && db'.videos == db.videos && db'.appearances == db.appearances
            && (videoId !in db.videos <==> r.error == VideoNotFound(videoId)))
      && (r.Success? ==>
            && videoId in db.videos
            && r.value.videoId == videoId
            && (r.value.success <==> r.value.faces != map[])
            && db'.videos[videoId].processed && db'.videos[videoId].analysis == Some(r.value.faces)
            && |db'.notifications| == |db.notifications| + 2
            && db'.notifications[|db.notifications| + 1]
               == (if r.value.success then Notice(LevelSuccess, "Video procesado") else Notice(LevelError, "Error en procesamiento")))
  {
  }

  /** The dictionary entry for one video of a batch. */
  function Entry(videoId: VideoId, r: Result<VideoOutcome, TaskError>): BatchEntry
  {
    match r {
      case Success(o) => Processed(videoId, o)
      case Failure(e) => Failed(videoId, e)
    }
  }

  /** The loop of `_process_batch_task`: every id in turn, an exception
      recorded and the loop continued. */
  function BatchRun(db: Tables, media: VideoProcessor.Media, ids: seq<VideoId>): (seq<BatchEntry>, Tables)
  {
    if ids == [] then ([], db)
    else
      var (entries, mid) := BatchRun(db, media, ids[..|ids| - 1]);
      var (r, after) := VideoTask(mid, media, ids[|ids| - 1]);
      (entries + [Entry(ids[|ids| - 1], r)], after)
  }

  /** `len([r for r in results if r['success']])`. */
  function CountSuccessful(entries: seq<BatchEntry>): (n: nat)
    ensures n <= |entries|
  {
    if entries == [] then 0
    else CountSuccessful(entries[..|entries| - 1]) + (if entries[|entries| - 1].Processed? then 1 else 0)
  }

  /** `_process_batch_task`. */
  function BatchTask(db: Tables, media: VideoProcessor.Media, ids: seq<VideoId>): (TaskResult, Tables)
  {
    var started := Noted(db, LevelInfo, "Procesamiento en lote iniciado");
    var (entries, ran) := BatchRun(started, media, ids);
    var successful := CountSuccessful(entries);
    var failed := |entries| - successful;
    (BatchResult(|ids|, successful, failed, entries),
     Noted(ran, if failed == 0 then LevelSuccess else LevelWarning, "Procesamiento en lote completado"))
  }

  /** A video task keeps the persons and only appends notices. */
  lemma VideoTaskKeeps(db: Tables, media: VideoProcessor.Media, videoId: VideoId)
    ensures var db' := VideoTask(db, media, videoId).1;
      && db'.persons == db.persons
      && |db'.notifications| >= |db.notifications|
      && db'.notifications[..|db.notifications|] == db.notifications
  {
    VideoTaskEffect(db, media, videoId);
    var db' := VideoTask(db, media, videoId).1;
    var n := Notice(LevelInfo, "Procesamiento iniciado");
    PrefixTransitive(db.notifications, db.notifications + [n], db'.notifications);
  }

  /** One entry per id, in order, whatever fails; earlier notices are kept
      and persons are never touched. */
  lemma {:induction false} BatchRunShape(db: Tables, media: VideoProcessor.Media, ids: seq<VideoId>)
    ensures var (entries, db') := BatchRun(db, media, ids);
      && |entries| == |ids|
      && (forall i :: 0 <= i < |ids| ==> entries[i].videoId == ids[i])
      && db'.persons == db.persons
      && |db'.notifications| >= |db.notifications|
      && db'.notifications[..|db.notifications|] == db.notifications
  {
    if ids != [] {
      var q := ids[..|ids| - 1];
      BatchRunShape(db, media, q);
      var (entries, mid) := BatchRun(db, media, q);
      VideoTaskKeeps(mid, media, ids[|ids| - 1]);
      var after := VideoTask(mid, media, ids[|ids| - 1]).1;
      PrefixTransitive(db.notifications, mid.notifications, after.notifications);
    }
  }

  /** The batch accounting: `total` is the number of ids, there is one
      result per id in order, `successful + failed == total`, and the
      closing notice is a success exactly when nothing failed; the batch
      notices open and close the run. */
  lemma BatchAccounting(db: Tables, media: VideoProcessor.Media, ids: seq<VideoId>)
    ensures var (res, db') := BatchTask(db, media, ids);
      && res.BatchResult?
      && res.total == |ids| == |res.results|
      && 0 <= res.failed && res.successful + res.failed == res.total
      && (forall i :: 0 <= i < |ids| ==> res.results[i].videoId == ids[i])
      && db'.persons == db.persons
      && |db'.notifications| >= |db.notifications| + 2
      && db'.notifications[..|db.notifications| + 1] == db.notifications + [Notice(LevelInfo, "Procesamiento en lote iniciado")]
      && db'.notifications[|db'.notifications| - 1]
         == Notice(if res.failed == 0 then LevelSuccess else LevelWarning, "Procesamiento en lote completado")
  {
    var started := Noted(db, LevelInfo, "Procesamiento en lote iniciado");
    BatchRunShape(started, media, ids);
    var (entries, ran) := BatchRun(started, media, ids);
    assert ran.notifications[..|db.notifications| + 1] == started.notifications;
  }

  /** `successful` counts exactly the processed entries, so `failed` counts
      the others. */
  lemma {:induction false} CountSuccessfulFailed(entries: seq<BatchEntry>)
    ensures CountSuccessful(entries) == |entries| <==> forall i :: 0 <= i < |entries| ==> entries[i].Processed?
    ensures CountSuccessful(entries) == 0 <==> forall i :: 0 <= i < |entries| ==> entries[i].Failed?
  {
    if entries != [] {
      var q := entries[..|entries| - 1];
      CountSuccessfulFailed(q);
      assert forall i :: 0 <= i < |q| ==> q[i] == entries[i];
    }
  }

  /** `_process_cleanup_task`: the type defaults to `general`; removing old
      notifications and temporary files are effects outside the model, the
      number of files removed is a parameter. */
  function CleanupTask(data: TaskData, removed: nat): (r: Result<CleanupOutcome, TaskError>)
    ensures data.NoData? <==> r.Failure?
    ensures r.Success? && r.value.CleanupCompleted? ==>
      r.value.cleanupType != "notifications" && r.value.cleanupType != "temp_files"
    ensures (data.VideoData? || data.BatchData? || data == CleanupData(None)) ==> r == Success(CleanupCompleted("general"))
    ensures data == CleanupData(Some("notifications")) ==> r == Success(CleanedNotifications)
    ensures data == CleanupData(Some("temp_files")) ==> r == Success(CleanedFiles(removed))
    ensures forall k :: data == CleanupData(Some(k)) && k != "notifications" && k != "temp_files" ==>
              r == Success(CleanupCompleted(k))
  {
    if data.NoData? then Failure(MissingField)
    else
      var kind := if data.CleanupData? && data.cleanupType.Some? then data.cleanupType.value else "general";
      if kind == "notifications" then Success(CleanedNotifications)
      else if kind == "temp_files" then Success(CleanedFiles(removed))
      else Success(CleanupCompleted(kind))
  }

  /** `_process_task`: dispatch on the type of task. */
  function RunTask(db: Tables, media: VideoProcessor.Media, removed: nat, task: Task): (Result<TaskResult, TaskError>, Tables)
  {
    if task.kind == VideoKind then
      if !task.data.VideoData? then (Failure(MissingField), db)
      else
        var (r, db') := VideoTask(db, media, task.data.videoId);
        (match r { case Success(o) => Success(VideoResult(o)) case Failure(e) => Failure(e) }, db')
    else if task.kind == BatchKind then
      if !task.data.BatchData? then (Failure(MissingField), db)
      else
        var (res, db') := BatchTask(db, media, task.data.videoIds);
        (Success(res), db')
    else if task.kind == CleanupKind then
      match CleanupTask(task.data, removed) {
        case Success(c) => (Success(CleanupResult(c)), db)
        case Failure(e) => (Failure(e), db)
      }
    else (Failure(UnknownTaskType(task.kind)), db)
  }

  /** Only the three known task types can succeed; any other type fails
      without touching the tables.  A batch never fails, and what succeeds
      has the shape of its type. */
  lemma RunTaskKinds(db: Tables, media: VideoProcessor.Media, removed: nat, task: Task)
    ensures var (r, db') := RunTask(db, media, removed, task);
      && (task.kind != VideoKind && task.kind != BatchKind && task.kind != CleanupKind ==>
            r == Failure(UnknownTaskType(task.kind)) && db' == db)
      && (task.kind == BatchKind && task.data.BatchData? ==> r.Success? && r.value.BatchResult?)
      && (r.Success? && task.kind == VideoKind ==> r.value.VideoResult? && r.value.video.videoId == task.data.videoId)
      && (task.kind == CleanupKind ==> db' == db)
      && db'.persons == db.persons
  {
    if task.kind == VideoKind && task.data.VideoData? {
      VideoTaskEffect(db, media, task.data.videoId);
    } else if task.kind == BatchKind && task.data.BatchData? {
      BatchAccounting(db, media, task.data.videoIds);
    }
  }

  // ---------------------------------------------------------------------
  // The bodies of the three kinds of task, performed on the store

  /** `_process_video_task`. */
  method ProcessVideoTask(store: Store, media: VideoProcessor.Media, videoId: VideoId)
    returns (r: Result<VideoOutcome, TaskError>)
    modifies store
    ensures (r, store.Snapshot()) == VideoTask(old(store.Snapshot()), media, videoId)
  {
    ghost var db := store.Snapshot();
    store.Notify(LevelInfo, "Procesamiento iniciado");
    if videoId !in store.videos {
      return Failure(VideoNotFound(videoId));
    }
    var video := store.videos[videoId];
    var result := VideoProcessor.ProcessVideo(store, media, videoId, video.filePath);
    if result.Failure? {
      return Failure(AnalysisFailed(result.error));
    }
    if result.value != map[] {
      store.Notify(LevelSuccess, "Video procesado");
      r := Success(VideoOutcome(true, result.value, videoId));
    } else {
      store.Notify(LevelError, "Error en procesamiento");
      r := Success(VideoOutcome(false, map[], videoId));
    }
  }

  lemma BatchRunStep(db: Tables, media: VideoProcessor.Media, ids: seq<VideoId>, i: nat)
    requires i < |ids|
    ensures BatchRun(db, media, ids[..i + 1])
      == var (entries, mid) := BatchRun(db, media, ids[..i]);
         var (r, after) := VideoTask(mid, media, ids[i]);
         (entries + [Entry(ids[i], r)], after)
  {
    assert ids[..i + 1][..i] == ids[..i];
  }

  /** `_process_batch_task`. */
  method ProcessBatchTask(store: Store, media: VideoProcessor.Media, ids: seq<VideoId>)
    returns (res: TaskResult)
    modifies store
    ensures (res, store.Snapshot()) == BatchTask(old(store.Snapshot()), media, ids)
  {
    store.Notify(LevelInfo, "Procesamiento en lote iniciado");
    ghost var started := store.Snapshot();
    var results: seq<BatchEntry> := [];
    for i := 0 to |ids|
      invariant (results, store.Snapshot()) == BatchRun(started, media, ids[..i])
    {
      BatchRunStep(started, media, ids, i);
      var r := ProcessVideoTask(store, media, ids[i]);
      results := results + [Entry(ids[i], r)];
    }
    assert ids[..|ids|] == ids;
    var successful := CountSuccessful(results);
    var failed := |results| - successful;
    store.Notify(if failed == 0 then LevelSuccess else LevelWarning, "Procesamiento en lote completado");
    res := BatchResult(|ids|, successful, failed, results);
  }

  /** `_process_task`. */
  method ProcessTask(store: Store, media: VideoProcessor.Media, removed: nat, task: Task)
    returns (r: Result<TaskResult, TaskError>)
    modifies store
    ensures (r, store.Snapshot()) == RunTask(old(store.Snapshot()), media, removed, task)
  {
    if task.kind == VideoKind {
      if !task.data.VideoData? {
        return Failure(MissingField);
      }
      var v := ProcessVideoTask(store, media, task.data.videoId);
      r := match v { case Success(o) => Success(VideoResult(o)) case Failure(e) => Failure(e) };
    } else if task.kind == BatchKind {
      if !task.data.BatchData? {
        return Failure(MissingField);
      }
      var b := ProcessBatchTask(store, media, task.data.videoIds);
      r := Success(b);
    } else if task.kind == CleanupKind {
      var c := CleanupTask(task.data, removed);
      r := match c { case Success(o) => Success(CleanupResult(o)) case Failure(e) => Failure(e) };
    } else {
      r := Failure(UnknownTaskType(task.kind));
    }
  }

  // ---------------------------------------------------------------------
  // The queue

  class TaskQueue {
    var inbox: seq<Task>
    var outbox: seq<Completed>
    var running: bool
    var workers: seq<string>
    const maxWorkers: nat

    /** `TaskQueue(max_workers)`: stopped, no workers, both queues empty. */
    constructor (maxWorkers: nat)
      ensures this.maxWorkers == maxWorkers
      ensures inbox == [] && outbox == [] && !running && workers == []
    {
      this.maxWorkers := maxWorkers;
      inbox := [];
      outbox := [];
      running := false;
      workers := [];
    }

    /** `start` as written: nothing when already running; otherwise
        running, with `max_workers` new workers appended.  Stop tasks left
        in the inbox by an earlier `stop` stay there. */
    method StartAsWritten()
      modifies this`running, this`workers
      ensures running
      ensures old(running) ==> workers == old(workers)
      ensures !old(running) ==> workers == old(workers) + WorkerNames(maxWorkers)
    {
      if running {
        return;
      }
      running := true;
      for i := 0 to maxWorkers
        invariant running
        invariant workers == old(workers) + WorkerNames(i)
      {
        assert WorkerNames(i + 1) == WorkerNames(i) + [WorkerName(i)];
        workers := workers + [WorkerName(i)];
      }
    }

    /** `start` as intended: as written, but a restart first discards the
        stop tasks an earlier `stop` left unconsumed, so that none of the new
        workers ends on them.  Every other pending task stays, in order. */
    method Start()
      modifies this`running, this`workers, this`inbox
      ensures running
      ensures old(running) ==> workers == old(workers) && inbox == old(inbox)
      ensures !old(running) ==> workers == old(workers) + WorkerNames(maxWorkers)
      ensures !old(running) ==> inbox == WithoutStops(old(inbox)) && NoStops(inbox)
    {
      if running {
        return;
      }
      inbox := WithoutStops(inbox);
      StartAsWritten();
    }

    /** `stop`: not running, one stop task per worker slot at the tail of
        the inbox, and no workers. */
    method Stop()
      modifies this`running, this`workers, this`inbox
      ensures !running && workers == []
      ensures inbox == old(inbox) + Sentinels(maxWorkers)
    {
      running := false;
      for i := 0 to maxWorkers
        invariant !running
        invariant inbox == old(inbox) + Sentinels(i)
      {
        assert Sentinels(i + 1) == Sentinels(i) + [Sentinel];
        inbox := inbox + [Sentinel];
      }
      workers := [];
    }

    /** `add_task`: one task at the tail of the inbox, under a fresh id made
        from the type and the clock reading. */
    method AddTask(kind: string, data: TaskData, millis: nat) returns (id: string)
      modifies this`inbox
      ensures id == TaskId(kind, millis)
      ensures inbox == old(inbox) + [Task(kind, data, Some(id))]
    {
      id := kind + "_" + NatToString(millis);
      inbox := inbox + [Task(kind, data, Some(id))];
    }

    method AddVideoProcessingTask(videoId: VideoId, millis: nat) returns (id: string)
      modifies this`inbox
      ensures id == TaskId(VideoKind, millis)
      ensures inbox == old(inbox) + [Task(VideoKind, VideoData(videoId), Some(id))]
    {
      id := AddTask(VideoKind, VideoData(videoId), millis);
    }

    method AddBatchProcessingTask(videoIds: seq<VideoId>, millis: nat) returns (id: string)
      modifies this`inbox
      ensures id == TaskId(BatchKind, millis)
      ensures inbox == old(inbox) + [Task(BatchKind, BatchData(videoIds), Some(id))]
    {
      id := AddTask(BatchKind, BatchData(videoIds), millis);
    }

    method AddCleanupTask(cleanupType: string, millis: nat) returns (id: string)
      modifies this`inbox
      ensures id == TaskId(CleanupKind, millis)
      ensures inbox == old(inbox) + [Task(CleanupKind, CleanupData(Some(cleanupType)), Some(id))]
    {
      id := AddTask(CleanupKind, CleanupData(Some(cleanupType)), millis);
    }

    /** `get_queue_status`. */
    method GetQueueStatus() returns (s: Status)
      ensures s == Status(running, |workers|, |inbox|, |outbox|)
    {
      s := Status(running, |workers|, |inbox|, |outbox|);
    }

    /** `get_completed_results(limit)`: the oldest `min(limit, pending)`
        results, removed from the outbox in FIFO order; a limit of zero or
        less takes nothing. */
    method GetCompletedResults(limit: int) returns (results: seq<Completed>)
      modifies this`outbox
      ensures var n := Min(Max(limit, 0), |old(outbox)|);
        results == old(outbox)[..n] && outbox == old(outbox)[n..]
    {
      results := [];
      var count := 0;
      while outbox != [] && count < limit
        invariant 0 <= count <= |old(outbox)|
        invariant results == old(outbox)[..count] && outbox == old(outbox)[count..]
        invariant count <= Max(limit, 0)
        decreases |outbox|
      {
        assert old(outbox)[..count + 1] == old(outbox)[..count] + [outbox[0]];
        results := results + [outbox[0]];
        outbox := outbox[1..];
        count := count + 1;
      }
    }

    /** One iteration of `_worker`'s loop.  A stop task ends the worker and
        produces nothing; any other task is taken off the inbox for good:
        it either puts exactly one result, carrying its id and type, in
        the outbox, or raises, in which case nothing is put and one error
        notification is written after whatever that task itself wrote. */
    method WorkerStep(store: Store, media: VideoProcessor.Media, removed: nat) returns (outcome: StepOutcome)
      modifies this`inbox, this`outbox, store
      ensures !old(running) ==>
        outcome == Exited && inbox == old(inbox) && outbox == old(outbox) && store.Snapshot() == old(store.Snapshot())
      ensures old(running) && old(inbox) == [] ==>
        outcome == Idle && inbox == old(inbox) && outbox == old(outbox) && store.Snapshot() == old(store.Snapshot())
      ensures old(running) && old(inbox) != [] && old(inbox)[0].kind == StopKind ==>
        outcome == Terminated && inbox == old(inbox)[1..] && outbox == old(outbox) && store.Snapshot() == old(store.Snapshot())
      ensures old(running) && old(inbox) != [] && old(inbox)[0].kind != StopKind ==>
        && inbox == old(inbox)[1..]
        && var task := old(inbox)[0];
           var (r, db) := RunTask(old(store.Snapshot()), media, removed, task);
           match r {
             case Success(res) =>
               outcome == Finished && outbox == old(outbox) + [Completed(task.id, task.kind, res)] && store.Snapshot() == db
             case Failure(e) =>
               outcome == Dropped(e) && outbox == old(outbox)
               && store.Snapshot() == Noted(db, LevelError, "Error en procesamiento")
           }
    {
      if !running {
        return Exited;
      }
      if inbox == [] {
        return Idle;
      }
      var task := inbox[0];
      inbox := inbox[1..];
      if task.kind == StopKind {
        return Terminated;
      }
      var r := ProcessTask(store, media, removed, task);
      match r {
        case Success(res) =>
          outbox := outbox + [Completed(task.id, task.kind, res)];
          outcome := Finished;
        case Failure(e) =>
          store.Notify(LevelError, "Error en procesamiento");
          outcome := Dropped(e);
      }
    }
  }

  // ---------------------------------------------------------------------
  // Restarting the queue

  /** A queue of two workers, started, then stopped while both workers
      were busy: each sees `running` false when its task ends and exits
      without taking a stop task, so both stop tasks stay in the inbox. */
  method StoppedWhileBusy(corrected: bool, store: Store, media: VideoProcessor.Media) returns (q: TaskQueue)
    modifies store
    ensures fresh(q)
    ensures q.maxWorkers == DefaultMaxWorkers && !q.running && q.workers == []
    ensures q.inbox == Sentinels(DefaultMaxWorkers) && q.outbox == []
    ensures store.Snapshot() == old(store.Snapshot())
  {
    q := new TaskQueue(DefaultMaxWorkers);
    if corrected {
      q.Start();
    } else {
      q.StartAsWritten();
    }
    q.Stop();
    var exitA := q.WorkerStep(store, media, 0);
    var exitB := q.WorkerStep(store, media, 0);
  }

  /** With `start` as written, a queue stopped while its workers were busy
      loses its new workers on restart: both end on the stale stop tasks,
      and a task added after the restart is never run although the status
      reports two workers. */
  method RestartAsWritten() returns (first: StepOutcome, second: StepOutcome, status: Status)
    ensures first == Terminated && second == Terminated
    ensures status == Status(true, 2, 1, 0)
  {
    var store := new Store([], map[], []);
    var media := VideoProcessor.Media(map[], map[], (a, b) => false);
    var q := StoppedWhileBusy(false, store, media);
    q.StartAsWritten();
    var id := q.AddCleanupTask("general", 0);
    first := q.WorkerStep(store, media, 0);
    second := q.WorkerStep(store, media, 0);
    status := q.GetQueueStatus();
  }

  /** The same sequence with the corrected `start`: the first worker step
      after the restart runs the new task. */
  method Restart() returns (first: StepOutcome, status: Status)
    ensures first == Finished
    ensures status == Status(true, 2, 0, 1)
  {
    var store := new Store([], map[], []);
    var media := VideoProcessor.Media(map[], map[], (a, b) => false);
    var q := StoppedWhileBusy(true, store, media);
    q.Start();
    var id := q.AddCleanupTask("general", 0);
    first := q.WorkerStep(store, media, 0);
    status := q.GetQueueStatus();
  }
}
