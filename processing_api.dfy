/** The queue routes of blueprints/processing_api.py: enqueueing one video
    or a batch after checking that the videos exist, starting and stopping
    the queue, and reading its status and results.  A route's JSON reply is
    a `Reply`, an error reply an `HttpError` with its status code. */
module ProcessingApi {
  import opened Common
  import opened Catalog
  import opened Tasks

  /** `request.args.get('limit', 10, type=int)` when absent or not a number. */
  const DefaultLimit: int := 10

  datatype Reply =
    | VideoQueued(taskId: string, videoId: VideoId, filename: string)
    | BatchQueued(taskId: string, videoCount: nat, validVideos: seq<VideoId>)
    | QueueStatus(status: Status)
    | Results(results: seq<Completed>, count: nat)
    | CleanupQueued(cleanupType: string, taskId: string)
    | Stopped

  /** The ids of `video_ids` that name an existing video, in order, each as
      often as it occurs. */
  function ExistingIds(ids: seq<VideoId>, videos: map<VideoId, VideoRow>): (valid: seq<VideoId>)
    ensures |valid| <= |ids|
    ensures forall v :: v in valid <==> v in ids && v in videos
  {
    if ids == [] then []
    else ExistingIds(ids[..|ids| - 1], videos) + (if ids[|ids| - 1] in videos then [ids[|ids| - 1]] else [])
  }

  /** Every existing id keeps its number of occurrences, every missing one
      is dropped. */
  lemma {:induction false} ExistingIdsCount(ids: seq<VideoId>, videos: map<VideoId, VideoRow>, v: VideoId)
    ensures multiset(ExistingIds(ids, videos))[v] == if v in videos then multiset(ids)[v] else 0
  {
    if ids != [] {
      var q := ids[..|ids| - 1];
      ExistingIdsCount(q, videos, v);
      assert ids == q + [ids[|ids| - 1]];
    }
  }

  /** The filter distributes over concatenation, so the valid ids keep the
      order of the request. */
  lemma {:induction false} ExistingIdsConcat(a: seq<VideoId>, b: seq<VideoId>, videos: map<VideoId, VideoRow>)
    ensures ExistingIds(a + b, videos) == ExistingIds(a, videos) + ExistingIds(b, videos)
  {
    if b != [] {
      assert (a + b)[..|a + b| - 1] == a + b[..|b| - 1];
      ExistingIdsConcat(a, b[..|b| - 1], videos);
    } else {
      assert a + b == a;
    }
  }

  /** `process_video_async`: a missing video is a 404 and nothing is
      enqueued; otherwise one video task is enqueued. */
  method ProcessVideoAsync(queue: TaskQueue, videos: map<VideoId, VideoRow>, videoId: VideoId, millis: nat)
    returns (r: Result<Reply, HttpError>)
    modifies queue`inbox
    ensures videoId !in videos ==> r == Failure(HttpError(404, "Video no encontrado")) && queue.inbox == old(queue.inbox)
    ensures videoId in videos ==>
      && r == Success(VideoQueued(TaskId(VideoKind, millis), videoId, videos[videoId].originalFilename))
      && queue.inbox == old(queue.inbox) + [Task(VideoKind, VideoData(videoId), Some(TaskId(VideoKind, millis)))]
  {
    if videoId !in videos {
      return Failure(HttpError(404, "Video no encontrado"));
    }
    var taskId := queue.AddVideoProcessingTask(videoId, millis);
    r := Success(VideoQueued(taskId, videoId, videos[videoId].originalFilename));
  }

  /** The existence loop of `process_batch_async`. */
  method FilterExisting(ids: seq<VideoId>, videos: map<VideoId, VideoRow>) returns (valid: seq<VideoId>)
    ensures valid == ExistingIds(ids, videos)
  {
    valid := [];
    for i := 0 to |ids|
      invariant valid == ExistingIds(ids[..i], videos)
    {
      assert ids[..i + 1][..i] == ids[..i];
      if ids[i] in videos {
        valid := valid + [ids[i]];
      }
    }
    assert ids[..|ids|] == ids;
  }

  /** `process_batch_async`: `videoIds` is the body's `video_ids`, if any.
      A missing or empty list and a list with no existing video are 400s
      that enqueue nothing; otherwise exactly one batch task carrying the
      existing ids is enqueued and the count reported is theirs. */
  method ProcessBatchAsync(queue: TaskQueue, videos: map<VideoId, VideoRow>, videoIds: Option<seq<VideoId>>, millis: nat)
    returns (r: Result<Reply, HttpError>)
    modifies queue`inbox
    ensures var ids := if videoIds.Some? then videoIds.value else [];
      && (ids == [] ==> r == Failure(HttpError(400, "Lista de video_ids requerida")) && queue.inbox == old(queue.inbox))
      && (ids != [] && ExistingIds(ids, videos) == [] ==>
            r == Failure(HttpError(400, "Ningún video válido encontrado")) && queue.inbox == old(queue.inbox))
      && (ExistingIds(ids, videos) != [] ==>
            && r == Success(BatchQueued(TaskId(BatchKind, millis), |ExistingIds(ids, videos)|, ExistingIds(ids, videos)))
            && queue.inbox == old(queue.inbox) + [Task(BatchKind, BatchData(ExistingIds(ids, videos)), Some(TaskId(BatchKind, millis)))])
  {
    var ids := if videoIds.Some? then videoIds.value else [];
    if ids == [] {
      return Failure(HttpError(400, "Lista de video_ids requerida"));
    }
    var valid := FilterExisting(ids, videos);
    if valid == [] {
      return Failure(HttpError(400, "Ningún video válido encontrado"));
    }
    var taskId := queue.AddBatchProcessingTask(valid, millis);
    r := Success(BatchQueued(taskId, |valid|, valid));
  }

  /** `start_processing_queue`: start, then report the status.  The start
      is the corrected one: a restart drops the stop tasks an earlier stop
      left behind (see `TaskQueue.Start`). */
  method StartProcessingQueue(queue: TaskQueue) returns (r: Reply)
    modifies queue`running, queue`workers, queue`inbox
    ensures queue.running
    ensures old(queue.running) ==> queue.workers == old(queue.workers) && queue.inbox == old(queue.inbox)
    ensures !old(queue.running) ==> queue.workers == old(queue.workers) + WorkerNames(queue.maxWorkers)
    ensures !old(queue.running) ==> queue.inbox == WithoutStops(old(queue.inbox))
    ensures queue.outbox == old(queue.outbox)
    ensures r == QueueStatus(Status(true, |queue.workers|, |queue.inbox|, |queue.outbox|))
  {
    queue.Start();
    var status := queue.GetQueueStatus();
    r := QueueStatus(status);
  }

  /** `stop_processing_queue`. */
  method StopProcessingQueue(queue: TaskQueue) returns (r: Reply)
    modifies queue`running, queue`workers, queue`inbox
    ensures !queue.running && queue.workers == []
    ensures queue.inbox == old(queue.inbox) + Sentinels(queue.maxWorkers)
    ensures r == Stopped
  {
    queue.Stop();
    r := Stopped;
  }

  /** `get_processing_results`: `count` is the number of results taken,
      which is at most the limit (10 unless a number is given). */
  method GetProcessingResults(queue: TaskQueue, limit: Option<int>) returns (r: Reply)
    modifies queue`outbox
    ensures var n := Min(Max(if limit.Some? then limit.value else DefaultLimit, 0), |old(queue.outbox)|);
      && r == Results(old(queue.outbox)[..n], n)
      && queue.outbox == old(queue.outbox)[n..]
    ensures r.count == |r.results|
  {
    var results := queue.GetCompletedResults(if limit.Some? then limit.value else DefaultLimit);
    r := Results(results, |results|);
  }

  /** `schedule_cleanup`: the type defaults to `general`. */
  method ScheduleCleanup(queue: TaskQueue, cleanupType: Option<string>, millis: nat) returns (r: Reply)
    modifies queue`inbox
    ensures var t := if cleanupType.Some? then cleanupType.value else "general";
      && r == CleanupQueued(t, TaskId(CleanupKind, millis))
      && queue.inbox == old(queue.inbox) + [Task(CleanupKind, CleanupData(Some(t)), Some(TaskId(CleanupKind, millis)))]
  {
    var t := if cleanupType.Some? then cleanupType.value else "general";
    var taskId := queue.AddCleanupTask(t, millis);
    r := CleanupQueued(t, taskId);
  }
}
