# Video catalog analysis pipeline — a Dafny model

This project models the analysis core of a video/person catalog web
application written in Python (Flask, OpenCV, face_recognition).

## What is modelled

**Face recognition job** (`services/video_processor.py`). The job works in four steps:

1. It loads a gallery of known faces.
2. It samples every `max(1, int(fps / 5))`-th frame of a video.
3. It attributes each face found in a sampled frame to the first gallery entry that matches it. The gallery follows `Person.get_all`, which lists the persons by name.
4. It groups the hit times per person.

The greedy **smoothing** aggregator then merges each person's sorted timestamps into `(start, end)` segments. A gap of at most 3.0 s extends a segment; a larger gap opens a new one. Last, the job replaces the video's rows in the appearance table and marks the video processed.

**Demo processor** (`services/video_processor_demo.py`). It treats every person as known and draws detections at random. The draw is a parameter here. It reuses the smoothing, with its own local threshold.

**Task queue** (`services/task_queue.py`). This is a sequential state machine:
- an inbox of pending tasks and an outbox of completed results (both sequences);
- the `running` flag and the worker list;
- `start`, `stop` and the `add_*_task` methods;
- `get_queue_status` and the destructive `get_completed_results`;
- one iteration of a worker's loop, including the per-type task bodies (video, batch, cleanup) and their effect on the database.

**Emotion detection** (`services/emotion_detection_service.py`):
- the brightness/contrast decision rule and the default emotion;
- the model's arg-max labelling;
- the per-frame detection loop;
- the statistical summary of an emotion timeline.

**Advanced search** (`services/advanced_search_service.py`). The SQL text and the parameter list are built by:
- `advanced_search`;
- `search_by_text`;
- `get_search_suggestions`;
- `search_by_date_pattern`.

**`format_time`** (`utils.py`): seconds rendered as `HH:MM:SS`.

**Route validators and guards** (`blueprints/videos_api.py`, `blueprints/faces_api.py`, `blueprints/processing_api.py`).

### Modelling choices

- **The database** is the class `Catalog.Store`. It holds the persons, videos, video_appearances and notifications tables as `seq`/`map` fields. Its methods are the row operations of `models.py` that the pipeline calls. `Store.Notify` stands for the `Notification.create` calls in `services/task_queue.py` and `blueprints/videos_api.py`; the `Notification` class is not part of this model, so `Notify` states only that one notice with the given level and title is appended.
- **`Person.get_all`** lists the persons `ORDER BY name`. `Catalog.PersonsByName` is that listing: a permutation of the table in name order under SQLite's default binary collation (character by character, a prefix first). The face gallery is built from it, so a face that matches several known persons goes to the one whose name sorts first.
- **Dictionaries** that the source builds by insertion are ordered association lists (`Common.Pair`), because Python dictionaries keep insertion order. The one exception is the analysis blob (`Catalog.AnalysisBlob`), which is a `map` from person name to segments: it keeps each name's value but not the order of the names (see "## Left out").
- **External calls are parameters.** The recognition library (frame rate, faces per frame, photo encodings, `compare_faces`) is the value `VideoProcessor.Media`. The same holds for `secure_filename`, `uuid4().hex`, clock readings, the demo's random draw and the emotion measurements.
- **The fixed SQL texts** of `advanced_search` are the parameter `t` of `AdvancedSearch.Search`. `AdvancedSearch.Sql` holds the source's texts, and `AdvancedSearch.SqlPlain` proves they carry no placeholder of their own. The placeholder-free facts are proved one literal at a time by small helper lemmas (the `…Plain` lemmas), which `SqlPlain`, `TextSearchBound` and `SearchSuggestions` combine.

### Behaviour of the code worth knowing

- **Unreadable frame.** The frame loop ends at the first frame that cannot be read; the frames after it are never analysed.
- **Sampling interval.** The interval is `max(1, int(fps / 5))`, so `fps / 5` is truncated toward zero.
- **Zero frame rate.** A frame rate of 0 with at least one readable frame raises `ZeroDivisionError` at `frame_number / fps`. It is modelled as the failure `ZeroFrameRate`, which leaves the store untouched.
- **Video with no recognised faces.** `process_video` returns an empty result, and the video task then writes the notice "Error en procesamiento" although the video is marked processed.

## Model

| member | source | states |
|---|---|---|
| Smoothing.SortTimestamps | services/video_processor.py:149 | `sorted(timestamps)` is an ascending permutation of the input |
| Smoothing.SortedUnique | services/video_processor.py:149 | two sorted arrangements of the same multiset are equal, so the sort is determined by its input |
| Smoothing.SortSorted | services/video_processor.py:149 | sorting already sorted timestamps returns them unchanged (sorting is idempotent) |
| Smoothing.InsertSorted | services/video_processor.py:149 | inserting into a sorted list keeps it sorted, adds exactly the new element and puts the smaller head first |
| Smoothing.Step | services/video_processor.py:154-160 | one loop iteration adds at most one segment, and the last segment ends at the new timestamp |
| Smoothing.Smooth | services/video_processor.py:149-162 | no more segments than timestamps, none exactly when there are no timestamps, and the last segment ends at the last timestamp |
| Smoothing.StepShape | services/video_processor.py:155-160 | a gap of at most the threshold extends the open segment to `(start, t)`; a larger gap keeps it closed and opens `(t, t)`; earlier segments are unchanged |
| Smoothing.StepStructure | services/video_processor.py:154-160 | one step keeps segments proper (start ≤ end) and separated by more than the threshold, with endpoints drawn from the input |
| Smoothing.SmoothStructure | services/video_processor.py:149-162 | for sorted input, every segment has start ≤ end and is separated from the next by more than the threshold; endpoints are input timestamps; the first segment starts at the smallest timestamp |
| Smoothing.StepCovers | services/video_processor.py:154-160 | one step keeps every timestamp seen so far inside some segment |
| Smoothing.SmoothProper | services/video_processor.py:149-162 | every segment of sorted input has start ≤ end |
| Smoothing.SmoothCovers | services/video_processor.py:149-162 | every input timestamp lies inside some segment |
| Smoothing.SmoothEndpoints | services/video_processor.py:151-162 | every segment starts and ends at an input timestamp |
| Smoothing.StepGapsExtend | services/video_processor.py:155-156 | extending the open segment keeps consecutive timestamps of one segment at most the threshold apart |
| Smoothing.StepGapsOpen | services/video_processor.py:157-160 | opening a new segment keeps consecutive timestamps of one segment at most the threshold apart |
| Smoothing.StepGapsWithin | services/video_processor.py:154-160 | one step, in either branch, keeps within-segment gaps at most the threshold |
| Smoothing.SmoothGapsWithin | services/video_processor.py:149-157 | two consecutive sorted timestamps in one segment differ by at most the threshold |
| Smoothing.SeparatedDisjoint | services/video_processor.py:155-160 | adjacent separation with a nonnegative threshold orders all segments: each ends before any later one starts |
| Smoothing.SmoothCount | services/video_processor.py:154-162 | the number of segments is 1 + the number of consecutive gaps larger than the threshold (0 for no input) |
| Smoothing.SmoothOrdered | services/video_processor.py:149-162 | segments of sorted input are ordered and pairwise disjoint |
| Smoothing.SmoothPrefixStep | services/video_processor.py:154 | smoothing one more timestamp is one more loop step |
| Smoothing.StepOpen | services/video_processor.py:155-160 | a step on segments whose open one is `(start, end)` either moves `end` to `t` or closes it and opens `(t, t)` |
| Smoothing.Merge | services/video_processor.py:150-162 | the `start`/`end`/`segments` loop computes exactly `Smooth` of its input |
| Smoothing.SmoothTimeline | services/video_processor.py:149-162 | sort, then merge: the segments are `Smooth` of the sorted timestamps |
| Smoothing.SmoothTimelineBounds | services/video_processor.py:149-162 | at least one segment; the first starts at the minimum and the last ends at the maximum timestamp; a single timestamp `t` gives `[(t, t)]` |
| Smoothing.SmoothSpan | services/video_processor.py:149-162 | the same span properties for any sorted arrangement of the timestamps |
| Smoothing.SmoothFirstStart | services/video_processor.py:151 | the first segment starts at the first sorted timestamp |
| Smoothing.SortedSpan | services/video_processor.py:149 | the sorted list has the input's length, starts at its minimum and ends at its maximum |
| Smoothing.SpanOf | services/video_processor.py:149 | any sorted permutation has the input's length, minimum first and maximum last |
| Smoothing.SmoothAll | services/video_processor.py:143-163 | the appearances have no more persons than the detections |
| Smoothing.SmoothAppearances | services/video_processor.py:137-173 | the loop over the detection dictionary computes `SmoothAll` |
| Smoothing.SmoothAllLast | services/video_processor.py:145-163 | adding one person to the detections changes the output only for that person |
| Smoothing.SmoothAllKeys | services/video_processor.py:145-163 | a person absent from the detections is absent from the appearances |
| Smoothing.SmoothAllLookup | services/video_processor.py:145-163 | a person is in the output exactly when its timestamp list is nonempty, and then maps to the smoothing of its sorted timestamps |
| Smoothing.SmoothAllWellFormed | services/video_processor.py:145-163 | every output person has ≥ 1 proper, separated segments, and the total number of segments never exceeds the total number of timestamps |
| Smoothing.TimelineWellFormed | services/video_processor.py:149-162 | a nonempty list gives between 1 and `len(timestamps)` proper, separated segments |
| VideoProcessor.Gallery | services/video_processor.py:11-44 | the gallery has at most one entry per person, and one entry per person exactly when every person's photo exists and shows a face |
| VideoProcessor.GalleryStep | services/video_processor.py:23-36 | one more listed person adds that person's entry when usable, and nothing otherwise |
| VideoProcessor.GalleryByName | services/video_processor.py:20-36 | built from persons in name order, the gallery entries are in name order |
| VideoProcessor.GallerySound | services/video_processor.py:23-36 | each gallery entry is the first photo encoding, name and id of a person whose photo exists and shows a face |
| VideoProcessor.GalleryEmpty | services/video_processor.py:23-39 | without a usable person the gallery is empty |
| VideoProcessor.GalleryComplete | services/video_processor.py:23-36 | every usable person is in the gallery |
| VideoProcessor.EncodingsOf | services/video_processor.py:34 | the encodings list is index-aligned with the gallery |
| VideoProcessor.NamesOf | services/video_processor.py:35 | the names list is index-aligned with the gallery |
| VideoProcessor.IdsOf | services/video_processor.py:36 | the ids list is index-aligned with the gallery |
| VideoProcessor.LoadKnownFaces | services/video_processor.py:11-44 | the loop builds the three index-aligned lists of the gallery of the rows `Person.get_all` returns (`AnalyzeVideoFaces` passes `Catalog.PersonsByName` of the table) |
| VideoProcessor.SampleInterval | services/video_processor.py:67 | the interval is ≥ 1, is `floor(fps / 5)` once fps ≥ 5, and is 1 below 10 fps |
| VideoProcessor.Compare | services/video_processor.py:102 | `compare_faces` gives one verdict per gallery entry, in order |
| VideoProcessor.FirstTrue | services/video_processor.py:104-105 | nothing exactly when no entry matches; otherwise the lowest matching index |
| VideoProcessor.Attribute | services/video_processor.py:101-107 | a face is attributed to nobody exactly when nothing matches, otherwise to the id of the lowest-index matching entry |
| VideoProcessor.AttributeInNameOrder | services/video_processor.py:101-107 | in a gallery in name order, the entry a face goes to has the least name among the entries that match it |
| VideoProcessor.AttributeFirstByName | services/video_processor.py:101-107 | with the gallery built from `Person.get_all`, a face matching several known persons goes to the one whose name sorts first |
| VideoProcessor.FaceHits | services/video_processor.py:100-113 | a frame yields at most one hit per face, all stamped with the frame's time |
| VideoProcessor.HitsAtMostFaces | services/video_processor.py:84-112 | hits never outnumber the faces of the sampled frames |
| VideoProcessor.HitsTimes | services/video_processor.py:78-120 | with a positive frame rate, hits come in time order, each in `[0, (n-1)/fps]` |
| VideoProcessor.AddHit | services/video_processor.py:109-112 | appending a hit keeps the dictionary's keys distinct |
| VideoProcessor.GroupDistinct | services/video_processor.py:109-112 | the detections dictionary has one entry per person |
| VideoProcessor.AddHitLookup | services/video_processor.py:109-112 | a hit extends its person's list, or creates it, and leaves other persons unchanged |
| VideoProcessor.GroupLookup | services/video_processor.py:109-112 | a person maps exactly to the times of its hits, in order, and is absent when never recognised |
| VideoProcessor.GroupBound | services/video_processor.py:112 | every stored time is a hit time, so bounds on hit times bound the dictionary |
| VideoProcessor.GroupSorted | services/video_processor.py:112-120 | hits in time order give each person a nondecreasing list |
| VideoProcessor.EmptyGallery | services/video_processor.py:47-51 | an empty gallery yields `{}` whatever the video |
| VideoProcessor.DetectionsShape | services/video_processor.py:74-135 | one entry per recognised person, each nonempty and, at a positive frame rate, nondecreasing |
| VideoProcessor.GroupNonEmpty | services/video_processor.py:109-112 | no person maps to an empty list |
| VideoProcessor.GroupSnoc | services/video_processor.py:109-112 | grouping one more hit is adding it to the dictionary |
| VideoProcessor.FaceHitsSnoc | services/video_processor.py:101-113 | one more face adds its hit when it is attributed, and nothing otherwise |
| VideoProcessor.FaceHitsPrefix | services/video_processor.py:101-113 | the hits after face `k + 1` are those after face `k`, plus face `k`'s hit if attributed |
| VideoProcessor.AttributeFaces | services/video_processor.py:100-113 | the inner face loop adds exactly the frame's hits to the detections dictionary |
| VideoProcessor.HitsSnoc | services/video_processor.py:79-120 | one more frame adds its hits exactly when its index is a multiple of the interval |
| VideoProcessor.AnalyzeVideoFaces | services/video_processor.py:46-135 | the frame loop returns the specified detections, `{}` for an empty gallery, or the zero-frame-rate failure |
| VideoProcessor.PersonName | services/video_processor.py:195-196 | a stored person is reported under its name, a missing one as `Desconocido` |
| VideoProcessor.NamesIn | services/video_processor.py:194-199 | one reported name per person of the appearances, in order |
| VideoProcessor.ResultBlobKeys | services/video_processor.py:193-206 | the result's keys are exactly the reported names |
| VideoProcessor.ResultBlobValue | services/video_processor.py:193-206 | a person's segments are reported under its name unless a later person of the same name overwrites them |
| VideoProcessor.WriteSegments | services/video_processor.py:201-206 | one appearance row per segment is appended, in order |
| VideoProcessor.SaveStep | services/video_processor.py:194-206 | saving one more person appends its rows and assigns its segments in the result |
| VideoProcessor.SavePerson | services/video_processor.py:195-206 | looks up the name and appends exactly that person's rows |
| VideoProcessor.WriteAppearances | services/video_processor.py:193-207 | the persons loop appends one row per segment and builds the result |
| VideoProcessor.SaveAppearances | services/video_processor.py:191-209 | the appearance table becomes the replace-write of the video (see `Catalog.ReplaceAppearancesEffect`), the video is marked processed with the name-keyed result, and persons and notifications are unchanged |
| VideoProcessor.ProcessVideo | services/video_processor.py:175-217 | analyse, smooth and save; a failed analysis leaves the store untouched |
| VideoProcessor.JobAppearances | services/video_processor.py:137-185 | what is stored for a person is the smoothing of its sorted hit times, or nothing when it was never recognised; every stored list is nonempty, proper and separated by more than 3.0 |
| VideoProcessorDemo.LoadKnownFaces | services/video_processor_demo.py:16-22 | three lists of equal length, one entry per person in the name order of `Person.get_all`, the stand-in encoding being the position |
| VideoProcessorDemo.AssignedLookup | services/video_processor_demo.py:73-83 | each picked person maps to the sorted draw of its last pick; the keys are distinct |
| VideoProcessorDemo.DetectionsLookup | services/video_processor_demo.py:34-89 | no registered persons gives `{}`; otherwise a person is present exactly when picked, with its sorted draw |
| VideoProcessorDemo.AnalyzeVideoFaces | services/video_processor_demo.py:32-89 | the loop over the picks computes the specified detections |
| VideoProcessorDemo.SmoothAppearances | services/video_processor_demo.py:91-130 | the demo smoothing is the shared smoothing with its local threshold 3.0 |
| VideoProcessorDemo.JobAppearances | services/video_processor_demo.py:97-120 | only picked persons with a nonempty draw are stored, with proper segments separated by more than 3.0, and never more segments than drawn timestamps |
| VideoProcessorDemo.ProcessVideo | services/video_processor_demo.py:132-183 | a missing file returns `{}` and leaves the store untouched; otherwise the rows of the video are replaced and it is marked processed |
| Catalog.NameLeTotal | models.py:12 | any two names are comparable under `ORDER BY name` |
| Catalog.NameLeReflexive | models.py:12 | every name sorts at or before itself |
| Catalog.NameLeTransitive | models.py:12 | the name order is transitive |
| Catalog.InsertByName | models.py:10-13 | placing one row makes the listing one row longer and adds exactly that row |
| Catalog.ByNameCons | models.py:12 | a row whose name sorts at or before the head of a listing in name order can lead it |
| Catalog.InsertByNameSorted | models.py:10-13 | placing a row into a listing in name order keeps it in name order, with the lower of the two heads first |
| Catalog.PersonsByName | models.py:10-13 | `Person.get_all` lists exactly the rows of the persons table (a permutation, so of the same length) |
| Catalog.PersonsByNameSorted | models.py:10-13 | `Person.get_all` lists the rows in name order |
| Catalog.PersonsByNameMembers | models.py:10-13 | a row is listed exactly when it is in the table |
| Catalog.PersonsByNameExample | models.py:12 | rows `(1, "Zoe")` and `(2, "Ana")` are listed Ana first |
| Catalog.PersonById | models.py:16-18 | finds the person with that id, or nothing exactly when none has it |
| Catalog.RenamePerson | models.py:21-23 | only the rows with that id change, and only their name |
| Catalog.DeletePerson | models.py:26-28 | exactly the rows with that id are removed |
| Catalog.RenameLookup | models.py:21-23 | after a rename the person is found under the new name; others are found as before |
| Catalog.DeleteLookup | models.py:26-28 | after a delete the person is gone; every other person is still found |
| Catalog.SegmentRows | models.py:58-60 | one row per segment, carrying the video, the person and the segment bounds |
| Catalog.RowsFor | models.py:63-71 | the rows of one video: all of them and nothing else |
| Catalog.WithoutVideo | models.py:74-76 | the delete removes exactly the video's rows |
| Catalog.MarkProcessed | models.py:47-49 | the UPDATE marks only that video processed with the blob; a missing video stays missing |
| Catalog.RowsOfVideo | services/video_processor.py:194-202 | all inserted rows belong to the video, one per segment |
| Catalog.RowsForConcat | models.py:63-71 | selecting a video's rows distributes over concatenation |
| Catalog.RowsForWithout | models.py:74-76 | after deleting video `v`, `v` has no rows and other videos keep theirs |
| Catalog.RowsForAll | models.py:63-71 | selecting the video of rows that all belong to it returns them all |
| Catalog.RowsForNone | models.py:63-71 | selecting another video from such rows returns nothing |
| Catalog.ReplaceAppearancesEffect | services/video_processor.py:191-202 | after the replace-write the video's rows are exactly one per segment, and every other video keeps its rows in order |
| Catalog.WithoutVideoIdempotent | models.py:74-76 | deleting a video's rows twice is deleting them once |
| Catalog.WithoutVideoConcat | models.py:74-76 | the delete distributes over concatenation |
| Catalog.WithoutVideoNone | models.py:74-76 | deleting the video from its own rows leaves nothing |
| Catalog.ReplaceIdempotent | services/video_processor.py:191-202 | reprocessing with the same appearances leaves the same table: rows are replaced, never duplicated |
| Catalog.Store.CreatePerson | models.py:6-8 | appends the new person row |
| Catalog.Store.UpdatePersonName | models.py:21-23 | the persons table becomes `RenamePerson` of the old one |
| Catalog.Store.RemovePerson | models.py:26-28 | the persons table becomes `DeletePerson` of the old one |
| Catalog.Store.DeleteByVideo | models.py:74-76 | the appearance table loses exactly the video's rows |
| Catalog.Store.CreateAppearance | models.py:58-60 | appends one appearance row |
| Catalog.Store.MarkVideoProcessed | models.py:47-49 | the videos table becomes `MarkProcessed` of the old one |
| Catalog.Store.Notify | services/task_queue.py:109-114 | a `Notification.create` call appends one notice with the given level and title, and no other table changes |
| Common.Keys | services/emotion_detection_service.py:248 | `list(d.keys())`: one key per entry, in insertion order |
| Common.Lookup | services/video_processor.py:109 | `k in d` fails exactly when no entry carries the key |
| Common.Assign | services/emotion_detection_service.py:229 | `d[k] = v` replaces the value of an existing key or appends one new entry |
| Common.AssignLookup | services/emotion_detection_service.py:229 | after `d[k] = v`, `k` maps to `v`, every other key as before, and keys stay distinct |
| Common.LookupAtIndex | services/video_processor.py:145 | each entry of a dictionary is found under its key |
| Tasks.TaskIdParts | services/task_queue.py:226 | the id starts with the type and `_`; its part after the last `_` reads back as the clock value; ids of one type are equal exactly when the readings are |
| Tasks.WorkerNames | services/task_queue.py:28-29 | `start` names its `n` threads `TaskWorker-0` … `TaskWorker-(n-1)` |
| Tasks.WorkerNamesDistinct | services/task_queue.py:28-29 | these names are pairwise distinct |
| Tasks.Sentinels | services/task_queue.py:40-41 | `stop` puts exactly `max_workers` `('stop', None, None)` tasks |
| Tasks.WithoutStops | services/task_queue.py:22-32 | discarding stop tasks keeps exactly the other tasks |
| Tasks.WithoutStopsConcat | services/task_queue.py:22-32 | discarding stop tasks keeps the queue order |
| Tasks.WithoutStopsNone | services/task_queue.py:22-32 | a queue without stop tasks is unchanged |
| Tasks.VideoTaskEffect | services/task_queue.py:104-145 | start notice first; a missing video fails with not-found and nothing else changes; a completed run marks the video processed and closes with a success notice exactly when some person was found; persons are untouched |
| Tasks.VideoTaskKeeps | services/task_queue.py:104-145 | a video task keeps the persons and only appends notifications |
| Tasks.CountSuccessful | services/task_queue.py:176 | `successful` is at most the number of entries |
| Tasks.BatchRunShape | services/task_queue.py:159-173 | one entry per id, in order, whatever fails; earlier notices kept; persons untouched |
| Tasks.BatchAccounting | services/task_queue.py:147-191 | `total == len(video_ids) == len(results)`, `successful + failed == total`, and the closing notice is a success exactly when nothing failed |
| Tasks.CountSuccessfulFailed | services/task_queue.py:176-177 | all succeeded exactly when every entry is processed; none succeeded exactly when every entry failed |
| Tasks.CleanupTask | services/task_queue.py:193-222 | a cleanup without data raises; a missing type is `general`; `notifications` reports the notifications cleaned, `temp_files` reports the number of files removed, and every other type `k` reports `{'cleanup_type': k, 'completed': True}` |
| Tasks.RunTaskKinds | services/task_queue.py:88-102 | an unknown type fails with no effect; a batch never fails; a video result carries its id; cleanup leaves the tables |
| Tasks.ProcessVideoTask | services/task_queue.py:104-145 | the row operations have exactly the effect `VideoTask` specifies |
| Tasks.BatchRunStep | services/task_queue.py:159-173 | one more id is one more video task and one more entry |
| Tasks.ProcessBatchTask | services/task_queue.py:147-191 | the batch loop has exactly the effect `BatchTask` specifies |
| Tasks.ProcessTask | services/task_queue.py:88-102 | the dispatch has exactly the effect `RunTask` specifies |
| Tasks.TaskQueue.constructor | services/task_queue.py:15-20 | stopped, no workers, both queues empty |
| Tasks.TaskQueue.StartAsWritten | services/task_queue.py:22-32 | no-op when running; otherwise running with `max_workers` workers appended; stale stop tasks stay |
| Tasks.TaskQueue.Start | services/task_queue.py:22-32 | as written, but a restart discards leftover stop tasks and keeps every other pending task in order |
| Tasks.TaskQueue.Stop | services/task_queue.py:36-47 | not running, no workers, exactly `max_workers` stop tasks appended at the inbox tail |
| Tasks.TaskQueue.AddTask | services/task_queue.py:224-229 | exactly one `(type, data, id)` appended at the inbox tail, with id `<type>_<ms>` |
| Tasks.TaskQueue.AddVideoProcessingTask | services/task_queue.py:231-233 | appends one video task |
| Tasks.TaskQueue.AddBatchProcessingTask | services/task_queue.py:235-237 | appends one batch task carrying the ids |
| Tasks.TaskQueue.AddCleanupTask | services/task_queue.py:239-241 | appends one cleanup task |
| Tasks.TaskQueue.GetQueueStatus | services/task_queue.py:243-250 | reports running, the number of workers, pending tasks and completed results |
| Tasks.TaskQueue.GetCompletedResults | services/task_queue.py:252-265 | removes and returns the first `min(limit, pending)` results in FIFO order; the rest of the outbox is unchanged |
| Tasks.TaskQueue.WorkerStep | services/task_queue.py:50-86 | a stopped worker exits; a stop task ends the worker with no result; any other task is dequeued for good and either puts one result with its id and type, or puts none and writes one error notification |
| Tasks.StoppedWhileBusy | services/task_queue.py:36-58 | stopping while both workers are busy leaves both stop tasks in the inbox |
| Tasks.RestartAsWritten | services/task_queue.py:22-58 | with `start` as written, both new workers end on the stale stop tasks and a task added after the restart is never run |
| Tasks.Restart | services/task_queue.py:22-71 | with the corrected `start`, the first worker step after the restart runs the new task, leaving nothing pending and one completed result |
| EmotionDetection.BasicEmotionRule | services/emotion_detection_service.py:122-157 | the four labels partition the plane in priority order — happy 0.6, sad 0.5, surprise 0.4, neutral 0.7 — with brightness and contrast attached |
| EmotionDetection.ArgMax | services/emotion_detection_service.py:105-106 | the first position of the largest probability |
| EmotionDetection.Zip | services/emotion_detection_service.py:112-114 | `zip` into a dictionary has as many entries as the shorter side |
| EmotionDetection.AnalyzeAligned | services/emotion_detection_service.py:77-120 | whatever path decides, the English and Spanish labels correspond; the rule and the default report confidence in (0, 1), the model its largest probability |
| EmotionDetection.SliceBound | services/emotion_detection_service.py:59 | a Python slice bound lands inside the axis and is unchanged when already inside |
| EmotionDetection.SliceLength | services/emotion_detection_service.py:59 | a slice is never longer than its axis |
| EmotionDetection.RegionSizeInside | services/emotion_detection_service.py:59-62 | no region exceeds the frame; a box inside the frame is empty exactly when it has no height or no width |
| EmotionDetection.Detected | services/emotion_detection_service.py:56-75 | at most one entry per face, carrying its input index and box, for non-empty regions only, with strictly increasing indices |
| EmotionDetection.DetectedCovers | services/emotion_detection_service.py:56-69 | every face with a non-empty region has its entry |
| EmotionDetection.DetectEmotionsInFrame | services/emotion_detection_service.py:49-75 | the loop computes `Detected` |
| EmotionDetection.OccurrencesZero | services/emotion_detection_service.py:226-229 | a label has no occurrences exactly when no entry carries it |
| EmotionDetection.TallyLookup | services/emotion_detection_service.py:224-231 | the counts map every label seen to its number of occurrences and have no other key |
| EmotionDetection.SumValuesUpdate | services/emotion_detection_service.py:229 | updating one count changes the total by the difference |
| EmotionDetection.TallySum | services/emotion_detection_service.py:224-231 | the counts add up to `total_detections` |
| EmotionDetection.CountValues | services/emotion_detection_service.py:240 | the counts as reals, index-aligned |
| EmotionDetection.DominantIsFirstMax | services/emotion_detection_service.py:240 | `'neutral'` without counts; otherwise the first key with the largest count |
| EmotionDetection.Percentages | services/emotion_detection_service.py:234-237 | one nonnegative percentage per counted emotion, same keys in counting order |
| EmotionDetection.PercentValues | services/emotion_detection_service.py:237 | the percentage values, index-aligned |
| EmotionDetection.PercentagesSum | services/emotion_detection_service.py:234-237 | the percentages times the total equal 100 times the sum of the counts |
| EmotionDetection.PercentValuesLast | services/emotion_detection_service.py:236-237 | the percentages are those of all but the last key, followed by the last key's |
| EmotionDetection.Confidences | services/emotion_detection_service.py:227-230 | the confidence scores, index-aligned with the entries |
| EmotionDetection.SumRealBounds | services/emotion_detection_service.py:247 | `n` scores in `[0, 1]` sum to a value in `[0, n]` |
| EmotionDetection.AverageBounds | services/emotion_detection_service.py:247 | scores in `[0, 1]` average to a value in `[0, 1]` |
| EmotionDetection.TallyStep | services/emotion_detection_service.py:226-231 | counting one more entry increments its label and appends its confidence |
| EmotionDetection.FlatStep | services/emotion_detection_service.py:224-225 | one more frame adds its entries |
| EmotionDetection.CountFrame | services/emotion_detection_service.py:225-231 | the inner loop leaves the counts, total and scores of all entries seen so far |
| EmotionDetection.GenerateEmotionSummary | services/emotion_detection_service.py:218-249 | total, counts, percentages (only when total > 0), dominant emotion, average confidence, and `emotions_detected` equal to the keys of the counts |
| EmotionDetection.ComputePercentages | services/emotion_detection_service.py:234-237 | the percentage loop computes `Percentages` |
| EmotionDetection.PercentagesTotal | services/emotion_detection_service.py:234-237 | when the counts add up to the total, the percentages add up to 100 |
| EmotionDetection.DominantMostFrequent | services/emotion_detection_service.py:240 | the dominant label is counted, and no label is counted more often |
| EmotionDetection.SummaryConsistent | services/emotion_detection_service.py:218-249 | counts sum to the total, each label is counted as often as it occurs, percentages sum to 100, and the dominant label is among the most frequent |
| AdvancedSearch.SqlPlain | services/advanced_search_service.py:28-105 | none of the fixed texts of `advanced_search` holds a `?` |
| AdvancedSearch.CountJoin | services/advanced_search_service.py:108 | joining with a separator free of `?` adds none |
| AdvancedSearch.Marks | services/advanced_search_service.py:30-61 | one `?` per value |
| AdvancedSearch.CountMarks | services/advanced_search_service.py:30-61 | `n` marks hold `n` placeholders |
| AdvancedSearch.PlaceholdersCount | services/advanced_search_service.py:30-61 | the joined placeholder list holds exactly one `?` per value |
| AdvancedSearch.InClauseBound | services/advanced_search_service.py:28-69 | a person or tag clause has one `?` per id, each appended to `params` |
| AdvancedSearch.OneClauseBound | services/advanced_search_service.py:41-75 | a scalar filter adds one condition with one `?` and one param |
| AdvancedSearch.FixedClauseBound | services/advanced_search_service.py:78-94 | the multiple-person and processed conditions add no params |
| AdvancedSearch.LikePatternSpec | services/advanced_search_service.py:73 | the pattern keeps its length and every character except `*`, which becomes `%` |
| AdvancedSearch.Candidates | services/advanced_search_service.py:28-94 | the nine filters, in the order the source checks them |
| AdvancedSearch.CandidatesBound | services/advanced_search_service.py:28-94 | every clause a filter can add binds its own placeholders |
| AdvancedSearch.CountAllAppend | services/advanced_search_service.py:31-42 | placeholder counts add over appended conditions |
| AdvancedSearch.ConditionBound | services/advanced_search_service.py:28-94 | a set filter contributes as many `?` as params; an unset one contributes nothing |
| AdvancedSearch.FiltersBound | services/advanced_search_service.py:24-94 | the conditions and the params stay aligned: one `?` per param |
| AdvancedSearch.ConditionsEmpty | services/advanced_search_service.py:28-108 | `WHERE` is added exactly when some filter is set |
| AdvancedSearch.OrderByDefaults | services/advanced_search_service.py:111-121 | on `ASC`/`DESC`/absent the corrected ordering equals the source's; an unknown `sort_by` keeps `v.uploaded_at DESC`; the direction defaults to `DESC` |
| AdvancedSearch.OrderByPlain | services/advanced_search_service.py:111-121 | the corrected ordering never holds a `?` |
| AdvancedSearch.IntText | services/advanced_search_service.py:125 | the rendered limit holds no `?` |
| AdvancedSearch.AssembleCount | services/advanced_search_service.py:97-125 | the assembled text's only `?` are those of the conditions and any the ordering carries |
| AdvancedSearch.AddClause | services/advanced_search_service.py:28-94 | one filter check appends its condition and its values when set |
| AdvancedSearch.CollectConditions | services/advanced_search_service.py:24-94 | the filter checks build exactly `Conditions` and `Params` |
| AdvancedSearch.Search | services/advanced_search_service.py:7-127 | the query is the base, the conditions joined by ` AND ` after ` WHERE `, the ordering and the limit (default 100); its params are those of the set filters; every `?` is bound exactly once |
| AdvancedSearch.PastedPlaceholder | services/advanced_search_service.py:113-115 | a `sort_order` of `?` puts one `?` into the source's ordering |
| AdvancedSearch.SortOrderPlaceholder | services/advanced_search_service.py:112-125 | with the source's ordering, such a query has one more `?` than params |
| AdvancedSearch.TextSearchBound | services/advanced_search_service.py:129-159 | three `?`, all bound to the same `%text%` pattern |
| AdvancedSearch.Suggestion | services/advanced_search_service.py:194-205 | a suggestion query binds its two `?` |
| AdvancedSearch.SearchSuggestions | services/advanced_search_service.py:182-208 | three queries, each bound to the prefix pattern `text%` and the limit |
| AdvancedSearch.DatePatternDispatch | services/advanced_search_service.py:235-268 | only `weekly`, `monthly` and `daily` query (without params), each grouping differently; any other type returns `[]` |
| Utils.FloorDiv | utils.py:4-6 | Python's `//` by a positive divisor: the greatest integer `q` with `q·d ≤ x` |
| Utils.FloorMod | utils.py:5-6 | Python's `%` by a positive divisor: in `[0, d)` and `x - (x // d)·d` |
| Utils.Fields | utils.py:4-6 | minutes and seconds in 0..59, hours `= floor(s / 3600)`, nonnegative for a nonnegative input |
| Utils.Format2 | utils.py:7 | a two-digit field for 0..99 |
| Utils.FloorDivInt | utils.py:4-6 | on whole numbers the float `//` and `%` agree with the integer ones |
| Utils.WholeSeconds | utils.py:4-6 | for whole seconds the fields are the quotient and remainders, and `3600h + 60m + s == seconds` |
| Utils.WholeFields | utils.py:4-6 | for whole seconds the fields are the Euclidean quotient and remainders |
| Utils.Recombine | utils.py:4-6 | hours, minutes and seconds add back up to the duration |
| Utils.FloorUnique | utils.py:4 | the floor quotient is unique |
| Utils.FormatTimeRoundTrip | utils.py:3-7 | for `0 ≤ s < 360000` whole seconds the text has length 8 and reads back as `s` |
| Utils.ParseFields | utils.py:7 | three two-digit fields joined by colons read back field by field |
| Utils.JoinedShape | utils.py:7 | three two-digit fields joined by two colons have the `HH:MM:SS` shape |
| Text.LowerChar | blueprints/videos_api.py:16 | `lower()` maps ASCII upper case to lower case and the KELVIN SIGN to `k`, and keeps every other character |
| Text.Lower | blueprints/videos_api.py:16 | lowering keeps the length, character by character |
| Text.LowerNoUpper | blueprints/videos_api.py:16 | no ASCII upper-case letter is left |
| Text.LowerIdempotent | blueprints/videos_api.py:16 | lowering twice is lowering once |
| Text.SkipLeft | blueprints/faces_api.py:34 | the first position at or after `i` that holds no character `str.isspace()` accepts (ASCII TAB to CR, FS to US, space, and the Unicode space and line separators) |
| Text.SkipRight | blueprints/faces_api.py:34 | the position just after the last non-space before `j` |
| Text.StripSlice | blueprints/faces_api.py:34 | `strip()` is a slice of the input with only whitespace cut on either side |
| Text.StripEnds | blueprints/faces_api.py:34-37 | the stripped text is empty exactly when the input is all whitespace, and otherwise has no whitespace at either end |
| Text.StripProperties | blueprints/faces_api.py:34-37 | both facts together |
| Text.StripIdempotent | blueprints/faces_api.py:34 | stripping twice is stripping once |
| Text.LastIndex | blueprints/videos_api.py:16 | the position of the last occurrence, or nothing exactly when absent |
| Text.AfterLast | blueprints/videos_api.py:16 | `rsplit(c, 1)[1]` exists exactly when `c` occurs, and is the dot-free text after the last `c` |
| Text.AfterLastOf | blueprints/videos_api.py:16 | the text after the last `c` of `stem + c + tail` is `tail` whatever the stem holds |
| Text.ExtensionOf | blueprints/videos_api.py:54-55 | for a dot-free `ext`, the stored name `stem + '.' + ext.lower()` has extension `ext.lower()`, which is still dot-free |
| Text.AllowedExtensionOf | blueprints/videos_api.py:16 | the extension that decides is the text after the last dot, compared in lower case |
| Text.AllowedNeedsDot | blueprints/videos_api.py:16 | a name without a dot is never allowed |
| Text.DigitChar | services/task_queue.py:226 | a digit character |
| Text.NatToString | services/task_queue.py:226 | `str(n)`: nonempty decimal digits without a leading zero |
| Text.NatToStringRoundTrip | services/task_queue.py:226 | the rendering reads back as the number |
| Text.NatToStringInjective | services/task_queue.py:226 | distinct numbers render differently |
| Text.Pad2 | utils.py:7 | `{n:02d}`: at least two digits, exactly two below 100 |
| Text.Pad2RoundTrip | utils.py:7 | the padded rendering reads back as the number |
| Text.ReplaceChar | services/advanced_search_service.py:73 | `replace` of one character by another, position by position |
| Text.CountNone | services/advanced_search_service.py:108 | a text without the character has no occurrence of it |
| VideosApi.UpperCaseAccepted | blueprints/videos_api.py:16 | `A.MP4` is accepted |
| VideosApi.DoubleExtensionRejected | blueprints/videos_api.py:16 | `a.mp4.exe` is rejected: the last extension decides |
| VideosApi.ExeNotAllowed | blueprints/videos_api.py:13 | no allowed format starts with `e` |
| VideosApi.TrailingDotRejected | blueprints/videos_api.py:13-16 | a trailing dot (empty extension) is rejected |
| VideosApi.HiddenNameUpload | blueprints/videos_api.py:50-54 | the accepted name `.mp4` becomes `mp4` after sanitising, and the upload as written fails with 500 |
| VideosApi.UploadVideoStored | blueprints/videos_api.py:42-55 | an upload succeeds exactly when a file is sent, named and allowed; it is stored as `<hex>.<ext>` with `ext` the lowered last extension, one of the six formats; the corrected and the written routes agree whenever sanitising keeps the extension |
| VideosApi.ProcessVideoRoute | blueprints/videos_api.py:73-99 | 404 for a missing video and 400 for a processed one, both without processing; otherwise process and write one success or error notice |
| FacesApi.UploadFaceAccepted | blueprints/faces_api.py:10-43 | accepted exactly when a photo is sent, the stripped name is nonempty and the file name is nonempty and png/jpg/jpeg; with a photo, a blank name is the error reported |
| FacesApi.UploadFaceStored | blueprints/faces_api.py:34-46 | the name is stripped, and the photo is stored as `<hex>.<ext>` with the lowered extension |
| FacesApi.AddFace | blueprints/faces_api.py:28-62 | a rejected upload changes nothing; an accepted one appends the person, or changes nothing when the insert raises |
| FacesApi.UpdateFace | blueprints/faces_api.py:64-80 | a blank name is a 400 before the lookup, a missing person a 404, both changing nothing; otherwise only that person is renamed |
| FacesApi.DeleteFace | blueprints/faces_api.py:82-93 | a missing person is a 404 with nothing deleted; otherwise exactly that person is removed |
| ProcessingApi.ExistingIds | blueprints/processing_api.py:41-45 | the valid ids are exactly the input ids that exist |
| ProcessingApi.ExistingIdsCount | blueprints/processing_api.py:41-45 | each existing id keeps its number of occurrences; missing ids are dropped |
| ProcessingApi.ExistingIdsConcat | blueprints/processing_api.py:41-45 | the filter keeps the request order |
| ProcessingApi.ProcessVideoAsync | blueprints/processing_api.py:11-29 | 404 and nothing enqueued for a missing video; otherwise one video task enqueued |
| ProcessingApi.FilterExisting | blueprints/processing_api.py:41-45 | the loop computes `ExistingIds` |
| ProcessingApi.ProcessBatchAsync | blueprints/processing_api.py:31-58 | 400 for missing or empty ids and for no valid id, enqueuing nothing; otherwise exactly one batch task with the valid ids, and `video_count` is their number |
| ProcessingApi.StartProcessingQueue | blueprints/processing_api.py:60-69 | the queue is running afterwards; a running queue keeps its workers and inbox; a stopped one gains `max_workers` workers and (the corrected start) loses its leftover stop tasks; the outbox is unchanged; the reply is the new status |
| ProcessingApi.StopProcessingQueue | blueprints/processing_api.py:71-79 | not running, no workers, one stop task per worker slot appended |
| ProcessingApi.GetProcessingResults | blueprints/processing_api.py:89-99 | removes and reports the oldest `min(limit, pending)` results, the limit defaulting to 10, with `count == len(results)` |
| ProcessingApi.ScheduleCleanup | blueprints/processing_api.py:101-113 | enqueues one cleanup task; the type defaults to `general` |


The functions below define a computation of the source and carry no contract of their own. The rows of the members named after each one state their properties.

- `Utils.FormatTime` (utils.py:3-8): `Utils.FormatTimeRoundTrip`.
- `EmotionDetection.BasicEmotion`: `EmotionDetection.BasicEmotionRule`.
- `EmotionDetection.Analyze`: `EmotionDetection.AnalyzeAligned`, `EmotionDetection.Detected`.
- `EmotionDetection.Tally`: `EmotionDetection.TallyLookup`, `EmotionDetection.TallySum`, `EmotionDetection.TallyStep`, `EmotionDetection.CountFrame`.
- `EmotionDetection.Dominant`: `EmotionDetection.DominantIsFirstMax`, `EmotionDetection.DominantMostFrequent`, `EmotionDetection.SummaryConsistent`.
- `AdvancedSearch.TextSearch`: `AdvancedSearch.TextSearchBound`.
- `AdvancedSearch.DatePatternQuery`: `AdvancedSearch.DatePatternDispatch`.
- `AdvancedSearch.OrderByAsWritten`: `AdvancedSearch.PastedPlaceholder`, `AdvancedSearch.SortOrderPlaceholder`, `AdvancedSearch.OrderByDefaults`.
- `AdvancedSearch.OrderBy`: `AdvancedSearch.OrderByDefaults`, `AdvancedSearch.OrderByPlain`, `AdvancedSearch.Search`.
- `AdvancedSearch.Conditions` and `AdvancedSearch.Params`: `AdvancedSearch.CollectConditions`, `AdvancedSearch.FiltersBound`, `AdvancedSearch.ConditionsEmpty`, `AdvancedSearch.Search`.
- `Tasks.VideoTask`: `Tasks.VideoTaskEffect`, `Tasks.VideoTaskKeeps`, `Tasks.ProcessVideoTask`.
- `Tasks.BatchTask`: `Tasks.BatchAccounting`, `Tasks.ProcessBatchTask`.
- `Tasks.RunTask`: `Tasks.RunTaskKinds`, `Tasks.ProcessTask`.
- `VideoProcessor.Hits`: `VideoProcessor.HitsAtMostFaces`, `VideoProcessor.HitsTimes`, `VideoProcessor.HitsSnoc`.
- `VideoProcessor.Detections`: `VideoProcessor.AnalyzeVideoFaces`, `VideoProcessor.EmptyGallery`, `VideoProcessor.DetectionsShape`, `VideoProcessor.AttributeFirstByName`.
- `VideoProcessor.Job`: `VideoProcessor.JobAppearances`, `VideoProcessor.ProcessVideo`.
- `VideoProcessor.ResultBlob`: `VideoProcessor.ResultBlobKeys`, `VideoProcessor.ResultBlobValue`.
- `VideoProcessorDemo.Detections`: `VideoProcessorDemo.DetectionsLookup`, `VideoProcessorDemo.AnalyzeVideoFaces`.
- `VideoProcessorDemo.Assigned`: `VideoProcessorDemo.AssignedLookup`.

## Left out

- **Threads:** the `threading.Thread` workers, the daemon flag, `join(timeout=5)`, `queue.get(timeout=1)` and `task_done` are not modelled. One worker-loop iteration is `Tasks.TaskQueue.WorkerStep`, and interleavings are not modelled. The empty-queue timeout is the `Idle` outcome.
- **Clocks:** `time.time()` in task ids is the parameter `millis`. The `completed_at`, `processed_at` and `analysis_date` stamps are not modelled.
- **Floating point:** timestamps, brightness, contrast and percentages are exact `real`s. `round(..., 2)` in the result blob is not modelled; the blob keeps exact segments. `np.mean` and `np.std` are exact averages or parameters.
- **Recognition library and Keras:** `VideoCapture`, `face_locations`, `face_encodings`, `compare_faces`, `cvtColor`, `load_model` and `predict` are oracles.
  - A video is a `Footage` of per-frame encodings.
  - A face region's measurements are an `EmotionDetection.Reading`.
  - `load_emotion_model` is the parameter `modelLoaded`.
- **The demo's random draw** (`random.randint`, `random.sample`, `random.uniform`) is the parameter `picks`.
- **The demo's duration probe** (`video_processor_demo.py:45-55`) is not modelled; it only feeds the random draw.
- **SQL execution:**
  - The store's methods state the effect of each statement on the rows.
  - The cleanup task's `DELETE` of old notifications is not modelled: it depends on a clock.
  - The cleanup task's temporary-file deletion is the parameter `removed`.
- **`secure_filename` and `uuid4().hex`** are parameters. File save, remove and `os.path.exists` are parameters or sets, and no file content is modelled.
- **`get_video_duration`** (ffprobe) and **`Video.create`** / the upload's notification in `upload_video` are not modelled. The upload is modelled up to the name it stores.
- **`ensure_instance_folders`** is not modelled (directory creation).
- **Text.LowerChar:** `str.lower()` is modelled on the characters that lower to ASCII: the ASCII capitals and the KELVIN SIGN. Every other Unicode case mapping is left out. The allowed extensions are ASCII, so the left-out mappings cannot change which file names are accepted.
- **ProcessingApi.StartProcessingQueue** calls the corrected `TaskQueue.Start`, which drops leftover stop tasks on a restart. The start as written is `TaskQueue.StartAsWritten` (see Findings).
- **VideoProcessor.ResultBlob** is a `map`, so the order of the names in the dict `process_video` returns and in the `json.dumps` text stored by `Video.mark_processed` (services/video_processor.py:193-206, services/video_processor_demo.py:157-170) is not modelled. The contracts state which names the blob holds and which segments each name keeps, where a later person of the same name replaces the earlier value, as in Python.
- **ProcessingApi.ProcessBatchAsync:** a request whose body is not JSON makes `request.get_json()` return `None`, so `data.get` raises and the route answers 500. This is not modelled: `videoIds` is the optional `video_ids` field of a JSON body.
- **ProcessingApi.ScheduleCleanup:** a JSON body whose `type` is an explicit `null` is folded into the `general` default. The source would enqueue `None` and the task would report `cleanup_type: None`; the model's `cleanupType` is the optional `type` field.
- **Catalog.PersonsByName** keeps rows of equal name in table order. SQL leaves that order open, so every contract about the listing promises only name order and the same rows.
- **`lstrip`/`rstrip`** are not separate members. `Text.Strip` cuts both ends by index.
- **`Tasks.TaskQueue`:** `max_workers` is a `nat`. A negative value, which Python's `range` would treat as 0, is not modelled.
- **`FacesApi.UpdateFace`:** a body that is not JSON makes `request.get_json()` return `None`, and the route then fails with 500. This is not modelled: `newName` is the optional field. An exception from `Person.update_name` (the 400 branch) is not modelled either, because the store's rename cannot fail.
- **Routes not modelled:**
  - the emotion routes of `processing_api.py`;
  - `get_processing_status`, which only returns the status `Tasks.TaskQueue.GetQueueStatus` computes;
  - `get_all_videos`, `get_all_faces`, `delete_video` and the notification and search blueprints.
  These are thin wrappers around SQL or around members already modelled.
- **Notifications:** their message text and icon are not modelled, only their level and title.
- **Catalog.RowsFor:** the selection of `get_by_video` is modelled as a filter in table order. Its join with persons and its `ORDER BY start_time` are not modelled.
- **`Person.delete` cascade:** its effect on appearances is not modelled, because it lives in the database schema.
- **Emotion extras:** `analyze_video_emotions` (`VideoCapture` seeking), `get_emotion_statistics_by_person` (a fixed example structure) and `save_emotion_data` (SQL) are not modelled.
- **Search extras:** `search_similar_videos`, `get_popular_tags` and `get_date_range_stats` are fixed SQL texts and are not modelled.
- **AdvancedSearch.Search:**
  - The SQL whitespace is normalised to single spaces.
  - The `limit` filter is an integer; a non-numeric limit pasted into the text is not modelled.
  - A missing filter and a falsy one are collapsed into the falsy value.
  - A JSON `null` `sort_order` (pasted as `None`) is not modelled.
- **Emotion summary:** `average_confidence` is 0 for an empty timeline, as in the source. The mean of a list of exact reals stands for `np.mean`.

## Findings

| source | as written | input that shows it | evidently intended | confidence | as-written member | corrected member |
|---|---|---|---|---|---|---|
| services/task_queue.py:22-58 | `stop` puts one stop task per worker, but a worker that sees `running` false after its current task exits without taking one. A later `start` leaves those stop tasks in the inbox, and the new workers end on them. | Two workers both busy; `stop`; both tasks finish; `start`; `add_cleanup_task`; two worker steps. Both steps end on stale stop tasks, the cleanup task is never run, and the status still reports 2 workers. | A restart discards leftover stop tasks, so the new workers run the pending tasks. | not executed | Tasks.RestartAsWritten, Tasks.TaskQueue.StartAsWritten | Tasks.Restart, Tasks.TaskQueue.Start, ProcessingApi.StartProcessingQueue |
| blueprints/videos_api.py:50-54 | The guard checks the uploaded name, but the extension is taken from `secure_filename`'s result. That result may have lost the dot, and `rsplit('.', 1)[1]` then raises `IndexError`. | Filename `.mp4`: it is allowed, is sanitised to `mp4`, and the upload answers 500. | The extension is taken from the name that was checked, as `faces_api.py:45` does. | not executed | VideosApi.HiddenNameUpload, VideosApi.UploadVideoAsWritten | VideosApi.UploadVideoStored, VideosApi.UploadVideo |
| services/advanced_search_service.py:112-121 | `sort_order` is pasted into the SQL text unchecked. | `sort_by` `date` with `sort_order` `?`: the query has one more placeholder than parameters, and the database refuses the binding. (Any other text is injected as SQL.) | The direction is restricted to the documented `ASC` or `DESC`. | not executed | AdvancedSearch.SortOrderPlaceholder, AdvancedSearch.PastedPlaceholder | AdvancedSearch.OrderByDefaults, AdvancedSearch.Search |
