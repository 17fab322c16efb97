/** The demonstration processor of services/video_processor_demo.py, used
    when the recognition library is missing: every registered person counts
    as known, the detections are drawn at random, and smoothing and saving
    are those of the real job.

    The random draw is a parameter: the persons picked, in the order
    picked, each with the raw timestamps drawn for it. */
module VideoProcessorDemo {
  import opened Common
  import opened Smoothing
  import opened Catalog
  import VideoProcessor

  /** The threshold local to the demo's `smooth_appearances`. */
  const DemoThreshold: real := 3.0

  /** One person chosen by the random draw and the timestamps drawn for it. */
  datatype Pick = Pick(person: PersonId, times: seq<real>)

  /** The three lists of the demo's `load_known_faces`. */
  datatype KnownLists = KnownLists(encodings: seq<int>, names: seq<string>, ids: seq<PersonId>)

  /** Every person `Person.get_all` lists, in name order, is taken as known;
      its stand-in encoding is its position in that listing. */
  function LoadKnownFaces(table: seq<PersonRow>): (known: KnownLists)
    ensures |known.encodings| == |known.names| == |known.ids| == |table|
    ensures forall i :: 0 <= i < |table| ==>
              known.encodings[i] == i && known.names[i] == PersonsByName(table)[i].name
              && known.ids[i] == PersonsByName(table)[i].id
  {
    var persons := PersonsByName(table);
    KnownLists(
      seq(|persons|, i => i),
      seq(|persons|, i requires 0 <= i < |persons| => persons[i].name),
      seq(|persons|, i requires 0 <= i < |persons| => persons[i].id))
  }

  /** `detections[person_id] = sorted(timestamps)` for every pick in turn. */
  function Assigned(picks: seq<Pick>): Timelines
  {
    if picks == [] then []
    else Assign(Assigned(picks[..|picks| - 1]), picks[|picks| - 1].person, SortTimestamps(picks[|picks| - 1].times))
  }

  /** The demo's `analyze_video_faces`: nothing without registered persons,
      otherwise the draw. */
  function Detections(persons: seq<PersonRow>, picks: seq<Pick>): Timelines
  {
    if |LoadKnownFaces(persons).encodings| == 0 then [] else Assigned(picks)
  }

  /** The timestamps of the last pick of a person, if it was picked. */
  function LastTimes(picks: seq<Pick>, p: PersonId): Option<seq<real>>
  {
    if picks == [] then None
    else if picks[|picks| - 1].person == p then Some(picks[|picks| - 1].times)
    else LastTimes(picks[..|picks| - 1], p)
  }

  lemma {:induction false} AssignedLookup(picks: seq<Pick>, p: PersonId)
    ensures DistinctKeys(Assigned(picks))
    ensures Lookup(Assigned(picks), p) == match LastTimes(picks, p) {
      case None => None
      case Some(ts) => Some(SortTimestamps(ts))
    }
  {
    if picks != [] {
      var q := picks[..|picks| - 1];
      var last := picks[|picks| - 1];
      AssignedLookup(q, p);
      AssignLookup(Assigned(q), last.person, SortTimestamps(last.times), p);
      assert Assigned(picks) == Assign(Assigned(q), last.person, SortTimestamps(last.times));
      assert LastTimes(picks, p) == if last.person == p then Some(last.times) else LastTimes(q, p);
    }
  }

  /** A person is in the detections exactly when persons are registered and
      it was picked, and its list is then its drawn timestamps, sorted. */
  lemma DetectionsLookup(persons: seq<PersonRow>, picks: seq<Pick>, p: PersonId)
    ensures DistinctKeys(Detections(persons, picks))
    ensures persons == [] ==> Detections(persons, picks) == []
    ensures persons != [] ==> match Lookup(Detections(persons, picks), p) {
      case None => LastTimes(picks, p).None?
      case Some(ts) => LastTimes(picks, p).Some? && Sorted(ts) && multiset(ts) == multiset(LastTimes(picks, p).value)
    }
  {
    AssignedLookup(picks, p);
  }

  /** The demo's `analyze_video_faces`: the loop over the picked persons. */
  method AnalyzeVideoFaces(persons: seq<PersonRow>, picks: seq<Pick>) returns (detections: Timelines)
    ensures detections == Detections(persons, picks)
  {
    var known := LoadKnownFaces(persons);
    if |known.encodings| == 0 {
      return [];
    }
    detections := [];
    for i := 0 to |picks|
      invariant detections == Assigned(picks[..i])
    {
      assert picks[..i + 1][..i] == picks[..i];
      detections := Assign(detections, picks[i].person, SortTimestamps(picks[i].times));
    }
    assert picks[..|picks|] == picks;
  }

  /** The demo's `smooth_appearances`: the shared smoothing with the demo's
      own threshold. */
  method SmoothAppearances(detections: Timelines) returns (appearances: Appearances)
    ensures appearances == SmoothAll(detections, DemoThreshold)
  {
    appearances := Smoothing.SmoothAppearances(detections, DemoThreshold);
  }

  /** The appearances a demo run computes. */
  function Job(persons: seq<PersonRow>, picks: seq<Pick>): Appearances
  {
    SmoothAll(Detections(persons, picks), DemoThreshold)
  }

  /** What the demo stores: only picked persons with a nonempty draw, each
      with the smoothing of its sorted draw; within a segment consecutive
      timestamps are at most 3.0 apart, between segments more than 3.0,
      and there are never more segments than drawn timestamps. */
  lemma JobAppearances(persons: seq<PersonRow>, picks: seq<Pick>, p: PersonId)
    ensures var apps := Job(persons, picks);
      && TotalSegments(apps) <= TotalTimestamps(Detections(persons, picks))
      && (forall j :: 0 <= j < |apps| ==> apps[j].value != [] && Proper(apps[j].value) && Separated(apps[j].value, DemoThreshold))
    ensures match Lookup(Job(persons, picks), p) {
      case None => persons == [] || LastTimes(picks, p).None? || LastTimes(picks, p).value == []
      case Some(segs) =>
        && persons != [] && LastTimes(picks, p).Some?
        && segs == Smooth(SortTimestamps(LastTimes(picks, p).value), DemoThreshold)
        && GapsWithin(SortTimestamps(LastTimes(picks, p).value), segs, DemoThreshold)
    }
  {
    var dets := Detections(persons, picks);
    SmoothAllWellFormed(dets, DemoThreshold);
    DetectionsLookup(persons, picks, p);
    AssignedLookup(picks, p);
    SmoothAllLookup(dets, DemoThreshold, p);
    match LastTimes(picks, p) {
      case None =>
      case Some(ts) =>
        var sorted := SortTimestamps(ts);
        assert SortTimestamps(sorted) == sorted by {
          SortSorted(sorted);
        }
        if sorted == [] {
          assert |ts| == 0 by {
            assert |multiset(ts)| == |multiset(sorted)|;
          }
        }
        SmoothGapsWithin(sorted, DemoThreshold);
    }
  }

  /** The demo's `process_video`: a missing file returns `{}` without
      touching the store; otherwise the draw is smoothed and saved exactly
      as by the real job. */
  method ProcessVideo(store: Store, files: set<string>, picks: seq<Pick>, videoId: VideoId, path: string)
    returns (result: AnalysisBlob)
    modifies store
    ensures store.persons == old(store.persons) && store.notifications == old(store.notifications)
    ensures path !in files ==>
      result == map[] && store.appearances == old(store.appearances) && store.videos == old(store.videos)
    ensures path in files ==>
      && result == VideoProcessor.ResultBlob(old(store.persons), Job(old(store.persons), picks))
      && store.appearances == ReplaceAppearances(old(store.appearances), videoId, Job(old(store.persons), picks))
      && store.videos == MarkProcessed(old(store.videos), videoId, result)
  {
    if path !in files {
      return map[];
    }
    var detections := AnalyzeVideoFaces(store.persons, picks);
    var appearances := SmoothAppearances(detections);
    result := VideoProcessor.SaveAppearances(store, videoId, appearances);
  }
}
