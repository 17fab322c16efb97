/** The recognition job of services/video_processor.py: load the gallery of
    known faces, sample the frames of a video, attribute every face found in
    a sampled frame to the first gallery entry it matches, group the hit
    times per person, smooth them into segments and replace the video's
    appearance rows.

    The recognition library is an oracle: a video is its frame rate and, per
    readable frame, the encodings of the faces found in it; a photo is the
    encodings found in it; `matcher` is `compare_faces` for one pair. */
module VideoProcessor {
  import opened Common
  import opened Smoothing
  import opened Catalog

  const FpsSample: int := 5
  const SmoothingThreshold: real := 3.0
  const UnknownName: string := "Desconocido"

  /** A face encoding (opaque to the model). */
  type Encoding = int

  /** A decoded video: its reported frame rate and, for each frame up to the
      first one that cannot be read, the encodings of the faces in it. */
  datatype Footage = Footage(fps: real, frames: seq<seq<Encoding>>)

  /** What the job can see outside the database: video files, face photos
      and the face comparison of the recognition library. */
  datatype Media = Media(
    footage: map<string, Footage>,
    photos: map<string, seq<Encoding>>,
    matcher: (Encoding, Encoding) -> bool)

  /** The exception that aborts a run: `frame_number / fps` with fps == 0. */
  datatype Fault = ZeroFrameRate

  /** One entry of the gallery of known faces. */
  datatype Known = Known(encoding: Encoding, name: string, id: PersonId)

  /** One recognised face: whose it is and when. */
  datatype Hit = Hit(person: PersonId, time: real)

  // ---------------------------------------------------------------------
  // Gallery

  /** A person can be recognised when the photo exists and a face was
      found in it. */
  predicate Usable(p: PersonRow, photos: map<string, seq<Encoding>>)
  {
    p.photoPath in photos && |photos[p.photoPath]| > 0
  }

  /** The gallery: the first encoding of every usable person, in the order
      the persons are listed; it holds one entry per person exactly when
      every person is usable. */
  function Gallery(persons: seq<PersonRow>, photos: map<string, seq<Encoding>>): (g: seq<Known>)
    ensures |g| <= |persons|
    ensures |g| == |persons| <==> forall i :: 0 <= i < |persons| ==> Usable(persons[i], photos)
  {
    if persons == [] then []
    else
      var n := |persons| - 1;
      var p := persons[n];
      var g := Gallery(persons[..n], photos);
      assert forall i :: 0 <= i < n ==> persons[..n][i] == persons[i];
      if Usable(p, photos) then g + [Known(photos[p.photoPath][0], p.name, p.id)] else g
  }

  predicate NamesInOrder(g: seq<Known>)
  {
    forall i, j :: 0 <= i < j < |g| ==> NameLe(g[i].name, g[j].name)
  }

  /** Built from a listing in name order, the gallery is in name order. */
  lemma {:induction false} GalleryByName(persons: seq<PersonRow>, photos: map<string, seq<Encoding>>)
    requires ByName(persons)
    ensures NamesInOrder(Gallery(persons, photos))
  {
    if persons != [] {
      var n := |persons| - 1;
      var g := Gallery(persons[..n], photos);
      assert ByName(persons[..n]) by {
        assert forall i :: 0 <= i < n ==> persons[..n][i] == persons[i];
      }
      GalleryByName(persons[..n], photos);
      if Usable(persons[n], photos) {
        forall i | 0 <= i < |g|
          ensures NameLe(g[i].name, persons[n].name)
        {
          GallerySound(persons[..n], photos, i);
          var k :| 0 <= k < n && Usable(persons[..n][k], photos)
                   && g[i] == Known(photos[persons[..n][k].photoPath][0], persons[..n][k].name, persons[..n][k].id);
          assert persons[..n][k] == persons[k];
        }
        var last := persons[n];
        var all := g + [Known(photos[last.photoPath][0], last.name, last.id)];
        assert Gallery(persons, photos) == all;
        forall i, j | 0 <= i < j < |all|
          ensures NameLe(all[i].name, all[j].name)
        {
          assert all[i] == g[i];
          if j < |g| {
            assert all[j] == g[j];
            assert NameLe(g[i].name, g[j].name);
          } else {
            assert all[j].name == persons[n].name;
          }
        }
      } else {
        assert Gallery(persons, photos) == g;
      }
    }
  }

  /** Every gallery entry is the first photo encoding of a usable person. */
  lemma {:induction false} GallerySound(persons: seq<PersonRow>, photos: map<string, seq<Encoding>>, j: nat)
    requires j < |Gallery(persons, photos)|
    ensures exists i :: (0 <= i < |persons| && Usable(persons[i], photos)
                         && Gallery(persons, photos)[j] == Known(photos[persons[i].photoPath][0], persons[i].name, persons[i].id))
  {
    var n := |persons| - 1;
    var g := Gallery(persons[..n], photos);
    if j < |g| {
      GallerySound(persons[..n], photos, j);
      var i :| 0 <= i < n && Usable(persons[..n][i], photos)
               && g[j] == Known(photos[persons[..n][i].photoPath][0], persons[..n][i].name, persons[..n][i].id);
      assert persons[..n][i] == persons[i];
    } else {
      assert Gallery(persons, photos)[j] == Known(photos[persons[n].photoPath][0], persons[n].name, persons[n].id);
    }
  }

  /** Without a usable person the gallery is empty. */
  lemma {:induction false} GalleryEmpty(persons: seq<PersonRow>, photos: map<string, seq<Encoding>>)
    requires forall i :: 0 <= i < |persons| ==> !Usable(persons[i], photos)
    ensures Gallery(persons, photos) == []
  {
    if persons != [] {
      GalleryEmpty(persons[..|persons| - 1], photos);
    }
  }

  /** Every usable person is in the gallery. */
  lemma {:induction false} GalleryComplete(persons: seq<PersonRow>, photos: map<string, seq<Encoding>>, i: nat)
    requires i < |persons| && Usable(persons[i], photos)
    ensures Known(photos[persons[i].photoPath][0], persons[i].name, persons[i].id) in Gallery(persons, photos)
  {
    if i < |persons| - 1 {
      assert persons[..|persons| - 1][i] == persons[i];
      GalleryComplete(persons[..|persons| - 1], photos, i);
    }
  }

  /** The gallery of one more person. */
  lemma GalleryStep(persons: seq<PersonRow>, photos: map<string, seq<Encoding>>, i: nat)
    requires i < |persons|
    ensures Gallery(persons[..i + 1], photos)
         == Gallery(persons[..i], photos)
            + if Usable(persons[i], photos) then [Known(photos[persons[i].photoPath][0], persons[i].name, persons[i].id)] else []
  {
    assert persons[..i + 1][..i] == persons[..i];
  }

  function EncodingsOf(g: seq<Known>): (es: seq<Encoding>)
    ensures |es| == |g| && forall i :: 0 <= i < |g| ==> es[i] == g[i].encoding
  {
    seq(|g|, i requires 0 <= i < |g| => g[i].encoding)
  }

  function NamesOf(g: seq<Known>): (ns: seq<string>)
    ensures |ns| == |g| && forall i :: 0 <= i < |g| ==> ns[i] == g[i].name
  {
    seq(|g|, i requires 0 <= i < |g| => g[i].name)
  }

  function IdsOf(g: seq<Known>): (ids: seq<PersonId>)
    ensures |ids| == |g| && forall i :: 0 <= i < |g| ==> ids[i] == g[i].id
  {
    seq(|g|, i requires 0 <= i < |g| => g[i].id)
  }

  /** `load_known_faces`: three index-aligned lists, built from `persons`,
      the rows `Person.get_all` returns (the persons in name order, see
      `Catalog.PersonsByName`). */
  method LoadKnownFaces(persons: seq<PersonRow>, photos: map<string, seq<Encoding>>)
    returns (encodings: seq<Encoding>, names: seq<string>, ids: seq<PersonId>)
    ensures encodings == EncodingsOf(Gallery(persons, photos))
    ensures names == NamesOf(Gallery(persons, photos))
    ensures ids == IdsOf(Gallery(persons, photos))
  {
    encodings, names, ids := [], [], [];
    for i := 0 to |persons|
      invariant encodings == EncodingsOf(Gallery(persons[..i], photos))
      invariant names == NamesOf(Gallery(persons[..i], photos))
      invariant ids == IdsOf(Gallery(persons[..i], photos))
    {
      GalleryStep(persons, photos, i);
      var person := persons[i];
      if person.photoPath in photos {
        var found := photos[person.photoPath];
        if |found| > 0 {
          encodings := encodings + [found[0]];
          names := names + [person.name];
          ids := ids + [person.id];
        }
      }
    }
    assert persons[..|persons|] == persons;
  }

  // ---------------------------------------------------------------------
  // Sampling and attribution

  /** Python's `int()` on a float: truncation toward zero. */
  function Trunc(x: real): int
  {
    if x >= 0.0 then x.Floor else -((-x).Floor)
  }

  /** `max(1, int(fps / FPS_SAMPLE))`: about FPS_SAMPLE analysed frames per
      second of video, and never a step of zero. */
  function SampleInterval(fps: real): (k: nat)
    ensures k >= 1
    ensures fps >= FpsSample as real ==> (k * FpsSample) as real <= fps < ((k + 1) * FpsSample) as real
    ensures fps < (2 * FpsSample) as real ==> k == 1
  {
    Max(1, Trunc(fps / FpsSample as real))
  }

  /** `compare_faces(known_encodings, encoding)`. */
  function Compare(known: seq<Encoding>, e: Encoding, matcher: (Encoding, Encoding) -> bool): (m: seq<bool>)
    ensures |m| == |known| && forall i :: 0 <= i < |known| ==> m[i] == matcher(known[i], e)
  {
    seq(|known|, i requires 0 <= i < |known| => matcher(known[i], e))
  }

  /** `matches.index(True)` guarded by `True in matches`. */
  function FirstTrue(m: seq<bool>): (r: Option<nat>)
    ensures r.None? <==> forall i :: 0 <= i < |m| ==> !m[i]
    ensures r.Some? ==> r.value < |m| && m[r.value] && forall i :: 0 <= i < r.value ==> !m[i]
  {
    if m == [] then None
    else if m[0] then Some(0)
    else match FirstTrue(m[1..]) {
      case None => None
      case Some(i) => Some(i + 1)
    }
  }

  /** The person a face is attributed to: the lowest-index gallery entry
      that matches it, if any. */
  function Attribute(g: seq<Known>, e: Encoding, matcher: (Encoding, Encoding) -> bool): (r: Option<PersonId>)
    ensures r.None? <==> forall i :: 0 <= i < |g| ==> !matcher(g[i].encoding, e)
    ensures r.Some? ==>
              exists i :: (0 <= i < |g| && g[i].id == r.value && matcher(g[i].encoding, e)
                           && forall j :: 0 <= j < i ==> !matcher(g[j].encoding, e))
  {
    match FirstTrue(Compare(EncodingsOf(g), e, matcher)) {
      case None => None
      case Some(i) => Some(g[i].id)
    }
  }

  /** In a gallery in name order, the entry a face is attributed to has the
      least name among the entries that match it. */
  lemma AttributeInNameOrder(g: seq<Known>, e: Encoding, matcher: (Encoding, Encoding) -> bool)
    requires NamesInOrder(g)
    ensures var r := Attribute(g, e, matcher);
      r.Some? ==>
        exists i :: (0 <= i < |g| && g[i].id == r.value && matcher(g[i].encoding, e)
                     && forall j :: 0 <= j < |g| && matcher(g[j].encoding, e) ==> NameLe(g[i].name, g[j].name))
  {
    var r := Attribute(g, e, matcher);
    if r.Some? {
      var i :| 0 <= i < |g| && g[i].id == r.value && matcher(g[i].encoding, e)
               && forall j :: 0 <= j < i ==> !matcher(g[j].encoding, e);
      forall j | 0 <= j < |g| && matcher(g[j].encoding, e)
        ensures NameLe(g[i].name, g[j].name)
      {
        if j == i {
          NameLeReflexive(g[i].name);
        }
      }
    }
  }

  /** A face that matches several known persons is attributed to the one
      whose name sorts first: the gallery follows `Person.get_all`, which
      lists the persons by name. */
  lemma AttributeFirstByName(persons: seq<PersonRow>, photos: map<string, seq<Encoding>>, e: Encoding,
                             matcher: (Encoding, Encoding) -> bool)
    ensures var g := Gallery(PersonsByName(persons), photos);
      var r := Attribute(g, e, matcher);
      r.Some? ==>
        exists i :: (0 <= i < |g| && g[i].id == r.value && matcher(g[i].encoding, e)
                     && forall j :: 0 <= j < |g| && matcher(g[j].encoding, e) ==> NameLe(g[i].name, g[j].name))
  {
    PersonsByNameSorted(persons);
    GalleryByName(PersonsByName(persons), photos);
    AttributeInNameOrder(Gallery(PersonsByName(persons), photos), e, matcher);
  }

  /** The hits of the faces of one sampled frame, one per attributed face. */
  function FaceHits(g: seq<Known>, faces: seq<Encoding>, t: real, matcher: (Encoding, Encoding) -> bool): (hs: seq<Hit>)
    ensures |hs| <= |faces|
    ensures forall k :: 0 <= k < |hs| ==> hs[k].time == t
  {
    if faces == [] then []
    else
      FaceHits(g, faces[..|faces| - 1], t, matcher)
      + match Attribute(g, faces[|faces| - 1], matcher) {
          case None => []
          case Some(p) => [Hit(p, t)]
        }
  }

  /** Every hit of the frames, frame by frame: frame `f` is analysed when
      `f % interval == 0` and its faces are stamped `f / fps`. */
  function Hits(g: seq<Known>, frames: seq<seq<Encoding>>, interval: nat, fps: real, matcher: (Encoding, Encoding) -> bool): seq<Hit>
    requires interval >= 1 && fps != 0.0
  {
    if frames == [] then []
    else
      var f := |frames| - 1;
      Hits(g, frames[..f], interval, fps, matcher)
      + if f % interval == 0 then FaceHits(g, frames[f], f as real / fps, matcher) else []
  }

  /** Each face yields at most one hit, and only sampled frames yield any. */
  lemma {:induction false} HitsAtMostFaces(g: seq<Known>, frames: seq<seq<Encoding>>, interval: nat, fps: real, matcher: (Encoding, Encoding) -> bool)
    requires interval >= 1 && fps != 0.0
    ensures |Hits(g, frames, interval, fps, matcher)| <= SampledFaces(frames, interval)
  {
    if frames != [] {
      HitsAtMostFaces(g, frames[..|frames| - 1], interval, fps, matcher);
    }
  }

  /** The number of faces in the sampled frames. */
  function SampledFaces(frames: seq<seq<Encoding>>, interval: nat): nat
    requires interval >= 1
  {
    if frames == [] then 0
    else
      var f := |frames| - 1;
      SampledFaces(frames[..f], interval) + if f % interval == 0 then |frames[f]| else 0
  }

  predicate InOrder(hs: seq<Hit>)
  {
    forall i, j :: 0 <= i < j < |hs| ==> hs[i].time <= hs[j].time
  }

  /** With a positive frame rate every hit time lies in `[0, (n-1)/fps]` for
      n frames, and the hits come in time order. */
  lemma {:induction false} HitsTimes(g: seq<Known>, frames: seq<seq<Encoding>>, interval: nat, fps: real, matcher: (Encoding, Encoding) -> bool)
    requires interval >= 1 && fps > 0.0
    ensures var hs := Hits(g, frames, interval, fps, matcher);
      InOrder(hs) && forall k :: 0 <= k < |hs| ==> 0.0 <= hs[k].time <= (|frames| - 1) as real / fps
  {
    if frames != [] {
      var f := |frames| - 1;
      var prev := Hits(g, frames[..f], interval, fps, matcher);
      var last := if f % interval == 0 then FaceHits(g, frames[f], f as real / fps, matcher) else [];
      HitsTimes(g, frames[..f], interval, fps, matcher);
      assert (f - 1) as real / fps <= f as real / fps by {
        assert (f - 1) as real <= f as real;
      }
      assert 0.0 <= f as real / fps;
      var hs := prev + last;
      forall i, j | 0 <= i < j < |hs|
        ensures hs[i].time <= hs[j].time
      {
        if j >= |prev| && i < |prev| {
          assert hs[i] == prev[i];
        }
      }
    }
  }

  // ---------------------------------------------------------------------
  // The detections dictionary

  /** `detections[person_id].append(timestamp)`, creating the entry first. */
  function AddHit(d: Timelines, h: Hit): (r: Timelines)
    ensures DistinctKeys(d) ==> DistinctKeys(r)
  {
    match IndexOf(d, h.person) {
      case Some(i) => d[i := Pair(h.person, d[i].value + [h.time])]
      case None => d + [Pair(h.person, [h.time])]
    }
  }

  function Group(hs: seq<Hit>): Timelines
  {
    if hs == [] then [] else AddHit(Group(hs[..|hs| - 1]), hs[|hs| - 1])
  }

  /** The times of one person's hits, in hit order. */
  function TimesOf(hs: seq<Hit>, p: PersonId): seq<real>
  {
    if hs == [] then []
    else TimesOf(hs[..|hs| - 1], p) + if hs[|hs| - 1].person == p then [hs[|hs| - 1].time] else []
  }

  lemma {:induction false} GroupDistinct(hs: seq<Hit>)
    ensures DistinctKeys(Group(hs))
  {
    if hs != [] {
      GroupDistinct(hs[..|hs| - 1]);
    }
  }

  /** Adding a hit extends the hit person's list, or starts it, and leaves
      every other person's list as it was. */
  lemma AddHitLookup(d: Timelines, h: Hit, p: PersonId)
    requires DistinctKeys(d)
    ensures Lookup(AddHit(d, h), p)
         == if p != h.person then Lookup(d, p)
            else if Lookup(d, p).None? then Some([h.time])
            else Some(Lookup(d, p).value + [h.time])
  {
    match IndexOf(d, h.person) {
      case Some(i) =>
        LookupReplace(d, i, d[i].value + [h.time], p);
        if p == h.person {
          LookupAtIndex(d, i);
        }
      case None =>
        assert (d + [Pair(h.person, [h.time])])[..|d|] == d;
    }
  }

  /** The detections dictionary maps a person to exactly the times of that
      person's hits, in the order they were found, and has no entry for a
      person never recognised. */
  lemma {:induction false} GroupLookup(hs: seq<Hit>, p: PersonId)
    ensures Lookup(Group(hs), p) == if TimesOf(hs, p) == [] then None else Some(TimesOf(hs, p))
  {
    if hs != [] {
      var q := hs[..|hs| - 1];
      var h := hs[|hs| - 1];
      GroupLookup(q, p);
      GroupDistinct(q);
      AddHitLookup(Group(q), h, p);
      assert Group(hs) == AddHit(Group(q), h);
      var before, after := TimesOf(q, p), TimesOf(hs, p);
      if p == h.person {
        assert after == before + [h.time];
        assert after != [];
        if before == [] {
          assert after == [h.time];
        }
      } else {
        assert after == before;
      }
    }
  }

  /** Every time stored in the dictionary is the time of a hit, so a bound
      on the hits bounds the dictionary. */
  lemma {:induction false} GroupBound(hs: seq<Hit>, bound: real)
    requires forall k :: 0 <= k < |hs| ==> hs[k].time <= bound
    ensures forall k, i :: 0 <= k < |Group(hs)| && 0 <= i < |Group(hs)[k].value| ==> Group(hs)[k].value[i] <= bound
  {
    if hs != [] {
      GroupBound(hs[..|hs| - 1], bound);
    }
  }

  /** Hits in time order give every person a nondecreasing list of times. */
  lemma {:induction false} GroupSorted(hs: seq<Hit>)
    requires InOrder(hs)
    ensures forall k :: 0 <= k < |Group(hs)| ==> Sorted(Group(hs)[k].value)
  {
    if hs != [] {
      var q := hs[..|hs| - 1];
      var h := hs[|hs| - 1];
      GroupSorted(q);
      GroupBound(q, h.time);
      var d := Group(q);
      match IndexOf(d, h.person) {
        case Some(i) =>
          var v := d[i].value + [h.time];
          assert Sorted(v) by {
            forall a, b | 0 <= a < b < |v|
              ensures v[a] <= v[b]
            {
              if b == |v| - 1 {
                assert v[a] == d[i].value[a];
              }
            }
          }
        case None =>
          var r := d + [Pair(h.person, [h.time])];
          assert Group(hs) == r;
          forall k | 0 <= k < |r|
            ensures Sorted(r[k].value)
          {
            if k < |d| {
              assert r[k] == d[k];
            }
          }
      }
    }
  }

  // ---------------------------------------------------------------------
  // The analysis

  /** The footage of a path; a file that cannot be opened reads as no frames. */
  function FootageAt(media: Media, path: string): Footage
  {
    if path in media.footage then media.footage[path] else Footage(0.0, [])
  }

  /** What `analyze_video_faces` returns: nothing when the gallery is empty,
      the ZeroDivisionError when a frame is sampled at fps 0, and otherwise
      the hits grouped per person. */
  function Detections(persons: seq<PersonRow>, media: Media, path: string): Result<Timelines, Fault>
  {
    var g := Gallery(PersonsByName(persons), media.photos);
    var footage := FootageAt(media, path);
    if g == [] then Success([])
    else if footage.fps == 0.0 then (if footage.frames == [] then Success([]) else Failure(ZeroFrameRate))
    else Success(Group(Hits(g, footage.frames, SampleInterval(footage.fps), footage.fps, media.matcher)))
  }

  /** An empty gallery yields an empty dictionary, whatever the video. */
  lemma EmptyGallery(persons: seq<PersonRow>, media: Media, path: string)
    requires forall i :: 0 <= i < |persons| ==> !Usable(persons[i], media.photos)
    ensures Detections(persons, media, path) == Success([])
  {
    var listed := PersonsByName(persons);
    forall i | 0 <= i < |listed|
      ensures !Usable(listed[i], media.photos)
    {
      PersonsByNameMembers(persons, listed[i]);
    }
    GalleryEmpty(listed, media.photos);
  }

  /** The dictionary of a successful analysis: one entry per recognised
      person, holding that person's hit times in nondecreasing order. */
  lemma DetectionsShape(persons: seq<PersonRow>, media: Media, path: string)
    requires Detections(persons, media, path).Success?
    ensures var d := Detections(persons, media, path).value;
      DistinctKeys(d) && (forall k :: 0 <= k < |d| ==> |d[k].value| > 0)
      && (FootageAt(media, path).fps > 0.0 ==> forall k :: 0 <= k < |d| ==> Sorted(d[k].value))
  {
    var g := Gallery(PersonsByName(persons), media.photos);
    var footage := FootageAt(media, path);
    if g != [] && footage.fps != 0.0 {
      var hs := Hits(g, footage.frames, SampleInterval(footage.fps), footage.fps, media.matcher);
      GroupDistinct(hs);
      if footage.fps > 0.0 {
        HitsTimes(g, footage.frames, SampleInterval(footage.fps), footage.fps, media.matcher);
        GroupSorted(hs);
      }
      GroupNonEmpty(hs);
    }
  }

  lemma {:induction false} GroupNonEmpty(hs: seq<Hit>)
    ensures forall k :: 0 <= k < |Group(hs)| ==> |Group(hs)[k].value| > 0
  {
    if hs != [] {
      GroupNonEmpty(hs[..|hs| - 1]);
    }
  }

  lemma GroupSnoc(hs: seq<Hit>, h: Hit)
    ensures Group(hs + [h]) == AddHit(Group(hs), h)
  {
    assert (hs + [h])[..|hs|] == hs;
  }

  lemma FaceHitsSnoc(g: seq<Known>, faces: seq<Encoding>, e: Encoding, t: real, matcher: (Encoding, Encoding) -> bool)
    ensures FaceHits(g, faces + [e], t, matcher)
         == FaceHits(g, faces, t, matcher) + if Attribute(g, e, matcher).Some? then [Hit(Attribute(g, e, matcher).value, t)] else []
  {
    assert (faces + [e])[..|faces|] == faces;
  }

  /** The hits after one more face of a frame. */
  lemma FaceHitsPrefix(g: seq<Known>, before: seq<Hit>, faces: seq<Encoding>, k: nat, t: real, matcher: (Encoding, Encoding) -> bool)
    requires k < |faces|
    ensures var a := Attribute(g, faces[k], matcher);
      var found := before + FaceHits(g, faces[..k], t, matcher);
      before + FaceHits(g, faces[..k + 1], t, matcher) == if a.Some? then found + [Hit(a.value, t)] else found
  {
    assert faces[..k + 1] == faces[..k] + [faces[k]];
    FaceHitsSnoc(g, faces[..k], faces[k], t, matcher);
  }

  /** The faces of one sampled frame: each is compared with the gallery and,
      when some entry matches, its time is added under the first match. */
  method AttributeFaces(
    knownEncodings: seq<Encoding>, knownIds: seq<PersonId>, ghost g: seq<Known>,
    faceEncodings: seq<Encoding>, timestamp: real, matcher: (Encoding, Encoding) -> bool,
    detections: Timelines, ghost before: seq<Hit>)
    returns (updated: Timelines)
    requires knownEncodings == EncodingsOf(g) && knownIds == IdsOf(g)
    requires detections == Group(before)
    ensures updated == Group(before + FaceHits(g, faceEncodings, timestamp, matcher))
  {
    updated := detections;
    ghost var found := before;
    assert before + FaceHits(g, faceEncodings[..0], timestamp, matcher) == before;
    for k := 0 to |faceEncodings|
      invariant found == before + FaceHits(g, faceEncodings[..k], timestamp, matcher)
      invariant updated == Group(found)
    {
      FaceHitsPrefix(g, before, faceEncodings, k, timestamp, matcher);
      var matches := Compare(knownEncodings, faceEncodings[k], matcher);
      var first := FirstTrue(matches);
      assert Attribute(g, faceEncodings[k], matcher) == if first.Some? then Some(knownIds[first.value]) else None;
      if first.Some? {
        var personId := knownIds[first.value];
        GroupSnoc(found, Hit(personId, timestamp));
        updated := AddHit(updated, Hit(personId, timestamp));
        found := found + [Hit(personId, timestamp)];
      }
    }
    assert faceEncodings[..|faceEncodings|] == faceEncodings;
  }

  lemma HitsSnoc(g: seq<Known>, frames: seq<seq<Encoding>>, n: nat, interval: nat, fps: real, matcher: (Encoding, Encoding) -> bool)
    requires interval >= 1 && fps != 0.0 && n < |frames|
    ensures Hits(g, frames[..n + 1], interval, fps, matcher)
         == Hits(g, frames[..n], interval, fps, matcher)
            + if n % interval == 0 then FaceHits(g, frames[n], n as real / fps, matcher) else []
  {
    assert frames[..n + 1][..n] == frames[..n];
  }

  /** `analyze_video_faces`: the frame loop, reading until the first frame
      that cannot be read and analysing every `frame_interval`-th one. */
  method AnalyzeVideoFaces(persons: seq<PersonRow>, media: Media, path: string) returns (r: Result<Timelines, Fault>)
    ensures r == Detections(persons, media, path)
  {
    var knownEncodings, knownNames, knownIds := LoadKnownFaces(PersonsByName(persons), media.photos);
    ghost var g := Gallery(PersonsByName(persons), media.photos);
    if |knownEncodings| == 0 {
      return Success([]);
    }
    var video := FootageAt(media, path);
    var fps := video.fps;
    var frameInterval := SampleInterval(fps);
    var detections: Timelines := [];
    var frameNumber := 0;
    assert video.frames[..0] == [];
    while frameNumber < |video.frames|
      invariant 0 <= frameNumber <= |video.frames|
      invariant fps == 0.0 ==> frameNumber == 0 && detections == []
      invariant fps != 0.0 ==> detections == Group(Hits(g, video.frames[..frameNumber], frameInterval, fps, media.matcher))
    {
      if frameNumber % frameInterval == 0 {
        if fps == 0.0 {
          return Failure(ZeroFrameRate);
        }
        var timestamp := frameNumber as real / fps;
        ghost var before := Hits(g, video.frames[..frameNumber], frameInterval, fps, media.matcher);
        HitsSnoc(g, video.frames, frameNumber, frameInterval, fps, media.matcher);
        detections := AttributeFaces(knownEncodings, knownIds, g, video.frames[frameNumber], timestamp, media.matcher,
                                     detections, before);
        assert detections == Group(Hits(g, video.frames[..frameNumber + 1], frameInterval, fps, media.matcher));
      } else {
        ghost var before := Hits(g, video.frames[..frameNumber], frameInterval, fps, media.matcher);
        HitsSnoc(g, video.frames, frameNumber, frameInterval, fps, media.matcher);
        assert before + [] == before;
      }
      frameNumber := frameNumber + 1;
    }
    assert video.frames[..|video.frames|] == video.frames;
    return Success(detections);
  }

  // ---------------------------------------------------------------------
  // The job

  /** The appearances a run computes: the smoothed detections. */
  function Job(persons: seq<PersonRow>, media: Media, path: string): Result<Appearances, Fault>
  {
    match Detections(persons, media, path) {
      case Failure(e) => Failure(e)
      case Success(d) => Success(SmoothAll(d, SmoothingThreshold))
    }
  }

  /** The name under which a person's segments are reported. */
  function PersonName(persons: seq<PersonRow>, id: PersonId): (name: string)
    ensures (exists i :: 0 <= i < |persons| && persons[i].id == id) ==> exists i :: 0 <= i < |persons| && persons[i].id == id && persons[i].name == name
    ensures (forall i :: 0 <= i < |persons| ==> persons[i].id != id) ==> name == UnknownName
  {
    match PersonById(persons, id) {
      case Some(p) => p.name
      case None => UnknownName
    }
  }

  /** The returned (and stored) result: segments by person name; a later
      person of the same name replaces an earlier one. */
  function ResultBlob(persons: seq<PersonRow>, apps: Appearances): AnalysisBlob
  {
    if apps == [] then map[]
    else ResultBlob(persons, apps[..|apps| - 1])[PersonName(persons, apps[|apps| - 1].key) := apps[|apps| - 1].value]
  }

  /** The reported name of every person of the appearances, in order. */
  function NamesIn(persons: seq<PersonRow>, apps: Appearances): (ns: seq<string>)
    ensures |ns| == |apps| && forall k :: 0 <= k < |apps| ==> ns[k] == PersonName(persons, apps[k].key)
  {
    seq(|apps|, k requires 0 <= k < |apps| => PersonName(persons, apps[k].key))
  }

  /** The result names exactly the persons of the appearances. */
  lemma {:induction false} ResultBlobKeys(persons: seq<PersonRow>, apps: Appearances)
    ensures forall n :: n in ResultBlob(persons, apps) <==> n in NamesIn(persons, apps)
  {
    if apps != [] {
      var q := apps[..|apps| - 1];
      ResultBlobKeys(persons, q);
      assert NamesIn(persons, apps) == NamesIn(persons, q) + [PersonName(persons, apps[|apps| - 1].key)];
    }
  }

  /** A person's segments are reported under its name unless a later person
      of the same name overwrote them. */
  lemma {:induction false} ResultBlobValue(persons: seq<PersonRow>, apps: Appearances, k: nat)
    requires k < |apps|
    requires forall l :: k < l < |apps| ==> PersonName(persons, apps[l].key) != PersonName(persons, apps[k].key)
    ensures PersonName(persons, apps[k].key) in ResultBlob(persons, apps)
    ensures ResultBlob(persons, apps)[PersonName(persons, apps[k].key)] == apps[k].value
  {
    var n := |apps| - 1;
    if k < n {
      var q := apps[..n];
      assert q[k] == apps[k];
      forall l | k < l < |q|
        ensures PersonName(persons, q[l].key) != PersonName(persons, q[k].key)
      {
        assert q[l] == apps[l];
      }
      ResultBlobValue(persons, q, k);
    }
  }

  /** The inner loop of `process_video`: one row per segment of a person,
      and the segments as reported. */
  method WriteSegments(store: Store, videoId: VideoId, personId: PersonId, segments: seq<Segment>)
    returns (reported: seq<Segment>)
    modifies store`appearances
    ensures store.appearances == old(store.appearances) + SegmentRows(videoId, personId, segments)
    ensures reported == segments
  {
    reported := [];
    ghost var start := store.appearances;
    for j := 0 to |segments|
      invariant store.appearances == start + SegmentRows(videoId, personId, segments[..j])
      invariant reported == segments[..j]
    {
      assert SegmentRows(videoId, personId, segments[..j + 1])
          == SegmentRows(videoId, personId, segments[..j]) + [AppearanceRow(videoId, personId, segments[j].start, segments[j].end)];
      store.CreateAppearance(videoId, personId, segments[j].start, segments[j].end);
      reported := reported + [segments[j]];
    }
    assert segments[..|segments|] == segments;
  }

  lemma SaveStep(persons: seq<PersonRow>, videoId: VideoId, apps: Appearances, i: nat)
    requires i < |apps|
    ensures RowsOf(videoId, apps[..i + 1]) == RowsOf(videoId, apps[..i]) + SegmentRows(videoId, apps[i].key, apps[i].value)
    ensures ResultBlob(persons, apps[..i + 1]) == ResultBlob(persons, apps[..i])[PersonName(persons, apps[i].key) := apps[i].value]
  {
    assert apps[..i + 1][..i] == apps[..i];
  }

  /** One person of the saving loop: look the name up (`Desconocido` when
      the person is gone) and insert the person's segments. */
  method SavePerson(store: Store, videoId: VideoId, personId: PersonId, segments: seq<Segment>)
    returns (personName: string, reported: seq<Segment>)
    modifies store`appearances
    ensures store.appearances == old(store.appearances) + SegmentRows(videoId, personId, segments)
    ensures personName == PersonName(store.persons, personId) && reported == segments
  {
    var person := PersonById(store.persons, personId);
    personName := if person.Some? then person.value.name else UnknownName;
    // `result[person_name] = []`, filled by the inner loop
    reported := WriteSegments(store, videoId, personId, segments);
  }

  /** The loop over the persons of `process_video`'s saving half: insert
      one row per segment, person by person, and collect the result. */
  method WriteAppearances(store: Store, videoId: VideoId, appearances: Appearances) returns (result: AnalysisBlob)
    modifies store`appearances
    ensures store.appearances == old(store.appearances) + RowsOf(videoId, appearances)
    ensures result == ResultBlob(store.persons, appearances)
  {
    result := map[];
    ghost var start := store.appearances;
    for i := 0 to |appearances|
      invariant store.appearances == start + RowsOf(videoId, appearances[..i])
      invariant result == ResultBlob(store.persons, appearances[..i])
    {
      SaveStep(store.persons, videoId, appearances, i);
      ghost var before := RowsOf(videoId, appearances[..i]);
      var personName, reported := SavePerson(store, videoId, appearances[i].key, appearances[i].value);
      AppendAssoc(start, before, SegmentRows(videoId, appearances[i].key, appearances[i].value));
      result := result[personName := reported];
    }
    assert appearances[..|appearances|] == appearances;
  }

  /** The saving half of `process_video`: delete the video's rows, insert
      one row per segment, person by person, and mark the video processed
      with the result. */
  method SaveAppearances(store: Store, videoId: VideoId, appearances: Appearances) returns (result: AnalysisBlob)
    modifies store
    ensures store.persons == old(store.persons) && store.notifications == old(store.notifications)
    ensures result == ResultBlob(old(store.persons), appearances)
    ensures store.appearances == ReplaceAppearances(old(store.appearances), videoId, appearances)
    ensures store.videos == MarkProcessed(old(store.videos), videoId, result)
  {
    store.DeleteByVideo(videoId);
    result := WriteAppearances(store, videoId, appearances);
    assert store.appearances == ReplaceAppearances(old(store.appearances), videoId, appearances);
    store.MarkVideoProcessed(videoId, result);
  }

  /** `process_video`: analyse, smooth and save.  An exception during the
      analysis leaves the store untouched. */
  method ProcessVideo(store: Store, media: Media, videoId: VideoId, path: string) returns (r: Result<AnalysisBlob, Fault>)
    modifies store
    ensures store.persons == old(store.persons) && store.notifications == old(store.notifications)
    ensures match Job(old(store.persons), media, path) {
      case Failure(e) =>
        r == Failure(e) && store.appearances == old(store.appearances) && store.videos == old(store.videos)
      case Success(apps) =>
        && r == Success(ResultBlob(old(store.persons), apps))
        && store.appearances == ReplaceAppearances(old(store.appearances), videoId, apps)
        && store.videos == MarkProcessed(old(store.videos), videoId, r.value)
    }
  {
    var detections := AnalyzeVideoFaces(store.persons, media, path);
    if detections.Failure? {
      return Failure(detections.error);
    }
    var appearances := SmoothAppearances(detections.value, SmoothingThreshold);
    assert Job(store.persons, media, path) == Success(appearances);
    var result := SaveAppearances(store, videoId, appearances);
    return Success(result);
  }

  /** What a successful run stores for a person: nothing when the person was
      never recognised, otherwise the smoothing of its hit times; and every
      stored list of segments is nonempty, proper and separated by more than
      the threshold. */
  lemma JobAppearances(persons: seq<PersonRow>, media: Media, path: string, p: PersonId)
    requires Detections(persons, media, path).Success?
    ensures var apps := Job(persons, media, path).value;
      && (forall j :: 0 <= j < |apps| ==> apps[j].value != [] && Proper(apps[j].value) && Separated(apps[j].value, SmoothingThreshold))
      && (Detections(persons, media, path).value == [] ==> apps == [])
    ensures var g := Gallery(PersonsByName(persons), media.photos);
      var footage := FootageAt(media, path);
      g != [] && footage.fps != 0.0 ==>
        var ts := TimesOf(Hits(g, footage.frames, SampleInterval(footage.fps), footage.fps, media.matcher), p);
        Lookup(Job(persons, media, path).value, p) == if ts == [] then None else Some(Smooth(SortTimestamps(ts), SmoothingThreshold))
  {
    var d := Detections(persons, media, path).value;
    SmoothAllWellFormed(d, SmoothingThreshold);
    DetectionsShape(persons, media, path);
    var g := Gallery(PersonsByName(persons), media.photos);
    var footage := FootageAt(media, path);
    if g != [] && footage.fps != 0.0 {
      var hs := Hits(g, footage.frames, SampleInterval(footage.fps), footage.fps, media.matcher);
      GroupLookup(hs, p);
      SmoothAllLookup(d, SmoothingThreshold, p);
    }
  }
}
