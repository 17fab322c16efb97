/** The persistence the pipeline reads and writes: the persons, videos,
    video_appearances and notifications tables, held by one `Store` object.
    Its methods are the row operations of models.py that the pipeline calls,
    plus `Notify`, which stands for the `Notification.create` calls of the
    task queue and the video routes (that class is not part of this model).
    SQL itself is not modelled; each operation is stated as its effect on
    the rows. */
module Catalog {
  import opened Common
  import opened Smoothing

  type VideoId = int

  datatype PersonRow = PersonRow(id: PersonId, name: string, photoPath: string)

  /** The `analysis_result` JSON blob written when a video is marked
      processed: person name -> segments.  A `map`: each name's segments
      are kept, the order of the names is not. */
  type AnalysisBlob = map<string, seq<Segment>>

  datatype VideoRow = VideoRow(
    id: VideoId,
    filename: string,
    originalFilename: string,
    filePath: string,
    processed: bool,
    analysis: Option<AnalysisBlob>)

  datatype AppearanceRow = AppearanceRow(videoId: VideoId, personId: PersonId, start: real, end: real)

  datatype Level = LevelInfo | LevelSuccess | LevelWarning | LevelError

  /** A row of the notifications table (the message text is not modelled). */
  datatype Notice = Notice(level: Level, title: string)

  /** `Person.get_by_id`. */
  function PersonById(persons: seq<PersonRow>, id: PersonId): (r: Option<PersonRow>)
    ensures r.Some? ==> r.value in persons && r.value.id == id
    ensures r.None? <==> forall i :: 0 <= i < |persons| ==> persons[i].id != id
  {
    if persons == [] then None
    else if persons[0].id == id then Some(persons[0])
    else PersonById(persons[1..], id)
  }

  // ---------------------------------------------------------------------
  // `Person.get_all`: the persons ordered by name

  /** The order of `ORDER BY name` under SQLite's default BINARY collation:
      character by character, a proper prefix before its extensions. */
  predicate NameLe(a: string, b: string)
  {
    a == [] || (b != [] && (a[0] < b[0] || (a[0] == b[0] && NameLe(a[1..], b[1..]))))
  }

  lemma {:induction false} NameLeTotal(a: string, b: string)
    ensures NameLe(a, b) || NameLe(b, a)
  {
    if a != [] && b != [] && a[0] == b[0] {
      NameLeTotal(a[1..], b[1..]);
    }
  }

  lemma {:induction false} NameLeReflexive(a: string)
    ensures NameLe(a, a)
  {
    if a != [] {
      NameLeReflexive(a[1..]);
    }
  }

  lemma {:induction false} NameLeTransitive(a: string, b: string, c: string)
    requires NameLe(a, b) && NameLe(b, c)
    ensures NameLe(a, c)
  {
    if a != [] && b != [] && c != [] && a[0] == b[0] == c[0] {
      NameLeTransitive(a[1..], b[1..], c[1..]);
    }
  }

  /** The rows are listed in name order. */
  predicate ByName(persons: seq<PersonRow>)
  {
    forall i, j :: 0 <= i < j < |persons| ==> NameLe(persons[i].name, persons[j].name)
  }

  /** One row placed before the first row whose name does not sort below
      its own. */
  function InsertByName(p: PersonRow, persons: seq<PersonRow>): (r: seq<PersonRow>)
    ensures |r| == |persons| + 1
    ensures multiset(r) == multiset(persons) + multiset{p}
  {
    if persons == [] || NameLe(p.name, persons[0].name) then [p] + persons
    else
      assert persons == [persons[0]] + persons[1..];
      [persons[0]] + InsertByName(p, persons[1..])
  }

  /** A row whose name sorts at or before the head of a listing in name
      order can be put in front of it. */
  lemma ByNameCons(p: PersonRow, persons: seq<PersonRow>)
    requires ByName(persons)
    requires persons != [] ==> NameLe(p.name, persons[0].name)
    ensures ByName([p] + persons)
  {
    var r := [p] + persons;
    forall i, j | 0 <= i < j < |r|
      ensures NameLe(r[i].name, r[j].name)
    {
      if i == 0 && j > 1 {
        NameLeTransitive(p.name, persons[0].name, persons[j - 1].name);
      }
    }
  }

  /** Inserting into a listing in name order keeps it in name order. */
  lemma {:induction false} InsertByNameSorted(p: PersonRow, persons: seq<PersonRow>)
    requires ByName(persons)
    ensures var r := InsertByName(p, persons);
      r[0] == (if persons == [] || NameLe(p.name, persons[0].name) then p else persons[0])
      && ByName(r)
  {
    if persons == [] || NameLe(p.name, persons[0].name) {
      ByNameCons(p, persons);
    } else {
      var tail := persons[1..];
      assert ByName(tail) by {
        assert forall i :: 0 <= i < |tail| ==> tail[i] == persons[i + 1];
      }
      InsertByNameSorted(p, tail);
      var rest := InsertByName(p, tail);
      assert NameLe(persons[0].name, rest[0].name) by {
        if tail == [] || NameLe(p.name, tail[0].name) {
          NameLeTotal(p.name, persons[0].name);
        } else {
          assert rest[0] == persons[1];
        }
      }
      ByNameCons(persons[0], rest);
      assert persons == [persons[0]] + tail;
    }
  }

  /** `Person.get_all`: every row of the persons table, in name order.  Rows
      of equal name keep their table order, one of the orders SQL allows. */
  function PersonsByName(persons: seq<PersonRow>): (r: seq<PersonRow>)
    ensures |r| == |persons|
    ensures multiset(r) == multiset(persons)
  {
    if persons == [] then []
    else
      assert persons == [persons[0]] + persons[1..];
      InsertByName(persons[0], PersonsByName(persons[1..]))
  }

  /** The listing is in name order. */
  lemma {:induction false} PersonsByNameSorted(persons: seq<PersonRow>)
    ensures ByName(PersonsByName(persons))
  {
    if persons != [] {
      PersonsByNameSorted(persons[1..]);
      InsertByNameSorted(persons[0], PersonsByName(persons[1..]));
    }
  }

  /** The listing holds exactly the rows of the table. */
  lemma PersonsByNameMembers(persons: seq<PersonRow>, p: PersonRow)
    ensures p in PersonsByName(persons) <==> p in persons
  {
    assert p in PersonsByName(persons) <==> p in multiset(PersonsByName(persons));
    assert p in persons <==> p in multiset(persons);
  }

  /** Listed by name, "Ana" comes before "Zoe" whatever their ids. */
  lemma PersonsByNameExample()
    ensures PersonsByName([PersonRow(1, "Zoe", "zoe.jpg"), PersonRow(2, "Ana", "ana.jpg")])
         == [PersonRow(2, "Ana", "ana.jpg"), PersonRow(1, "Zoe", "zoe.jpg")]
  {
    assert NameLe("Ana", "Zoe");
  }

  /** `UPDATE persons SET name = ? WHERE id = ?`. */
  function RenamePerson(persons: seq<PersonRow>, id: PersonId, name: string): (r: seq<PersonRow>)
    ensures |r| == |persons|
    ensures forall i :: 0 <= i < |persons| ==>
      r[i] == if persons[i].id == id then persons[i].(name := name) else persons[i]
  {
    seq(|persons|, i requires 0 <= i < |persons| => if persons[i].id == id then persons[i].(name := name) else persons[i])
  }

  /** `DELETE FROM persons WHERE id = ?`. */
  function DeletePerson(persons: seq<PersonRow>, id: PersonId): (r: seq<PersonRow>)
    ensures forall x :: x in r <==> x in persons && x.id != id
  {
    if persons == [] then []
    else DeletePerson(persons[..|persons| - 1], id) + (if persons[|persons| - 1].id != id then [persons[|persons| - 1]] else [])
  }

  /** After a rename, looking a person up finds it under the new name and
      every other person as before. */
  lemma {:induction false} RenameLookup(persons: seq<PersonRow>, id: PersonId, name: string, id': PersonId)
    ensures PersonById(RenamePerson(persons, id, name), id')
      == match PersonById(persons, id') {
           case None => None
           case Some(p) => Some(if id' == id then p.(name := name) else p)
         }
  {
    if persons != [] {
      assert RenamePerson(persons, id, name)[1..] == RenamePerson(persons[1..], id, name);
      RenameLookup(persons[1..], id, name, id');
    }
  }

  /** After a delete the person is gone and every other one is still found. */
  lemma {:induction false} DeleteLookup(persons: seq<PersonRow>, id: PersonId, id': PersonId)
    ensures PersonById(DeletePerson(persons, id), id) == None
    ensures id' != id ==> PersonById(DeletePerson(persons, id), id').None? == PersonById(persons, id').None?
  {
  }

  /** The rows `VideoAppearance.create` writes for one person's segments. */
  function SegmentRows(videoId: VideoId, personId: PersonId, segs: seq<Segment>): (rows: seq<AppearanceRow>)
    ensures |rows| == |segs|
    ensures forall i :: 0 <= i < |segs| ==> rows[i] == AppearanceRow(videoId, personId, segs[i].start, segs[i].end)
  {
    seq(|segs|, i requires 0 <= i < |segs| => AppearanceRow(videoId, personId, segs[i].start, segs[i].end))
  }

  /** All rows written for a video's appearances, person by person in
      dictionary order, segment by segment. */
  function RowsOf(videoId: VideoId, apps: Appearances): seq<AppearanceRow>
  {
    if apps == [] then []
    else RowsOf(videoId, apps[..|apps| - 1]) + SegmentRows(videoId, apps[|apps| - 1].key, apps[|apps| - 1].value)
  }

  /** The rows of one video. */
  function RowsFor(rows: seq<AppearanceRow>, videoId: VideoId): (r: seq<AppearanceRow>)
    ensures forall i :: 0 <= i < |r| ==> r[i].videoId == videoId && r[i] in rows
    ensures forall x :: x in rows && x.videoId == videoId ==> x in r
  {
    if rows == [] then []
    else RowsFor(rows[..|rows| - 1], videoId) + (if rows[|rows| - 1].videoId == videoId then [rows[|rows| - 1]] else [])
  }

  /** `DELETE FROM video_appearances WHERE video_id = ?`. */
  function WithoutVideo(rows: seq<AppearanceRow>, videoId: VideoId): (r: seq<AppearanceRow>)
    ensures forall i :: 0 <= i < |r| ==> r[i].videoId != videoId && r[i] in rows
    ensures forall x :: x in rows && x.videoId != videoId ==> x in r
  {
    if rows == [] then []
    else WithoutVideo(rows[..|rows| - 1], videoId) + (if rows[|rows| - 1].videoId != videoId then [rows[|rows| - 1]] else [])
  }

  /** The replace-write of one run: delete the video's rows, then append one
      row per segment. */
  function ReplaceAppearances(rows: seq<AppearanceRow>, videoId: VideoId, apps: Appearances): seq<AppearanceRow>
  {
    WithoutVideo(rows, videoId) + RowsOf(videoId, apps)
  }

  /** `Video.mark_processed`: an UPDATE, so a missing video stays missing. */
  function MarkProcessed(videos: map<VideoId, VideoRow>, videoId: VideoId, blob: AnalysisBlob): (r: map<VideoId, VideoRow>)
    ensures r.Keys == videos.Keys
    ensures forall v :: v in videos && v != videoId ==> r[v] == videos[v]
    ensures videoId in videos ==> r[videoId].processed && r[videoId].analysis == Some(blob)
    ensures videoId in videos ==> r[videoId].filePath == videos[videoId].filePath
  {
    if videoId in videos then videos[videoId := videos[videoId].(processed := true, analysis := Some(blob))]
    else videos
  }

  lemma {:induction false} RowsOfVideo(videoId: VideoId, apps: Appearances)
    ensures forall i :: 0 <= i < |RowsOf(videoId, apps)| ==> RowsOf(videoId, apps)[i].videoId == videoId
    ensures |RowsOf(videoId, apps)| == TotalSegments(apps)
  {
    if apps != [] {
      RowsOfVideo(videoId, apps[..|apps| - 1]);
    }
  }

  lemma {:induction false} RowsForConcat(a: seq<AppearanceRow>, b: seq<AppearanceRow>, videoId: VideoId)
    ensures RowsFor(a + b, videoId) == RowsFor(a, videoId) + RowsFor(b, videoId)
  {
    if b != [] {
      assert (a + b)[..|a + b| - 1] == a + b[..|b| - 1];
      RowsForConcat(a, b[..|b| - 1], videoId);
    } else {
      assert a + b == a;
    }
  }

  lemma {:induction false} RowsForWithout(rows: seq<AppearanceRow>, v: VideoId, w: VideoId)
    ensures RowsFor(WithoutVideo(rows, v), w) == if v == w then [] else RowsFor(rows, w)
  {
    if rows != [] {
      var q := rows[..|rows| - 1];
      var x := rows[|rows| - 1];
      RowsForWithout(q, v, w);
      RowsForConcat(WithoutVideo(q, v), if x.videoId != v then [x] else [], w);
    }
  }

  lemma {:induction false} RowsForAll(rows: seq<AppearanceRow>, v: VideoId)
    requires forall i :: 0 <= i < |rows| ==> rows[i].videoId == v
    ensures RowsFor(rows, v) == rows
  {
    if rows != [] {
      RowsForAll(rows[..|rows| - 1], v);
    }
  }

  lemma {:induction false} RowsForNone(rows: seq<AppearanceRow>, v: VideoId, w: VideoId)
    requires v != w && forall i :: 0 <= i < |rows| ==> rows[i].videoId == v
    ensures RowsFor(rows, w) == []
  {
    if rows != [] {
      RowsForNone(rows[..|rows| - 1], v, w);
    }
  }

  /** After a replace-write the video's rows are exactly one per segment,
      and every other video keeps its rows, in their order. */
  lemma ReplaceAppearancesEffect(rows: seq<AppearanceRow>, v: VideoId, apps: Appearances, w: VideoId)
    ensures RowsFor(ReplaceAppearances(rows, v, apps), v) == RowsOf(v, apps)
    ensures |RowsFor(ReplaceAppearances(rows, v, apps), v)| == TotalSegments(apps)
    ensures w != v ==> RowsFor(ReplaceAppearances(rows, v, apps), w) == RowsFor(rows, w)
  {
    RowsForConcat(WithoutVideo(rows, v), RowsOf(v, apps), v);
    RowsForConcat(WithoutVideo(rows, v), RowsOf(v, apps), w);
    RowsForWithout(rows, v, v);
    RowsForWithout(rows, v, w);
    RowsOfVideo(v, apps);
    RowsForAll(RowsOf(v, apps), v);
    if w != v {
      RowsForNone(RowsOf(v, apps), v, w);
    }
  }

  lemma {:induction false} WithoutVideoIdempotent(rows: seq<AppearanceRow>, v: VideoId)
    ensures WithoutVideo(WithoutVideo(rows, v), v) == WithoutVideo(rows, v)
  {
    if rows != [] {
      var q := rows[..|rows| - 1];
      WithoutVideoIdempotent(q, v);
      WithoutVideoConcat(WithoutVideo(q, v), if rows[|rows| - 1].videoId != v then [rows[|rows| - 1]] else [], v);
    }
  }

  lemma {:induction false} WithoutVideoConcat(a: seq<AppearanceRow>, b: seq<AppearanceRow>, v: VideoId)
    ensures WithoutVideo(a + b, v) == WithoutVideo(a, v) + WithoutVideo(b, v)
  {
    if b != [] {
      assert (a + b)[..|a + b| - 1] == a + b[..|b| - 1];
      WithoutVideoConcat(a, b[..|b| - 1], v);
    } else {
      assert a + b == a;
    }
  }

  lemma {:induction false} WithoutVideoNone(rows: seq<AppearanceRow>, v: VideoId)
    requires forall i :: 0 <= i < |rows| ==> rows[i].videoId == v
    ensures WithoutVideo(rows, v) == []
  {
    if rows != [] {
      WithoutVideoNone(rows[..|rows| - 1], v);
    }
  }

  /** Reprocessing with the same appearances leaves the same table: old rows
      are fully replaced, never duplicated. */
  lemma ReplaceIdempotent(rows: seq<AppearanceRow>, v: VideoId, apps: Appearances)
    ensures ReplaceAppearances(ReplaceAppearances(rows, v, apps), v, apps) == ReplaceAppearances(rows, v, apps)
  {
    var kept, written := WithoutVideo(rows, v), RowsOf(v, apps);
    WithoutVideoConcat(kept, written, v);
    WithoutVideoIdempotent(rows, v);
    RowsOfVideo(v, apps);
    WithoutVideoNone(written, v);
    assert WithoutVideo(kept + written, v) == kept;
  }

  /** A snapshot of the tables, for stating what a sequence of row
      operations does to all of them at once. */
  datatype Tables = Tables(
    persons: seq<PersonRow>,
    videos: map<VideoId, VideoRow>,
    appearances: seq<AppearanceRow>,
    notifications: seq<Notice>)

  /** The database: the tables the pipeline touches. */
  class Store {
    var persons: seq<PersonRow>
    var videos: map<VideoId, VideoRow>
    var appearances: seq<AppearanceRow>
    var notifications: seq<Notice>

    constructor (persons: seq<PersonRow>, videos: map<VideoId, VideoRow>, appearances: seq<AppearanceRow>)
      ensures this.persons == persons && this.videos == videos && this.appearances == appearances
      ensures notifications == []
    {
      this.persons := persons;
      this.videos := videos;
      this.appearances := appearances;
      notifications := [];
    }

    function Snapshot(): Tables
      reads this
    {
      Tables(persons, videos, appearances, notifications)
    }

    /** `Person.create`; the id is the one the database assigned. */
    method CreatePerson(id: PersonId, name: string, photoPath: string)
      modifies this`persons
      ensures persons == old(persons) + [PersonRow(id, name, photoPath)]
    {
      persons := persons + [PersonRow(id, name, photoPath)];
    }

    /** `Person.update_name`. */
    method UpdatePersonName(id: PersonId, name: string)
      modifies this`persons
      ensures persons == RenamePerson(old(persons), id, name)
    {
      persons := RenamePerson(persons, id, name);
    }

    /** `Person.delete`. */
    method RemovePerson(id: PersonId)
      modifies this`persons
      ensures persons == DeletePerson(old(persons), id)
    {
      persons := DeletePerson(persons, id);
    }

    /** `VideoAppearance.delete_by_video`. */
    method DeleteByVideo(videoId: VideoId)
      modifies this`appearances
      ensures appearances == WithoutVideo(old(appearances), videoId)
    {
      appearances := WithoutVideo(appearances, videoId);
    }

    /** `VideoAppearance.create`. */
    method CreateAppearance(videoId: VideoId, personId: PersonId, start: real, end: real)
      modifies this`appearances
      ensures appearances == old(appearances) + [AppearanceRow(videoId, personId, start, end)]
    {
      appearances := appearances + [AppearanceRow(videoId, personId, start, end)];
    }

    /** `Video.mark_processed` (the processed_at clock value is not modelled). */
    method MarkVideoProcessed(videoId: VideoId, blob: AnalysisBlob)
      modifies this`videos
      ensures videos == MarkProcessed(old(videos), videoId, blob)
    {
      videos := MarkProcessed(videos, videoId, blob);
    }

    /** The `Notification.create` calls of the task queue and the video
        routes: one notice appended.  The class itself is not part of this
        model, so only the effect its callers rely on is stated. */
    method Notify(level: Level, title: string)
      modifies this`notifications
      ensures notifications == old(notifications) + [Notice(level, title)]
    {
      notifications := notifications + [Notice(level, title)];
    }
  }
}
