/** The appearance-smoothing aggregator shared by both video processors.

    A person's detection timestamps are sorted and merged greedily into
    `(start, end)` segments: a timestamp whose distance to the end of the
    open segment is at most the smoothing threshold extends that segment,
    any other timestamp closes it and opens a new one.

    `Smooth` is the specification (it consumes the sorted timestamps one at a
    time, exactly as the loop does); `SmoothTimeline` and `SmoothAppearances`
    are the loops, proved equal to it; the lemmas state what the segments
    mean: gaps inside a segment are at most the threshold, gaps between
    segments exceed it, segments are ordered, disjoint and cover the input. */
module Smoothing {
  import opened Common

  type PersonId = int

  /** A closed interval `[start, end]`, in seconds from the start of the video. */
  datatype Segment = Segment(start: real, end: real)

  /** The detections of one run: person id -> timestamps, in insertion order. */
  type Timelines = seq<Pair<PersonId, seq<real>>>

  /** The smoothed appearances: person id -> segments, in insertion order. */
  type Appearances = seq<Pair<PersonId, seq<Segment>>>

  predicate Sorted(ts: seq<real>)
  {
    forall i, j :: 0 <= i < j < |ts| ==> ts[i] <= ts[j]
  }

  // ---------------------------------------------------------------------
  // sorted(timestamps)
  // ---------------------------------------------------------------------

  function InsertSorted(t: real, ts: seq<real>): (r: seq<real>)
    requires Sorted(ts)
    ensures |r| == |ts| + 1
    ensures r[0] == if ts == [] || t <= ts[0] then t else ts[0]
    ensures Sorted(r)
    ensures multiset(r) == multiset(ts) + multiset{t}
  {
    if ts == [] || t <= ts[0] then [t] + ts
    else
      assert ts == [ts[0]] + ts[1..];
      var rest := InsertSorted(t, ts[1..]);
      var r := [ts[0]] + rest;
      assert Sorted(r) by {
        forall i, j | 0 <= i < j < |r|
          ensures r[i] <= r[j]
        {
          assert r[j] == rest[j - 1];
          if i == 0 {
            assert ts[0] <= rest[0] <= rest[j - 1];
          } else {
            assert r[i] == rest[i - 1];
          }
        }
      }
      r
  }

  /** Python's `sorted` on a list of timestamps: the ascending permutation. */
  function SortTimestamps(ts: seq<real>): (r: seq<real>)
    ensures Sorted(r)
    ensures multiset(r) == multiset(ts)
  {
    if ts == [] then []
    else
      assert ts == [ts[0]] + ts[1..];
      InsertSorted(ts[0], SortTimestamps(ts[1..]))
  }

  lemma SortedHeads(a: seq<real>, b: seq<real>)
    requires Sorted(a) && Sorted(b) && multiset(a) == multiset(b) && a != [] && b != []
    ensures a[0] == b[0]
  {
    assert a[0] in multiset(b) && b[0] in multiset(a) by {
      assert a[0] in multiset(a) && b[0] in multiset(b);
    }
    var j :| 0 <= j < |b| && b[j] == a[0];
    var i :| 0 <= i < |a| && a[i] == b[0];
    assert b[0] <= b[j] && a[0] <= a[i];
  }

  lemma MultisetTails(a: seq<real>, b: seq<real>)
    requires a != [] && b != [] && a[0] == b[0] && multiset(a) == multiset(b)
    ensures multiset(a[1..]) == multiset(b[1..])
  {
    assert a == [a[0]] + a[1..] && b == [b[0]] + b[1..];
    forall e
      ensures multiset(a[1..])[e] == multiset(b[1..])[e]
    {
      assert multiset(a)[e] == multiset{a[0]}[e] + multiset(a[1..])[e];
      assert multiset(b)[e] == multiset{a[0]}[e] + multiset(b[1..])[e];
    }
  }

  /** A sorted arrangement of a multiset is unique. */
  lemma {:induction false} SortedUnique(a: seq<real>, b: seq<real>)
    requires Sorted(a) && Sorted(b) && multiset(a) == multiset(b)
    ensures a == b
  {
    assert |a| == |b| by {
      assert |multiset(a)| == |multiset(b)|;
    }
    if a != [] {
      SortedHeads(a, b);
      MultisetTails(a, b);
      SortedUnique(a[1..], b[1..]);
      assert a == [a[0]] + a[1..] && b == [b[0]] + b[1..];
    }
  }

  /** Sorting an already sorted list changes nothing; in particular sorting
      is idempotent. */
  lemma SortSorted(ts: seq<real>)
    requires Sorted(ts)
    ensures SortTimestamps(ts) == ts
  {
    SortedUnique(SortTimestamps(ts), ts);
  }

  // ---------------------------------------------------------------------
  // The merge pass
  // ---------------------------------------------------------------------

  /** One iteration of the merge loop, on the segments built so far (the
      last of which is the open one): `t` extends the open segment when it is
      at most `threshold` after its end, and opens a new segment otherwise. */
  function Step(prev: seq<Segment>, t: real, threshold: real): (segs: seq<Segment>)
    ensures |prev| <= |segs| <= |prev| + 1
    ensures |segs| > 0 && segs[|segs| - 1].end == t
  {
    if prev == [] then [Segment(t, t)]
    else
      var last := prev[|prev| - 1];
      if t - last.end <= threshold then prev[..|prev| - 1] + [Segment(last.start, t)]
      else prev + [Segment(t, t)]
  }

  /** The segments produced from `ts` (taken in the given order). The last
      timestamp always ends the last segment. */
  function Smooth(ts: seq<real>, threshold: real): (segs: seq<Segment>)
    ensures |segs| <= |ts|
    ensures |segs| == 0 <==> |ts| == 0
    ensures |ts| > 0 ==> segs[|segs| - 1].end == ts[|ts| - 1]
  {
    if |ts| == 0 then [] else Step(Smooth(ts[..|ts| - 1], threshold), ts[|ts| - 1], threshold)
  }

  /** Every segment is a proper interval. */
  ghost predicate Proper(segs: seq<Segment>)
  {
    forall k :: 0 <= k < |segs| ==> segs[k].start <= segs[k].end
  }

  /** Consecutive segments are more than `threshold` apart. */
  ghost predicate Separated(segs: seq<Segment>, threshold: real)
  {
    forall k :: 0 <= k < |segs| - 1 ==> segs[k + 1].start - segs[k].end > threshold
  }

  /** Every segment starts and ends at one of the timestamps. */
  ghost predicate EndpointsFrom(ts: seq<real>, segs: seq<Segment>)
  {
    forall k :: 0 <= k < |segs| ==> segs[k].start in ts && segs[k].end in ts
  }

  /** Every timestamp lies inside some segment. */
  ghost predicate Covers(ts: seq<real>, segs: seq<Segment>)
  {
    forall i :: 0 <= i < |ts| ==> exists k :: 0 <= k < |segs| && segs[k].start <= ts[i] <= segs[k].end
  }

  /** Two consecutive timestamps that fall in one segment are at most
      `threshold` apart. */
  ghost predicate GapsWithin(ts: seq<real>, segs: seq<Segment>, threshold: real)
  {
    forall i, k :: 0 <= i < |ts| - 1 && 0 <= k < |segs| && segs[k].start <= ts[i] && ts[i + 1] <= segs[k].end
      ==> ts[i + 1] - ts[i] <= threshold
  }

  /** Number of consecutive pairs of `ts` more than `threshold` apart. */
  function Breaks(ts: seq<real>, threshold: real): nat
  {
    if |ts| < 2 then 0
    else Breaks(ts[..|ts| - 1], threshold) + (if ts[|ts| - 1] - ts[|ts| - 2] > threshold then 1 else 0)
  }

  lemma PrefixSorted(ts: seq<real>, n: nat)
    requires Sorted(ts) && n <= |ts|
    ensures Sorted(ts[..n])
  {
  }

  /** In a sorted list of two or more, the last but one element is the
      maximum of the elements before the last. */
  lemma SortedPrefixMax(ts: seq<real>)
    requires Sorted(ts) && |ts| > 1
    ensures forall j :: 0 <= j < |ts| - 1 ==> ts[j] <= ts[|ts| - 2]
  {
  }

  /** What the unchanged part of a step looks like. */
  lemma StepShape(prev: seq<Segment>, t: real, threshold: real)
    requires prev != []
    ensures var segs := Step(prev, t, threshold);
      && (forall k :: 0 <= k < |prev| - 1 ==> segs[k] == prev[k])
      && (t - prev[|prev| - 1].end <= threshold ==>
            |segs| == |prev| && segs[|segs| - 1] == Segment(prev[|prev| - 1].start, t))
      && (t - prev[|prev| - 1].end > threshold ==>
            |segs| == |prev| + 1 && segs[|prev| - 1] == prev[|prev| - 1] && segs[|prev|] == Segment(t, t))
  {
  }

  /** A step keeps the segments proper and separated, and draws their
      endpoints from the timestamps seen so far. */
  lemma StepStructure(prev: seq<Segment>, ts: seq<real>, threshold: real)
    requires |ts| > 0
    requires Proper(prev) && Separated(prev, threshold) && EndpointsFrom(ts[..|ts| - 1], prev)
    requires prev != [] ==> prev[|prev| - 1].end <= ts[|ts| - 1]
    ensures var segs := Step(prev, ts[|ts| - 1], threshold);
      && Proper(segs) && Separated(segs, threshold) && EndpointsFrom(ts, segs)
      && (prev != [] ==> segs[0].start == prev[0].start)
  {
    var t := ts[|ts| - 1];
    var segs := Step(prev, t, threshold);
    assert forall x :: x in ts[..|ts| - 1] ==> x in ts;
    assert t in ts;
    if prev != [] {
      StepShape(prev, t, threshold);
    }
  }

  /** Segments are proper, separated by more than the threshold, start and
      end on input timestamps, and the first one starts at the first
      (smallest) timestamp. */
  lemma {:induction false} SmoothStructure(ts: seq<real>, threshold: real)
    requires Sorted(ts)
    ensures Proper(Smooth(ts, threshold))
    ensures Separated(Smooth(ts, threshold), threshold)
    ensures EndpointsFrom(ts, Smooth(ts, threshold))
    ensures |ts| > 0 ==> Smooth(ts, threshold)[0].start == ts[0]
  {
    if |ts| > 0 {
      var p, t := ts[..|ts| - 1], ts[|ts| - 1];
      PrefixSorted(ts, |ts| - 1);
      SmoothStructure(p, threshold);
      var prev := Smooth(p, threshold);
      assert prev != [] ==> prev[|prev| - 1].end <= t by {
        if prev != [] { assert ts[|ts| - 2] <= ts[|ts| - 1]; }
      }
      StepStructure(prev, ts, threshold);
    }
  }

  /** A step keeps every timestamp covered. */
  lemma StepCovers(prev: seq<Segment>, p: seq<real>, t: real, threshold: real)
    requires Covers(p, prev) && Proper(prev)
    requires prev != [] ==> prev[|prev| - 1].end <= t
    ensures Covers(p + [t], Step(prev, t, threshold))
  {
    var segs := Step(prev, t, threshold);
    var ts := p + [t];
    var n := |segs|;
    if prev != [] {
      StepShape(prev, t, threshold);
    }
    forall i | 0 <= i < |ts|
      ensures exists k :: 0 <= k < n && segs[k].start <= ts[i] <= segs[k].end
    {
      if i == |ts| - 1 {
        if prev != [] && t - prev[|prev| - 1].end <= threshold {
          assert segs[n - 1].start <= ts[i] <= segs[n - 1].end;
        } else {
          assert segs[n - 1] == Segment(t, t);
        }
      } else {
        assert ts[i] == p[i];
        var k :| 0 <= k < |prev| && prev[k].start <= p[i] <= prev[k].end;
        if k < |prev| - 1 || t - prev[|prev| - 1].end > threshold {
          assert segs[k] == prev[k];
        } else {
          assert segs[n - 1].start <= ts[i] <= segs[n - 1].end;
        }
      }
    }
  }

  lemma SmoothProper(ts: seq<real>, threshold: real)
    requires Sorted(ts)
    ensures Proper(Smooth(ts, threshold))
  {
    SmoothStructure(ts, threshold);
  }

  /** Every timestamp is inside some segment. */
  lemma {:induction false} SmoothCovers(ts: seq<real>, threshold: real)
    requires Sorted(ts)
    ensures Covers(ts, Smooth(ts, threshold))
  {
    if |ts| > 0 {
      var p := ts[..|ts| - 1];
      PrefixSorted(ts, |ts| - 1);
      SmoothCovers(p, threshold);
      SmoothProper(p, threshold);
      var prev, t := Smooth(p, threshold), ts[|ts| - 1];
      assert prev != [] ==> prev[|prev| - 1].end <= t by {
        if prev != [] { assert ts[|ts| - 2] <= ts[|ts| - 1]; }
      }
      assert ts == p + [t];
      StepCovers(prev, p, t, threshold);
    }
  }

  lemma SmoothEndpoints(ts: seq<real>, threshold: real)
    requires Sorted(ts)
    ensures EndpointsFrom(ts, Smooth(ts, threshold))
  {
    SmoothStructure(ts, threshold);
  }

  /** A step that extends the open segment keeps consecutive timestamps
      that share a segment close. */
  lemma StepGapsExtend(prev: seq<Segment>, ts: seq<real>, threshold: real)
    requires |ts| > 1
    requires forall j :: 0 <= j < |ts| - 1 ==> ts[j] <= ts[|ts| - 2]
    requires GapsWithin(ts[..|ts| - 1], prev, threshold)
    requires prev != [] && prev[|prev| - 1].end == ts[|ts| - 2]
    requires ts[|ts| - 1] - prev[|prev| - 1].end <= threshold
    ensures GapsWithin(ts, Step(prev, ts[|ts| - 1], threshold), threshold)
  {
    var p, t := ts[..|ts| - 1], ts[|ts| - 1];
    var segs := Step(prev, t, threshold);
    var m := |prev|;
    StepShape(prev, t, threshold);
    forall i, k | 0 <= i < |ts| - 2 && 0 <= k < |segs|
      ensures segs[k].start <= ts[i] && ts[i + 1] <= segs[k].end ==> ts[i + 1] - ts[i] <= threshold
    {
      assert ts[i] == p[i] && ts[i + 1] == p[i + 1];
      if k < m - 1 {
        assert segs[k] == prev[k];
      } else {
        assert ts[i + 1] <= ts[|ts| - 2];
      }
    }
  }

  /** A step that opens a new segment keeps consecutive timestamps that
      share a segment close: the new timestamp shares none with its
      predecessor. */
  lemma StepGapsOpen(prev: seq<Segment>, ts: seq<real>, threshold: real)
    requires threshold >= 0.0 && |ts| > 1
    requires forall j :: 0 <= j < |ts| - 1 ==> ts[j] <= ts[|ts| - 2]
    requires GapsWithin(ts[..|ts| - 1], prev, threshold)
    requires forall k :: 0 <= k < |prev| ==> prev[k].end <= ts[|ts| - 2]
    requires prev != [] && prev[|prev| - 1].end == ts[|ts| - 2]
    requires ts[|ts| - 1] - prev[|prev| - 1].end > threshold
    ensures GapsWithin(ts, Step(prev, ts[|ts| - 1], threshold), threshold)
  {
    var p, t := ts[..|ts| - 1], ts[|ts| - 1];
    var segs := Step(prev, t, threshold);
    var m := |prev|;
    StepShape(prev, t, threshold);
    forall i, k | 0 <= i < |ts| - 1 && 0 <= k < |segs|
      ensures segs[k].start <= ts[i] && ts[i + 1] <= segs[k].end ==> ts[i + 1] - ts[i] <= threshold
    {
      if k < m {
        assert segs[k] == prev[k];
        if i < |ts| - 2 {
          assert ts[i] == p[i] && ts[i + 1] == p[i + 1];
        }
      } else {
        assert ts[i] <= ts[|ts| - 2];
      }
    }
  }

  /** Segments whose endpoints are drawn from `p` end at most at its last
      element when that element is its maximum. */
  lemma EndsBelow(prev: seq<Segment>, p: seq<real>)
    requires p != [] && EndpointsFrom(p, prev)
    requires forall j :: 0 <= j < |p| ==> p[j] <= p[|p| - 1]
    ensures forall k :: 0 <= k < |prev| ==> prev[k].end <= p[|p| - 1]
  {
    forall k | 0 <= k < |prev|
      ensures prev[k].end <= p[|p| - 1]
    {
      var j :| 0 <= j < |p| && p[j] == prev[k].end;
    }
  }

  /** A step keeps consecutive timestamps that share a segment close. */
  lemma StepGapsWithin(prev: seq<Segment>, ts: seq<real>, threshold: real)
    requires threshold >= 0.0 && |ts| > 1
    requires forall j :: 0 <= j < |ts| - 1 ==> ts[j] <= ts[|ts| - 2]
    requires GapsWithin(ts[..|ts| - 1], prev, threshold) && EndpointsFrom(ts[..|ts| - 1], prev)
    requires prev != [] && prev[|prev| - 1].end == ts[|ts| - 2]
    ensures GapsWithin(ts, Step(prev, ts[|ts| - 1], threshold), threshold)
  {
    if ts[|ts| - 1] - prev[|prev| - 1].end <= threshold {
      StepGapsExtend(prev, ts, threshold);
    } else {
      EndsBelow(prev, ts[..|ts| - 1]);
      StepGapsOpen(prev, ts, threshold);
    }
  }

  /** Consecutive sorted timestamps that share a segment differ by at most
      the threshold. */
  lemma {:induction false} SmoothGapsWithin(ts: seq<real>, threshold: real)
    requires Sorted(ts) && threshold >= 0.0
    ensures GapsWithin(ts, Smooth(ts, threshold), threshold)
  {
    if |ts| > 1 {
      var p := ts[..|ts| - 1];
      PrefixSorted(ts, |ts| - 1);
      SmoothGapsWithin(p, threshold);
      SmoothEndpoints(p, threshold);
      SortedPrefixMax(ts);
      StepGapsWithin(Smooth(p, threshold), ts, threshold);
    }
  }

  /** Adjacent separation with a nonnegative threshold orders all segments:
      every segment ends before any later one starts. */
  lemma {:induction false} SeparatedDisjoint(segs: seq<Segment>, threshold: real)
    requires Proper(segs) && Separated(segs, threshold) && threshold >= 0.0
    ensures forall k, l :: 0 <= k < l < |segs| ==> segs[k].end < segs[l].start
  {
    if |segs| > 1 {
      var q := segs[..|segs| - 1];
      assert forall k :: 0 <= k < |q| ==> q[k] == segs[k];
      SeparatedDisjoint(q, threshold);
      forall k, l | 0 <= k < l < |segs|
        ensures segs[k].end < segs[l].start
      {
        if l < |segs| - 1 {
          assert q[k] == segs[k] && q[l] == segs[l];
        } else if k < l - 1 {
          assert q[k].end < q[l - 1].start;
        }
      }
    }
  }

  /** The number of segments is one more than the number of gaps that exceed
      the threshold. */
  lemma {:induction false} SmoothCount(ts: seq<real>, threshold: real)
    ensures |Smooth(ts, threshold)| == if ts == [] then 0 else 1 + Breaks(ts, threshold)
  {
    if |ts| > 1 {
      var p := ts[..|ts| - 1];
      SmoothCount(p, threshold);
      assert p[|p| - 1] == ts[|ts| - 2];
      assert p[..|p| - 1] == ts[..|ts| - 2];
    } else if |ts| == 1 {
      assert ts[..0] == [];
    }
  }

  /** With a nonnegative threshold the segments of sorted timestamps are
      ordered and pairwise disjoint. */
  lemma SmoothOrdered(ts: seq<real>, threshold: real)
    requires Sorted(ts) && threshold >= 0.0
    ensures forall k, l :: 0 <= k < l < |Smooth(ts, threshold)| ==> Smooth(ts, threshold)[k].end < Smooth(ts, threshold)[l].start
  {
    SmoothStructure(ts, threshold);
    SeparatedDisjoint(Smooth(ts, threshold), threshold);
  }

  // ---------------------------------------------------------------------
  // The loops
  // ---------------------------------------------------------------------

  /** Taking one more timestamp is one more step. */
  lemma SmoothPrefixStep(ts: seq<real>, i: nat, threshold: real)
    requires i < |ts|
    ensures Smooth(ts[..i + 1], threshold) == Step(Smooth(ts[..i], threshold), ts[i], threshold)
  {
    assert ts[..i + 1][..i] == ts[..i];
  }

  /** A step on segments whose open one is `(start, end)`. */
  lemma StepOpen(closed: seq<Segment>, start: real, end: real, t: real, threshold: real)
    ensures Step(closed + [Segment(start, end)], t, threshold)
      == if t - end <= threshold then closed + [Segment(start, t)]
         else (closed + [Segment(start, end)]) + [Segment(t, t)]
  {
    var prev := closed + [Segment(start, end)];
    assert prev[|prev| - 1] == Segment(start, end);
    assert prev[..|prev| - 1] == closed;
  }

  /** The merge loop over timestamps taken in the given order. */
  method Merge(ts: seq<real>, threshold: real) returns (segments: seq<Segment>)
    requires |ts| > 0
    ensures segments == Smooth(ts, threshold)
  {
    segments := [];
    var start, end := ts[0], ts[0];
    assert Smooth(ts[..1], threshold) == [Segment(start, end)] by {
      SmoothPrefixStep(ts, 0, threshold);
      assert ts[..0] == [];
    }
    for i := 1 to |ts|
      invariant segments + [Segment(start, end)] == Smooth(ts[..i], threshold)
    {
      SmoothPrefixStep(ts, i, threshold);
      StepOpen(segments, start, end, ts[i], threshold);
      if ts[i] - end <= threshold {
        end := ts[i];
      } else {
        segments := segments + [Segment(start, end)];
        start, end := ts[i], ts[i];
      }
    }
    assert ts[..|ts|] == ts;
    segments := segments + [Segment(start, end)];
  }

  /** The body of the per-person loop: sort, then merge. */
  method SmoothTimeline(timestamps: seq<real>, threshold: real) returns (segments: seq<Segment>)
    requires |timestamps| > 0
    ensures segments == Smooth(SortTimestamps(timestamps), threshold)
  {
    var ts := SortTimestamps(timestamps);
    assert |ts| == |timestamps| by {
      assert |multiset(ts)| == |multiset(timestamps)|;
    }
    segments := Merge(ts, threshold);
  }

  /** The segments of a nonempty list span it: the first starts at its
      minimum, the last ends at its maximum, and a single timestamp `t`
      gives the one segment `(t, t)`. */
  lemma SmoothTimelineBounds(timestamps: seq<real>, threshold: real)
    requires |timestamps| > 0
    ensures var segs := Smooth(SortTimestamps(timestamps), threshold);
      && |segs| >= 1
      && segs[0].start in timestamps && segs[|segs| - 1].end in timestamps
      && (forall t :: t in timestamps ==> segs[0].start <= t <= segs[|segs| - 1].end)
      && (|timestamps| == 1 ==> segs == [Segment(timestamps[0], timestamps[0])])
  {
    SmoothSpan(SortTimestamps(timestamps), timestamps, threshold);
  }

  /** The same for any sorted arrangement `ts` of the timestamps `xs`. */
  lemma SmoothSpan(ts: seq<real>, xs: seq<real>, threshold: real)
    requires Sorted(ts) && multiset(ts) == multiset(xs) && |xs| > 0
    ensures var segs := Smooth(ts, threshold);
      && |segs| >= 1
      && segs[0].start in xs && segs[|segs| - 1].end in xs
      && (forall t :: t in xs ==> segs[0].start <= t <= segs[|segs| - 1].end)
      && (|xs| == 1 ==> segs == [Segment(xs[0], xs[0])])
  {
    SpanOf(ts, xs);
    SmoothFirstStart(ts, threshold);
    if |xs| == 1 {
      assert ts[..0] == [];
    }
  }

  lemma SmoothFirstStart(ts: seq<real>, threshold: real)
    requires Sorted(ts) && |ts| > 0
    ensures Smooth(ts, threshold)[0].start == ts[0]
  {
    SmoothStructure(ts, threshold);
  }

  /** Sorting puts the minimum first and the maximum last. */
  lemma SortedSpan(timestamps: seq<real>)
    requires |timestamps| > 0
    ensures var ts := SortTimestamps(timestamps);
      && |ts| == |timestamps|
      && ts[0] in timestamps && ts[|ts| - 1] in timestamps
      && (forall t :: t in timestamps ==> ts[0] <= t <= ts[|ts| - 1])
      && (|timestamps| == 1 ==> ts == timestamps)
  {
    SpanOf(SortTimestamps(timestamps), timestamps);
  }

  /** A sorted arrangement `ts` of `xs` has the length of `xs`, starts at
      its minimum and ends at its maximum. */
  lemma SpanOf(ts: seq<real>, xs: seq<real>)
    requires Sorted(ts) && multiset(ts) == multiset(xs) && |xs| > 0
    ensures |ts| == |xs|
    ensures ts[0] in xs && ts[|ts| - 1] in xs
    ensures forall t :: t in xs ==> ts[0] <= t <= ts[|ts| - 1]
    ensures |xs| == 1 ==> ts == xs
  {
    assert |ts| == |xs| by {
      assert |multiset(ts)| == |multiset(xs)|;
    }
    assert ts[0] in multiset(ts) && ts[|ts| - 1] in multiset(ts);
    forall t | t in xs
      ensures ts[0] <= t <= ts[|ts| - 1]
    {
      assert t in multiset(ts);
      var i :| 0 <= i < |ts| && ts[i] == t;
    }
    if |xs| == 1 {
      assert ts[0] in multiset(xs);
      assert xs == [ts[0]];
    }
  }

  /** Smoothing of every person of a detection dictionary: persons whose
      list is empty are skipped, the others keep their insertion order. */
  function SmoothAll(dets: Timelines, threshold: real): (apps: Appearances)
    ensures |apps| <= |dets|
  {
    if dets == [] then []
    else
      var rest := SmoothAll(dets[..|dets| - 1], threshold);
      var d := dets[|dets| - 1];
      if d.value == [] then rest
      else rest + [Pair(d.key, Smooth(SortTimestamps(d.value), threshold))]
  }

  /** `smooth_appearances`: the loop over the detection dictionary. */
  method SmoothAppearances(dets: Timelines, threshold: real) returns (apps: Appearances)
    ensures apps == SmoothAll(dets, threshold)
  {
    apps := [];
    for i := 0 to |dets|
      invariant apps == SmoothAll(dets[..i], threshold)
    {
      assert dets[..i + 1][..i] == dets[..i];
      var personId, timestamps := dets[i].key, dets[i].value;
      if timestamps != [] {
        var segments := SmoothTimeline(timestamps, threshold);
        apps := apps + [Pair(personId, segments)];
      }
    }
    assert dets[..|dets|] == dets;
  }

  // ---------------------------------------------------------------------
  // Properties of the whole dictionary
  // ---------------------------------------------------------------------

  /** The entry a person's timestamps contribute to the output. */
  function Entry(ts: seq<real>, threshold: real): Option<seq<Segment>>
  {
    if ts == [] then None else Some(Smooth(SortTimestamps(ts), threshold))
  }

  /** One more person: the lookup in the output changes only for that person. */
  lemma SmoothAllLast(dets: Timelines, threshold: real, p: PersonId)
    requires dets != [] && DistinctKeys(dets)
    ensures var q := dets[..|dets| - 1];
      var d := dets[|dets| - 1];
      Lookup(SmoothAll(dets, threshold), p)
        == if d.key == p then Entry(d.value, threshold) else Lookup(SmoothAll(q, threshold), p)
  {
    var q := dets[..|dets| - 1];
    var d := dets[|dets| - 1];
    var rest := SmoothAll(q, threshold);
    if d.value != [] {
      var x := Pair(d.key, Smooth(SortTimestamps(d.value), threshold));
      assert SmoothAll(dets, threshold) == rest + [x];
      assert (rest + [x])[..|rest|] == rest;
    }
    if d.key == p && d.value == [] {
      SmoothAllKeys(q, threshold, p);
      assert forall i :: 0 <= i < |q| ==> q[i].key != p;
    }
  }

  /** A person absent from the input is absent from the output. */
  lemma {:induction false} SmoothAllKeys(dets: Timelines, threshold: real, p: PersonId)
    requires forall i :: 0 <= i < |dets| ==> dets[i].key != p
    ensures Lookup(SmoothAll(dets, threshold), p) == None
  {
    if dets != [] {
      var q := dets[..|dets| - 1];
      var d := dets[|dets| - 1];
      SmoothAllKeys(q, threshold, p);
      var rest := SmoothAll(q, threshold);
      if d.value != [] {
        var x := Pair(d.key, Smooth(SortTimestamps(d.value), threshold));
        assert SmoothAll(dets, threshold) == rest + [x];
        assert (rest + [x])[..|rest|] == rest;
      }
    }
  }

  /** A person is in the output exactly when its list of timestamps is
      nonempty, and then its segments are those of its sorted timestamps. */
  lemma {:induction false} SmoothAllLookup(dets: Timelines, threshold: real, p: PersonId)
    requires DistinctKeys(dets)
    ensures Lookup(SmoothAll(dets, threshold), p)
      == match Lookup(dets, p)
         case None => None
         case Some(ts) => if ts == [] then None else Some(Smooth(SortTimestamps(ts), threshold))
  {
    if dets != [] {
      var q := dets[..|dets| - 1];
      assert DistinctKeys(q);
      SmoothAllLookup(q, threshold, p);
      SmoothAllLast(dets, threshold, p);
      if dets[|dets| - 1].key == p {
        assert forall i :: 0 <= i < |q| ==> q[i].key != p;
        assert Lookup(q, p) == None;
      }
    }
  }

  function TotalTimestamps(dets: Timelines): nat
  {
    if dets == [] then 0 else TotalTimestamps(dets[..|dets| - 1]) + |dets[|dets| - 1].value|
  }

  function TotalSegments(apps: Appearances): nat
  {
    if apps == [] then 0 else TotalSegments(apps[..|apps| - 1]) + |apps[|apps| - 1].value|
  }

  /** Every person in the output has at least one segment, its segments are
      proper and separated by more than the threshold, and there are never
      more segments than timestamps. */
  lemma {:induction false} SmoothAllWellFormed(dets: Timelines, threshold: real)
    ensures var apps := SmoothAll(dets, threshold);
      && TotalSegments(apps) <= TotalTimestamps(dets)
      && forall j :: 0 <= j < |apps| ==>
           && apps[j].value != []
           && Proper(apps[j].value)
           && Separated(apps[j].value, threshold)
  {
    if dets != [] {
      var q := dets[..|dets| - 1];
      SmoothAllWellFormed(q, threshold);
      var d := dets[|dets| - 1];
      if d.value != [] {
        var rest := SmoothAll(q, threshold);
        var x := Pair(d.key, Smooth(SortTimestamps(d.value), threshold));
        TimelineWellFormed(d.value, threshold);
        SnocPrefix(rest, x);
      }
    }
  }

  /** The segments of one nonempty list of timestamps: at least one, proper,
      separated, and no more than there are timestamps. */
  lemma TimelineWellFormed(timestamps: seq<real>, threshold: real)
    requires timestamps != []
    ensures var segs := Smooth(SortTimestamps(timestamps), threshold);
      segs != [] && Proper(segs) && Separated(segs, threshold) && |segs| <= |timestamps|
  {
    var ts := SortTimestamps(timestamps);
    SmoothStructure(ts, threshold);
    assert |ts| == |timestamps| by {
      assert |multiset(ts)| == |multiset(timestamps)|;
    }
  }
}
