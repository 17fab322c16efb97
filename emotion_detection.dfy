/** The emotion analysis of services/emotion_detection_service.py: the
    threshold rule over a face's brightness and contrast, the default
    emotion, the model's arg-max labelling, the per-frame detection loop and
    the statistical summary of a timeline.

    Pixels are not modelled: a face region is described by a `Reading`, the
    grey-level mean and standard deviation the service measures on it and
    the seven probabilities the emotion model would predict for it. */
module EmotionDetection {
  import opened Common

  /** `emotion_labels` and `emotion_labels_es`: index-aligned translations. */
  const Labels: seq<string> := ["angry", "disgust", "fear", "happy", "sad", "surprise", "neutral"]
  const LabelsEs: seq<string> := ["enojado", "disgusto", "miedo", "feliz", "triste", "sorprendido", "neutral"]

  datatype Analysis = ModelBased | BasicAnalysis | DefaultMethod

  /** The keys an emotion dictionary carries besides the common four. */
  datatype Extra =
    | NoExtra
    | Features(brightness: real, contrast: real)
    | Predictions(all: seq<Pair<string, real>>)

  datatype EmotionData = EmotionData(emotion: string, emotionEs: string, confidence: real, via: Analysis, extra: Extra)

  /** The English and the Spanish label are translations of each other. */
  predicate Aligned(e: EmotionData)
  {
    exists i :: 0 <= i < |Labels| && Labels[i] == e.emotion && LabelsEs[i] == e.emotionEs
  }

  /** What the service measures on a face region: `Unreadable` when the
      colour conversion raises, otherwise the grey mean and standard
      deviation and the model's output for the region (empty when the
      prediction raises). */
  datatype Reading =
    | Unreadable
    | Gray(brightness: real, contrast: real, predictions: seq<real>)

  /** `_basic_emotion_analysis`: the first rule that applies decides. */
  function BasicEmotion(brightness: real, contrast: real): EmotionData
  {
    var features := Features(brightness, contrast);
    if brightness > 120.0 && contrast > 50.0 then EmotionData("happy", "feliz", 0.6, BasicAnalysis, features)
    else if brightness < 80.0 then EmotionData("sad", "triste", 0.5, BasicAnalysis, features)
    else if contrast > 80.0 then EmotionData("surprise", "sorprendido", 0.4, BasicAnalysis, features)
    else EmotionData("neutral", "neutral", 0.7, BasicAnalysis, features)
  }

  /** The four outcomes of the rule partition the plane: each label holds on
      exactly the region given here, with its fixed confidence. */
  lemma BasicEmotionRule(brightness: real, contrast: real)
    ensures var e := BasicEmotion(brightness, contrast);
      && (e.emotion == "happy" <==> brightness > 120.0 && contrast > 50.0)
      && (e.emotion == "sad" <==> brightness < 80.0)
      && (e.emotion == "surprise" <==> 80.0 <= brightness <= 120.0 && contrast > 80.0)
      && (e.emotion == "neutral" <==> 80.0 <= brightness && contrast <= 80.0 && (brightness <= 120.0 || contrast <= 50.0))
      && (e.emotion == "happy" ==> e.confidence == 0.6)
      && (e.emotion == "sad" ==> e.confidence == 0.5)
      && (e.emotion == "surprise" ==> e.confidence == 0.4)
      && (e.emotion == "neutral" ==> e.confidence == 0.7)
      && e.via == BasicAnalysis && e.extra == Features(brightness, contrast)
  {
  }

  /** `_get_default_emotion`. */
  const DefaultEmotion: EmotionData := EmotionData("neutral", "neutral", 0.3, DefaultMethod, NoExtra)

  /** `np.argmax`: the first position of the largest value. */
  function ArgMax(p: seq<real>): (i: nat)
    requires p != []
    ensures i < |p|
    ensures forall k :: 0 <= k < |p| ==> p[k] <= p[i]
    ensures forall k :: 0 <= k < i ==> p[k] < p[i]
  {
    if |p| == 1 then 0
    else
      var j := ArgMax(p[..|p| - 1]);
      if p[|p| - 1] > p[j] then |p| - 1 else j
  }

  /** `zip(keys, values)` into a dictionary: as many entries as the shorter
      side has. */
  function Zip(keys: seq<string>, values: seq<real>): (d: seq<Pair<string, real>>)
    ensures |d| == Min(|keys|, |values|)
    ensures forall i :: 0 <= i < |d| ==> d[i] == Pair(keys[i], values[i])
  {
    seq(Min(|keys|, |values|), i requires 0 <= i < Min(|keys|, |values|) => Pair(keys[i], values[i]))
  }

  /** `_analyze_face_emotion`: the model's most probable label when the
      model is loaded and its prediction names one of the seven labels,
      otherwise the threshold rule; an unreadable region ends, through the
      fall-backs, in the default emotion. */
  function Analyze(modelLoaded: bool, r: Reading): EmotionData
  {
    match r {
      case Unreadable => DefaultEmotion
      case Gray(brightness, contrast, p) =>
        if modelLoaded && p != [] && ArgMax(p) < |Labels| then
          var i := ArgMax(p);
          EmotionData(Labels[i], LabelsEs[i], p[i], ModelBased, Predictions(Zip(LabelsEs, p)))
        else BasicEmotion(brightness, contrast)
    }
  }

  /** Whatever path decides, the English and the Spanish label agree; the
      rule and the default report a confidence strictly between 0 and 1,
      and the model the largest of its probabilities. */
  lemma AnalyzeAligned(modelLoaded: bool, r: Reading)
    ensures Aligned(Analyze(modelLoaded, r))
    ensures Analyze(modelLoaded, r).via != ModelBased ==> 0.0 < Analyze(modelLoaded, r).confidence < 1.0
    ensures Analyze(modelLoaded, r).via == ModelBased ==>
      r.Gray? && forall k :: 0 <= k < |r.predictions| ==> r.predictions[k] <= Analyze(modelLoaded, r).confidence
  {
    var e := Analyze(modelLoaded, r);
    if e.emotion == "happy" && e.via == BasicAnalysis {
      assert Labels[3] == e.emotion && LabelsEs[3] == e.emotionEs;
    } else if e.emotion == "sad" && e.via == BasicAnalysis {
      assert Labels[4] == e.emotion && LabelsEs[4] == e.emotionEs;
    } else if e.emotion == "surprise" && e.via == BasicAnalysis {
      assert Labels[5] == e.emotion && LabelsEs[5] == e.emotionEs;
    } else if e.via != ModelBased {
      assert Labels[6] == e.emotion && LabelsEs[6] == e.emotionEs;
    } else {
      var i := ArgMax(r.predictions);
      assert Labels[i] == e.emotion && LabelsEs[i] == e.emotionEs;
    }
  }

  /** `(top, right, bottom, left)`. */
  type Box = (int, int, int, int)

  /** The dimensions of a frame. */
  datatype Frame = Frame(height: nat, width: nat)

  /** Where a Python slice bound lands on an axis of length `n`: negative
      bounds count from the end, and both ends are clamped to the axis. */
  function SliceBound(a: int, n: nat): (b: nat)
    ensures b <= n
    ensures 0 <= a <= n ==> b == a
  {
    if a < 0 then (if a + n < 0 then 0 else a + n) else if a > n then n else a
  }

  /** The length of `axis[a:b]` on an axis of length `n`. */
  function SliceLength(a: int, b: int, n: nat): (len: nat)
    ensures len <= n
  {
    var lo, hi := SliceBound(a, n), SliceBound(b, n);
    if hi > lo then hi - lo else 0
  }

  /** `frame[top:bottom, left:right].size` of a three-channel frame. */
  function RegionSize(frame: Frame, box: Box): nat
  {
    SliceLength(box.0, box.2, frame.height) * SliceLength(box.3, box.1, frame.width) * 3
  }

  /** A box inside the frame has an empty region exactly when it has no
      height or no width; no region is larger than the frame. */
  lemma RegionSizeInside(frame: Frame, box: Box)
    ensures RegionSize(frame, box) <= frame.height * frame.width * 3
    ensures (&& 0 <= box.0 <= frame.height && 0 <= box.2 <= frame.height
             && 0 <= box.3 <= frame.width && 0 <= box.1 <= frame.width) ==>
      (RegionSize(frame, box) == 0 <==> box.2 <= box.0 || box.1 <= box.3)
  {
    var h, w := SliceLength(box.0, box.2, frame.height), SliceLength(box.3, box.1, frame.width);
    assert h * w <= frame.height * frame.width by {
      MulMono(h, frame.height, w, frame.width);
    }
  }

  lemma MulMono(a: nat, b: nat, c: nat, d: nat)
    requires a <= b && c <= d
    ensures a * c <= b * d
  {
  }

  /** One entry of `detect_emotions_in_frame`'s list. */
  datatype FaceEmotion = FaceEmotion(data: EmotionData, faceIndex: nat, bbox: Box)

  /** The entries the loop over `face_locations` collects: faces whose region
      is empty are skipped, the others analysed; `measure` gives the reading
      of each box. */
  function Detected(frame: Frame, modelLoaded: bool, locations: seq<Box>, measure: Box -> Reading): (r: seq<FaceEmotion>)
    ensures |r| <= |locations|
    ensures forall k :: 0 <= k < |r| ==>
      && r[k].faceIndex < |locations|
      && r[k].bbox == locations[r[k].faceIndex]
      && RegionSize(frame, r[k].bbox) != 0
      && r[k].data == Analyze(modelLoaded, measure(r[k].bbox))
    ensures forall k, l :: 0 <= k < l < |r| ==> r[k].faceIndex < r[l].faceIndex
  {
    if locations == [] then []
    else
      var n := |locations| - 1;
      var box := locations[n];
      Detected(frame, modelLoaded, locations[..n], measure)
        + (if RegionSize(frame, box) != 0 then [FaceEmotion(Analyze(modelLoaded, measure(box)), n, box)] else [])
  }

  /** Every face with a non-empty region has its entry: nothing is lost
      besides the empty regions. */
  lemma {:induction false} DetectedCovers(frame: Frame, modelLoaded: bool, locations: seq<Box>, measure: Box -> Reading, i: nat)
    requires i < |locations| && RegionSize(frame, locations[i]) != 0
    ensures exists k :: (&& 0 <= k < |Detected(frame, modelLoaded, locations, measure)|
                         && Detected(frame, modelLoaded, locations, measure)[k].faceIndex == i)
  {
    var n := |locations| - 1;
    var prefix := Detected(frame, modelLoaded, locations[..n], measure);
    if i == n {
      assert Detected(frame, modelLoaded, locations, measure)[|prefix|].faceIndex == i;
    } else {
      assert locations[..n][i] == locations[i];
      DetectedCovers(frame, modelLoaded, locations[..n], measure, i);
      var k :| 0 <= k < |prefix| && prefix[k].faceIndex == i;
      assert Detected(frame, modelLoaded, locations, measure)[k] == prefix[k];
    }
  }

  /** `detect_emotions_in_frame`. */
  method DetectEmotionsInFrame(frame: Frame, modelLoaded: bool, locations: seq<Box>, measure: Box -> Reading)
    returns (detected: seq<FaceEmotion>)
    ensures detected == Detected(frame, modelLoaded, locations, measure)
  {
    detected := [];
    for i := 0 to |locations|
      invariant detected == Detected(frame, modelLoaded, locations[..i], measure)
    {
      assert locations[..i + 1][..i] == locations[..i];
      var box := locations[i];
      if RegionSize(frame, box) == 0 {
        continue;
      }
      var data := Analyze(modelLoaded, measure(box));
      detected := detected + [FaceEmotion(data, i, box)];
    }
    assert locations[..|locations|] == locations;
  }

  /** One entry of the emotion timeline of a video. */
  datatype FrameEmotions = FrameEmotions(timestamp: real, frameNumber: int, emotions: seq<FaceEmotion>, personId: Option<int>)

  /** The dictionary `_generate_emotion_summary` returns. */
  datatype Summary = Summary(
    totalDetections: nat,
    emotionCounts: seq<Pair<string, nat>>,
    emotionPercentages: seq<Pair<string, real>>,
    dominantEmotion: string,
    averageConfidence: real,
    emotionsDetected: seq<string>)

  /** All entries of a timeline, frame after frame. */
  function Flat(timeline: seq<FrameEmotions>): seq<FaceEmotion>
  {
    if timeline == [] then []
    else Flat(timeline[..|timeline| - 1]) + timeline[|timeline| - 1].emotions
  }

  /** `d.get(k, 0)`. */
  function GetOrZero(d: seq<Pair<string, nat>>, k: string): nat
  {
    match Lookup(d, k) {
      case Some(n) => n
      case None => 0
    }
  }

  /** `emotion_counts` after counting `entries`. */
  function Tally(entries: seq<FaceEmotion>): seq<Pair<string, nat>>
  {
    if entries == [] then []
    else
      var counts := Tally(entries[..|entries| - 1]);
      var k := entries[|entries| - 1].data.emotionEs;
      Assign(counts, k, GetOrZero(counts, k) + 1)
  }

  /** The number of entries labelled `k` in Spanish. */
  function Occurrences(entries: seq<FaceEmotion>, k: string): nat
  {
    if entries == [] then 0
    else Occurrences(entries[..|entries| - 1], k) + (if entries[|entries| - 1].data.emotionEs == k then 1 else 0)
  }

  lemma {:induction false} OccurrencesZero(entries: seq<FaceEmotion>, k: string)
    ensures Occurrences(entries, k) == 0 <==> forall i :: 0 <= i < |entries| ==> entries[i].data.emotionEs != k
  {
    if entries != [] {
      var q := entries[..|entries| - 1];
      OccurrencesZero(q, k);
      assert forall i :: 0 <= i < |q| ==> q[i] == entries[i];
    }
  }

  /** The counts form a dictionary that maps every label seen to the number
      of entries carrying it, and has no other key. */
  lemma {:induction false} TallyLookup(entries: seq<FaceEmotion>, k: string)
    ensures DistinctKeys(Tally(entries))
    ensures Lookup(Tally(entries), k) == if Occurrences(entries, k) == 0 then None else Some(Occurrences(entries, k))
  {
    if entries != [] {
      var q := entries[..|entries| - 1];
      var seen := entries[|entries| - 1].data.emotionEs;
      var d := Tally(q);
      var c := GetOrZero(d, seen) + 1;
      assert Tally(entries) == Assign(d, seen, c);
      TallyLookup(q, k);
      AssignLookup(d, seen, c, k);
      if seen == k {
        assert Occurrences(entries, k) == Occurrences(q, k) + 1;
      } else {
        assert Occurrences(entries, k) == Occurrences(q, k);
      }
    }
  }

  /** The total of the values of a dictionary of counts. */
  function SumValues(d: seq<Pair<string, nat>>): nat
  {
    if d == [] then 0 else SumValues(d[..|d| - 1]) + d[|d| - 1].value
  }

  lemma {:induction false} SumValuesUpdate(d: seq<Pair<string, nat>>, i: nat, p: Pair<string, nat>)
    requires i < |d|
    ensures SumValues(d[i := p]) + d[i].value == SumValues(d) + p.value
  {
    var n := |d| - 1;
    if i < n {
      assert d[i := p][..n] == d[..n][i := p];
      assert d[..n][i] == d[i];
      SumValuesUpdate(d[..n], i, p);
    } else {
      assert d[i := p][..n] == d[..n];
    }
  }

  /** `total_detections` is the sum of `emotion_counts`. */
  lemma {:induction false} TallySum(entries: seq<FaceEmotion>)
    ensures SumValues(Tally(entries)) == |entries|
  {
    if entries != [] {
      var q := entries[..|entries| - 1];
      var k := entries[|entries| - 1].data.emotionEs;
      var d := Tally(q);
      TallySum(q);
      match IndexOf(d, k) {
        case Some(i) =>
          TallyLookup(q, k);
          LookupAtIndex(d, i);
          SumValuesUpdate(d, i, Pair(k, GetOrZero(d, k) + 1));
        case None =>
          assert (d + [Pair(k, 1)])[..|d|] == d;
      }
    }
  }

  /** The counts as reals, for `max`. */
  function CountValues(d: seq<Pair<string, nat>>): (v: seq<real>)
    ensures |v| == |d| && forall i :: 0 <= i < |d| ==> v[i] == d[i].value as real
  {
    seq(|d|, i requires 0 <= i < |d| => d[i].value as real)
  }

  /** `max(counts, key=counts.get)`, or `'neutral'` when nothing was counted. */
  function Dominant(d: seq<Pair<string, nat>>): string
  {
    if d == [] then "neutral" else d[ArgMax(CountValues(d))].key
  }

  /** The dominant emotion is the first key with the largest count. */
  lemma DominantIsFirstMax(d: seq<Pair<string, nat>>)
    ensures d == [] ==> Dominant(d) == "neutral"
    ensures d != [] ==> exists i :: (&& 0 <= i < |d| && d[i].key == Dominant(d)
                                     && (forall k :: 0 <= k < |d| ==> d[k].value <= d[i].value)
                                     && (forall k :: 0 <= k < i ==> d[k].value < d[i].value))
  {
    if d != [] {
      var v := CountValues(d);
      var i := ArgMax(v);
      assert forall k :: 0 <= k < |d| ==> d[k].value <= d[i].value by {
        forall k | 0 <= k < |d| ensures d[k].value <= d[i].value {
          assert v[k] <= v[i];
        }
      }
      assert forall k :: 0 <= k < i ==> d[k].value < d[i].value by {
        forall k | 0 <= k < i ensures d[k].value < d[i].value {
          assert v[k] < v[i];
        }
      }
      assert d[i].key == Dominant(d);
    }
  }

  /** `(count / total) * 100` for every counted emotion, in counting order. */
  function Percentages(d: seq<Pair<string, nat>>, total: nat): (r: seq<Pair<string, real>>)
    requires total > 0
    ensures |r| == |d| && forall i :: 0 <= i < |d| ==> r[i].key == d[i].key && r[i].value >= 0.0
  {
    if d == [] then []
    else Percentages(d[..|d| - 1], total) + [Pair(d[|d| - 1].key, (d[|d| - 1].value as real / total as real) * 100.0)]
  }

  function SumReal(xs: seq<real>): real
  {
    if xs == [] then 0.0 else SumReal(xs[..|xs| - 1]) + xs[|xs| - 1]
  }

  function PercentValues(r: seq<Pair<string, real>>): (v: seq<real>)
    ensures |v| == |r| && forall i :: 0 <= i < |r| ==> v[i] == r[i].value
  {
    seq(|r|, i requires 0 <= i < |r| => r[i].value)
  }

  /** The percentages add up to the share of the total that was counted:
      to 100 when the total is the sum of the counts. */
  lemma {:induction false} PercentagesSum(d: seq<Pair<string, nat>>, total: nat)
    requires total > 0
    ensures SumReal(PercentValues(Percentages(d, total))) * (total as real) == (SumValues(d) as real) * 100.0
  {
    if d != [] {
      var q := d[..|d| - 1];
      var n := d[|d| - 1].value as real;
      var t := total as real;
      var x := (n / t) * 100.0;
      PercentagesSum(q, total);
      var w := SumReal(PercentValues(Percentages(q, total)));
      assert SumReal(PercentValues(Percentages(d, total))) == w + x by {
        PercentValuesLast(d, total);
      }
      MulDistributes(w, x, t);
      PercentOfTotal(n, t);
      MulDistributes(SumValues(q) as real, n, 100.0);
    }
  }

  /** The percentages of a dictionary are those of all but its last key,
      followed by the last key's. */
  lemma PercentValuesLast(d: seq<Pair<string, nat>>, total: nat)
    requires total > 0 && d != []
    ensures var v := PercentValues(Percentages(d, total));
      SumReal(v) == SumReal(PercentValues(Percentages(d[..|d| - 1], total)))
        + (d[|d| - 1].value as real / total as real) * 100.0
  {
    var v := PercentValues(Percentages(d, total));
    assert v[..|v| - 1] == PercentValues(Percentages(d[..|d| - 1], total));
  }

  lemma MulDistributes(a: real, b: real, t: real)
    ensures (a + b) * t == a * t + b * t
  {
  }

  lemma PercentOfTotal(n: real, t: real)
    requires t > 0.0
    ensures ((n / t) * 100.0) * t == n * 100.0
  {
  }

  /** The confidences of the entries, in order. */
  function Confidences(entries: seq<FaceEmotion>): (c: seq<real>)
    ensures |c| == |entries| && forall i :: 0 <= i < |entries| ==> c[i] == entries[i].data.confidence
  {
    if entries == [] then [] else Confidences(entries[..|entries| - 1]) + [entries[|entries| - 1].data.confidence]
  }

  /** `np.mean(scores) if scores else 0`. */
  function Average(xs: seq<real>): real
  {
    if xs == [] then 0.0 else SumReal(xs) / |xs| as real
  }

  lemma {:induction false} SumRealBounds(xs: seq<real>)
    requires forall i :: 0 <= i < |xs| ==> 0.0 <= xs[i] <= 1.0
    ensures 0.0 <= SumReal(xs) <= |xs| as real
  {
    if xs != [] {
      SumRealBounds(xs[..|xs| - 1]);
    }
  }

  /** Confidences in `[0, 1]` average to a value in `[0, 1]`. */
  lemma AverageBounds(xs: seq<real>)
    requires forall i :: 0 <= i < |xs| ==> 0.0 <= xs[i] <= 1.0
    ensures 0.0 <= Average(xs) <= 1.0
  {
    if xs != [] {
      SumRealBounds(xs);
      var n := |xs| as real;
      assert SumReal(xs) / n <= n / n;
    }
  }

  /** Counting one more entry. */
  lemma TallyStep(before: seq<FaceEmotion>, x: FaceEmotion)
    ensures Tally(before + [x]) == Assign(Tally(before), x.data.emotionEs, GetOrZero(Tally(before), x.data.emotionEs) + 1)
    ensures Confidences(before + [x]) == Confidences(before) + [x.data.confidence]
  {
    assert (before + [x])[..|before|] == before;
  }

  lemma FlatStep(timeline: seq<FrameEmotions>, i: nat)
    requires i < |timeline|
    ensures Flat(timeline[..i + 1]) == Flat(timeline[..i]) + timeline[i].emotions
  {
    assert timeline[..i + 1][..i] == timeline[..i];
  }

  /** The inner loop of `_generate_emotion_summary`, over the entries of one
      frame. */
  method CountFrame(ghost before: seq<FaceEmotion>, counts0: seq<Pair<string, nat>>, total0: nat, scores0: seq<real>,
                    emotions: seq<FaceEmotion>)
    returns (counts: seq<Pair<string, nat>>, total: nat, scores: seq<real>)
    requires counts0 == Tally(before) && total0 == |before| && scores0 == Confidences(before)
    ensures counts == Tally(before + emotions) && total == |before + emotions| && scores == Confidences(before + emotions)
  {
    counts, total, scores := counts0, total0, scores0;
    ghost var seen := before;
    assert before + emotions[..0] == before;
    for j := 0 to |emotions|
      invariant seen == before + emotions[..j]
      invariant counts == Tally(seen) && total == |seen| && scores == Confidences(seen)
    {
      TallyStep(seen, emotions[j]);
      var emotion := emotions[j].data.emotionEs;
      var confidence := emotions[j].data.confidence;
      counts := Assign(counts, emotion, GetOrZero(counts, emotion) + 1);
      scores := scores + [confidence];
      total := total + 1;
      AppendPrefix(before, emotions, j);
      seen := seen + [emotions[j]];
    }
    assert emotions[..|emotions|] == emotions;
  }

  /** `_generate_emotion_summary`: one pass over the timeline counting the
      Spanish labels and collecting the confidences, then the percentages,
      the dominant emotion, the mean confidence and the counted labels. */
  method GenerateEmotionSummary(timeline: seq<FrameEmotions>) returns (s: Summary)
    ensures s.totalDetections == |Flat(timeline)|
    ensures s.emotionCounts == Tally(Flat(timeline))
    ensures s.totalDetections > 0 ==> s.emotionPercentages == Percentages(s.emotionCounts, s.totalDetections)
    ensures s.totalDetections == 0 ==> s.emotionPercentages == []
    ensures s.dominantEmotion == Dominant(s.emotionCounts)
    ensures s.averageConfidence == Average(Confidences(Flat(timeline)))
    ensures s.emotionsDetected == Keys(s.emotionCounts)
  {
    var counts: seq<Pair<string, nat>> := [];
    var total: nat := 0;
    var scores: seq<real> := [];
    for i := 0 to |timeline|
      invariant counts == Tally(Flat(timeline[..i]))
      invariant total == |Flat(timeline[..i])|
      invariant scores == Confidences(Flat(timeline[..i]))
    {
      counts, total, scores := CountFrame(Flat(timeline[..i]), counts, total, scores, timeline[i].emotions);
      FlatStep(timeline, i);
    }
    assert timeline[..|timeline|] == timeline;

    var percentages: seq<Pair<string, real>> := [];
    if total > 0 {
      percentages := ComputePercentages(counts, total);
    }

    s := Summary(total, counts, percentages, Dominant(counts), Average(scores), Keys(counts));
  }

  /** The percentage loop of `_generate_emotion_summary`. */
  method ComputePercentages(counts: seq<Pair<string, nat>>, total: nat) returns (percentages: seq<Pair<string, real>>)
    requires total > 0
    ensures percentages == Percentages(counts, total)
  {
    percentages := [];
    for k := 0 to |counts|
      invariant percentages == Percentages(counts[..k], total)
    {
      assert counts[..k + 1][..k] == counts[..k];
      percentages := percentages + [Pair(counts[k].key, (counts[k].value as real / total as real) * 100.0)];
    }
    assert counts[..|counts|] == counts;
  }

  /** When the counts add up to the total, the percentages add up to 100. */
  lemma PercentagesTotal(d: seq<Pair<string, nat>>, total: nat)
    requires total > 0 && SumValues(d) == total
    ensures SumReal(PercentValues(Percentages(d, total))) == 100.0
  {
    PercentagesSum(d, total);
    var t := total as real;
    var x := SumReal(PercentValues(Percentages(d, total)));
    assert x * t == (SumValues(d) as real) * 100.0;
    assert (SumValues(d) as real) * 100.0 == 100.0 * t;
    assert t > 0.0;
    assert x * t == 100.0 * t;
    CancelFactor(x, 100.0, t);
  }

  lemma CancelFactor(x: real, y: real, t: real)
    requires t > 0.0 && x * t == y * t
    ensures x == y
  {
  }

  /** No label is counted more often than the dominant one, which is itself
      one of the counted labels. */
  lemma DominantMostFrequent(d: seq<Pair<string, nat>>, k: string)
    requires d != [] && DistinctKeys(d)
    ensures Dominant(d) in Keys(d)
    ensures GetOrZero(d, k) <= GetOrZero(d, Dominant(d))
  {
    DominantIsFirstMax(d);
    var i :| 0 <= i < |d| && d[i].key == Dominant(d) && (forall j :: 0 <= j < |d| ==> d[j].value <= d[i].value);
    LookupAtIndex(d, i);
    assert Keys(d)[i] == Dominant(d);
    match IndexOf(d, k) {
      case Some(j) => LookupAtIndex(d, j);
      case None =>
    }
  }

  /** What the summary promises about its counts: they add up to the total,
      each label seen is counted as often as it occurs, the percentages add
      up to 100 and the dominant label is among the most frequent. */
  lemma SummaryConsistent(timeline: seq<FrameEmotions>, k: string)
    ensures var entries := Flat(timeline);
      var counts := Tally(entries);
      && SumValues(counts) == |entries|
      && Lookup(counts, k) == (if Occurrences(entries, k) == 0 then None else Some(Occurrences(entries, k)))
      && (|entries| > 0 ==> SumReal(PercentValues(Percentages(counts, |entries|))) == 100.0)
      && (|entries| > 0 ==> (&& Dominant(counts) in Keys(counts)
                             && GetOrZero(counts, k) <= GetOrZero(counts, Dominant(counts))))
  {
    var entries := Flat(timeline);
    var counts := Tally(entries);
    TallySum(entries);
    TallyLookup(entries, k);
    if |entries| > 0 {
      PercentagesTotal(counts, |entries|);
      DominantMostFrequent(counts, k);
    }
  }
}
