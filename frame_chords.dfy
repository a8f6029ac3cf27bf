/** The frame-based chord detector of `processing/chords.py`: 24 weighted
    triad templates, per-frame labelling by the best dot product, a 7-frame
    majority filter, segmentation into label runs and the short-chord merge.
    Loading audio and computing the normalised chromagram (librosa) are left
    to the caller: the chroma vectors and frame times are inputs. */
module FrameChords {
  import opened Common
  import opened Tally

  datatype DetectedChord = DetectedChord(name: string, start: real, end: real, confidence: real)

  // ---------------------------------------------------------------------------
  // `_build_templates`

  const MajorShape: seq<real> := [1.0, 0.0, 0.0, 0.0, 0.9, 0.0, 0.0, 0.9, 0.0, 0.0, 0.0, 0.0]
  const MinorShape: seq<real> := [1.0, 0.0, 0.0, 0.9, 0.0, 0.0, 0.0, 0.9, 0.0, 0.0, 0.0, 0.0]

  /** For each root in order, its major template and then its minor one. */
  function Templates(): (ts: seq<(string, seq<real>)>)
    ensures |ts| == 24
    ensures forall k :: 0 <= k < 24 ==> |ts[k].1| == 12
  {
    seq(24, k requires 0 <= k < 24 =>
      if k % 2 == 0 then (NoteNames[k / 2], Roll(MajorShape, k / 2))
      else (NoteNames[k / 2] + "m", Roll(MinorShape, k / 2)))
  }

  /** The major template of root i weighs the root 1.0 and its major third
      and fifth 0.9; the minor one the root 1.0 and its minor third and
      fifth 0.9. */
  lemma TemplateWeights(i: nat)
    requires i < 12
    ensures Templates()[2 * i].0 == NoteNames[i] && Templates()[2 * i + 1].0 == NoteNames[i] + "m"
    ensures Templates()[2 * i].1[i] == 1.0 && Templates()[2 * i].1[(i + 4) % 12] == 0.9
            && Templates()[2 * i].1[(i + 7) % 12] == 0.9
    ensures Templates()[2 * i + 1].1[i] == 1.0 && Templates()[2 * i + 1].1[(i + 3) % 12] == 0.9
            && Templates()[2 * i + 1].1[(i + 7) % 12] == 0.9
  {
    assert (2 * i) / 2 == i && (2 * i + 1) / 2 == i && (2 * i) % 2 == 0 && (2 * i + 1) % 2 == 1;
    RollAt(MajorShape, i, 0);
    RollAt(MajorShape, i, 4);
    RollAt(MajorShape, i, 7);
    RollAt(MinorShape, i, 0);
    RollAt(MinorShape, i, 3);
    RollAt(MinorShape, i, 7);
  }

  // ---------------------------------------------------------------------------
  // Labelling

  function Dot(v: seq<real>, t: seq<real>): real
    requires |v| == |t|
  {
    if v == [] then 0.0 else v[0] * t[0] + Dot(v[1..], t[1..])
  }

  /** The 24 template scores of one chroma vector. */
  function Scores(v: seq<real>): (sc: seq<real>)
    requires |v| == 12
    ensures |sc| == 24
  {
    seq(24, k requires 0 <= k < 24 => Dot(v, Templates()[k].1))
  }

  /** The label and score a frame receives: the first template of strictly
      largest positive score, or "N" with 0.0 when no score is positive. */
  function FrameLabel(v: seq<real>): (string, real)
    requires |v| == 12
  {
    match FirstBest(Scores(v), 0, None, 0.0)
    case None => ("N", 0.0)
    case Some(k) => (Templates()[k].0, Scores(v)[k])
  }

  lemma FrameLabelSpec(v: seq<real>)
    requires |v| == 12
    ensures FrameLabel(v).0 == "N" <==> forall k :: 0 <= k < 24 ==> Scores(v)[k] <= 0.0
    ensures FrameLabel(v).0 == "N" ==> FrameLabel(v).1 == 0.0
    ensures FrameLabel(v).0 != "N" ==>
              (exists k :: 0 <= k < 24 && Templates()[k].0 == FrameLabel(v).0 && Scores(v)[k] == FrameLabel(v).1
                           && (forall j :: 0 <= j < k ==> Scores(v)[j] < FrameLabel(v).1))
              && FrameLabel(v).1 > 0.0
              && (forall j :: 0 <= j < 24 ==> Scores(v)[j] <= FrameLabel(v).1)
  {
    FirstBestSound(Scores(v), 0, None, 0.0);
    match FirstBest(Scores(v), 0, None, 0.0)
    case None =>
    case Some(k) =>
      var name := Templates()[k].0;
      assert name == NoteNames[k / 2] || name == NoteNames[k / 2] + "m";
      assert name != "N";
  }

  /** The labels of all frames. */
  function FrameLabels(chroma: seq<seq<real>>): (ls: seq<string>)
    requires forall i :: 0 <= i < |chroma| ==> |chroma[i]| == 12
    ensures |ls| == |chroma|
  {
    seq(|chroma|, i requires 0 <= i < |chroma| => FrameLabel(chroma[i]).0)
  }

  /** The scores of all frames. */
  function FrameScores(chroma: seq<seq<real>>): (ss: seq<real>)
    requires forall i :: 0 <= i < |chroma| ==> |chroma[i]| == 12
    ensures |ss| == |chroma|
  {
    seq(|chroma|, i requires 0 <= i < |chroma| => FrameLabel(chroma[i]).1)
  }

  /** The source's nested loop: for every frame, scan the templates with the
      running `label`/`score`. */
  method LabelFrames(chroma: seq<seq<real>>) returns (labels: seq<string>, scores: seq<real>)
    requires forall i :: 0 <= i < |chroma| ==> |chroma[i]| == 12
    ensures |labels| == |chroma| && |scores| == |chroma|
    ensures forall i :: 0 <= i < |chroma| ==> (labels[i], scores[i]) == FrameLabel(chroma[i])
  {
    var templates := Templates();
    labels, scores := [], [];
    var i := 0;
    while i < |chroma|
      invariant 0 <= i <= |chroma|
      invariant |labels| == i && |scores| == i
      invariant forall j :: 0 <= j < i ==> (labels[j], scores[j]) == FrameLabel(chroma[j])
    {
      var v := chroma[i];
      ghost var sc := Scores(v);
      var name := "N";
      var score := 0.0;
      ghost var best: Option<nat> := None;
      var k := 0;
      while k < |templates|
        invariant 0 <= k <= 24
        invariant best.Some? ==> best.value < k
        invariant FirstBest(sc, k, best, score) == FirstBest(sc, 0, None, 0.0)
        invariant best.None? ==> name == "N" && score == 0.0
        invariant best.Some? ==> name == templates[best.value].0 && score == sc[best.value]
      {
        var val := Dot(v, templates[k].1);
        if val > score {
          score := val;
          name := templates[k].0;
          best := Some(k);
        }
        k := k + 1;
      }
      labels := labels + [name];
      scores := scores + [score];
      i := i + 1;
    }
  }

  // ---------------------------------------------------------------------------
  // Smoothing

  /** `best_labels[lo:hi]`, the clamped 7-frame window around frame i. */
  function Window(xs: seq<string>, i: nat): (w: seq<string>)
    requires i < |xs|
    ensures xs[i] in w
  {
    xs[MaxI(0, i - 3)..MinI(|xs|, i + 4)]
  }

  /** x occurs in w at least as often as any other label. */
  predicate IsMajority(w: seq<string>, x: string) {
    x in w && forall y :: y in w ==> Occ(w, y) <= Occ(w, x)
  }

  /** `max(set(window), key=window.count)`: the source iterates a set, so
      which of several equally frequent labels it picks is unspecified; any
      majority label of each window is an admissible smoothing. */
  predicate IsSmoothing(raw: seq<string>, sm: seq<string>) {
    |sm| == |raw| && forall i :: 0 <= i < |raw| ==> IsMajority(Window(raw, i), sm[i])
  }

  /** A frame whose whole window (up to three frames on each side) carries
      its label keeps that label, whatever the other frames hold. */
  lemma SmoothingKeepsConstant(raw: seq<string>, sm: seq<string>, i: nat)
    requires IsSmoothing(raw, sm) && i < |raw|
    requires forall j :: MaxI(0, i - 3) <= j < MinI(|raw|, i + 4) ==> raw[j] == raw[i]
    ensures sm[i] == raw[i]
  {
    var w := Window(raw, i);
    var lo := MaxI(0, i - 3);
    assert sm[i] in w;
    var q :| 0 <= q < |w| && w[q] == sm[i];
    assert w[q] == raw[lo + q];
  }

  /** The smoothing loop; ties are resolved by first appearance in the
      window, one of the choices the source may make. */
  method Smooth(raw: seq<string>) returns (sm: seq<string>)
    ensures IsSmoothing(raw, sm)
  {
    sm := raw;
    var i := 0;
    while i < |raw|
      invariant 0 <= i <= |raw| && |sm| == |raw|
      invariant forall j :: 0 <= j < i ==> IsMajority(Window(raw, j), sm[j])
    {
      var lo := MaxI(0, i - 3);
      var hi := MinI(|raw|, i + 4);
      var window := raw[lo..hi];
      var counts := CountLoop(window);
      TallyNonEmpty(window);
      ModeOfTally(counts, window);
      sm := sm[i := counts[FirstMax(counts)].0];
      i := i + 1;
    }
  }

  // ---------------------------------------------------------------------------
  // Segmentation

  /** The segments from frame i on, while a segment labelled `cur` is open
      since `start` with best score `maxConf`. */
  function SegFrom(labels: seq<string>, times: seq<real>, scores: seq<real>, i: nat,
                   cur: string, start: real, maxConf: real): (r: seq<DetectedChord>)
    requires |labels| == |times| == |scores| > 0
    ensures r != [] && r[0].name == cur && r[0].start == start
    decreases |labels| - i
  {
    if i >= |labels| then [DetectedChord(cur, start, times[|times| - 1], maxConf)]
    else if labels[i] != cur then
      [DetectedChord(cur, start, times[i], maxConf)] + SegFrom(labels, times, scores, i + 1, labels[i], times[i], scores[i])
    else SegFrom(labels, times, scores, i + 1, cur, start, MaxR(maxConf, scores[i]))
  }

  /** The label runs of the smoothed frames as chords. */
  function Segments(labels: seq<string>, times: seq<real>, scores: seq<real>): seq<DetectedChord>
    requires |labels| == |times| == |scores|
  {
    if labels == [] then [] else SegFrom(labels, times, scores, 1, labels[0], times[0], scores[0])
  }

  /** Number of label changes between consecutive frames from frame i on. */
  function Changes(labels: seq<string>, i: nat): nat
    requires 0 < i
    decreases |labels| - i
  {
    if i >= |labels| then 0
    else (if labels[i] != labels[i - 1] then 1 else 0) + Changes(labels, i + 1)
  }

  /** Adjacent segments carry different labels, each ends where the next
      starts, the last ends at the last frame time, and there is one segment
      per label change plus one. */
  lemma {:induction false} SegFromShape(labels: seq<string>, times: seq<real>, scores: seq<real>, i: nat,
                                        cur: string, start: real, maxConf: real)
    requires |labels| == |times| == |scores| > 0
    requires 0 < i <= |labels| && labels[i - 1] == cur
    ensures var r := SegFrom(labels, times, scores, i, cur, start, maxConf);
            (forall k :: 0 <= k < |r| - 1 ==> r[k].name != r[k + 1].name && r[k].end == r[k + 1].start)
            && r[|r| - 1].end == times[|times| - 1]
            && |r| == 1 + Changes(labels, i)
    decreases |labels| - i
  {
    if i < |labels| {
      if labels[i] != cur {
        SegFromShape(labels, times, scores, i + 1, labels[i], times[i], scores[i]);
      } else {
        SegFromShape(labels, times, scores, i + 1, cur, start, MaxR(maxConf, scores[i]));
      }
    }
  }

  /** The maximum of m and the scores in [i, j). */
  function MaxFrom(scores: seq<real>, i: nat, j: nat, m: real): (r: real)
    requires i <= j <= |scores|
    ensures r >= m && forall k :: i <= k < j ==> scores[k] <= r
    decreases j - i
  {
    if i == j then m else MaxFrom(scores, i + 1, j, MaxR(m, scores[i]))
  }

  /** End of the run of `cur` starting at frame i. */
  function RunEnd(labels: seq<string>, i: nat, cur: string): (e: nat)
    requires i <= |labels|
    ensures i <= e <= |labels|
    ensures forall k :: i <= k < e ==> labels[k] == cur
    ensures e < |labels| ==> labels[e] != cur
    decreases |labels| - i
  {
    if i == |labels| || labels[i] != cur then i else RunEnd(labels, i + 1, cur)
  }

  /** The open segment closes at the end of its run: at the first frame of a
      different label, or at the last frame time. Its confidence is the best
      score over its frames, and the segments after it start afresh there. */
  lemma {:induction false} SegFromRun(labels: seq<string>, times: seq<real>, scores: seq<real>, i: nat,
                                      cur: string, start: real, maxConf: real)
    requires |labels| == |times| == |scores| > 0 && i <= |labels|
    ensures var r := SegFrom(labels, times, scores, i, cur, start, maxConf);
            var e := RunEnd(labels, i, cur);
            r[0].confidence == MaxFrom(scores, i, e, maxConf)
            && r[0].end == (if e < |labels| then times[e] else times[|times| - 1])
            && r[1..] == (if e < |labels| then SegFrom(labels, times, scores, e + 1, labels[e], times[e], scores[e]) else [])
    decreases |labels| - i
  {
    if i < |labels| && labels[i] == cur {
      SegFromRun(labels, times, scores, i + 1, cur, start, MaxR(maxConf, scores[i]));
    }
  }

  /** The segments of any frame sequence alternate in name and tile the
      frame times. */
  lemma SegmentsShape(labels: seq<string>, times: seq<real>, scores: seq<real>)
    requires |labels| == |times| == |scores|
    ensures var r := Segments(labels, times, scores);
            (labels == [] <==> r == [])
            && (r != [] ==> r[0].start == times[0] && r[|r| - 1].end == times[|times| - 1])
            && NamesAlternate(r)
            && (forall k :: 0 <= k < |r| - 1 ==> r[k].end == r[k + 1].start)
            && (labels != [] ==> |r| == 1 + Changes(labels, 1))
  {
    if labels != [] {
      SegFromShape(labels, times, scores, 1, labels[0], times[0], scores[0]);
    }
  }

  /** The source's segmentation loop with `current`, `start_time` and
      `max_conf`. */
  method Segment(labels: seq<string>, times: seq<real>, scores: seq<real>) returns (chords: seq<DetectedChord>)
    requires |labels| == |times| == |scores|
    ensures chords == Segments(labels, times, scores)
  {
    chords := [];
    var current: Option<string> := None;
    var startTime := if |times| > 0 then times[0] else 0.0;
    var maxConf := 0.0;
    var i := 0;
    while i < |labels|
      invariant 0 <= i <= |labels|
      invariant i == 0 <==> current.None?
      invariant i == 0 ==> chords == []
      invariant current.Some? ==>
                  chords + SegFrom(labels, times, scores, i, current.value, startTime, maxConf) == Segments(labels, times, scores)
    {
      var t := times[i];
      var conf := scores[i];
      var lab := labels[i];
      if current.None? {
        current := Some(lab);
        startTime := t;
        maxConf := conf;
      } else if lab != current.value {
        chords := chords + [DetectedChord(current.value, startTime, t, maxConf)];
        current := Some(lab);
        startTime := t;
        maxConf := conf;
      } else {
        maxConf := MaxR(maxConf, conf);
      }
      i := i + 1;
    }
    if current.Some? {
      var endTime := if |times| > 0 then times[|times| - 1] else startTime;
      chords := chords + [DetectedChord(current.value, startTime, endTime, maxConf)];
    }
  }

  // ---------------------------------------------------------------------------
  // Short-chord merge

  const ShortChord: real := 0.25

  /** The merge loop over the chords still to visit, with `merged` so far. */
  function ShortMerge(merged: seq<DetectedChord>, rest: seq<DetectedChord>): seq<DetectedChord>
    decreases |rest|
  {
    if rest == [] then merged
    else
      var ch := rest[0];
      if merged == [] then ShortMerge([ch], rest[1..])
      else if ch.end - ch.start < ShortChord && merged[|merged| - 1].name == ch.name then
        var prev := merged[|merged| - 1];
        ShortMerge(merged[..|merged| - 1] + [DetectedChord(prev.name, prev.start, ch.end, MaxR(prev.confidence, ch.confidence))], rest[1..])
      else ShortMerge(merged + [ch], rest[1..])
  }

  predicate NamesAlternate(cs: seq<DetectedChord>) {
    forall k :: 0 <= k < |cs| - 1 ==> cs[k].name != cs[k + 1].name
  }

  /** The merge only fires when the previous kept chord has the same name;
      on a list whose neighbours never share a name it returns its input. */
  lemma {:induction false} ShortMergeIdentity(merged: seq<DetectedChord>, rest: seq<DetectedChord>)
    requires NamesAlternate(merged + rest)
    ensures ShortMerge(merged, rest) == merged + rest
    decreases |rest|
  {
    if rest != [] {
      var ch := rest[0];
      assert merged + rest == (merged + [ch]) + rest[1..];
      if merged != [] {
        assert (merged + rest)[|merged| - 1] == merged[|merged| - 1];
        assert (merged + rest)[|merged|] == ch;
      }
      ShortMergeIdentity(merged + [ch], rest[1..]);
      if merged == [] {
        assert [ch] == merged + [ch];
      }
    }
  }

  lemma ShortMergeStep(merged: seq<DetectedChord>, ch: DetectedChord, rest: seq<DetectedChord>)
    ensures ShortMerge(merged, [ch] + rest) ==
            if merged == [] then ShortMerge([ch], rest)
            else if ch.end - ch.start < ShortChord && merged[|merged| - 1].name == ch.name then
              ShortMerge(merged[..|merged| - 1] + [DetectedChord(merged[|merged| - 1].name, merged[|merged| - 1].start, ch.end,
                                                                   MaxR(merged[|merged| - 1].confidence, ch.confidence))], rest)
            else ShortMerge(merged + [ch], rest)
  {
    assert ([ch] + rest)[0] == ch && ([ch] + rest)[1..] == rest;
  }

  /** The source's merge loop, rewriting `merged[-1]` in place. */
  method MergeShortChords(chords: seq<DetectedChord>) returns (merged: seq<DetectedChord>)
    ensures merged == ShortMerge([], chords)
  {
    merged := [];
    var i := 0;
    while i < |chords|
      invariant 0 <= i <= |chords|
      invariant ShortMerge(merged, chords[i..]) == ShortMerge([], chords)
    {
      var ch := chords[i];
      assert chords[i..] == [ch] + chords[i + 1..];
      ShortMergeStep(merged, ch, chords[i + 1..]);
      if |merged| == 0 {
        assert merged + [ch] == [ch];
        merged := merged + [ch];
      } else if ch.end - ch.start < 0.25 && merged[|merged| - 1].name == ch.name {
        var prev := merged[|merged| - 1];
        var joined := DetectedChord(prev.name, prev.start, ch.end, MaxR(prev.confidence, ch.confidence));
        assert merged[|merged| - 1 := joined] == merged[..|merged| - 1] + [joined];
        merged := merged[|merged| - 1 := joined];
      } else {
        merged := merged + [ch];
      }
      i := i + 1;
    }
    assert chords[i..] == [];
  }

  // ---------------------------------------------------------------------------
  // `ChordDetector.detect` after the chromagram

  /** Segmentation followed by the short merge, which leaves the segments
      as they are. */
  method SegmentAndMerge(labels: seq<string>, times: seq<real>, scores: seq<real>) returns (chords: seq<DetectedChord>)
    requires |labels| == |times| == |scores|
    ensures chords == Segments(labels, times, scores)
  {
    var segments := Segment(labels, times, scores);
    SegmentsShape(labels, times, scores);
    ShortMergeIdentity([], segments);
    assert [] + segments == segments;
    chords := MergeShortChords(segments);
  }

  /** Labelling, smoothing, segmentation and the short merge: the chords are
      the segments of some majority smoothing of the frames' best-template
      labels, each carrying the best score of its run. The result tiles the
      frame times: it starts at the first frame, ends at the last,
      consecutive chords meet, and neighbours never share a name. */
  method Detect(chroma: seq<seq<real>>, times: seq<real>) returns (chords: seq<DetectedChord>)
    requires |times| == |chroma|
    requires forall i :: 0 <= i < |chroma| ==> |chroma[i]| == 12
    ensures chroma == [] <==> chords == []
    ensures chords != [] ==> chords[0].start == times[0] && chords[|chords| - 1].end == times[|times| - 1]
    ensures forall k :: 0 <= k < |chords| - 1 ==> chords[k].name != chords[k + 1].name && chords[k].end == chords[k + 1].start
    ensures exists sm :: IsSmoothing(FrameLabels(chroma), sm) && chords == Segments(sm, times, FrameScores(chroma))
  {
    var labels, scores := LabelFrames(chroma);
    assert labels == FrameLabels(chroma) && scores == FrameScores(chroma);
    var smoothed := Smooth(labels);
    chords := SegmentAndMerge(smoothed, times, scores);
    SegmentsShape(smoothed, times, scores);
  }
}
