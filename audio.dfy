/** The audio processor's decisions (`core/audio_processor.py`): which
    optional engine runs, what each stage returns when its engine is missing
    or raises, the 0.95 peak limiter after loudness normalisation, the stem
    defaults of `process`, and the key/mode decision over a 12-bin chroma
    profile. Every engine result (denoised samples, the loudness gain, the
    separated stems, the RMS value, the chroma profile, the tempo) is a
    parameter; `None` stands for an engine that raised. */
module AudioProcessing {
  import opened Common

  /** A mono signal. */
  type Signal = seq<real>

  /** Which optional packages imported successfully. */
  datatype Packages = Packages(demucs: bool, noisereduce: bool, pyloudnorm: bool)

  function Scale(x: Signal, c: real): (r: Signal)
    ensures |r| == |x|
    ensures forall i :: 0 <= i < |x| ==> r[i] == x[i] * c
  {
    seq(|x|, i requires 0 <= i < |x| => x[i] * c)
  }

  // ---------------------------------------------------------------------------
  // Denoising and normalisation

  /** `denoise_audio`: the input when noisereduce is missing or raises. */
  function Denoise(audio: Signal, p: Packages, reduced: Option<Signal>): (r: Signal)
    ensures !p.noisereduce || reduced.None? ==> r == audio
    ensures p.noisereduce && reduced.Some? ==> r == reduced.value
  {
    if !p.noisereduce then audio
    else match reduced
      case None => audio
      case Some(d) => d
  }

  /** `np.max(np.abs(x))`; None for an empty signal, where numpy raises. */
  function Peak(x: Signal): (r: Option<real>)
    ensures r.None? <==> x == []
    ensures r.Some? ==> r.value >= 0.0
  {
    if x == [] then None
    else match Peak(x[1..])
      case None => Some(AbsR(x[0]))
      case Some(m) => Some(MaxR(AbsR(x[0]), m))
  }

  /** No sample exceeds the peak in magnitude, and some sample reaches it. */
  lemma {:induction false} PeakBounds(x: Signal)
    requires x != []
    ensures forall i :: 0 <= i < |x| ==> AbsR(x[i]) <= Peak(x).value
    ensures exists i :: 0 <= i < |x| && AbsR(x[i]) == Peak(x).value
  {
    if x[1..] != [] {
      PeakBounds(x[1..]);
      assert forall i :: 1 <= i < |x| ==> x[i] == x[1..][i - 1];
      var k :| 0 <= k < |x[1..]| && AbsR(x[1..][k]) == Peak(x[1..]).value;
      if AbsR(x[0]) < Peak(x[1..]).value {
        assert AbsR(x[k + 1]) == Peak(x).value;
      }
    }
  }

  lemma AbsScale(v: real, c: real)
    requires c >= 0.0
    ensures AbsR(v * c) == AbsR(v) * c
  {
    if v < 0.0 {
      assert v * c <= 0.0;
    } else {
      assert v * c >= 0.0;
    }
  }

  lemma MulMono(a: real, b: real, q: real)
    requires a <= b && q >= 0.0
    ensures a * q <= b * q
  {
  }

  const Ceiling: real := 0.95

  /** The clipping guard: a peak above 0.95 is scaled down to exactly 0.95;
      otherwise the signal is kept. An empty signal makes numpy raise, and the
      caller then returns its own input. */
  function Limit(x: Signal): (r: Option<Signal>)
    ensures r.None? <==> x == []
    ensures r.Some? ==> |r.value| == |x|
    ensures r.Some? && Peak(x).value <= Ceiling ==> r.value == x
    ensures r.Some? && Peak(x).value > Ceiling ==> r.value == Scale(x, Ceiling / Peak(x).value)
  {
    match Peak(x)
    case None => None
    case Some(m) => if m > Ceiling then Some(Scale(x, Ceiling / m)) else Some(x)
  }

  /** Scaling by `q` a signal whose samples stay within `m` keeps them within
      `b = m * q`, and a sample that reached `m` then reaches `b`. */
  lemma ScaledWithin(x: Signal, m: real, q: real, b: real, k: nat)
    requires q >= 0.0 && m * q == b && k < |x| && AbsR(x[k]) == m
    requires forall i :: 0 <= i < |x| ==> AbsR(x[i]) <= m
    ensures forall i :: 0 <= i < |x| ==> AbsR(Scale(x, q)[i]) <= b
    ensures AbsR(Scale(x, q)[k]) == b
  {
    var y := Scale(x, q);
    forall i | 0 <= i < |x|
      ensures AbsR(y[i]) <= b
    {
      AbsScale(x[i], q);
      MulMono(AbsR(x[i]), m, q);
    }
    AbsScale(x[k], q);
  }

  lemma RatioScale(c: real, m: real)
    requires c >= 0.0 && m > 0.0
    ensures c / m >= 0.0 && m * (c / m) == c
  {
  }

  /** A bound reached by some sample and respected by all is the peak. */
  lemma PeakUnique(x: Signal, m: real, k: nat)
    requires k < |x| && AbsR(x[k]) == m
    requires forall i :: 0 <= i < |x| ==> AbsR(x[i]) <= m
    ensures Peak(x) == Some(m)
  {
    PeakBounds(x);
    var j :| 0 <= j < |x| && AbsR(x[j]) == Peak(x).value;
  }

  /** Scaling by `0.95 / m` a signal that peaks at `m` makes the peak
      exactly 0.95. */
  lemma ScaledToCeiling(x: Signal, m: real, k: nat)
    requires m > 0.0 && k < |x| && AbsR(x[k]) == m
    requires forall i :: 0 <= i < |x| ==> AbsR(x[i]) <= m
    ensures Peak(Scale(x, Ceiling / m)) == Some(Ceiling)
  {
    var q := Ceiling / m;
    RatioScale(Ceiling, m);
    ScaledWithin(x, m, q, Ceiling, k);
    PeakUnique(Scale(x, q), Ceiling, k);
  }

  /** After the guard no sample exceeds 0.95 in magnitude, and a signal that
      was too loud peaks at exactly 0.95. */
  lemma LimitBounds(x: Signal)
    requires x != []
    ensures forall i :: 0 <= i < |x| ==> AbsR(Limit(x).value[i]) <= Ceiling
    ensures Peak(Limit(x).value).value <= Ceiling
    ensures Peak(x).value > Ceiling ==> Peak(Limit(x).value) == Some(Ceiling)
  {
    var m := Peak(x).value;
    PeakBounds(x);
    var k :| 0 <= k < |x| && AbsR(x[k]) == m;
    if m > Ceiling {
      ScaledToCeiling(x, m, k);
    }
    PeakBounds(Limit(x).value);
  }

  /** The guard is idempotent. */
  lemma LimitIdempotent(x: Signal)
    requires x != []
    ensures Limit(Limit(x).value) == Limit(x)
  {
    LimitBounds(x);
  }

  /** `normalize_audio`. Without pyloudnorm the signal is scaled to an RMS of
      0.1 (`rms` is the engine-computed RMS of the input); with it, `gain` is
      the linear gain from the measured to the target loudness, None when the
      meter raises, and the clipping guard follows. Any failure returns the
      input. */
  function Normalize(audio: Signal, p: Packages, rms: real, gain: Option<real>): (r: Signal)
    requires rms >= 0.0
    ensures |r| == |audio|
    ensures !p.pyloudnorm ==> r == Scale(audio, 0.1 / (rms + 0.0000000001))
    ensures p.pyloudnorm && gain.None? ==> r == audio
    ensures p.pyloudnorm && gain.Some? && audio != [] ==> r == Limit(Scale(audio, gain.value)).value
  {
    if !p.pyloudnorm then Scale(audio, 0.1 / (rms + 0.0000000001))
    else match gain
      case None => audio
      case Some(g) =>
        match Limit(Scale(audio, g))
        case None => audio
        case Some(y) => y
  }

  /** With pyloudnorm, a normalised signal never peaks above 0.95 unless the
      meter failed and the input came back unchanged. */
  lemma NormalizedPeak(audio: Signal, p: Packages, rms: real, gain: Option<real>)
    requires rms >= 0.0 && p.pyloudnorm && gain.Some? && audio != []
    ensures Peak(Normalize(audio, p, rms, gain)).value <= Ceiling
  {
    LimitBounds(Scale(audio, gain.value));
  }

  // ---------------------------------------------------------------------------
  // Separation

  /** `separate_sources`: Demucs' stems when the separator is ready and the
      call succeeds; otherwise the input as both stems. */
  function Separate(audio: Signal, ready: bool, stems: Option<map<string, Signal>>): (r: map<string, Signal>)
    ensures !ready || stems.None? ==> r == map["vocals" := audio, "accompaniment" := audio]
    ensures ready && stems.Some? ==> r == stems.value
  {
    if ready then
      match stems
      case Some(s) => s
      case None => map["vocals" := audio, "accompaniment" := audio]
    else map["vocals" := audio, "accompaniment" := audio]
  }

  /** `dict.get(key, default)`. */
  function GetStem(stems: map<string, Signal>, key: string, default: Signal): (r: Signal)
    ensures key in stems ==> r == stems[key]
    ensures key !in stems ==> r == default
  {
    if key in stems then stems[key] else default
  }

  // ---------------------------------------------------------------------------
  // `_detect_key`

  const MajorScale: seq<nat> := [0, 2, 4, 5, 7, 9, 11]
  const MinorScale: seq<nat> := [0, 2, 3, 5, 7, 8, 10]

  /** `sum(profile[(idx + d) % 12] for d in degrees)`. */
  function ScaleScore(profile: seq<real>, idx: nat, degrees: seq<nat>): real
    requires |profile| == 12
  {
    if degrees == [] then 0.0
    else profile[(idx + degrees[0]) % 12] + ScaleScore(profile, idx, degrees[1..])
  }

  function Sum(xs: seq<real>): real {
    if xs == [] then 0.0 else xs[0] + Sum(xs[1..])
  }

  /** The key estimate: the tonic's name, the mode and the confidence. The
      confidence is None where the profile sums to 0 and numpy's division
      gives NaN or infinity. */
  datatype KeyInfo = KeyInfo(key: string, mode: string, confidence: Option<real>)

  /** The tonic: the first maximal bin (`np.argmax`). */
  function Tonic(profile: seq<real>): (r: nat)
    requires |profile| == 12
    ensures r < 12
    ensures forall j :: 0 <= j < 12 ==> profile[j] <= profile[r]
    ensures forall j :: 0 <= j < r ==> profile[j] < profile[r]
  {
    FirstBestSound(profile, 1, Some(0), profile[0]);
    FirstBest(profile, 1, Some(0), profile[0]).value
  }

  function DetectKey(profile: seq<real>): (r: KeyInfo)
    requires |profile| == 12
    ensures r.key == NoteNames[Tonic(profile)]
    ensures r.mode == "major" <==> ScaleScore(profile, Tonic(profile), MajorScale) > ScaleScore(profile, Tonic(profile), MinorScale)
    ensures r.mode == "major" || r.mode == "minor"
    ensures Sum(profile) != 0.0 <==> r.confidence.Some?
  {
    var idx := Tonic(profile);
    var major := ScaleScore(profile, idx, MajorScale);
    var minor := ScaleScore(profile, idx, MinorScale);
    var total := Sum(profile);
    KeyInfo(NoteNames[idx], if major > minor then "major" else "minor",
            if total == 0.0 then None else Some(MaxR(major, minor) / total))
  }

  /** The bin `d` semitones above the tonic. */
  function Above(profile: seq<real>, idx: nat, d: nat): real
    requires |profile| == 12
  {
    profile[(idx + d) % 12]
  }

  lemma MajorScoreTerms(profile: seq<real>, idx: nat)
    requires |profile| == 12
    ensures ScaleScore(profile, idx, MajorScale)
            == Above(profile, idx, 0) + Above(profile, idx, 2) + Above(profile, idx, 4) + Above(profile, idx, 5)
               + Above(profile, idx, 7) + Above(profile, idx, 9) + Above(profile, idx, 11)
  {
    var s := MajorScale;
    assert ScaleScore(profile, idx, s[7..]) == 0.0;
    assert ScaleScore(profile, idx, s[6..]) == Above(profile, idx, 11) + ScaleScore(profile, idx, s[7..]);
    assert ScaleScore(profile, idx, s[5..]) == Above(profile, idx, 9) + ScaleScore(profile, idx, s[6..]);
    assert ScaleScore(profile, idx, s[4..]) == Above(profile, idx, 7) + ScaleScore(profile, idx, s[5..]);
    assert ScaleScore(profile, idx, s[3..]) == Above(profile, idx, 5) + ScaleScore(profile, idx, s[4..]);
    assert ScaleScore(profile, idx, s[2..]) == Above(profile, idx, 4) + ScaleScore(profile, idx, s[3..]);
    assert ScaleScore(profile, idx, s[1..]) == Above(profile, idx, 2) + ScaleScore(profile, idx, s[2..]);
    assert ScaleScore(profile, idx, s) == Above(profile, idx, 0) + ScaleScore(profile, idx, s[1..]);
  }

  lemma MinorScoreTerms(profile: seq<real>, idx: nat)
    requires |profile| == 12
    ensures ScaleScore(profile, idx, MinorScale)
            == Above(profile, idx, 0) + Above(profile, idx, 2) + Above(profile, idx, 3) + Above(profile, idx, 5)
               + Above(profile, idx, 7) + Above(profile, idx, 8) + Above(profile, idx, 10)
  {
    var s := MinorScale;
    assert ScaleScore(profile, idx, s[7..]) == 0.0;
    assert ScaleScore(profile, idx, s[6..]) == Above(profile, idx, 10) + ScaleScore(profile, idx, s[7..]);
    assert ScaleScore(profile, idx, s[5..]) == Above(profile, idx, 8) + ScaleScore(profile, idx, s[6..]);
    assert ScaleScore(profile, idx, s[4..]) == Above(profile, idx, 7) + ScaleScore(profile, idx, s[5..]);
    assert ScaleScore(profile, idx, s[3..]) == Above(profile, idx, 5) + ScaleScore(profile, idx, s[4..]);
    assert ScaleScore(profile, idx, s[2..]) == Above(profile, idx, 3) + ScaleScore(profile, idx, s[3..]);
    assert ScaleScore(profile, idx, s[1..]) == Above(profile, idx, 2) + ScaleScore(profile, idx, s[2..]);
    assert ScaleScore(profile, idx, s) == Above(profile, idx, 0) + ScaleScore(profile, idx, s[1..]);
  }

  /** The two scales share the degrees 0, 2, 5 and 7, so the mode is major
      exactly when the major third, sixth and seventh outweigh the minor
      ones; a tie goes to minor. */
  lemma ModeByCharacteristicDegrees(profile: seq<real>)
    requires |profile| == 12
    ensures var idx := Tonic(profile);
            DetectKey(profile).mode == "major" <==>
              Above(profile, idx, 4) + Above(profile, idx, 9) + Above(profile, idx, 11)
              > Above(profile, idx, 3) + Above(profile, idx, 8) + Above(profile, idx, 10)
  {
    MajorScoreTerms(profile, Tonic(profile));
    MinorScoreTerms(profile, Tonic(profile));
  }

  /** Sum of a suffix: its first element plus the rest. */
  lemma SumFrom(p: seq<real>, k: nat)
    requires k < |p|
    ensures Sum(p[k..]) == p[k] + Sum(p[k + 1..])
  {
    assert p[k..][0] == p[k] && p[k..][1..] == p[k + 1..];
  }

  /** The twelve bins in explicit order. */
  lemma SumTwelve(p: seq<real>)
    requires |p| == 12
    ensures Sum(p) == p[0] + p[1] + p[2] + p[3] + p[4] + p[5] + p[6] + p[7] + p[8] + p[9] + p[10] + p[11]
  {
    assert p[12..] == [];
    SumFrom(p, 11); SumFrom(p, 10); SumFrom(p, 9); SumFrom(p, 8); SumFrom(p, 7); SumFrom(p, 6);
    SumFrom(p, 5); SumFrom(p, 4); SumFrom(p, 3); SumFrom(p, 2); SumFrom(p, 1); SumFrom(p, 0);
    assert p[0..] == p;
  }

  /** Seven distinct bins of a non-negative profile weigh at most the whole. */
  lemma ScoreAtMostTotal(profile: seq<real>, idx: nat)
    requires |profile| == 12 && idx < 12
    requires forall j :: 0 <= j < 12 ==> profile[j] >= 0.0
    ensures ScaleScore(profile, idx, MajorScale) <= Sum(profile)
    ensures ScaleScore(profile, idx, MinorScale) <= Sum(profile)
  {
    MajorScoreTerms(profile, idx);
    MinorScoreTerms(profile, idx);
    SumTwelve(profile);
    var rest := Sum(profile) - (Above(profile, idx, 0) + Above(profile, idx, 1) + Above(profile, idx, 2)
                 + Above(profile, idx, 3) + Above(profile, idx, 4) + Above(profile, idx, 5) + Above(profile, idx, 6)
                 + Above(profile, idx, 7) + Above(profile, idx, 8) + Above(profile, idx, 9) + Above(profile, idx, 10)
                 + Above(profile, idx, 11));
    RotatedBins(profile, idx);
    assert rest == 0.0;
  }

  /** The twelve bins above any tonic are the twelve bins. */
  lemma RotatedBins(p: seq<real>, idx: nat)
    requires |p| == 12 && idx < 12
    ensures Above(p, idx, 0) + Above(p, idx, 1) + Above(p, idx, 2) + Above(p, idx, 3) + Above(p, idx, 4)
            + Above(p, idx, 5) + Above(p, idx, 6) + Above(p, idx, 7) + Above(p, idx, 8) + Above(p, idx, 9)
            + Above(p, idx, 10) + Above(p, idx, 11)
            == p[0] + p[1] + p[2] + p[3] + p[4] + p[5] + p[6] + p[7] + p[8] + p[9] + p[10] + p[11]
  {
    forall d | 0 <= d < 12
      ensures Above(p, idx, d) == p[if idx + d < 12 then idx + d else idx + d - 12]
    {
      ModAbove(idx + d);
    }
  }

  lemma RatioBounds(a: real, b: real)
    requires 0.0 <= a <= b && b > 0.0
    ensures 0.0 <= a / b <= 1.0
  {
    var q := a / b;
    assert q * b == a;
    assert (1.0 - q) * b == b - a;
  }

  /** On a non-negative profile with energy, the confidence lies in [0, 1]. */
  lemma KeyConfidenceBounds(profile: seq<real>)
    requires |profile| == 12
    requires forall j :: 0 <= j < 12 ==> profile[j] >= 0.0
    requires Sum(profile) != 0.0
    ensures 0.0 <= DetectKey(profile).confidence.value <= 1.0
  {
    var idx := Tonic(profile);
    var major := ScaleScore(profile, idx, MajorScale);
    var minor := ScaleScore(profile, idx, MinorScale);
    ScoreAtMostTotal(profile, idx);
    MajorScoreTerms(profile, idx);
    SumTwelve(profile);
    var total := Sum(profile);
    assert major >= 0.0;
    RatioBounds(MaxR(major, minor), total);
    assert DetectKey(profile).confidence == Some(MaxR(major, minor) / total);
  }

  /** `_detect_key` on the chroma profile the engine computed, or None when
      the engine raised. */
  function DetectKeySafe(profile: Option<seq<real>>): (r: Option<KeyInfo>)
    requires profile.Some? ==> |profile.value| == 12
    ensures r.Some? <==> profile.Some?
    ensures r.Some? ==> r.value == DetectKey(profile.value)
  {
    match profile
    case None => None
    case Some(p) => Some(DetectKey(p))
  }

  // ---------------------------------------------------------------------------
  // The processor

  /** The analysis `process` reports (levels are not modelled). */
  datatype Analysis = Analysis(duration: real, sampleRate: nat, channels: nat, tempo: Option<real>, key: Option<KeyInfo>)

  /** What `process` returns. */
  datatype Processed = Processed(audio: Signal, vocals: Signal, accompaniment: Signal, sampleRate: nat, analysis: Analysis)

  /** What the engines produce for one file: the loaded samples and rate,
      then each stage's result (None where it raises). */
  datatype EngineResults = EngineResults(loaded: Signal, sampleRate: nat, reduced: Option<Signal>, rms: real,
                                         gain: Option<real>, stems: Option<map<string, Signal>>,
                                         tempo: Option<real>, chroma: Option<seq<real>>)

  predicate WellFormed(e: EngineResults) {
    e.sampleRate > 0 && e.rms >= 0.0 && (e.chroma.Some? ==> |e.chroma.value| == 12)
  }

  class AudioProcessor {
    var useDemucs: bool
    var saveIntermediate: bool
    var targetSr: nat
    var denoiseStrength: real
    var normalizeLufs: real
    /** Whether `self.separator` was created. */
    var separatorReady: bool

    /** Demucs is used only when requested and installed; a separator that
        fails to initialise switches it off. */
    constructor (useDemucs: bool, saveIntermediate: bool, targetSr: nat, denoiseStrength: real, normalizeLufs: real,
                 p: Packages, separatorInitOk: bool)
      ensures this.useDemucs == (useDemucs && p.demucs && separatorInitOk)
      ensures this.separatorReady == this.useDemucs
      ensures this.saveIntermediate == saveIntermediate && this.targetSr == targetSr
      ensures this.denoiseStrength == denoiseStrength && this.normalizeLufs == normalizeLufs
    {
      this.useDemucs := useDemucs && p.demucs;
      this.saveIntermediate := saveIntermediate;
      this.targetSr := targetSr;
      this.denoiseStrength := denoiseStrength;
      this.normalizeLufs := normalizeLufs;
      this.separatorReady := false;
      new;
      if this.useDemucs {
        if separatorInitOk {
          separatorReady := true;
        } else {
          this.useDemucs := false;
        }
      }
    }

    /** `process`: each stage reassigns `audio`; a stem Demucs does not
        return defaults to the normalised audio. */
    method Process(p: Packages, e: EngineResults) returns (r: Processed)
      requires WellFormed(e)
      ensures r.audio == Normalize(Denoise(e.loaded, p, e.reduced), p, e.rms, e.gain)
      ensures r.vocals == GetStem(Separate(r.audio, useDemucs && separatorReady, e.stems), "vocals", r.audio)
      ensures r.accompaniment == GetStem(Separate(r.audio, useDemucs && separatorReady, e.stems), "accompaniment", r.audio)
      ensures |r.audio| == |e.loaded| || (p.noisereduce && e.reduced.Some?)
      ensures r.sampleRate == e.sampleRate
      ensures r.analysis == Analysis(|r.audio| as real / e.sampleRate as real, e.sampleRate, 1, e.tempo, DetectKeySafe(e.chroma))
    {
      var audio := e.loaded;
      var sr := e.sampleRate;
      audio := Denoise(audio, p, e.reduced);
      audio := Normalize(audio, p, e.rms, e.gain);
      var separated := Separate(audio, useDemucs && separatorReady, e.stems);
      var vocals := GetStem(separated, "vocals", audio);
      var accompaniment := GetStem(separated, "accompaniment", audio);
      var analysis := Analysis(|audio| as real / sr as real, sr, 1, e.tempo, DetectKeySafe(e.chroma));
      r := Processed(audio, vocals, accompaniment, sr, analysis);
    }
  }
}
