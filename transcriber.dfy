/** Engine selection and word post-processing of the transcriber
    (`core/transcriber.py`): the default prompt table, the model fallback at
    initialisation, the candidate backends tried in order by `transcribe`,
    each backend's confidence filter, and the homophone alternatives. The
    Whisper engines themselves are a parameter: a function from backend name
    to what that backend returns or raises. */
module Transcriber {
  import opened Common

  /** One alternative reading of a word. */
  datatype Alternative = Alternative(text: string, confidence: real)

  /** A transcribed word, the dictionary every backend builds. */
  datatype TWord = TWord(text: string, start: real, end: real, confidence: real, alternatives: seq<Alternative>)

  // ---------------------------------------------------------------------------
  // `_get_default_prompt`

  /** The content types that have a prompt of their own. */
  predicate HasPrompt(contentType: string) {
    contentType == "christian" || contentType == "gospel" || contentType == "worship"
    || contentType == "hymn" || contentType == "clean"
  }

  const ChristianPrompt: string := "This is a Christian worship song with clean, family-friendly lyrics. No profanity or inappropriate language."
  const GospelPrompt: string := "This is a gospel song with spiritual and uplifting lyrics. No profanity or inappropriate language."
  const WorshipPrompt: string := "This is a worship song with reverent and spiritual lyrics. No profanity or inappropriate language."
  const HymnPrompt: string := "This is a traditional hymn with sacred and reverent lyrics. No profanity or inappropriate language."
  const CleanPrompt: string := "This is a family-friendly song with clean lyrics. No profanity or inappropriate language."

  /** The prompt table: "general" and unknown content types give "". */
  function DefaultPrompt(contentType: string): (r: string)
    ensures HasPrompt(contentType) ==> |r| > 0
    ensures !HasPrompt(contentType) ==> r == ""
  {
    if contentType == "christian" then
      ChristianPrompt
    else if contentType == "gospel" then
      GospelPrompt
    else if contentType == "worship" then
      WorshipPrompt
    else if contentType == "hymn" then
      HymnPrompt
    else if contentType == "clean" then
      CleanPrompt
    else ""
  }

  /** The constructor's prompt: the one passed, else the default. */
  function EffectivePrompt(prompt: Option<string>, contentType: string): (r: string)
    ensures prompt.Some? ==> r == prompt.value
    ensures prompt.None? ==> r == DefaultPrompt(contentType)
  {
    prompt.GetOr(DefaultPrompt(contentType))
  }

  // ---------------------------------------------------------------------------
  // `_initialize_model`

  /** Which optional Whisper packages imported successfully. */
  datatype Availability = Availability(openaiWhisper: bool, fasterWhisper: bool, whisperx: bool, mlxWhisper: bool)

  predicate Available(model: string, a: Availability) {
    (model == "openai-whisper" && a.openaiWhisper)
    || (model == "faster-whisper" && a.fasterWhisper)
    || (model == "whisperx" && a.whisperx)
    || (model == "mlx-whisper" && a.mlxWhisper)
  }

  /** OpenAI Whisper loads large-v2 in place of the three smallest sizes. */
  function OpenAiLoadSize(size: string): (r: string)
    ensures size == "tiny" || size == "base" || size == "small" ==> r == "large-v2"
    ensures !(size == "tiny" || size == "base" || size == "small") ==> r == size
  {
    if size == "tiny" || size == "base" || size == "small" then "large-v2" else size
  }

  /** The model actually loaded and the size passed to its loader. */
  datatype Loaded = Loaded(model: string, size: string)

  /** The requested backend when available, else faster-whisper when that is
      available, else the ValueError. */
  function InitModel(model: string, size: string, a: Availability): (r: Result<Loaded>)
    ensures r.Ok? <==> Available(model, a) || a.fasterWhisper
    ensures r.Ok? ==> Available(r.value.model, a)
    ensures Available(model, a) ==> r.Ok? && r.value.model == model
    ensures r.Ok? && r.value.model != model ==> r.value == Loaded("faster-whisper", size)
  {
    if model == "openai-whisper" && a.openaiWhisper then Ok(Loaded(model, OpenAiLoadSize(size)))
    else if model == "faster-whisper" && a.fasterWhisper then Ok(Loaded(model, size))
    else if model == "whisperx" && a.whisperx then Ok(Loaded(model, size))
    else if model == "mlx-whisper" && a.mlxWhisper then Ok(Loaded(model, size))
    else if a.fasterWhisper then Ok(Loaded("faster-whisper", size))
    else Err("Model " + model + " not available and no fallback found")
  }

  /** Initialising twice with the same packages changes nothing more: the
      model the first call settles on is available, so it is kept. */
  lemma InitModelStable(model: string, size: string, a: Availability)
    requires InitModel(model, size, a).Ok?
    ensures InitModel(InitModel(model, size, a).value.model, size, a).Ok?
    ensures InitModel(InitModel(model, size, a).value.model, size, a).value.model == InitModel(model, size, a).value.model
  {
  }

  /** The transcriber's configuration as the constructor leaves it. */
  class Transcriber {
    var model: string
    var modelSize: string
    var alternativesCount: int
    var confidenceThreshold: real
    var prompt: string
    var contentType: string
    var loadedSize: string

    /** The constructor: fills the default prompt, then initialises the
        model, rewriting `model` on fallback; `ok` is false where the source
        raises. */
    constructor (model: string, modelSize: string, alternativesCount: int, confidenceThreshold: real,
                 prompt: Option<string>, contentType: string, a: Availability)
      ensures this.modelSize == modelSize && this.alternativesCount == alternativesCount
      ensures this.confidenceThreshold == confidenceThreshold && this.contentType == contentType
      ensures this.prompt == EffectivePrompt(prompt, contentType)
      ensures InitModel(model, modelSize, a).Ok? ==>
                this.model == InitModel(model, modelSize, a).value.model && this.loadedSize == InitModel(model, modelSize, a).value.size
      ensures InitModel(model, modelSize, a).Err? ==> this.model == model
    {
      this.model := model;
      this.modelSize := modelSize;
      this.alternativesCount := alternativesCount;
      this.confidenceThreshold := confidenceThreshold;
      this.contentType := contentType;
      this.prompt := if prompt.None? then DefaultPrompt(contentType) else prompt.value;
      this.loadedSize := modelSize;
      new;
      var _ := InitializeModel(a);
    }

    /** `_initialize_model`: false where the source raises ValueError. */
    method InitializeModel(a: Availability) returns (ok: bool)
      modifies this
      ensures ok == InitModel(old(model), modelSize, a).Ok?
      ensures ok ==> model == InitModel(old(model), modelSize, a).value.model
                     && loadedSize == InitModel(old(model), modelSize, a).value.size
      ensures !ok ==> model == old(model) && loadedSize == old(loadedSize)
      ensures modelSize == old(modelSize) && alternativesCount == old(alternativesCount)
      ensures confidenceThreshold == old(confidenceThreshold) && prompt == old(prompt) && contentType == old(contentType)
    {
      if model == "openai-whisper" && a.openaiWhisper {
        loadedSize := if modelSize == "tiny" || modelSize == "base" || modelSize == "small" then "large-v2" else modelSize;
      } else if model == "faster-whisper" && a.fasterWhisper {
        loadedSize := modelSize;
      } else if model == "whisperx" && a.whisperx {
        loadedSize := modelSize;
      } else if model == "mlx-whisper" && a.mlxWhisper {
        loadedSize := modelSize;
      } else if a.fasterWhisper {
        model := "faster-whisper";
        loadedSize := modelSize;
      } else {
        return false;
      }
      return true;
    }
  }

  // ---------------------------------------------------------------------------
  // Per-backend word lists

  /** One word as an engine reports it; `confidence` is None where the
      engine's dictionary has no such key (the backends default it to 0.5). */
  datatype RawWord = RawWord(word: string, start: real, end: real, confidence: Option<real>)

  function ToWord(w: RawWord): (r: TWord)
    ensures r.text == Strip(w.word) && r.start == w.start && r.end == w.end && r.alternatives == []
    ensures r.confidence == w.confidence.GetOr(0.5)
  {
    TWord(Strip(w.word), w.start, w.end, w.confidence.GetOr(0.5), [])
  }

  /** What one engine word contributes: the word, or nothing when its
      confidence is below the threshold. */
  function Kept(w: RawWord, threshold: real): (r: seq<TWord>)
    ensures r == [] || r == [ToWord(w)]
    ensures r != [] <==> w.confidence.GetOr(0.5) >= threshold
  {
    if w.confidence.GetOr(0.5) >= threshold then [ToWord(w)] else []
  }

  /** The words a backend returns: the engine's words, in order, that reach
      the confidence threshold. */
  function ConfidentWords(raw: seq<RawWord>, threshold: real): (r: seq<TWord>)
    ensures |r| <= |raw|
  {
    if raw == [] then []
    else ConfidentWords(raw[..|raw| - 1], threshold) + Kept(raw[|raw| - 1], threshold)
  }

  /** A word is returned iff the engine reported it with a confidence
      reaching the threshold. */
  lemma {:induction false} ConfidentWordsSpec(raw: seq<RawWord>, threshold: real)
    ensures forall w :: w in ConfidentWords(raw, threshold) ==> w.confidence >= threshold && w.alternatives == []
    ensures forall w :: w in ConfidentWords(raw, threshold) <==>
              exists x :: x in raw && x.confidence.GetOr(0.5) >= threshold && w == ToWord(x)
  {
    if raw != [] {
      var init := raw[..|raw| - 1];
      ConfidentWordsSpec(init, threshold);
      assert raw == init + [raw[|raw| - 1]];
    }
  }

  /** Every word of the engine is kept when the threshold is not above any
      confidence. */
  lemma {:induction false} ConfidentWordsKeepAll(raw: seq<RawWord>, threshold: real)
    requires forall k :: 0 <= k < |raw| ==> raw[k].confidence.GetOr(0.5) >= threshold
    ensures |ConfidentWords(raw, threshold)| == |raw|
  {
    if raw != [] {
      ConfidentWordsKeepAll(raw[..|raw| - 1], threshold);
    }
  }

  /** One more engine word extends the kept words by that word when it is
      confident enough. */
  lemma ConfidentWordsSnoc(raw: seq<RawWord>, i: nat, threshold: real)
    requires i < |raw|
    ensures ToWord(raw[i]).confidence >= threshold ==>
              ConfidentWords(raw[..i + 1], threshold) == ConfidentWords(raw[..i], threshold) + [ToWord(raw[i])]
    ensures ToWord(raw[i]).confidence < threshold ==>
              ConfidentWords(raw[..i + 1], threshold) == ConfidentWords(raw[..i], threshold)
  {
    assert raw[..i + 1][..i] == raw[..i];
  }

  /** The loop each backend runs over the engine's words. */
  method CollectWords(raw: seq<RawWord>, threshold: real) returns (words: seq<TWord>)
    ensures words == ConfidentWords(raw, threshold)
  {
    words := [];
    var i := 0;
    while i < |raw|
      invariant 0 <= i <= |raw|
      invariant words == ConfidentWords(raw[..i], threshold)
    {
      var word := ToWord(raw[i]);
      ConfidentWordsSnoc(raw, i, threshold);
      if word.confidence >= threshold {
        words := words + [word];
      }
      i := i + 1;
    }
    assert raw[..i] == raw;
  }

  // ---------------------------------------------------------------------------
  // `_generate_alternatives`

  /** The fixed table of common mishearings. */
  function Homophones(key: string): (r: seq<string>)
    ensures |r| == 0 || |r| == 2
  {
    if key == "the" then ["thee", "thuh"]
    else if key == "a" then ["ay", "uh"]
    else if key == "and" then ["an", "end"]
    else if key == "to" then ["too", "two"]
    else if key == "for" then ["four", "fore"]
    else if key == "you" then ["u", "yew"]
    else if key == "are" then ["r", "our"]
    else if key == "your" then ["you're", "yore"]
    else if key == "there" then ["their", "they're"]
    else if key == "here" then ["hear", "heer"]
    else []
  }


  /** The table's readings of the lower-cased, stripped word, each at 0.8 of
      the word's confidence. */
  function GenerateAlternatives(word: string, confidence: real): (r: seq<Alternative>)
    ensures |r| == |Homophones(Strip(Lower(word)))|
    ensures forall k :: 0 <= k < |r| ==> r[k].text == Homophones(Strip(Lower(word)))[k] && r[k].confidence == confidence * 0.8
  {
    var alts := Homophones(Strip(Lower(word)));
    seq(|alts|, k requires 0 <= k < |alts| => Alternative(alts[k], confidence * 0.8))
  }

  /** For a word with positive confidence every alternative is strictly less
      confident than the word. */
  lemma AlternativesLessConfident(word: string, confidence: real)
    requires confidence > 0.0
    ensures forall a :: a in GenerateAlternatives(word, confidence) ==> a.confidence < confidence
  {
  }

  /** Python's `xs[:n]` for n > 0. */
  function Take<T>(xs: seq<T>, n: nat): (r: seq<T>)
    ensures |r| == MinI(n, |xs|) && r == xs[..|r|]
  {
    if n < |xs| then xs[..n] else xs
  }

  /** The alternatives step of `transcribe`: only when the count is positive,
      each word gets at most `count` alternatives; nothing else changes. */
  function WithAlternatives(words: seq<TWord>, count: int): (r: seq<TWord>)
    ensures |r| == |words|
    ensures count <= 0 ==> r == words
    ensures forall k :: 0 <= k < |r| ==> r[k] == words[k].(alternatives := r[k].alternatives)
    ensures count > 0 ==> forall k :: 0 <= k < |r| ==>
              r[k].alternatives == Take(GenerateAlternatives(words[k].text, words[k].confidence), count)
  {
    if count <= 0 then words
    else seq(|words|, k requires 0 <= k < |words| =>
           words[k].(alternatives := Take(GenerateAlternatives(words[k].text, words[k].confidence), count)))
  }

  // ---------------------------------------------------------------------------
  // `transcribe`

  /** What a backend call does: returns its words or raises. */
  datatype Outcome = Words(words: seq<TWord>) | Raised(message: string)

  /** The backends tried, in order. */
  function Candidates(model: string): (r: seq<string>)
    ensures 1 <= |r| <= 2 && r[0] == model
    ensures |r| == 2 ==> r[0] != r[1]
  {
    if model == "faster-whisper" then ["faster-whisper", "openai-whisper"]
    else if model == "openai-whisper" then ["openai-whisper", "faster-whisper"]
    else [model]
  }

  predicate IsBackend(name: string) {
    name == "openai-whisper" || name == "faster-whisper" || name == "whisperx" || name == "mlx-whisper"
  }

  /** The dispatch on the candidate's name: a name that is none of the four
      backends runs nothing and leaves `words` as None. */
  function Dispatch(name: string, run: string -> Outcome): (r: Option<Outcome>)
    ensures r.Some? <==> IsBackend(name)
    ensures r.Some? ==> r.value == run(name)
  {
    if IsBackend(name) then Some(run(name)) else None
  }

  /** The fallback loop from candidate i on. */
  function TryFrom(cands: seq<string>, i: nat, run: string -> Outcome): Result<seq<TWord>>
    requires i <= |cands|
    decreases |cands| - i
  {
    if i == |cands| then Err("No transcription model succeeded")
    else match Dispatch(cands[i], run)
      case None => TryFrom(cands, i + 1, run)
      case Some(Words(ws)) => Ok(ws)
      case Some(Raised(m)) =>
        if cands[i] == cands[|cands| - 1] then Err("All transcription models failed: " + m)
        else TryFrom(cands, i + 1, run)
  }

  /** The words returned come from the first candidate that returned words;
      every candidate before it raised or is no backend. */
  lemma {:induction false} TryFromFirstSuccess(cands: seq<string>, i: nat, run: string -> Outcome)
    requires i <= |cands|
    requires TryFrom(cands, i, run).Ok?
    ensures exists j :: i <= j < |cands| && Dispatch(cands[j], run) == Some(Words(TryFrom(cands, i, run).value))
                        && forall k :: i <= k < j ==> !(Dispatch(cands[k], run).Some? && Dispatch(cands[k], run).value.Words?)
    decreases |cands| - i
  {
    if !(Dispatch(cands[i], run).Some? && Dispatch(cands[i], run).value.Words?) {
      TryFromFirstSuccess(cands, i + 1, run);
      var j :| i + 1 <= j < |cands| && Dispatch(cands[j], run) == Some(Words(TryFrom(cands, i, run).value))
               && forall k :: i + 1 <= k < j ==> !(Dispatch(cands[k], run).Some? && Dispatch(cands[k], run).value.Words?);
      assert forall k :: i <= k < j ==> !(Dispatch(cands[k], run).Some? && Dispatch(cands[k], run).value.Words?);
    }
  }

  /** A candidate that returns words ends the search: later candidates
      decide nothing. */
  lemma TryFromStopsAtWords(cands: seq<string>, i: nat, run: string -> Outcome, ws: seq<TWord>)
    requires i < |cands| && Dispatch(cands[i], run) == Some(Words(ws))
    ensures TryFrom(cands, i, run) == Ok(ws)
  {
  }

  /** The whole call: the words of the first working candidate, with
      alternatives, or the error. */
  function TranscribeSpec(model: string, count: int, run: string -> Outcome): (r: Result<seq<TWord>>)
  {
    match TryFrom(Candidates(model), 0, run)
    case Ok(ws) => Ok(WithAlternatives(ws, count))
    case Err(e) => Err(e)
  }

  /** Faster-whisper that raises falls back to OpenAI Whisper; when both
      raise, the error names the last failure. */
  lemma FasterFallsBackToOpenAi(run: string -> Outcome, count: int)
    requires run("faster-whisper").Raised?
    ensures run("openai-whisper").Words? ==>
              TranscribeSpec("faster-whisper", count, run) == Ok(WithAlternatives(run("openai-whisper").words, count))
    ensures run("openai-whisper").Raised? ==>
              TranscribeSpec("faster-whisper", count, run) == Err("All transcription models failed: " + run("openai-whisper").message)
  {
    var c := Candidates("faster-whisper");
    assert c[0] != c[|c| - 1];
  }

  /** A model that is none of the backends never yields words. */
  lemma UnknownModelFails(model: string, count: int, run: string -> Outcome)
    requires !IsBackend(model)
    ensures TranscribeSpec(model, count, run) == Err("No transcription model succeeded")
  {
    var c := Candidates(model);
    assert c == [model];
    assert Dispatch(c[0], run).None?;
    assert TryFrom(c, 1, run) == Err("No transcription model succeeded");
    assert TryFrom(c, 0, run) == TryFrom(c, 1, run);
  }

  /** The in-place loop that attaches each word's alternatives. */
  method AttachAlternatives(words: seq<TWord>, count: int) returns (ws: seq<TWord>)
    ensures ws == WithAlternatives(words, count)
  {
    ws := words;
    if count > 0 {
      var k := 0;
      while k < |ws|
        invariant 0 <= k <= |ws| && |ws| == |words|
        invariant forall j :: 0 <= j < k ==> ws[j] == WithAlternatives(words, count)[j]
        invariant forall j :: k <= j < |ws| ==> ws[j] == words[j]
      {
        ws := ws[k := ws[k].(alternatives := Take(GenerateAlternatives(ws[k].text, ws[k].confidence), count))];
        k := k + 1;
      }
    }
  }

  /** The source's loop: `words` starts as None, each candidate is tried in
      order, an exception on the last candidate becomes ValueError; then the
      alternatives are attached in place. */
  method Transcribe(model: string, count: int, run: string -> Outcome) returns (r: Result<seq<TWord>>)
    ensures r == TranscribeSpec(model, count, run)
  {
    var modelsToTry := Candidates(model);
    var words: Option<seq<TWord>> := None;
    var i := 0;
    while i < |modelsToTry|
      invariant 0 <= i <= |modelsToTry|
      invariant words.None?
      invariant TryFrom(modelsToTry, i, run) == TryFrom(modelsToTry, 0, run)
    {
      var name := modelsToTry[i];
      var outcome := Dispatch(name, run);
      if outcome.Some? && outcome.value.Words? {
        words := Some(outcome.value.words);
        break;
      }
      if outcome.Some? && outcome.value.Raised? && name == modelsToTry[|modelsToTry| - 1] {
        return Err("All transcription models failed: " + outcome.value.message);
      }
      i := i + 1;
    }
    if words.None? {
      return Err("No transcription model succeeded");
    }
    var ws := AttachAlternatives(words.value, count);
    r := Ok(ws);
  }
}
