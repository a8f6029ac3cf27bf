/** The Gemini client: the fallback chord guesser, code-fence stripping,
    the unavailability test, how answers are read into timed words, chords
    and notes, and the chunked analysis with its shared backoff counter.
    The HTTP requests, audio decoding and encoding, JSON parsing and
    sleeping are outside the model: the replies, the sample count and
    rate, and Python's conversions of decoded values are parameters, and
    the sleeps are recorded instead of taken. */
module GeminiClient {
  import opened Common
  import opened JsonData

  datatype AltWord = AltWord(text: string, confidence: real)

  datatype AltWordTimed = AltWordTimed(text: string, start: real, end: real)

  datatype AltChordTimed = AltChordTimed(symbol: string, start: real, end: real)

  datatype AltNoteTimed = AltNoteTimed(pitchMidi: int, start: real, end: real)

  // ---------------------------------------------------------------------------
  // The placeholder chord guesser

  /** The chords `infer_chords` cycles through. */
  const Pattern: seq<string> := ["C", "G", "Am", "F"]

  /** `infer_chords`: one chord per whitespace-separated word, cycling
      through the pattern, each with confidence 0.5. */
  function InferChords(text: string): (r: seq<AltWord>)
    ensures |r| == |Split(text)|
    ensures forall i :: 0 <= i < |r| ==> r[i].text in Pattern && r[i].confidence == 0.5
  {
    var n := |Split(text)|;
    seq(n, i requires 0 <= i < n => AltWord(Pattern[i % |Pattern|], 0.5))
  }

  /** The guesses start on C and repeat every four words. */
  lemma InferChordsCycle(text: string)
    ensures var r := InferChords(text);
            (|r| > 0 ==> r[0] == AltWord("C", 0.5))
            && forall i :: 0 <= i < |r| - 4 ==> r[i + 4] == r[i]
  {
    var r := InferChords(text);
    forall i | 0 <= i < |r| - 4 ensures r[i + 4] == r[i] {
      assert (i + 4) % 4 == i % 4;
    }
  }

  /** Only the number of words matters, not what they say. */
  lemma InferChordsWordCount(a: string, b: string)
    requires |Split(a)| == |Split(b)|
    ensures InferChords(a) == InferChords(b)
  {
  }

  // ---------------------------------------------------------------------------
  // Code fences

  /** `t.split("\n", 1)[1]` when there is a newline, else `t`. */
  function AfterFirstLine(t: string): (r: string)
    ensures '\n' !in t ==> r == t
    ensures '\n' in t ==> EndsWith(t, "\n" + r) && |r| < |t|
  {
    match FindFrom(t, '\n', 0)
    case None => t
    case Some(k) =>
      assert t[k..] == "\n" + t[k + 1..];
      t[k + 1..]
  }

  /** A leading "json" line, as the model may put under a bare fence. */
  function DropJsonLine(t: string): string {
    if StartsWith(Lower(t), "json\n") then AfterFirstLine(t) else t
  }

  /** A closing fence. */
  function DropClosingFence(t: string): (r: string)
    ensures EndsWith(t, "```") ==> t == r + "```"
    ensures !EndsWith(t, "```") ==> r == t
  {
    if EndsWith(t, "```") then t[..|t| - 3] else t
  }

  /** `strip_code_fences`: a trimmed text opening with a fence loses its
      first line, then a leading "json" line, then a closing fence, and is
      trimmed again; any other text is only trimmed. */
  function StripCodeFences(s: string): (r: string)
    ensures !StartsWith(Strip(s), "```") ==> r == Strip(s)
    ensures r == [] || (!IsSpace(r[0]) && !IsSpace(r[|r| - 1]))
  {
    var t := Strip(s);
    if !StartsWith(t, "```") then t
    else Strip(DropClosingFence(DropJsonLine(AfterFirstLine(t))))
  }

  /** A trailing newline is trimmed away. */
  lemma StripNewline(b: string)
    requires b != [] && !IsSpace(b[0]) && !IsSpace(b[|b| - 1])
    ensures Strip(b + "\n") == b
  {
    var s := b + "\n";
    assert LStrip(s) == s;
    assert s[..|s| - 1] == b;
    assert RStrip(b) == b;
  }

  /** A JSON object or list does not start with a "json" line. */
  lemma NoJsonLine(t: string)
    requires t != [] && (t[0] == '{' || t[0] == '[')
    ensures DropJsonLine(t) == t
  {
    var l := Lower(t);
    assert l[0] == t[0];
    assert !StartsWith(l, "json\n") by {
      if |l| >= 5 {
        assert l[..5][0] == l[0];
      }
    }
  }

  /** A JSON object or list fenced as a "json" block, or as a bare block,
      comes back exactly. */
  lemma FencesRoundTrip(body: string)
    requires body != [] && (body[0] == '{' || body[0] == '[') && !IsSpace(body[|body| - 1])
    ensures StripCodeFences("```json\n" + body + "\n```") == body
    ensures StripCodeFences("```\n" + body + "\n```") == body
  {
    JsonFence(body);
    BareFence(body);
  }

  lemma JsonFence(body: string)
    requires body != [] && (body[0] == '{' || body[0] == '[') && !IsSpace(body[|body| - 1])
    ensures StripCodeFences("```json\n" + body + "\n```") == body
  {
    var s := "```json\n" + body + "\n```";
    assert s[..8] == "```json\n" && s[8..] == body + "\n```";
    FindFromFirst(s, '\n', 0, 7);
    FencedText(s, body);
  }

  lemma BareFence(body: string)
    requires body != [] && (body[0] == '{' || body[0] == '[') && !IsSpace(body[|body| - 1])
    ensures StripCodeFences("```\n" + body + "\n```") == body
  {
    var s := "```\n" + body + "\n```";
    assert s[..4] == "```\n" && s[4..] == body + "\n```";
    FindFromFirst(s, '\n', 0, 3);
    FencedText(s, body);
  }

  /** A fenced text whose first line is followed by a JSON object or list
      and the closing fence. */
  lemma FencedText(s: string, body: string)
    requires StartsWith(s, "```") && !IsSpace(s[|s| - 1])
    requires AfterFirstLine(s) == body + "\n```"
    requires body != [] && (body[0] == '{' || body[0] == '[') && !IsSpace(body[|body| - 1])
    ensures StripCodeFences(s) == body
  {
    StripNoop(s);
    FencePieces(body);
    FenceSteps(s, body);
  }

  /** What the steps after the first line do to a JSON body and its closing fence. */
  lemma FencePieces(body: string)
    requires body != [] && (body[0] == '{' || body[0] == '[') && !IsSpace(body[|body| - 1])
    ensures DropJsonLine(body + "\n```") == body + "\n```"
    ensures DropClosingFence(body + "\n```") == body + "\n"
    ensures Strip(body + "\n") == body
  {
    NoJsonLine(body + "\n```");
    ClosingFence(body);
    StripNewline(body);
  }

  lemma ClosingFence(body: string)
    ensures DropClosingFence(body + "\n```") == body + "\n"
  {
    var t := body + "\n```";
    assert t[|t| - 3..] == "```";
    assert t[..|t| - 3] == body + "\n";
  }

  lemma FenceSteps(s: string, body: string)
    requires StartsWith(s, "```") && Strip(s) == s
    requires AfterFirstLine(s) == body + "\n```"
    requires DropJsonLine(body + "\n```") == body + "\n```"
    requires DropClosingFence(body + "\n```") == body + "\n"
    requires Strip(body + "\n") == body
    ensures StripCodeFences(s) == body
  {
  }

  // ---------------------------------------------------------------------------
  // Replies

  /** What `_post_audio_payload` returns: the HTTP status (0 when the
      request failed) and the decoded JSON body (`{}` when there is none). */
  datatype Reply = Reply(status: int, json: Json)

  /** `_is_unavailable`: status 503, or a JSON error object whose status
      is "UNAVAILABLE". An error that is not an object cannot be asked for
      its status, and the test is then false. */
  predicate IsUnavailable(res: Reply) {
    if res.status == 503 then true
    else if !res.json.JObj? then false
    else
      var err := Get(res.json.fields, "error", JNull);
      Truthy(err) && err.JObj? && Get(err.fields, "status", JNull) == JStr("UNAVAILABLE")
  }

  lemma IsUnavailableSpec(res: Reply)
    ensures IsUnavailable(res) <==>
              res.status == 503
              || (res.json.JObj? && "error" in res.json.fields
                  && res.json.fields["error"].JObj?
                  && "status" in res.json.fields["error"].fields
                  && res.json.fields["error"].fields["status"] == JStr("UNAVAILABLE"))
  {
  }

  /** What `requests` gives the one-shot calls: a failed request, or an
      answer whose body may not be JSON. */
  datatype Http = RequestFailed | Answered(status: int, body: Option<Json>)

  /** `v.get(key, default)`: None where `v` is not an object. */
  function GetIn(v: Json, key: string, default: Json): (r: Option<Json>)
    ensures r.Some? <==> v.JObj?
  {
    if v.JObj? then Some(Get(v.fields, key, default)) else None
  }

  /** `v[key]`: None where Python raises. */
  function Key(v: Json, key: string): (r: Option<Json>)
    ensures r.Some? <==> v.JObj? && key in v.fields
  {
    if v.JObj? && key in v.fields then Some(v.fields[key]) else None
  }

  /** `v[0]`: None where Python raises. */
  function Index0(v: Json): (r: Option<Json>)
    ensures v.JList? && v.items != [] ==> r == Some(v.items[0])
    ensures v.JList? && v.items == [] ==> r.None?
  {
    match v
    case JList(items) => if items != [] then Some(items[0]) else None
    case JStr(s) => if s != "" then Some(JStr([s[0]])) else None
    case _ => None
  }

  /** The usual shape of an answer: one candidate whose first part holds
      the text `t`. */
  function Answer(t: Json): Json {
    JObj(map["candidates" := JList([JObj(map["content" := JObj(map["parts" := JList([JObj(map["text" := t])])])])])])
  }

  /** `data["candidates"][0]["content"]["parts"][0]["text"]`. */
  function StrictText(data: Json): Option<Json> {
    match Key(data, "candidates")
    case None => None
    case Some(cs) =>
      match Index0(cs)
      case None => None
      case Some(c) =>
        match Key(c, "content")
        case None => None
        case Some(content) =>
          match Key(content, "parts")
          case None => None
          case Some(ps) =>
            match Index0(ps)
            case None => None
            case Some(p) => Key(p, "text")
  }

  /** The chunk loop's lenient lookup of the same text, with defaults at
      each step and "" where a step raises. */
  function ChunkText(json: Json): Json {
    match GetIn(json, "candidates", JList([JObj(map[])]))
    case None => JStr("")
    case Some(cs) =>
      match Index0(cs)
      case None => JStr("")
      case Some(c) =>
        match GetIn(c, "content", JObj(map[]))
        case None => JStr("")
        case Some(content) =>
          match GetIn(content, "parts", JList([JObj(map[])]))
          case None => JStr("")
          case Some(ps) =>
            match Index0(ps)
            case None => JStr("")
            case Some(p) => GetIn(p, "text", JStr("")).GetOr(JStr(""))
  }

  /** Both lookups find the text of a well-formed answer, and the lenient
      one reads an empty object as no text. */
  lemma AnswerText(t: Json)
    ensures StrictText(Answer(t)) == Some(t)
    ensures ChunkText(Answer(t)) == t
    ensures ChunkText(JObj(map[])) == JStr("")
  {
    var part := JObj(map["text" := t]);
    var content := JObj(map["parts" := JList([part])]);
    var cand := JObj(map["content" := content]);
    assert Answer(t) == JObj(map["candidates" := JList([cand])]);
    assert Key(Answer(t), "candidates") == Some(JList([cand]));
    assert Key(cand, "content") == Some(content);
    assert Key(content, "parts") == Some(JList([part]));
    assert Key(part, "text") == Some(t);
    assert GetIn(JObj(map[]), "candidates", JList([JObj(map[])])) == Some(JList([JObj(map[])]));
    assert GetIn(JObj(map[]), "content", JObj(map[])) == Some(JObj(map[]));
    assert GetIn(JObj(map[]), "parts", JList([JObj(map[])])) == Some(JList([JObj(map[])]));
  }

  // ---------------------------------------------------------------------------
  // Python's conversions of decoded values

  /** How Python renders and parses what the client converts: `str()` of
      a value that is not a string, `float()` and `int()` of a string, and
      `json.loads`; None where they raise. */
  datatype Conv = Conv(strOf: Json -> string, floatOf: string -> Option<real>,
                       intOf: string -> Option<int>, loads: string -> Option<Json>)

  /** `str(v)`. */
  function PyStr(cv: Conv, v: Json): string {
    if v.JStr? then v.s else cv.strOf(v)
  }

  /** `str(v or "")`. */
  function OrStr(cv: Conv, v: Json): (r: string)
    ensures !Truthy(v) ==> r == ""
  {
    if Truthy(v) then PyStr(cv, v) else ""
  }

  /** `float(v)`. */
  function PyFloat(cv: Conv, v: Json): Option<real> {
    match v
    case JNum(n) => Some(n)
    case JBool(b) => Some(if b then 1.0 else 0.0)
    case JStr(s) => cv.floatOf(s)
    case _ => None
  }

  /** `int(v)`: a float is truncated toward zero. */
  function PyInt(cv: Conv, v: Json): Option<int> {
    match v
    case JNum(n) => Some(Trunc(n))
    case JBool(b) => Some(if b then 1 else 0)
    case JStr(s) => cv.intOf(s)
    case _ => None
  }

  /** `v or {}` used as a dictionary: None where `.get` would raise. */
  function AsDict(v: Json): (r: Option<map<string, Json>>)
    ensures !Truthy(v) ==> r == Some(map[])
    ensures v.JObj? ==> r == Some(v.fields)
  {
    if !Truthy(v) then Some(map[]) else if v.JObj? then Some(v.fields) else None
  }

  /** A word read from its object, its times shifted by `offset`. */
  function WordAt(cv: Conv, d: map<string, Json>, offset: real): Option<AltWordTimed> {
    match PyFloat(cv, Get(d, "start_sec", JNum(0.0)))
    case None => None
    case Some(s) =>
      match PyFloat(cv, Get(d, "end_sec", JNum(0.0)))
      case None => None
      case Some(e) => Some(AltWordTimed(PyStr(cv, Get(d, "text", JStr(""))), offset + s, offset + e))
  }

  /** The symbol rebuilt from its parts: root, quality, and "/" with the
      bass when there is one. */
  function ComposeSymbol(root: string, quality: string, bass: string): (r: string)
    ensures StartsWith(r, root + quality)
    ensures r == root + quality <==> bass == ""
  {
    if bass != "" then root + quality + "/" + bass else root + quality
  }

  /** A rebuilt symbol splits at its slash into the chord and the bass. */
  lemma ComposeSymbolSplit(root: string, quality: string, bass: string)
    requires '/' !in root + quality && '/' !in bass && bass != ""
    ensures SplitOn(ComposeSymbol(root, quality, bass), '/') == [root + quality, bass]
  {
    var ps := [root + quality, bass];
    assert Join(ps, "/") == root + quality + "/" + bass by {
      assert Join(ps[1..], "/") == bass;
    }
    SplitOnJoin(ps, '/');
  }

  /** A chord's symbol: its "symbol" field, or else one rebuilt from
      "root", "quality" and "bass". */
  function SymbolOf(cv: Conv, d: map<string, Json>): (r: string)
    ensures OrStr(cv, Get(d, "symbol", JNull)) != "" ==> r == OrStr(cv, Get(d, "symbol", JNull))
  {
    var sym := OrStr(cv, Get(d, "symbol", JNull));
    if sym != "" then sym
    else ComposeSymbol(OrStr(cv, Get(d, "root", JNull)), OrStr(cv, Get(d, "quality", JNull)),
                       OrStr(cv, Get(d, "bass", JNull)))
  }

  /** A chord without a symbol gets root, quality and "/bass". */
  lemma SymbolFallback(cv: Conv, root: string, quality: string, bass: string)
    ensures var d := map["root" := JStr(root), "quality" := JStr(quality), "bass" := JStr(bass)];
            SymbolOf(cv, d) == ComposeSymbol(root, quality, bass)
  {
    var d := map["root" := JStr(root), "quality" := JStr(quality), "bass" := JStr(bass)];
    assert Get(d, "symbol", JNull) == JNull;
    assert Get(d, "root", JNull) == JStr(root);
    assert Get(d, "quality", JNull) == JStr(quality);
    assert Get(d, "bass", JNull) == JStr(bass);
  }

  /** A chord read from its object, its times shifted by `offset`. */
  function ChordAt(cv: Conv, d: map<string, Json>, offset: real): Option<AltChordTimed> {
    match PyFloat(cv, Get(d, "start_sec", JNum(0.0)))
    case None => None
    case Some(s) =>
      match PyFloat(cv, Get(d, "end_sec", JNum(0.0)))
      case None => None
      case Some(e) => Some(AltChordTimed(SymbolOf(cv, d), offset + s, offset + e))
  }

  /** A note read from its entry, which must be an object. */
  function NoteAt(cv: Conv, n: Json, offset: real): Option<AltNoteTimed> {
    if !n.JObj? then None
    else
      match PyInt(cv, Get(n.fields, "pitch_midi", JNull))
      case None => None
      case Some(p) =>
        match PyFloat(cv, Get(n.fields, "start_sec", JNum(0.0)))
        case None => None
        case Some(s) =>
          match PyFloat(cv, Get(n.fields, "end_sec", JNum(0.0)))
          case None => None
          case Some(e) => Some(AltNoteTimed(p, offset + s, offset + e))
  }

  /** The notes loop: an entry that does not convert is passed over. */
  function NotesOf(cv: Conv, ns: seq<Json>, offset: real): (r: seq<AltNoteTimed>)
    ensures |r| <= |ns|
  {
    if ns == [] then []
    else
      var rest := NotesOf(cv, ns[..|ns| - 1], offset);
      match NoteAt(cv, ns[|ns| - 1], offset)
      case Some(n) => rest + [n]
      case None => rest
  }

  /** What `for n in v or []` visits: None where the value is not
      iterable. A string or an object yields strings, which are all passed
      over, so they are read as no entries. */
  function NoteEntries(v: Json): Option<seq<Json>> {
    if !Truthy(v) then Some([])
    else
      match v
      case JList(items) => Some(items)
      case JStr(_) => Some([])
      case JObj(_) => Some([])
      case _ => None
  }

  // ---------------------------------------------------------------------------
  // The one-shot calls

  /** The words of `rewrite_lyrics`' answer list; None where an entry
      does not convert. */
  function RewrittenWords(cv: Conv, ds: seq<map<string, Json>>): Option<seq<AltWord>> {
    if ds == [] then Some([])
    else
      match RewrittenWords(cv, ds[..|ds| - 1])
      case None => None
      case Some(rest) =>
        var d := ds[|ds| - 1];
        match PyFloat(cv, Get(d, "confidence", JNum(0.5)))
        case None => None
        case Some(c) => Some(rest + [AltWord(PyStr(cv, Get(d, "text", JStr(""))), c)])
  }

  /** An HTTP error that `raise_for_status` turns into an exception. */
  predicate HttpError(status: int) {
    400 <= status < 600
  }

  /** `rewrite_lyrics` without the prompt: no key, a failed request, an
      error status, a body that is not JSON, an answer that is not a JSON
      list of objects or an entry that does not convert all give no words. */
  function RewriteLyrics(apiKey: string, reply: Http, cv: Conv): (r: seq<AltWord>)
    ensures apiKey == "" || reply.RequestFailed? ==> r == []
    ensures reply.Answered? && (HttpError(reply.status) || reply.body.None?) ==> r == []
  {
    if apiKey == "" then []
    else
      match reply
      case RequestFailed => []
      case Answered(status, body) =>
        if HttpError(status) || body.None? then []
        else
          match StrictText(body.value)
          case None => []
          case Some(t) =>
            if !Truthy(t) || !t.JStr? || !StartsWith(Strip(t.s), "[") then []
            else
              match cv.loads(t.s)
              case None => []
              case Some(arr) =>
                match Objects(arr)
                case None => []
                case Some(ds) => RewrittenWords(cv, ds).GetOr([])
  }

  /** Every one of a list of entries converted, or None. */
  function WordsAt(cv: Conv, ds: seq<map<string, Json>>): (r: Option<seq<AltWordTimed>>)
    ensures r.Some? ==> |r.value| == |ds|
  {
    if ds == [] then Some([])
    else
      match WordsAt(cv, ds[..|ds| - 1])
      case None => None
      case Some(rest) =>
        match WordAt(cv, ds[|ds| - 1], 0.0)
        case None => None
        case Some(w) => Some(rest + [w])
  }

  function ChordsAt(cv: Conv, ds: seq<map<string, Json>>): (r: Option<seq<AltChordTimed>>)
    ensures r.Some? ==> |r.value| == |ds|
  {
    if ds == [] then Some([])
    else
      match ChordsAt(cv, ds[..|ds| - 1])
      case None => None
      case Some(rest) =>
        match ChordAt(cv, ds[|ds| - 1], 0.0)
        case None => None
        case Some(c) => Some(rest + [c])
  }

  /** Words and chords cut to the shorter length. */
  function Truncate<A, B>(xs: seq<A>, ys: seq<B>): (r: (seq<A>, seq<B>))
    ensures |r.0| == |r.1| == MinI(|xs|, |ys|)
    ensures r.0 == xs[..|r.0|] && r.1 == ys[..|r.1|]
  {
    var m := MinI(|xs|, |ys|);
    (xs[..m], ys[..m])
  }

  /** What `analyze_audio_alt` returns and what it leaves in `last_notes`
      (None where it does not reach the reset). */
  datatype AltAnswer = AltAnswer(words: seq<AltWordTimed>, chords: seq<AltChordTimed>,
                                 notes: Option<seq<AltNoteTimed>>)

  /** The answer read from a decoded object: `last_notes` is reset first;
      any word or chord that does not convert, or notes that cannot be
      iterated, give no words and no chords. */
  function AltFromObject(cv: Conv, obj: Json): (r: AltAnswer)
    ensures r.notes.Some? && |r.words| == |r.chords|
  {
    if !obj.JObj? then AltAnswer([], [], Some([]))
    else
      var ws := match Objects(Get(obj.fields, "words", JList([])))
                case None => None
                case Some(ds) => WordsAt(cv, ds);
      var cs := match Objects(Get(obj.fields, "chords", JList([])))
                case None => None
                case Some(ds) => ChordsAt(cv, ds);
      if ws.None? || cs.None? then AltAnswer([], [], Some([]))
      else
        match NoteEntries(Get(obj.fields, "notes", JList([])))
        case None => AltAnswer([], [], Some([]))
        case Some(ns) =>
          var t := Truncate(ws.value, cs.value);
          AltAnswer(t.0, t.1, Some(NotesOf(cv, ns, 0.0)))
  }

  /** `analyze_audio_alt` after the audio is sent: a failed request, an
      error status, a body that is not JSON, a missing text or a text that
      does not parse give nothing and leave `last_notes` alone. */
  function AnalyzeAlt(cv: Conv, reply: Http): (r: AltAnswer)
    ensures |r.words| == |r.chords|
    ensures reply.RequestFailed? ==> r == AltAnswer([], [], None)
  {
    match reply
    case RequestFailed => AltAnswer([], [], None)
    case Answered(status, body) =>
      if HttpError(status) || body.None? then AltAnswer([], [], None)
      else
        match StrictText(body.value)
        case None => AltAnswer([], [], None)
        case Some(t) =>
          if !t.JStr? then AltAnswer([], [], None)
          else
            match cv.loads(t.s)
            case None => AltAnswer([], [], None)
            case Some(obj) => AltFromObject(cv, obj)
  }

  /** Decoded words and chords that all convert come back index for index,
      cut to the shorter list. */
  lemma AltFromObjectPairs(cv: Conv, obj: Json, ws: seq<map<string, Json>>, cs: seq<map<string, Json>>)
    requires obj.JObj? && Objects(Get(obj.fields, "words", JList([]))) == Some(ws)
    requires Objects(Get(obj.fields, "chords", JList([]))) == Some(cs)
    requires WordsAt(cv, ws).Some? && ChordsAt(cv, cs).Some?
    requires NoteEntries(Get(obj.fields, "notes", JList([]))).Some?
    ensures var r := AltFromObject(cv, obj);
            |r.words| == MinI(|ws|, |cs|)
            && (forall i :: 0 <= i < |r.words| ==> r.words[i] == WordsAt(cv, ws).value[i])
            && (forall i :: 0 <= i < |r.chords| ==> r.chords[i] == ChordsAt(cv, cs).value[i])
  {
  }

  // ---------------------------------------------------------------------------
  // One chunk's answer

  /** `x or []` as the chunk loop uses it: `len()` and indexing work on a
      list or a string; an object has a length but indexing it by
      position raises; other values have no length. */
  datatype Listish = Items(items: seq<Json>) | Keys(count: nat) | NoLen

  function AsList(v: Json): Listish {
    if !Truthy(v) then Items([])
    else
      match v
      case JList(items) => Items(items)
      case JStr(s) => Items(seq(|s|, i requires 0 <= i < |s| => JStr([s[i]])))
      case JObj(f) => Keys(|f|)
      case _ => NoLen
  }

  function Len(l: Listish): nat
    requires !l.NoLen?
  {
    if l.Items? then |l.items| else l.count
  }

  /** `l[i]`: None where Python raises. */
  function At(l: Listish, i: nat): Option<Json> {
    if l.Items? && i < |l.items| then Some(l.items[i]) else None
  }

  /** What the pairing loop has appended after k indices, and whether it
      got through them: a word is appended before its chord is read, so a
      chord that fails leaves one word more than chords. */
  datatype Pairing = Pairing(words: seq<AltWordTimed>, chords: seq<AltChordTimed>, ok: bool)

  /** `v or {}` read as a word or as a chord; None where that raises. */
  function WordOf(cv: Conv, v: Json, offset: real): Option<AltWordTimed> {
    match AsDict(v)
    case None => None
    case Some(d) => WordAt(cv, d, offset)
  }

  function ChordOf(cv: Conv, v: Json, offset: real): Option<AltChordTimed> {
    match AsDict(v)
    case None => None
    case Some(d) => ChordAt(cv, d, offset)
  }

  /** One index of the pairing loop: both entries are looked up, then the
      word is appended, then the chord. */
  function PairStep(cv: Conv, w: Option<Json>, c: Option<Json>, offset: real, p: Pairing): Pairing {
    if !p.ok then p
    else if w.None? || c.None? then p.(ok := false)
    else
      match WordOf(cv, w.value, offset)
      case None => p.(ok := false)
      case Some(word) =>
        match ChordOf(cv, c.value, offset)
        case None => Pairing(p.words + [word], p.chords, false)
        case Some(chord) => Pairing(p.words + [word], p.chords + [chord], true)
  }

  function Pairs(cv: Conv, wl: Listish, cl: Listish, offset: real, k: nat): Pairing {
    if k == 0 then Pairing([], [], true)
    else PairStep(cv, At(wl, k - 1), At(cl, k - 1), offset, Pairs(cv, wl, cl, offset, k - 1))
  }

  /** Once the loop has raised, nothing more is appended. */
  lemma {:induction false} PairsStuck(cv: Conv, wl: Listish, cl: Listish, offset: real, k: nat, k': nat)
    requires k <= k' && !Pairs(cv, wl, cl, offset, k).ok
    ensures Pairs(cv, wl, cl, offset, k') == Pairs(cv, wl, cl, offset, k)
    decreases k'
  {
    if k < k' {
      PairsStuck(cv, wl, cl, offset, k, k' - 1);
    }
  }

  /** The words never fall behind the chords, and lead them by one only
      after a chord failed. */
  lemma {:induction false} PairsBalance(cv: Conv, wl: Listish, cl: Listish, offset: real, k: nat)
    ensures var p := Pairs(cv, wl, cl, offset, k);
            |p.chords| <= |p.words| <= |p.chords| + 1
            && (p.ok ==> |p.words| == |p.chords|)
  {
    if k > 0 {
      PairsBalance(cv, wl, cl, offset, k - 1);
    }
  }

  /** The word and the chord at index i, when both can be read. */
  function PairAt(cv: Conv, wl: Listish, cl: Listish, offset: real, i: nat): Option<(AltWordTimed, AltChordTimed)> {
    if At(wl, i).None? || At(cl, i).None? then None
    else
      match WordOf(cv, At(wl, i).value, offset)
      case None => None
      case Some(word) =>
        match ChordOf(cv, At(cl, i).value, offset)
        case None => None
        case Some(chord) => Some((word, chord))
  }

  /** The pairs read at indices 0 to k-1 as the pairing loop intends
      them: a pair is kept whole or, with all after it, not at all. */
  function Collect<A, B>(read: nat -> Option<(A, B)>, k: nat): (seq<A>, seq<B>, bool) {
    if k == 0 then ([], [], true)
    else
      var p := Collect(read, k - 1);
      if !p.2 || read(k - 1).None? then (p.0, p.1, false)
      else (p.0 + [read(k - 1).value.0], p.1 + [read(k - 1).value.1], true)
  }

  /** The i-th kept pair is the one read at index i, and all k are kept
      when every read succeeds. */
  lemma {:induction false} CollectAligned<A, B>(read: nat -> Option<(A, B)>, k: nat)
    ensures var p := Collect(read, k);
            |p.0| == |p.1| <= k
            && (p.2 <==> forall i :: 0 <= i < k ==> read(i).Some?)
            && (p.2 ==> |p.0| == k)
            && forall i :: 0 <= i < |p.0| ==> read(i) == Some((p.0[i], p.1[i]))
  {
    if k > 0 {
      CollectAligned(read, k - 1);
    }
  }

  /** The pairing loop with the evident intent: a word and its chord are
      appended together or not at all. */
  function PairsCorrected(cv: Conv, wl: Listish, cl: Listish, offset: real, k: nat): Pairing {
    var p := Collect(Reader(cv, wl, cl, offset), k);
    Pairing(p.0, p.1, p.2)
  }

  function Reader(cv: Conv, wl: Listish, cl: Listish, offset: real): nat -> Option<(AltWordTimed, AltChordTimed)> {
    (i: nat) => PairAt(cv, wl, cl, offset, i)
  }

  /** Corrected, the i-th word and the i-th chord kept are the pair read
      at index i, and all k pairs are kept when the pairing gets
      through. */
  lemma PairsCorrectedAligned(cv: Conv, wl: Listish, cl: Listish, offset: real, k: nat)
    ensures var p := PairsCorrected(cv, wl, cl, offset, k);
            |p.words| == |p.chords| <= k
            && (p.ok ==> |p.words| == k)
            && forall i :: 0 <= i < |p.words| ==> PairAt(cv, wl, cl, offset, i) == Some((p.words[i], p.chords[i]))
  {
    CollectAligned(Reader(cv, wl, cl, offset), k);
  }

  /** A word entry and a chord entry with the given text and times. */
  function WordEntry(text: string, s: real, e: real): Json {
    JObj(map["text" := JStr(text), "start_sec" := JNum(s), "end_sec" := JNum(e)])
  }

  function ChordEntry(symbol: string, s: real, e: real): Json {
    JObj(map["symbol" := JStr(symbol), "start_sec" := JNum(s), "end_sec" := JNum(e)])
  }

  /** Two chunk answers: in the first the second chord is a bare string,
      which cannot be read as a chord. */
  const FirstChunk: Json :=
    JObj(map["words" := JList([WordEntry("a", 0.0, 0.5), WordEntry("b", 0.5, 1.0)]),
             "chords" := JList([ChordEntry("C", 0.0, 0.5), JStr("G")])])

  const SecondChunk: Json :=
    JObj(map["words" := JList([WordEntry("c", 0.0, 0.5)]), "chords" := JList([ChordEntry("F", 0.0, 0.5)])])

  /** As written, a chord that cannot be read in the first chunk leaves
      its word behind, so after the second chunk (from 1 s) the word "b"
      (0.5 s to 1 s) is returned with the chord "F" of the word "c". */
  lemma MisalignedChunks(cv: Conv)
    ensures var all := Append(ChunkObject(cv, FirstChunk, 0.0), ChunkObject(cv, SecondChunk, 1.0));
            var r := Truncate(all.words, all.chords);
            |r.0| == 2 && r.0[1] == AltWordTimed("b", 0.5, 1.0) && r.1[1] == AltChordTimed("F", 1.0, 1.5)
  {
    FirstChunkRead(cv);
    SecondChunkRead(cv);
  }

  lemma FirstChunkRead(cv: Conv)
    ensures ChunkObject(cv, FirstChunk, 0.0)
         == ChunkOut([AltWordTimed("a", 0.0, 0.5), AltWordTimed("b", 0.5, 1.0)], [AltChordTimed("C", 0.0, 0.5)], [])
  {
    var ws := [WordEntry("a", 0.0, 0.5), WordEntry("b", 0.5, 1.0)];
    var cs := [ChordEntry("C", 0.0, 0.5), JStr("G")];
    var a, b := AltWordTimed("a", 0.0, 0.5), AltWordTimed("b", 0.5, 1.0);
    var chordC := AltChordTimed("C", 0.0, 0.5);
    WordEntryRead(cv, "a", 0.0, 0.5, 0.0);
    WordEntryRead(cv, "b", 0.5, 1.0, 0.0);
    ChordEntryRead(cv, "C", 0.0, 0.5, 0.0);
    assert ChordOf(cv, JStr("G"), 0.0) == None;
    assert Pairs(cv, Items(ws), Items(cs), 0.0, 1) == Pairing([a], [chordC], true);
    assert Pairs(cv, Items(ws), Items(cs), 0.0, 2) == Pairing([a, b], [chordC], false);
    ListsObject(cv, ws, cs, 0.0);
  }

  lemma SecondChunkRead(cv: Conv)
    ensures ChunkObject(cv, SecondChunk, 1.0) == ChunkOut([AltWordTimed("c", 1.0, 1.5)], [AltChordTimed("F", 1.0, 1.5)], [])
  {
    var ws := [WordEntry("c", 0.0, 0.5)];
    var cs := [ChordEntry("F", 0.0, 0.5)];
    WordEntryRead(cv, "c", 0.0, 0.5, 1.0);
    ChordEntryRead(cv, "F", 0.0, 0.5, 1.0);
    assert Pairs(cv, Items(ws), Items(cs), 1.0, 1) == Pairing([AltWordTimed("c", 1.0, 1.5)], [AltChordTimed("F", 1.0, 1.5)], true);
    ListsObject(cv, ws, cs, 1.0);
  }

  lemma WordEntryRead(cv: Conv, text: string, s: real, e: real, offset: real)
    ensures WordOf(cv, WordEntry(text, s, e), offset) == Some(AltWordTimed(text, offset + s, offset + e))
  {
    var d := WordEntry(text, s, e).fields;
    assert Get(d, "text", JStr("")) == JStr(text);
    assert Get(d, "start_sec", JNum(0.0)) == JNum(s);
    assert Get(d, "end_sec", JNum(0.0)) == JNum(e);
  }

  lemma ChordEntryRead(cv: Conv, symbol: string, s: real, e: real, offset: real)
    requires symbol != ""
    ensures ChordOf(cv, ChordEntry(symbol, s, e), offset) == Some(AltChordTimed(symbol, offset + s, offset + e))
  {
    var d := ChordEntry(symbol, s, e).fields;
    assert Get(d, "symbol", JNull) == JStr(symbol);
    assert Get(d, "start_sec", JNum(0.0)) == JNum(s);
    assert Get(d, "end_sec", JNum(0.0)) == JNum(e);
  }

  /** An answer holding only non-empty word and chord lists. */
  lemma ListsObject(cv: Conv, ws: seq<Json>, cs: seq<Json>, offset: real)
    requires ws != [] && cs != []
    ensures var p := Pairs(cv, Items(ws), Items(cs), offset, MinI(|ws|, |cs|));
            ChunkObject(cv, JObj(map["words" := JList(ws), "chords" := JList(cs)]), offset)
              == ChunkOut(p.words, p.chords, [])
  {
    var f := map["words" := JList(ws), "chords" := JList(cs)];
    assert Get(f, "words", JList([])) == JList(ws);
    assert Get(f, "chords", JList([])) == JList(cs);
    assert Get(f, "notes", JList([])) == JList([]);
  }

  datatype ChunkOut = ChunkOut(words: seq<AltWordTimed>, chords: seq<AltChordTimed>, notes: seq<AltNoteTimed>)

  const NoOutput := ChunkOut([], [], [])

  /** A chunk's decoded object: the words and chords appended pair by
      pair up to the shorter list, then the notes, once the pairing got
      through. */
  function ChunkObject(cv: Conv, obj: Json, offset: real): ChunkOut {
    if !obj.JObj? then NoOutput
    else
      var wl := AsList(Get(obj.fields, "words", JList([])));
      var cl := AsList(Get(obj.fields, "chords", JList([])));
      if wl.NoLen? || cl.NoLen? then NoOutput
      else
        var p := Pairs(cv, wl, cl, offset, MinI(Len(wl), Len(cl)));
        var notes := if !p.ok then []
                     else match NoteEntries(Get(obj.fields, "notes", JList([])))
                          case None => []
                          case Some(ns) => NotesOf(cv, ns, offset);
        ChunkOut(p.words, p.chords, notes)
  }

  /** A chunk's text, stripped of code fences and decoded. */
  function TextData(cv: Conv, text: Json, offset: real): ChunkOut {
    if !Truthy(text) || !text.JStr? then NoOutput
    else
      match cv.loads(StripCodeFences(text.s))
      case None => NoOutput
      case Some(obj) => ChunkObject(cv, obj, offset)
  }

  /** A chunk's reply. */
  function ChunkData(cv: Conv, res: Reply, offset: real): ChunkOut {
    TextData(cv, ChunkText(res.json), offset)
  }

  // Shifting by the chunk's offset

  function ShiftWord(w: AltWordTimed, d: real): AltWordTimed {
    w.(start := w.start + d, end := w.end + d)
  }

  function ShiftChord(c: AltChordTimed, d: real): AltChordTimed {
    c.(start := c.start + d, end := c.end + d)
  }

  function ShiftNote(n: AltNoteTimed, d: real): AltNoteTimed {
    n.(start := n.start + d, end := n.end + d)
  }

  function ShiftWords(ws: seq<AltWordTimed>, d: real): (r: seq<AltWordTimed>)
    ensures |r| == |ws|
    ensures forall i :: 0 <= i < |ws| ==> r[i] == ShiftWord(ws[i], d)
  {
    seq(|ws|, i requires 0 <= i < |ws| => ShiftWord(ws[i], d))
  }

  function ShiftChords(cs: seq<AltChordTimed>, d: real): (r: seq<AltChordTimed>)
    ensures |r| == |cs|
    ensures forall i :: 0 <= i < |cs| ==> r[i] == ShiftChord(cs[i], d)
  {
    seq(|cs|, i requires 0 <= i < |cs| => ShiftChord(cs[i], d))
  }

  function ShiftNotes(ns: seq<AltNoteTimed>, d: real): (r: seq<AltNoteTimed>)
    ensures |r| == |ns|
    ensures forall i :: 0 <= i < |ns| ==> r[i] == ShiftNote(ns[i], d)
  {
    seq(|ns|, i requires 0 <= i < |ns| => ShiftNote(ns[i], d))
  }

  lemma ShiftWordsSnoc(ws: seq<AltWordTimed>, w: AltWordTimed, d: real)
    ensures ShiftWords(ws + [w], d) == ShiftWords(ws, d) + [ShiftWord(w, d)]
  {
  }

  lemma ShiftChordsSnoc(cs: seq<AltChordTimed>, c: AltChordTimed, d: real)
    ensures ShiftChords(cs + [c], d) == ShiftChords(cs, d) + [ShiftChord(c, d)]
  {
  }

  lemma ShiftNotesSnoc(ns: seq<AltNoteTimed>, n: AltNoteTimed, d: real)
    ensures ShiftNotes(ns + [n], d) == ShiftNotes(ns, d) + [ShiftNote(n, d)]
  {
  }

  /** Reading an entry at an offset is reading it at zero and shifting. */
  lemma WordOfShift(cv: Conv, v: Json, offset: real)
    ensures WordOf(cv, v, offset).Some? <==> WordOf(cv, v, 0.0).Some?
    ensures WordOf(cv, v, offset).Some? ==> WordOf(cv, v, offset).value == ShiftWord(WordOf(cv, v, 0.0).value, offset)
  {
  }

  lemma ChordOfShift(cv: Conv, v: Json, offset: real)
    ensures ChordOf(cv, v, offset).Some? <==> ChordOf(cv, v, 0.0).Some?
    ensures ChordOf(cv, v, offset).Some? ==> ChordOf(cv, v, offset).value == ShiftChord(ChordOf(cv, v, 0.0).value, offset)
  {
  }

  lemma NoteAtShift(cv: Conv, v: Json, offset: real)
    ensures NoteAt(cv, v, offset).Some? <==> NoteAt(cv, v, 0.0).Some?
    ensures NoteAt(cv, v, offset).Some? ==> NoteAt(cv, v, offset).value == ShiftNote(NoteAt(cv, v, 0.0).value, offset)
  {
  }

  function ShiftPairing(p: Pairing, d: real): Pairing {
    Pairing(ShiftWords(p.words, d), ShiftChords(p.chords, d), p.ok)
  }

  /** One step of the pairing commutes with the shift. */
  lemma PairStepShift(cv: Conv, w: Option<Json>, c: Option<Json>, offset: real, q: Pairing)
    ensures PairStep(cv, w, c, offset, ShiftPairing(q, offset)) == ShiftPairing(PairStep(cv, w, c, 0.0, q), offset)
  {
    if q.ok && w.Some? && c.Some? {
      WordOfShift(cv, w.value, offset);
      ChordOfShift(cv, c.value, offset);
      var word0 := WordOf(cv, w.value, 0.0);
      if word0.Some? {
        ShiftWordsSnoc(q.words, word0.value, offset);
        var chord0 := ChordOf(cv, c.value, 0.0);
        if chord0.Some? {
          ShiftChordsSnoc(q.chords, chord0.value, offset);
        }
      }
    }
  }

  /** The pairing at an offset is the pairing at zero, shifted. */
  lemma {:induction false} PairsShift(cv: Conv, wl: Listish, cl: Listish, offset: real, k: nat)
    ensures Pairs(cv, wl, cl, offset, k) == ShiftPairing(Pairs(cv, wl, cl, 0.0, k), offset)
  {
    if k > 0 {
      PairsShift(cv, wl, cl, offset, k - 1);
      PairStepShift(cv, At(wl, k - 1), At(cl, k - 1), offset, Pairs(cv, wl, cl, 0.0, k - 1));
    }
  }

  lemma {:induction false} NotesShift(cv: Conv, ns: seq<Json>, offset: real)
    ensures NotesOf(cv, ns, offset) == ShiftNotes(NotesOf(cv, ns, 0.0), offset)
  {
    if ns != [] {
      NotesShift(cv, ns[..|ns| - 1], offset);
      NoteAtShift(cv, ns[|ns| - 1], offset);
      var n0 := NoteAt(cv, ns[|ns| - 1], 0.0);
      if n0.Some? {
        ShiftNotesSnoc(NotesOf(cv, ns[..|ns| - 1], 0.0), n0.value, offset);
      }
    }
  }

  function ShiftOut(out: ChunkOut, d: real): ChunkOut {
    ChunkOut(ShiftWords(out.words, d), ShiftChords(out.chords, d), ShiftNotes(out.notes, d))
  }

  /** A chunk's words, chords and notes are what the same answer gives at
      time zero, moved by the chunk's start time. */
  lemma ChunkShift(cv: Conv, res: Reply, offset: real)
    ensures ChunkData(cv, res, offset) == ShiftOut(ChunkData(cv, res, 0.0), offset)
  {
    TextShift(cv, ChunkText(res.json), offset);
  }

  lemma TextShift(cv: Conv, text: Json, offset: real)
    ensures TextData(cv, text, offset) == ShiftOut(TextData(cv, text, 0.0), offset)
  {
    if Truthy(text) && text.JStr? && cv.loads(StripCodeFences(text.s)).Some? {
      ChunkObjectShift(cv, cv.loads(StripCodeFences(text.s)).value, offset);
    }
  }

  lemma ChunkObjectShift(cv: Conv, obj: Json, offset: real)
    ensures ChunkObject(cv, obj, offset) == ShiftOut(ChunkObject(cv, obj, 0.0), offset)
  {
    if obj.JObj? {
      var wl := AsList(Get(obj.fields, "words", JList([])));
      var cl := AsList(Get(obj.fields, "chords", JList([])));
      if !wl.NoLen? && !cl.NoLen? {
        PairsShift(cv, wl, cl, offset, MinI(Len(wl), Len(cl)));
        var ne := NoteEntries(Get(obj.fields, "notes", JList([])));
        if ne.Some? {
          NotesShift(cv, ne.value, offset);
        }
      }
    }
  }

  // ---------------------------------------------------------------------------
  // Backoff

  /** The waits, in seconds, before the first and the second retry of an
      unavailable answer; a third unavailable answer skips its chunk. */
  const Backoffs: seq<int> := [60, 300]

  /** A sleep the chunked analysis takes. */
  datatype Pause = Backoff(seconds: int) | Between(seconds: int)

  /** How the retry loop of the chunk at `start` settles: the reply kept,
      whether the chunk is skipped, the shared count of unavailable
      answers, and the backoff sleeps. Attempt `a` of that chunk is
      answered by `post(start, a)`. */
  datatype Settled = Settled(reply: Reply, skipped: bool, hits: nat, pauses: seq<Pause>)

  function Settle(post: (nat, nat) -> Reply, start: nat, hits: nat, attempt: nat): (r: Settled)
    requires hits <= |Backoffs|
    ensures hits <= r.hits <= |Backoffs|
    decreases |Backoffs| - hits
  {
    var res := post(start, attempt);
    if !IsUnavailable(res) then Settled(res, false, hits, [])
    else if hits >= |Backoffs| then Settled(res, true, hits, [])
    else
      var r := Settle(post, start, hits + 1, attempt + 1);
      Settled(r.reply, r.skipped, r.hits, [Backoff(Backoffs[hits])] + r.pauses)
  }

  /** The sleeps of a retry loop are the unused backoffs, in order, one
      per unavailable answer counted; a chunk is skipped only once they
      are all used, and then on an unavailable answer. */
  lemma {:induction false} SettleSpec(post: (nat, nat) -> Reply, start: nat, hits: nat, attempt: nat)
    requires hits <= |Backoffs|
    ensures var r := Settle(post, start, hits, attempt);
            |r.pauses| == r.hits - hits
            && (forall i :: 0 <= i < |r.pauses| ==> r.pauses[i] == Backoff(Backoffs[hits + i]))
            && (r.skipped ==> r.hits == |Backoffs| && IsUnavailable(r.reply))
            && (!r.skipped ==> !IsUnavailable(r.reply))
    decreases |Backoffs| - hits
  {
    if IsUnavailable(post(start, attempt)) && hits < |Backoffs| {
      SettleSpec(post, start, hits + 1, attempt + 1);
    }
  }

  /** With the backoffs used up, a chunk is skipped exactly when its
      first answer is unavailable. */
  lemma ExhaustedSkips(post: (nat, nat) -> Reply, start: nat)
    ensures Settle(post, start, |Backoffs|, 0).skipped <==> IsUnavailable(post(start, 0))
  {
  }

  /** The retry loop of `analyze_audio_alt_chunked`. */
  method SettleLoop(post: (nat, nat) -> Reply, start: nat, hits0: nat)
    returns (res: Reply, skipped: bool, hits: nat, waits: seq<Pause>)
    requires hits0 <= |Backoffs|
    ensures Settled(res, skipped, hits, waits) == Settle(post, start, hits0, 0)
  {
    hits := hits0;
    waits := [];
    skipped := false;
    var attempt := 0;
    ghost var total := Settle(post, start, hits0, 0);
    while true
      invariant hits0 <= hits <= |Backoffs|
      invariant Prefixed(waits, Settle(post, start, hits, attempt)) == total
      decreases |Backoffs| - hits
    {
      res := post(start, attempt);
      if !IsUnavailable(res) {
        SettleDone(post, start, hits, attempt, waits);
        break;
      }
      if hits >= |Backoffs| {
        skipped := true;
        SettleDone(post, start, hits, attempt, waits);
        break;
      }
      var delay := Backoffs[hits];
      SettleRetry(post, start, hits, attempt, waits);
      hits := hits + 1;
      waits := waits + [Backoff(delay)];
      attempt := attempt + 1;
    }
  }

  /** A settled retry loop with `waits` slept before it. */
  function Prefixed(waits: seq<Pause>, r: Settled): Settled {
    Settled(r.reply, r.skipped, r.hits, waits + r.pauses)
  }

  /** An available answer, or an unavailable one with the backoffs used
      up, ends the retry loop. */
  lemma SettleDone(post: (nat, nat) -> Reply, start: nat, hits: nat, attempt: nat, waits: seq<Pause>)
    requires hits <= |Backoffs|
    requires !IsUnavailable(post(start, attempt)) || hits >= |Backoffs|
    ensures Prefixed(waits, Settle(post, start, hits, attempt))
         == Settled(post(start, attempt), IsUnavailable(post(start, attempt)), hits, waits)
  {
    assert waits + [] == waits;
  }

  /** An unavailable answer with a backoff left sleeps it and retries. */
  lemma SettleRetry(post: (nat, nat) -> Reply, start: nat, hits: nat, attempt: nat, waits: seq<Pause>)
    requires hits < |Backoffs| && IsUnavailable(post(start, attempt))
    ensures Prefixed(waits, Settle(post, start, hits, attempt))
         == Prefixed(waits + [Backoff(Backoffs[hits])], Settle(post, start, hits + 1, attempt + 1))
  {
    var r := Settle(post, start, hits + 1, attempt + 1);
    assert waits + ([Backoff(Backoffs[hits])] + r.pauses) == (waits + [Backoff(Backoffs[hits])]) + r.pauses;
  }

  // ---------------------------------------------------------------------------
  // The chunked analysis

  /** One chunked run: the number of samples and the sample rate of the
      mixed-down audio, the requested chunk length in seconds, the pause
      between chunks, the answers, and Python's conversions. */
  datatype Job = Job(samples: nat, sr: int, chunkSeconds: int, sleepBetween: int,
                     post: (nat, nat) -> Reply, cv: Conv)

  /** `samples_per_chunk`. */
  function ChunkSize(j: Job): (r: nat)
    ensures r >= 1
  {
    MaxI(1, j.sr * j.chunkSeconds)
  }

  /** How many chunks the loop visits from `start` on. */
  function ChunkCount(n: nat, size: nat, start: nat): nat
    requires size >= 1
    decreases n - start
  {
    if start >= n then 0 else 1 + ChunkCount(n, size, MinI(n, start + size))
  }

  /** Where chunk k starts: each chunk ends `samples_per_chunk` samples
      later, or at the end of the audio, and the next starts there. */
  function Start(j: Job, k: nat): (r: nat)
    ensures r <= j.samples
  {
    if k == 0 then 0 else MinI(j.samples, Start(j, k - 1) + ChunkSize(j))
  }

  /** The unavailable answers counted before chunk k. */
  function Hits(j: Job, k: nat): (r: nat)
    ensures r <= |Backoffs|
  {
    if k == 0 then 0 else Settle(j.post, Start(j, k - 1), Hits(j, k - 1), 0).hits
  }

  /** How the retry loop of chunk k settles. */
  function Attempts(j: Job, k: nat): Settled {
    Settle(j.post, Start(j, k), Hits(j, k), 0)
  }

  /** The pause after the chunk at `start`, taken only when another chunk
      follows; a negative pause is taken as none. */
  function BetweenPause(j: Job, start: nat): seq<Pause> {
    if MinI(j.samples, start + ChunkSize(j)) < j.samples then [Between(MaxI(0, j.sleepBetween))] else []
  }

  /** The sleeps taken during the first k chunks. */
  function Pauses(j: Job, k: nat): seq<Pause> {
    if k == 0 then [] else Pauses(j, k - 1) + Attempts(j, k - 1).pauses + BetweenPause(j, Start(j, k - 1))
  }

  /** What chunk k adds: nothing when it was skipped, else its answer at
      its start time. */
  function ChunkResult(j: Job, k: nat): ChunkOut
    requires j.sr > 0
  {
    ChunkAt(j, Start(j, k), Hits(j, k))
  }

  /** What the chunk at `start` adds once `hits` unavailable answers were
      counted before it. */
  function ChunkAt(j: Job, start: nat, hits: nat): ChunkOut
    requires j.sr > 0 && hits <= |Backoffs|
  {
    var s := Settle(j.post, start, hits, 0);
    if s.skipped then NoOutput else ChunkData(j.cv, s.reply, start as real / j.sr as real)
  }

  function Append(a: ChunkOut, b: ChunkOut): ChunkOut {
    ChunkOut(a.words + b.words, a.chords + b.chords, a.notes + b.notes)
  }

  /** The words, chords and notes stitched from the first k chunks. */
  function Stitched(j: Job, k: nat): ChunkOut
    requires j.sr > 0
  {
    if k == 0 then NoOutput else Append(Stitched(j, k - 1), ChunkResult(j, k - 1))
  }

  /** Chunk k starts at k times the chunk size, or at the end. */
  lemma {:induction false} ChunkStarts(j: Job, k: nat)
    ensures Start(j, k) == MinI(j.samples, k * ChunkSize(j))
  {
    if k > 0 {
      ChunkStarts(j, k - 1);
      var size := ChunkSize(j);
      MulStep(k, size);
      CappedStep(j.samples, Start(j, k - 1), Start(j, k), (k - 1) * size, k * size, size);
    }
  }

  lemma MulStep(k: nat, size: int)
    requires k > 0
    ensures k * size == (k - 1) * size + size
  {
  }

  lemma CappedStep(n: int, prev: int, next: int, a: int, b: int, size: nat)
    requires prev == MinI(n, a) && next == MinI(n, prev + size) && b == a + size
    ensures next == MinI(n, b)
  {
  }

  /** The chunks tile the samples: the last one reaches the end and every
      one starts before it. */
  lemma {:induction false} ChunkCountTiles(n: nat, size: nat, start: nat)
    requires size >= 1 && start <= n
    ensures var c := ChunkCount(n, size, start);
            start + c * size >= n && (c > 0 ==> start + (c - 1) * size < n)
    decreases n - start
  {
    if start < n {
      var next := MinI(n, start + size);
      ChunkCountTiles(n, size, next);
      var c' := ChunkCount(n, size, next);
      assert (1 + c') * size == size + c' * size;
      if start + size < n {
        assert c' > 0;
        assert c' * size == (c' - 1) * size + size;
      }
    }
  }

  /** The backoff sleeps of a whole run are the backoffs in order, one
      per unavailable answer, so there are at most two. */
  function Waits(ps: seq<Pause>): (r: seq<int>)
    ensures |r| <= |ps|
  {
    if ps == [] then []
    else Waits(ps[..|ps| - 1]) + (if ps[|ps| - 1].Backoff? then [ps[|ps| - 1].seconds] else [])
  }

  lemma {:induction false} WaitsAppend(a: seq<Pause>, b: seq<Pause>)
    ensures Waits(a + b) == Waits(a) + Waits(b)
    decreases |b|
  {
    if b == [] {
      assert a + b == a;
    } else {
      WaitsAppend(a, b[..|b| - 1]);
      assert (a + b)[..|a + b| - 1] == a + b[..|b| - 1];
    }
  }

  lemma {:induction false} WaitsOfBackoffs(ps: seq<Pause>, h: nat, h': nat)
    requires h <= h' <= |Backoffs| && |ps| == h' - h
    requires forall i :: 0 <= i < |ps| ==> ps[i] == Backoff(Backoffs[h + i])
    ensures Waits(ps) == Backoffs[h..h']
    decreases |ps|
  {
    if ps != [] {
      WaitsOfBackoffs(ps[..|ps| - 1], h, h' - 1);
    }
  }

  lemma {:induction false} RunBackoffs(j: Job, k: nat)
    ensures Waits(Pauses(j, k)) == Backoffs[..Hits(j, k)]
  {
    if k > 0 {
      RunBackoffs(j, k - 1);
      var s := Attempts(j, k - 1);
      var h := Hits(j, k - 1);
      SettleSpec(j.post, Start(j, k - 1), h, 0);
      WaitsBetween(j, Start(j, k - 1));
      BackoffStep(Pauses(j, k - 1), s.pauses, BetweenPause(j, Start(j, k - 1)), h, s.hits);
    }
  }

  lemma BackoffStep(p: seq<Pause>, sp: seq<Pause>, between: seq<Pause>, h: nat, h': nat)
    requires h <= h' <= |Backoffs| && Waits(p) == Backoffs[..h] && Waits(between) == []
    requires |sp| == h' - h && forall i :: 0 <= i < |sp| ==> sp[i] == Backoff(Backoffs[h + i])
    ensures Waits(p + sp + between) == Backoffs[..h']
  {
    WaitsOfBackoffs(sp, h, h');
    WaitsAppend(p, sp);
    WaitsAppend(p + sp, between);
    assert Backoffs[..h] + Backoffs[h..h'] == Backoffs[..h'];
  }

  lemma WaitsBetween(j: Job, start: nat)
    ensures Waits(BetweenPause(j, start)) == []
  {
    var ps := BetweenPause(j, start);
    if ps != [] {
      assert ps[..|ps| - 1] == [];
    }
  }

  /** Chunk k: its retry loop, then its answer unless it was skipped. */
  method ProcessChunk(j: Job, start: nat, hits0: nat) returns (out: ChunkOut, hits: nat, waits: seq<Pause>)
    requires j.sr > 0 && hits0 <= |Backoffs|
    ensures var s := Settle(j.post, start, hits0, 0);
            out == ChunkAt(j, start, hits0) && hits == s.hits && waits == s.pauses
  {
    var res, skipped;
    res, skipped, hits, waits := SettleLoop(j.post, start, hits0);
    if skipped {
      out := NoOutput;
    } else {
      out := ChunkOutput(j.cv, res, start as real / j.sr as real);
    }
  }

  /** A chunk's answer, read as the chunk loop reads it. */
  method ChunkOutput(cv: Conv, res: Reply, offset: real) returns (out: ChunkOut)
    ensures out == ChunkData(cv, res, offset)
  {
    var text := ChunkText(res.json);
    out := TextOutput(cv, text, offset);
  }

  /** The text of a chunk's answer: stripped of fences and decoded. */
  method TextOutput(cv: Conv, text: Json, offset: real) returns (out: ChunkOut)
    ensures out == TextData(cv, text, offset)
  {
    if !Truthy(text) || !text.JStr? {
      return NoOutput;
    }
    var parsed := cv.loads(StripCodeFences(text.s));
    if parsed.None? {
      return NoOutput;
    }
    out := ObjectOutput(cv, parsed.value, offset);
  }

  /** The words, chords and notes a chunk's decoded object adds. */
  method ObjectOutput(cv: Conv, obj: Json, offset: real) returns (out: ChunkOut)
    ensures out == ChunkObject(cv, obj, offset)
  {
    if !obj.JObj? {
      return NoOutput;
    }
    var wl := AsList(Get(obj.fields, "words", JList([])));
    var cl := AsList(Get(obj.fields, "chords", JList([])));
    if wl.NoLen? || cl.NoLen? {
      return NoOutput;
    }
    var p := PairLoop(cv, wl, cl, offset, MinI(Len(wl), Len(cl)));
    var notes: seq<AltNoteTimed> := [];
    if p.ok {
      var entries := NoteEntries(Get(obj.fields, "notes", JList([])));
      if entries.Some? {
        notes := NotesLoop(cv, entries.value, offset);
      }
    }
    out := ChunkOut(p.words, p.chords, notes);
  }

  /** The loop pairing the i-th word with the i-th chord. */
  method PairLoop(cv: Conv, wl: Listish, cl: Listish, offset: real, m: nat) returns (p: Pairing)
    ensures p == Pairs(cv, wl, cl, offset, m)
  {
    var words: seq<AltWordTimed> := [];
    var chords: seq<AltChordTimed> := [];
    var i := 0;
    while i < m
      invariant i <= m
      invariant Pairs(cv, wl, cl, offset, i) == Pairing(words, chords, true)
    {
      var w := At(wl, i);
      var c := At(cl, i);
      if w.None? || c.None? {
        PairsStuck(cv, wl, cl, offset, i + 1, m);
        return Pairing(words, chords, false);
      }
      var word := WordOf(cv, w.value, offset);
      if word.None? {
        PairsStuck(cv, wl, cl, offset, i + 1, m);
        return Pairing(words, chords, false);
      }
      words := words + [word.value];
      var chord := ChordOf(cv, c.value, offset);
      if chord.None? {
        PairsStuck(cv, wl, cl, offset, i + 1, m);
        return Pairing(words, chords, false);
      }
      PairsGrow(cv, wl, cl, offset, i, words[..|words| - 1], chords, word.value, chord.value);
      chords := chords + [chord.value];
      i := i + 1;
    }
    p := Pairing(words, chords, true);
  }

  /** An index whose word and chord both read extends the pairing by both. */
  lemma PairsGrow(cv: Conv, wl: Listish, cl: Listish, offset: real, i: nat,
                  words: seq<AltWordTimed>, chords: seq<AltChordTimed>, word: AltWordTimed, chord: AltChordTimed)
    requires Pairs(cv, wl, cl, offset, i) == Pairing(words, chords, true)
    requires At(wl, i).Some? && At(cl, i).Some?
    requires WordOf(cv, At(wl, i).value, offset) == Some(word)
    requires ChordOf(cv, At(cl, i).value, offset) == Some(chord)
    ensures Pairs(cv, wl, cl, offset, i + 1) == Pairing(words + [word], chords + [chord], true)
  {
  }

  /** The notes loop, passing over entries that do not convert. */
  method NotesLoop(cv: Conv, ns: seq<Json>, offset: real) returns (notes: seq<AltNoteTimed>)
    ensures notes == NotesOf(cv, ns, offset)
  {
    notes := [];
    var i := 0;
    while i < |ns|
      invariant i <= |ns|
      invariant notes == NotesOf(cv, ns[..i], offset)
    {
      assert ns[..i + 1][..i] == ns[..i];
      var n := NoteAt(cv, ns[i], offset);
      if n.Some? {
        notes := notes + [n.value];
      }
      i := i + 1;
    }
    assert ns[..|ns|] == ns;
  }

  class Client {
    const apiKey: string
    var lastNotes: seq<AltNoteTimed>

    constructor (apiKey: string)
      ensures this.apiKey == apiKey && lastNotes == []
    {
      this.apiKey := apiKey;
      lastNotes := [];
    }

    /** `ensure_api_key`. */
    predicate HasApiKey()
      ensures HasApiKey() <==> apiKey != ""
    {
      apiKey != ""
    }

    /** `analyze_audio_alt` after the audio is read: no key, or an answer
        that cannot be read, gives nothing; a readable answer sets
        `last_notes`; words and chords come back equally many. */
    method AnalyzeAudioAlt(cv: Conv, reply: Http) returns (words: seq<AltWordTimed>, chords: seq<AltChordTimed>)
      modifies this`lastNotes
      ensures |words| == |chords|
      ensures apiKey == "" ==> words == [] && chords == [] && lastNotes == old(lastNotes)
      ensures apiKey != "" ==>
                var a := AnalyzeAlt(cv, reply);
                words == a.words && chords == a.chords
                && lastNotes == (if a.notes.Some? then a.notes.value else old(lastNotes))
    {
      if apiKey == "" {
        return [], [];
      }
      var a := AnalyzeAlt(cv, reply);
      if a.notes.Some? {
        lastNotes := a.notes.value;
      }
      words, chords := a.words, a.chords;
    }

    /** `analyze_audio_alt_chunked` after the audio is read: `last_notes`
        is cleared; with no key nothing else happens; otherwise the chunks
        are sent in order, each retried on unavailable answers while the
        shared backoffs last, their words, chords and notes stitched at
        the chunk's start time, and the words and chords cut to the
        shorter list. `pauses` records the sleeps. */
    method AnalyzeAudioAltChunked(j: Job) returns (words: seq<AltWordTimed>, chords: seq<AltChordTimed>, pauses: seq<Pause>)
      requires j.sr > 0
      modifies this`lastNotes
      ensures apiKey == "" ==> words == [] && chords == [] && pauses == [] && lastNotes == []
      ensures apiKey != "" ==>
                var count := ChunkCount(j.samples, ChunkSize(j), 0);
                var all := Stitched(j, count);
                (words, chords) == Truncate(all.words, all.chords)
                && lastNotes == all.notes && pauses == Pauses(j, count)
    {
      lastNotes := [];
      pauses := [];
      if apiKey == "" {
        return [], [], [];
      }
      var all;
      all, pauses := ChunkLoop(j);
      lastNotes := all.notes;
      var m := MinI(|all.words|, |all.chords|);
      words, chords := all.words[..m], all.chords[..m];
    }
  }

  /** The chunk loop of `analyze_audio_alt_chunked`: what it stitches and
      the sleeps it takes. */
  method ChunkLoop(j: Job) returns (all: ChunkOut, pauses: seq<Pause>)
    requires j.sr > 0
    ensures var count := ChunkCount(j.samples, ChunkSize(j), 0);
            all == Stitched(j, count) && pauses == Pauses(j, count)
  {
    var samplesPerChunk := MaxI(1, j.sr * j.chunkSeconds);
    assert samplesPerChunk == ChunkSize(j);
    all := NoOutput;
    pauses := [];
    var unavailableHits: nat := 0;
    var start: nat := 0;
    ghost var k := 0;
    while start < j.samples
      invariant start == Start(j, k) && unavailableHits == Hits(j, k)
      invariant k + ChunkCount(j.samples, ChunkSize(j), start) == ChunkCount(j.samples, ChunkSize(j), 0)
      invariant all == Stitched(j, k) && pauses == Pauses(j, k)
      decreases j.samples - start
    {
      var end;
      end, unavailableHits, all, pauses := ChunkPass(j, k, samplesPerChunk, start, unavailableHits, all, pauses);
      start := end;
      k := k + 1;
    }
    assert k == ChunkCount(j.samples, ChunkSize(j), 0);
  }

  /** One pass of the chunk loop: chunk k is sent, retried and stitched
      on, and the pause between chunks is taken unless it was the last. */
  method ChunkPass(j: Job, ghost k: nat, samplesPerChunk: int, start: nat, hits0: nat, all0: ChunkOut, pauses0: seq<Pause>)
    returns (end: nat, hits: nat, all: ChunkOut, pauses: seq<Pause>)
    requires j.sr > 0 && samplesPerChunk == ChunkSize(j)
    requires start == Start(j, k) < j.samples && hits0 == Hits(j, k)
    requires all0 == Stitched(j, k) && pauses0 == Pauses(j, k)
    ensures end == Start(j, k + 1) && hits == Hits(j, k + 1)
    ensures all == Stitched(j, k + 1) && pauses == Pauses(j, k + 1)
    ensures ChunkCount(j.samples, ChunkSize(j), start) == 1 + ChunkCount(j.samples, ChunkSize(j), end)
  {
    end := MinI(j.samples, start + samplesPerChunk);
    var out, waits;
    out, hits, waits := ProcessChunk(j, start, hits0);
    StartStep(j, k, start, end, hits0, hits);
    StitchStep(j, k, all0, out);
    all := ChunkOut(all0.words + out.words, all0.chords + out.chords, all0.notes + out.notes);
    var between := if end < j.samples then [Between(MaxI(0, j.sleepBetween))] else [];
    PauseStep(j, k, pauses0, waits, between);
    pauses := pauses0 + waits + between;
  }

  /** Where the next chunk starts, and the count of unavailable answers
      it starts with. */
  lemma StartStep(j: Job, k: nat, start: nat, end: nat, hits0: nat, hits: nat)
    requires start == Start(j, k) < j.samples && end == MinI(j.samples, start + ChunkSize(j))
    requires hits0 == Hits(j, k) && hits == Settle(j.post, start, hits0, 0).hits
    ensures end == Start(j, k + 1) && hits == Hits(j, k + 1)
    ensures ChunkCount(j.samples, ChunkSize(j), start) == 1 + ChunkCount(j.samples, ChunkSize(j), end)
  {
    ChunkCountStep(j.samples, ChunkSize(j), start);
  }

  /** One pass of the chunk loop stitches the next chunk on. */
  lemma StitchStep(j: Job, k: nat, all: ChunkOut, out: ChunkOut)
    requires j.sr > 0 && all == Stitched(j, k)
    requires out == ChunkAt(j, Start(j, k), Hits(j, k))
    ensures Append(all, out) == Stitched(j, k + 1)
  {
  }

  /** One pass of the chunk loop takes the chunk's backoffs, then the
      pause between chunks unless it was the last. */
  lemma PauseStep(j: Job, k: nat, pauses: seq<Pause>, waits: seq<Pause>, between: seq<Pause>)
    requires pauses == Pauses(j, k) && waits == Attempts(j, k).pauses
    requires between == BetweenPause(j, Start(j, k))
    ensures pauses + waits + between == Pauses(j, k + 1)
  {
  }

  lemma ChunkCountStep(n: nat, size: nat, start: nat)
    requires size >= 1 && start < n
    ensures ChunkCount(n, size, start) == 1 + ChunkCount(n, size, MinI(n, start + size))
  {
  }

}
