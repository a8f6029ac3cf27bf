/** Import and export of pre-processed song data
    (`models/song_data_importer.py`). The decoded JSON document is the
    input of the import and the output of the export; reading and writing
    the file is not modelled. Values the code copies through without
    looking at them stay JSON values. */
module SongImport {
  import opened Common
  import opened JsonData
  import opened Lyrics

  datatype ChordData = ChordData(symbol: Json, root: Json, quality: Json, bass: Json, start: Json, end: Json,
                                 confidence: Json)

  datatype NoteData = NoteData(pitchMidi: Json, pitchName: Json, start: Json, end: Json, velocity: Json,
                               confidence: Json)

  /** `kind` and `tag` are the record's `type` and `label` fields. */
  datatype SegmentData = SegmentData(kind: Json, tag: Json, start: Json, end: Json, confidence: Json)

  datatype ImportedSong = ImportedSong(metadata: Json, words: seq<WordRow>, chords: seq<ChordData>,
                                       notes: seq<NoteData>, segments: seq<SegmentData>)

  // ---------------------------------------------------------------------------
  // Validation

  /** `key in v` holds without raising. */
  predicate HasKey(v: Json, key: string) {
    In(key, v) == Some(true)
  }

  predicate MetadataComplete(meta: Json) {
    HasKey(meta, "version") && HasKey(meta, "created_at") && HasKey(meta, "source_audio")
  }

  /** A word object with the four required keys, a string text and numeric
      times and confidence. */
  predicate ValidWord(w: Json) {
    w.JObj? && "text" in w.fields && "start" in w.fields && "end" in w.fields && "confidence" in w.fields
    && w.fields["text"].JStr? && IsNumber(w.fields["start"]) && IsNumber(w.fields["end"])
    && IsNumber(w.fields["confidence"])
  }

  /** The word loop of `validate_song_data`: it returns False at the first
      invalid word. */
  function AllValidWords(ws: seq<Json>): (ok: bool)
    ensures ok <==> forall i :: 0 <= i < |ws| ==> ValidWord(ws[i])
  {
    if ws == [] then true
    else
      var rest := AllValidWords(ws[1..]);
      assert forall i :: 1 <= i < |ws| ==> ws[i] == ws[1..][i - 1];
      ValidWord(ws[0]) && rest
  }

  /** `validate_song_data`. A document that is not an object fails: either a
      key is missing or indexing it raises, and a raise means False. */
  function ValidateSongData(data: Json): (ok: bool)
    ensures ok <==> data.JObj? && "metadata" in data.fields && "words" in data.fields
                    && MetadataComplete(data.fields["metadata"]) && data.fields["words"].JList?
                    && forall i :: 0 <= i < |data.fields["words"].items| ==> ValidWord(data.fields["words"].items[i])
  {
    match data
    case JObj(f) =>
      "metadata" in f && "words" in f && MetadataComplete(f["metadata"]) && f["words"].JList?
      && AllValidWords(f["words"].items)
    case _ => false
  }

  const CompleteMetadata: Json :=
    JObj(map["version" := JStr("3.0.0"), "created_at" := JNull, "source_audio" := JStr("a.wav")])

  /** Validation does not compare start and end: a word that ends before it
      starts is accepted. */
  lemma ValidationIgnoresTimeOrder()
    ensures ValidateSongData(JObj(map["metadata" := CompleteMetadata,
                                      "words" := JList([JObj(map["text" := JStr("la"), "start" := JNum(2.0),
                                                                 "end" := JNum(1.0), "confidence" := JNum(0.9)])])]))
  {
    var w := JObj(map["text" := JStr("la"), "start" := JNum(2.0), "end" := JNum(1.0), "confidence" := JNum(0.9)]);
    assert ValidWord(w);
    assert AllValidWords([w]);
  }

  // ---------------------------------------------------------------------------
  // Words

  const ImportError: string := "error importing song data"

  /** The `max` key of an alternative: its confidence, 0.0 when missing. */
  function AltKey(alt: map<string, Json>): (r: Json)
    ensures "confidence" !in alt ==> r == JNum(0.0)
  {
    Get(alt, "confidence", JNum(0.0))
  }

  /** The keys as numbers, when they all are. */
  function AltKeyValues(alts: seq<map<string, Json>>): (r: seq<real>)
    requires forall i :: 0 <= i < |alts| ==> IsNumber(AltKey(alts[i]))
    ensures |r| == |alts| && forall i :: 0 <= i < |alts| ==> r[i] == NumberValue(AltKey(alts[i]))
  {
    seq(|alts|, i requires 0 <= i < |alts| => NumberValue(AltKey(alts[i])))
  }

  /** The keys as strings, when they all are. */
  function AltKeyStrings(alts: seq<map<string, Json>>): (r: seq<string>)
    requires forall i :: 0 <= i < |alts| ==> AltKey(alts[i]).JStr?
    ensures |r| == |alts| && forall i :: 0 <= i < |alts| ==> r[i] == AltKey(alts[i]).s
  {
    seq(|alts|, i requires 0 <= i < |alts| => AltKey(alts[i]).s)
  }

  /** The scan of `max` over string keys from position i, holding the index
      of the running maximum: a later key replaces it only when greater. */
  function StrBest(keys: seq<string>, i: nat, best: nat): (r: nat)
    requires best < i <= |keys|
    ensures r < |keys|
    decreases |keys| - i
  {
    if i == |keys| then best
    else StrBest(keys, i + 1, if StrLess(keys[best], keys[i]) then i else best)
  }

  /** best is the first greatest of the first i keys. */
  predicate FirstGreatest(keys: seq<string>, i: nat, best: nat)
    requires best < i <= |keys|
  {
    (forall j :: 0 <= j < i ==> !StrLess(keys[best], keys[j]))
    && (forall j :: 0 <= j < best ==> StrLess(keys[j], keys[best]))
  }

  lemma {:induction false} StrBestSound(keys: seq<string>, i: nat, best: nat)
    requires best < i <= |keys| && FirstGreatest(keys, i, best)
    ensures FirstGreatest(keys, |keys|, StrBest(keys, i, best))
    decreases |keys| - i
  {
    if i < |keys| {
      if StrLess(keys[best], keys[i]) {
        forall j | 0 <= j < i + 1 ensures !StrLess(keys[i], keys[j]) {
          if j == i {
            StrLessIrreflexive(keys[i]);
          } else if StrLess(keys[i], keys[j]) {
            StrLessTransitive(keys[best], keys[i], keys[j]);
          }
        }
        forall j | 0 <= j < i ensures StrLess(keys[j], keys[i]) {
          if keys[j] == keys[best] {
          } else {
            StrLessTotal(keys[j], keys[best]);
            StrLessTransitive(keys[j], keys[best], keys[i]);
          }
        }
        StrBestSound(keys, i + 1, i);
      } else {
        StrBestSound(keys, i + 1, best);
      }
    }
  }

  /** `max(alternatives, key=...)`: the first alternative with the largest
      key. One alternative needs no comparison. Several compare when their
      keys are all numbers or all strings (strings in code-point order);
      any other mix makes a comparison raise (None). */
  function BestAlternative(alts: seq<map<string, Json>>): (r: Option<nat>)
    requires alts != []
    ensures |alts| == 1 ==> r == Some(0)
    ensures r.Some? ==> r.value < |alts|
    ensures |alts| > 1 ==>
              (r.Some? <==> (forall i :: 0 <= i < |alts| ==> IsNumber(AltKey(alts[i])))
                            || (forall i :: 0 <= i < |alts| ==> AltKey(alts[i]).JStr?))
    ensures |alts| > 1 && r.Some? && (forall i :: 0 <= i < |alts| ==> IsNumber(AltKey(alts[i]))) ==>
              var keys := AltKeyValues(alts);
              (forall j :: 0 <= j < |alts| ==> keys[j] <= keys[r.value])
              && (forall j :: 0 <= j < r.value ==> keys[j] < keys[r.value])
    ensures |alts| > 1 && r.Some? && (forall i :: 0 <= i < |alts| ==> AltKey(alts[i]).JStr?) ==>
              var keys := AltKeyStrings(alts);
              (forall j :: 0 <= j < |alts| ==> !StrLess(keys[r.value], keys[j]))
              && (forall j :: 0 <= j < r.value ==> StrLess(keys[j], keys[r.value]))
  {
    if |alts| == 1 then Some(0)
    else if forall i :: 0 <= i < |alts| ==> IsNumber(AltKey(alts[i])) then
      var keys := AltKeyValues(alts);
      FirstBestSound(keys, 1, Some(0), keys[0]);
      FirstBest(keys, 1, Some(0), keys[0])
    else if forall i :: 0 <= i < |alts| ==> AltKey(alts[i]).JStr? then
      var keys := AltKeyStrings(alts);
      StrLessIrreflexive(keys[0]);
      StrBestSound(keys, 1, 0);
      Some(StrBest(keys, 1, 0))
    else None
  }

  /** Python picks the first of two string confidences in code-point order:
      "0.9" over "0.8". */
  lemma StringConfidences()
    ensures BestAlternative([map["text" := JStr("x"), "confidence" := JStr("0.9")],
                             map["text" := JStr("y"), "confidence" := JStr("0.8")]]) == Some(0)
  {
    var alts := [map["text" := JStr("x"), "confidence" := JStr("0.9")],
                 map["text" := JStr("y"), "confidence" := JStr("0.8")]];
    assert AltKey(alts[0]) == JStr("0.9") && AltKey(alts[1]) == JStr("0.8");
    assert !StrLess("0.9", "0.8") by {
      assert "0.9"[1..] == ".9" && "0.8"[1..] == ".8";
      assert ".9"[1..] == "9" && ".8"[1..] == "8";
    }
  }

  /** The `alt_text` of a word: the best alternative's text when the word
      has a non-empty alternatives list, None otherwise. Anything else
      raises: a truthy value that is not a list, an element that is not an
      object, incomparable keys, or a best alternative without a text. A
      non-string text is treated as raising too. */
  function AltText(w: map<string, Json>): (r: Result<Option<string>>)
    ensures "alternatives" !in w || !Truthy(w["alternatives"]) ==> r == Ok(None)
    ensures r.Ok? && r.value.Some? ==>
              "alternatives" in w && w["alternatives"].JList?
              && exists k :: 0 <= k < |w["alternatives"].items| && w["alternatives"].items[k].JObj?
                             && "text" in w["alternatives"].items[k].fields
                             && w["alternatives"].items[k].fields["text"] == JStr(r.value.value)
  {
    if "alternatives" in w && Truthy(w["alternatives"]) then
      match w["alternatives"]
      case JList(items) =>
        if forall i :: 0 <= i < |items| ==> items[i].JObj? then
          var alts := seq(|items|, i requires 0 <= i < |items| => items[i].fields);
          match BestAlternative(alts)
          case None => Err(ImportError)
          case Some(k) =>
            if "text" in alts[k] && alts[k]["text"].JStr? then Ok(Some(alts[k]["text"].s)) else Err(ImportError)
        else Err(ImportError)
      case _ => Err(ImportError)
    else Ok(None)
  }

  /** One `WordRow` of `convert_to_word_rows`: the word's text, times and
      confidence, no chord, the alternative text, and the word's own times
      as the alternative's. */
  function WordRowOf(w: Json): (r: Result<WordRow>)
    requires ValidWord(w)
    ensures r.Ok? <==> AltText(w.fields).Ok?
    ensures r.Ok? ==> r.value.text == w.fields["text"].s && r.value.start == NumberValue(w.fields["start"])
                      && r.value.end == NumberValue(w.fields["end"])
                      && r.value.confidence == NumberValue(w.fields["confidence"])
    ensures r.Ok? ==> r.value.chord.None? && r.value.altChord.None? && r.value.altText == AltText(w.fields).value
    ensures r.Ok? ==> r.value.altStart == Some(r.value.start) && r.value.altEnd == Some(r.value.end)
  {
    var f := w.fields;
    match AltText(f)
    case Err(e) => Err(e)
    case Ok(alt) =>
      var start := NumberValue(f["start"]);
      var end := NumberValue(f["end"]);
      Ok(WordRow(f["text"].s, start, end, NumberValue(f["confidence"]), None, alt, None, Some(start), Some(end),
                 false))
  }

  predicate AllValid(ws: seq<Json>) {
    forall i :: 0 <= i < |ws| ==> ValidWord(ws[i])
  }

  /** The rows for all words, or the error of the first word that raises. */
  function ConvertSpec(ws: seq<Json>): (r: Result<seq<WordRow>>)
    requires AllValid(ws)
    ensures r.Ok? <==> forall i :: 0 <= i < |ws| ==> WordRowOf(ws[i]).Ok?
    ensures r.Ok? ==> |r.value| == |ws| && forall i :: 0 <= i < |ws| ==> r.value[i] == WordRowOf(ws[i]).value
  {
    if ws == [] then Ok([])
    else
      assert forall i :: 1 <= i < |ws| ==> ws[i] == ws[1..][i - 1];
      match WordRowOf(ws[0])
      case Err(e) => Err(e)
      case Ok(row) =>
        match ConvertSpec(ws[1..])
        case Err(e) => Err(e)
        case Ok(rows) => Ok([row] + rows)
  }

  /** `convert_to_word_rows`, appending one row per word. */
  method ConvertToWordRows(ws: seq<Json>) returns (r: Result<seq<WordRow>>)
    requires AllValid(ws)
    ensures r == ConvertSpec(ws)
  {
    var rows: seq<WordRow> := [];
    var i := 0;
    while i < |ws|
      invariant 0 <= i <= |ws|
      invariant |rows| == i && forall k :: 0 <= k < i ==> WordRowOf(ws[k]).Ok? && rows[k] == WordRowOf(ws[k]).value
    {
      var row := WordRowOf(ws[i]);
      if row.Err? {
        assert !(forall k :: 0 <= k < |ws| ==> WordRowOf(ws[k]).Ok?);
        var spec := ConvertSpec(ws);
        assert spec.Err?;
        ConvertErrorIsImportError(ws);
        return Err(ImportError);
      }
      rows := rows + [row.value];
      i := i + 1;
    }
    var spec := ConvertSpec(ws);
    assert spec.Ok?;
    assert rows == spec.value;
    r := Ok(rows);
  }

  /** Every failure carries the same message. */
  lemma {:induction false} ConvertErrorIsImportError(ws: seq<Json>)
    requires AllValid(ws)
    ensures ConvertSpec(ws).Err? ==> ConvertSpec(ws) == Err(ImportError)
  {
    if ws != [] {
      assert AllValid(ws[1..]) by {
        assert forall i :: 1 <= i < |ws| ==> ws[i] == ws[1..][i - 1];
      }
      ConvertErrorIsImportError(ws[1..]);
    }
  }

  // ---------------------------------------------------------------------------
  // Records

  /** `parse_chord_data`: text fields default to '', times to 0.0, the
      confidence to 1.0, the bass to None. */
  function ParseChord(m: map<string, Json>): (c: ChordData)
    ensures "symbol" !in m ==> c.symbol == JStr("")
    ensures "root" !in m ==> c.root == JStr("")
    ensures "quality" !in m ==> c.quality == JStr("")
    ensures "bass" !in m ==> c.bass == JNull
    ensures "start" !in m ==> c.start == JNum(0.0)
    ensures "end" !in m ==> c.end == JNum(0.0)
    ensures "confidence" !in m ==> c.confidence == JNum(1.0)
  {
    ChordData(Get(m, "symbol", JStr("")), Get(m, "root", JStr("")), Get(m, "quality", JStr("")),
              Get(m, "bass", JNull), Get(m, "start", JNum(0.0)), Get(m, "end", JNum(0.0)),
              Get(m, "confidence", JNum(1.0)))
  }

  /** `parse_note_data`: the pitch defaults to 0 and the confidence to 1.0. */
  function ParseNote(m: map<string, Json>): (n: NoteData)
    ensures "pitch_midi" !in m ==> n.pitchMidi == JNum(0.0)
    ensures "pitch_name" !in m ==> n.pitchName == JNull
    ensures "start" !in m ==> n.start == JNum(0.0)
    ensures "end" !in m ==> n.end == JNum(0.0)
    ensures "velocity" !in m ==> n.velocity == JNull
    ensures "confidence" !in m ==> n.confidence == JNum(1.0)
  {
    NoteData(Get(m, "pitch_midi", JNum(0.0)), Get(m, "pitch_name", JNull), Get(m, "start", JNum(0.0)),
             Get(m, "end", JNum(0.0)), Get(m, "velocity", JNull), Get(m, "confidence", JNum(1.0)))
  }

  /** `parse_segment_data`: the type defaults to 'other'. */
  function ParseSegment(m: map<string, Json>): (s: SegmentData)
    ensures "type" !in m ==> s.kind == JStr("other")
    ensures "label" !in m ==> s.tag == JNull
    ensures "start" !in m ==> s.start == JNum(0.0)
    ensures "end" !in m ==> s.end == JNum(0.0)
    ensures "confidence" !in m ==> s.confidence == JNum(1.0)
  {
    SegmentData(Get(m, "type", JStr("other")), Get(m, "label", JNull), Get(m, "start", JNum(0.0)),
                Get(m, "end", JNum(0.0)), Get(m, "confidence", JNum(1.0)))
  }

  /** The objects of an optional list section: none when the key is absent. */
  function Section(f: map<string, Json>, key: string): (r: Option<seq<map<string, Json>>>)
    ensures key !in f ==> r == Some([])
    ensures key in f ==> r == Objects(f[key])
  {
    if key in f then Objects(f[key]) else Some([])
  }

  /** `import_song_data` on the decoded document: None when validation
      fails or a step raises; absent chord, note and segment sections give
      empty lists. */
  function ImportSongData(data: Json): (r: Option<ImportedSong>)
    ensures !ValidateSongData(data) ==> r.None?
    ensures r.Some? ==> r.value.metadata == data.fields["metadata"]
    ensures r.Some? ==> Ok(r.value.words) == ConvertSpec(data.fields["words"].items)
    ensures r.Some? && "chords" !in data.fields ==> r.value.chords == []
    ensures r.Some? && "notes" !in data.fields ==> r.value.notes == []
    ensures r.Some? && "segments" !in data.fields ==> r.value.segments == []
    ensures r.Some? ==> Section(data.fields, "chords").Some? && Section(data.fields, "notes").Some?
                        && Section(data.fields, "segments").Some?
    ensures r.Some? ==> |r.value.chords| == |Section(data.fields, "chords").value|
                        && forall i :: 0 <= i < |r.value.chords| ==>
                             r.value.chords[i] == ParseChord(Section(data.fields, "chords").value[i])
  {
    if !ValidateSongData(data) then None
    else
      var f := data.fields;
      match ConvertSpec(f["words"].items)
      case Err(_) => None
      case Ok(words) =>
        var cs := Section(f, "chords");
        var ns := Section(f, "notes");
        var ss := Section(f, "segments");
        if cs.None? || ns.None? || ss.None? then None
        else
          var chords := seq(|cs.value|, i requires 0 <= i < |cs.value| => ParseChord(cs.value[i]));
          var notes := seq(|ns.value|, i requires 0 <= i < |ns.value| => ParseNote(ns.value[i]));
          var segments := seq(|ss.value|, i requires 0 <= i < |ss.value| => ParseSegment(ss.value[i]));
          Some(ImportedSong(f["metadata"], words, chords, notes, segments))
  }

  // ---------------------------------------------------------------------------
  // Export

  /** The chord object written for a word's chord symbol: the root is its
      first character and the quality the rest, or 'maj' for a one-letter
      symbol. */
  function WordChordObject(symbol: string): (r: Json)
    requires symbol != ""
    ensures r.JObj? && r.fields.Keys == {"symbol", "root", "quality", "bass", "confidence"}
    ensures r.fields["symbol"] == JStr(symbol) && r.fields["root"] == JStr(symbol[..1])
    ensures r.fields["quality"] == JStr(if |symbol| > 1 then symbol[1..] else "maj")
    ensures r.fields["bass"] == JNull && r.fields["confidence"] == JNum(1.0)
  {
    JObj(map["symbol" := JStr(symbol), "root" := JStr(symbol[..1]),
             "quality" := JStr(if |symbol| > 1 then symbol[1..] else "maj"), "bass" := JNull,
             "confidence" := JNum(1.0)])
  }

  function ExportWord(w: WordRow): (r: Json)
    ensures ValidWord(r)
    ensures "alternatives" !in r.fields
    ensures "chord" in r.fields <==> w.chord.Some? && w.chord.value != ""
  {
    var core := map["text" := JStr(w.text), "start" := JNum(w.start), "end" := JNum(w.end),
                    "confidence" := JNum(w.confidence)];
    if w.chord.Some? && w.chord.value != "" then JObj(core["chord" := WordChordObject(w.chord.value)])
    else JObj(core)
  }

  function ExportChord(c: ChordData): (r: Json)
    ensures r.JObj? && r.fields.Keys == {"symbol", "root", "quality", "bass", "start", "end", "confidence"}
  {
    JObj(map["symbol" := c.symbol, "root" := c.root, "quality" := c.quality, "bass" := c.bass,
             "start" := c.start, "end" := c.end, "confidence" := c.confidence])
  }

  /** A note omits its pitch name and velocity when they are falsy. */
  function ExportNote(n: NoteData): (r: Json)
    ensures r.JObj? && "pitch_midi" in r.fields && "confidence" in r.fields
    ensures "pitch_name" in r.fields <==> Truthy(n.pitchName)
    ensures "velocity" in r.fields <==> Truthy(n.velocity)
  {
    var core := map["pitch_midi" := n.pitchMidi, "start" := n.start, "end" := n.end, "confidence" := n.confidence];
    var named := if Truthy(n.pitchName) then core["pitch_name" := n.pitchName] else core;
    JObj(if Truthy(n.velocity) then named["velocity" := n.velocity] else named)
  }

  /** A segment omits its label when it is falsy. */
  function ExportSegment(s: SegmentData): (r: Json)
    ensures r.JObj? && "type" in r.fields
    ensures "label" in r.fields <==> Truthy(s.tag)
  {
    var core := map["type" := s.kind, "start" := s.start, "end" := s.end, "confidence" := s.confidence];
    JObj(if Truthy(s.tag) then core["label" := s.tag] else core)
  }

  /** The exported document. */
  function ExportSpec(s: ImportedSong): (r: Json)
    ensures r.JObj? && r.fields.Keys == {"metadata", "words", "chords", "notes", "segments"}
    ensures r.fields["words"].JList? && |r.fields["words"].items| == |s.words|
  {
    JObj(map["metadata" := s.metadata,
             "words" := JList(seq(|s.words|, i requires 0 <= i < |s.words| => ExportWord(s.words[i]))),
             "chords" := JList(seq(|s.chords|, i requires 0 <= i < |s.chords| => ExportChord(s.chords[i]))),
             "notes" := JList(seq(|s.notes|, i requires 0 <= i < |s.notes| => ExportNote(s.notes[i]))),
             "segments" := JList(seq(|s.segments|, i requires 0 <= i < |s.segments| => ExportSegment(s.segments[i])))])
  }

  /** `export_song_data`: one loop per list, appending one record each. */
  method ExportSongData(s: ImportedSong) returns (r: Json)
    ensures r == ExportSpec(s)
  {
    var words: seq<Json> := [];
    for i := 0 to |s.words|
      invariant |words| == i && forall k :: 0 <= k < i ==> words[k] == ExportWord(s.words[k])
    {
      words := words + [ExportWord(s.words[i])];
    }
    var chords: seq<Json> := [];
    for i := 0 to |s.chords|
      invariant |chords| == i && forall k :: 0 <= k < i ==> chords[k] == ExportChord(s.chords[k])
    {
      chords := chords + [ExportChord(s.chords[i])];
    }
    var notes: seq<Json> := [];
    for i := 0 to |s.notes|
      invariant |notes| == i && forall k :: 0 <= k < i ==> notes[k] == ExportNote(s.notes[k])
    {
      notes := notes + [ExportNote(s.notes[i])];
    }
    var segments: seq<Json> := [];
    for i := 0 to |s.segments|
      invariant |segments| == i && forall k :: 0 <= k < i ==> segments[k] == ExportSegment(s.segments[k])
    {
      segments := segments + [ExportSegment(s.segments[i])];
    }
    assert words == ExportSpec(s).fields["words"].items;
    assert chords == ExportSpec(s).fields["chords"].items;
    assert notes == ExportSpec(s).fields["notes"].items;
    assert segments == ExportSpec(s).fields["segments"].items;
    r := JObj(map["metadata" := s.metadata, "words" := JList(words), "chords" := JList(chords),
                  "notes" := JList(notes), "segments" := JList(segments)]);
  }

  // ---------------------------------------------------------------------------
  // Round trip

  /** What an exported word reads back as: its text, times and confidence,
      no chord and no alternative text. */
  function ReimportedRow(w: WordRow): (r: WordRow)
    ensures r.chord.None? && r.altText.None? && r.altStart == Some(w.start) && r.altEnd == Some(w.end)
  {
    WordRow(w.text, w.start, w.end, w.confidence, None, None, None, Some(w.start), Some(w.end), false)
  }

  /** Falsy optional values come back as None (JSON null). */
  function NullIfFalsy(v: Json): (r: Json)
    ensures Truthy(v) ==> r == v
    ensures !Truthy(v) ==> r == JNull
  {
    if Truthy(v) then v else JNull
  }

  lemma ParseExportedChord(c: ChordData)
    ensures ParseChord(ExportChord(c).fields) == c
  {
  }

  lemma ParseExportedNote(n: NoteData)
    ensures ParseNote(ExportNote(n).fields) == n.(pitchName := NullIfFalsy(n.pitchName), velocity := NullIfFalsy(n.velocity))
  {
  }

  lemma ParseExportedSegment(g: SegmentData)
    ensures ParseSegment(ExportSegment(g).fields) == g.(tag := NullIfFalsy(g.tag))
  {
  }

  /** The exported words all convert, each to its reimported row. */
  lemma ExportedWordsConvert(s: ImportedSong)
    ensures AllValid(ExportSpec(s).fields["words"].items)
    ensures var c := ConvertSpec(ExportSpec(s).fields["words"].items);
            c.Ok? && |c.value| == |s.words| && forall i :: 0 <= i < |s.words| ==> c.value[i] == ReimportedRow(s.words[i])
  {
    var ws := ExportSpec(s).fields["words"].items;
    assert forall i :: 0 <= i < |ws| ==> ws[i] == ExportWord(s.words[i]);
    forall i | 0 <= i < |ws|
      ensures WordRowOf(ws[i]) == Ok(ReimportedRow(s.words[i]))
    {
      assert "alternatives" !in ws[i].fields;
    }
  }

  /** The three list sections of an exported document, as `import` visits
      them. */
  lemma ExportedSections(s: ImportedSong)
    ensures var cs := Section(ExportSpec(s).fields, "chords");
            cs.Some? && |cs.value| == |s.chords| && forall i :: 0 <= i < |s.chords| ==> cs.value[i] == ExportChord(s.chords[i]).fields
    ensures var ns := Section(ExportSpec(s).fields, "notes");
            ns.Some? && |ns.value| == |s.notes| && forall i :: 0 <= i < |s.notes| ==> ns.value[i] == ExportNote(s.notes[i]).fields
    ensures var gs := Section(ExportSpec(s).fields, "segments");
            gs.Some? && |gs.value| == |s.segments|
            && forall i :: 0 <= i < |s.segments| ==> gs.value[i] == ExportSegment(s.segments[i]).fields
  {
    var f := ExportSpec(s).fields;
    assert forall i :: 0 <= i < |s.chords| ==> f["chords"].items[i] == ExportChord(s.chords[i]);
    assert forall i :: 0 <= i < |s.notes| ==> f["notes"].items[i] == ExportNote(s.notes[i]);
    assert forall i :: 0 <= i < |s.segments| ==> f["segments"].items[i] == ExportSegment(s.segments[i]);
  }

  /** Export then import: it succeeds exactly when the metadata carries the
      three required keys; chords come back field for field; words lose
      their chord; falsy note names, velocities and segment labels come
      back as None. */
  lemma ExportImport(s: ImportedSong)
    ensures ImportSongData(ExportSpec(s)).Some? <==> MetadataComplete(s.metadata)
    ensures MetadataComplete(s.metadata) ==>
              var r := ImportSongData(ExportSpec(s)).value;
              r.metadata == s.metadata && r.chords == s.chords
              && |r.words| == |s.words| && (forall i :: 0 <= i < |s.words| ==> r.words[i] == ReimportedRow(s.words[i]))
              && |r.notes| == |s.notes|
              && (forall i :: 0 <= i < |s.notes| ==>
                    r.notes[i] == s.notes[i].(pitchName := NullIfFalsy(s.notes[i].pitchName),
                                              velocity := NullIfFalsy(s.notes[i].velocity)))
              && |r.segments| == |s.segments|
              && (forall i :: 0 <= i < |s.segments| ==>
                    r.segments[i] == s.segments[i].(tag := NullIfFalsy(s.segments[i].tag)))
  {
    var d := ExportSpec(s);
    ExportedWordsConvert(s);
    ExportedSections(s);
    if MetadataComplete(s.metadata) {
      assert ValidateSongData(d);
      var r := ImportSongData(d).value;
      forall i | 0 <= i < |s.chords|
        ensures r.chords[i] == s.chords[i]
      {
        ParseExportedChord(s.chords[i]);
      }
      forall i | 0 <= i < |s.notes|
        ensures r.notes[i] == s.notes[i].(pitchName := NullIfFalsy(s.notes[i].pitchName),
                                          velocity := NullIfFalsy(s.notes[i].velocity))
      {
        ParseExportedNote(s.notes[i]);
      }
      forall i | 0 <= i < |s.segments|
        ensures r.segments[i] == s.segments[i].(tag := NullIfFalsy(s.segments[i].tag))
      {
        ParseExportedSegment(s.segments[i]);
      }
    } else {
      assert !ValidateSongData(d);
    }
  }
}
