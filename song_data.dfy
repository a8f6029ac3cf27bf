/** The song document: words, chords and notes with their dictionary forms
    (`models/song_data.py`). A dictionary is a record whose fields are
    `Some` exactly for the keys that are present. */
module Song {
  import opened Common

  datatype Word = Word(text: string, start: real, end: real, confidence: real,
                       alternatives: Option<seq<string>>, chord: Option<string>)

  datatype Chord = Chord(symbol: string, root: string, quality: string, start: real, end: real,
                         bass: Option<string>, duration: Option<real>, confidence: Option<real>,
                         detectionMethod: Option<string>)

  datatype Note = Note(pitchMidi: int, start: real, end: real, pitchName: Option<string>,
                       duration: Option<real>, velocity: Option<int>, confidence: Option<real>,
                       detectionMethod: Option<string>)

  /** `metadata` is carried through unchanged; its inner structure is the
      business of the Metadata module. */
  datatype SongData = SongData(metadata: map<string, string>, words: seq<Word>,
                               chords: seq<Chord>, notes: seq<Note>)

  datatype WordDict = WordDict(text: Option<string>, start: Option<real>, end: Option<real>,
                               confidence: Option<real>, alternatives: Option<seq<string>>,
                               chord: Option<string>)

  datatype ChordDict = ChordDict(symbol: Option<string>, root: Option<string>, quality: Option<string>,
                                 start: Option<real>, end: Option<real>, bass: Option<string>,
                                 duration: Option<real>, confidence: Option<real>,
                                 detectionMethod: Option<string>)

  datatype NoteDict = NoteDict(pitchMidi: Option<int>, start: Option<real>, end: Option<real>,
                               pitchName: Option<string>, duration: Option<real>, velocity: Option<int>,
                               confidence: Option<real>, detectionMethod: Option<string>)

  datatype SongDataDict = SongDataDict(metadata: Option<map<string, string>>, words: Option<seq<WordDict>>,
                                       chords: Option<seq<ChordDict>>, notes: Option<seq<NoteDict>>)

  /** Python truthiness of an optional string / list. */
  predicate Truthy(o: Option<string>) { o.Some? && o.value != "" }
  predicate TruthyList<T>(o: Option<seq<T>>) { o.Some? && o.value != [] }

  /** An optional field that survives the truthiness gate of `to_dict`. */
  predicate Survives(o: Option<string>) { o.None? || o.value != "" }

  // ---------------------------------------------------------------------------
  // Word

  function WordToDict(w: Word): (d: WordDict)
    ensures d.text == Some(w.text) && d.start == Some(w.start)
    ensures d.end == Some(w.end) && d.confidence == Some(w.confidence)
    ensures d.alternatives == (if TruthyList(w.alternatives) then w.alternatives else None)
    ensures d.chord == (if Truthy(w.chord) then w.chord else None)
  {
    WordDict(Some(w.text), Some(w.start), Some(w.end), Some(w.confidence),
             if w.alternatives.Some? && w.alternatives.value != [] then w.alternatives else None,
             if w.chord.Some? && w.chord.value != "" then w.chord else None)
  }

  function WordFromDict(d: WordDict): (w: Word)
    ensures d.text.None? ==> w.text == ""
    ensures d.start.None? ==> w.start == 0.0
    ensures d.end.None? ==> w.end == 0.0
    ensures d.confidence.None? ==> w.confidence == 0.0
    ensures w.alternatives == d.alternatives && w.chord == d.chord
  {
    Word(d.text.GetOr(""), d.start.GetOr(0.0), d.end.GetOr(0.0), d.confidence.GetOr(0.0),
         d.alternatives, d.chord)
  }

  /** A word survives `from_dict(to_dict(w))` exactly when its optional
      fields are absent or non-empty. */
  lemma WordRoundTrip(w: Word)
    ensures WordFromDict(WordToDict(w)) == w <==> (!w.alternatives.Some? || w.alternatives.value != []) && Survives(w.chord)
  {
  }

  // ---------------------------------------------------------------------------
  // Chord

  function ChordToDict(c: Chord): (d: ChordDict)
    ensures d.symbol == Some(c.symbol) && d.root == Some(c.root) && d.quality == Some(c.quality)
    ensures d.start == Some(c.start) && d.end == Some(c.end)
    ensures d.bass == (if Truthy(c.bass) then c.bass else None)
    ensures d.duration == c.duration && d.confidence == c.confidence
    ensures d.detectionMethod == (if Truthy(c.detectionMethod) then c.detectionMethod else None)
  {
    ChordDict(Some(c.symbol), Some(c.root), Some(c.quality), Some(c.start), Some(c.end),
              if c.bass.Some? && c.bass.value != "" then c.bass else None,
              c.duration, c.confidence,
              if c.detectionMethod.Some? && c.detectionMethod.value != "" then c.detectionMethod else None)
  }

  function ChordFromDict(d: ChordDict): (c: Chord)
    ensures d.symbol.None? ==> c.symbol == ""
    ensures d.root.None? ==> c.root == ""
    ensures d.quality.None? ==> c.quality == ""
    ensures d.start.None? ==> c.start == 0.0
    ensures d.end.None? ==> c.end == 0.0
    ensures c.bass == d.bass && c.duration == d.duration && c.confidence == d.confidence
    ensures c.detectionMethod == d.detectionMethod
  {
    Chord(d.symbol.GetOr(""), d.root.GetOr(""), d.quality.GetOr(""), d.start.GetOr(0.0),
          d.end.GetOr(0.0), d.bass, d.duration, d.confidence, d.detectionMethod)
  }

  /** Chords round-trip iff bass and detection method are absent or
      non-empty; duration and confidence always survive, even at 0.0. */
  lemma ChordRoundTrip(c: Chord)
    ensures ChordFromDict(ChordToDict(c)) == c <==> Survives(c.bass) && Survives(c.detectionMethod)
  {
  }

  // ---------------------------------------------------------------------------
  // Note

  function NoteToDict(n: Note): (d: NoteDict)
    ensures d.pitchMidi == Some(n.pitchMidi) && d.start == Some(n.start) && d.end == Some(n.end)
    ensures d.pitchName == (if Truthy(n.pitchName) then n.pitchName else None)
    ensures d.duration == n.duration && d.velocity == n.velocity && d.confidence == n.confidence
    ensures d.detectionMethod == (if Truthy(n.detectionMethod) then n.detectionMethod else None)
  {
    NoteDict(Some(n.pitchMidi), Some(n.start), Some(n.end),
             if n.pitchName.Some? && n.pitchName.value != "" then n.pitchName else None,
             n.duration, n.velocity, n.confidence,
             if n.detectionMethod.Some? && n.detectionMethod.value != "" then n.detectionMethod else None)
  }

  function NoteFromDict(d: NoteDict): (n: Note)
    ensures d.pitchMidi.None? ==> n.pitchMidi == 60
    ensures d.start.None? ==> n.start == 0.0
    ensures d.end.None? ==> n.end == 0.0
    ensures n.pitchName == d.pitchName && n.duration == d.duration && n.velocity == d.velocity
    ensures n.confidence == d.confidence && n.detectionMethod == d.detectionMethod
  {
    Note(d.pitchMidi.GetOr(60), d.start.GetOr(0.0), d.end.GetOr(0.0), d.pitchName,
         d.duration, d.velocity, d.confidence, d.detectionMethod)
  }

  lemma NoteRoundTrip(n: Note)
    ensures NoteFromDict(NoteToDict(n)) == n <==> Survives(n.pitchName) && Survives(n.detectionMethod)
  {
  }

  // ---------------------------------------------------------------------------
  // SongData

  predicate WordsRoundTrip(ws: seq<Word>) {
    forall i :: 0 <= i < |ws| ==> (!ws[i].alternatives.Some? || ws[i].alternatives.value != []) && Survives(ws[i].chord)
  }

  function SongToDict(s: SongData): (d: SongDataDict)
    ensures d.metadata == Some(s.metadata)
    ensures d.words.Some? && |d.words.value| == |s.words|
    ensures forall i :: 0 <= i < |s.words| ==> d.words.value[i] == WordToDict(s.words[i])
    ensures d.chords.Some? && |d.chords.value| == |s.chords|
    ensures forall i :: 0 <= i < |s.chords| ==> d.chords.value[i] == ChordToDict(s.chords[i])
    ensures d.notes.Some? && |d.notes.value| == |s.notes|
    ensures forall i :: 0 <= i < |s.notes| ==> d.notes.value[i] == NoteToDict(s.notes[i])
  {
    SongDataDict(Some(s.metadata),
                 Some(seq(|s.words|, i requires 0 <= i < |s.words| => WordToDict(s.words[i]))),
                 Some(seq(|s.chords|, i requires 0 <= i < |s.chords| => ChordToDict(s.chords[i]))),
                 Some(seq(|s.notes|, i requires 0 <= i < |s.notes| => NoteToDict(s.notes[i]))))
  }

  function SongFromDict(d: SongDataDict): (s: SongData)
    ensures s.metadata == d.metadata.GetOr(map[])
    ensures |s.words| == |d.words.GetOr([])| && |s.chords| == |d.chords.GetOr([])|
    ensures |s.notes| == |d.notes.GetOr([])|
    ensures forall i :: 0 <= i < |s.words| ==> s.words[i] == WordFromDict(d.words.value[i])
    ensures forall i :: 0 <= i < |s.chords| ==> s.chords[i] == ChordFromDict(d.chords.value[i])
    ensures forall i :: 0 <= i < |s.notes| ==> s.notes[i] == NoteFromDict(d.notes.value[i])
  {
    var ws := d.words.GetOr([]);
    var cs := d.chords.GetOr([]);
    var ns := d.notes.GetOr([]);
    SongData(d.metadata.GetOr(map[]),
             seq(|ws|, i requires 0 <= i < |ws| => WordFromDict(ws[i])),
             seq(|cs|, i requires 0 <= i < |cs| => ChordFromDict(cs[i])),
             seq(|ns|, i requires 0 <= i < |ns| => NoteFromDict(ns[i])))
  }

  /** The document round-trips through its dictionary form, list by list
      and in order, when every element does; the counts always survive. */
  lemma SongRoundTrip(s: SongData)
    ensures GetWordCount(SongFromDict(SongToDict(s))) == GetWordCount(s)
    ensures GetChordCount(SongFromDict(SongToDict(s))) == GetChordCount(s)
    ensures GetNoteCount(SongFromDict(SongToDict(s))) == GetNoteCount(s)
    ensures WordsRoundTrip(s.words)
            && (forall i :: 0 <= i < |s.chords| ==> Survives(s.chords[i].bass) && Survives(s.chords[i].detectionMethod))
            && (forall i :: 0 <= i < |s.notes| ==> Survives(s.notes[i].pitchName) && Survives(s.notes[i].detectionMethod))
            ==> SongFromDict(SongToDict(s)) == s
  {
    var r := SongFromDict(SongToDict(s));
    if WordsRoundTrip(s.words)
       && (forall i :: 0 <= i < |s.chords| ==> Survives(s.chords[i].bass) && Survives(s.chords[i].detectionMethod))
       && (forall i :: 0 <= i < |s.notes| ==> Survives(s.notes[i].pitchName) && Survives(s.notes[i].detectionMethod))
    {
      forall i | 0 <= i < |s.words| ensures r.words[i] == s.words[i] { WordRoundTrip(s.words[i]); }
      forall i | 0 <= i < |s.chords| ensures r.chords[i] == s.chords[i] { ChordRoundTrip(s.chords[i]); }
      forall i | 0 <= i < |s.notes| ensures r.notes[i] == s.notes[i] { NoteRoundTrip(s.notes[i]); }
    }
  }

  /** `max(xs)` of a non-empty list of seconds. */
  function MaxOf(xs: seq<real>): (r: real)
    requires xs != []
    ensures exists i :: 0 <= i < |xs| && xs[i] == r
    ensures forall i :: 0 <= i < |xs| ==> xs[i] <= r
  {
    if |xs| == 1 then xs[0]
    else
      var m := MaxOf(xs[1..]);
      assert forall i :: 1 <= i < |xs| ==> xs[i] == xs[1..][i - 1];
      if xs[0] >= m then xs[0] else m
  }

  function WordEnds(ws: seq<Word>): (r: seq<real>)
    ensures |r| == |ws| && forall i :: 0 <= i < |ws| ==> r[i] == ws[i].end
  {
    seq(|ws|, i requires 0 <= i < |ws| => ws[i].end)
  }

  function ChordEnds(cs: seq<Chord>): (r: seq<real>)
    ensures |r| == |cs| && forall i :: 0 <= i < |cs| ==> r[i] == cs[i].end
  {
    seq(|cs|, i requires 0 <= i < |cs| => cs[i].end)
  }

  function NoteEnds(ns: seq<Note>): (r: seq<real>)
    ensures |r| == |ns| && forall i :: 0 <= i < |ns| ==> r[i] == ns[i].end
  {
    seq(|ns|, i requires 0 <= i < |ns| => ns[i].end)
  }

  /** The song length: the latest word end if there are words (even when
      chords run longer), else the latest chord end, else the latest note
      end, else 0.0. */
  function GetDuration(s: SongData): (r: real)
    ensures s.words != [] ==> (exists i :: 0 <= i < |s.words| && s.words[i].end == r)
                              && forall i :: 0 <= i < |s.words| ==> s.words[i].end <= r
    ensures s.words == [] && s.chords != [] ==>
              (exists i :: 0 <= i < |s.chords| && s.chords[i].end == r)
              && forall i :: 0 <= i < |s.chords| ==> s.chords[i].end <= r
    ensures s.words == [] && s.chords == [] && s.notes != [] ==>
              (exists i :: 0 <= i < |s.notes| && s.notes[i].end == r)
              && forall i :: 0 <= i < |s.notes| ==> s.notes[i].end <= r
    ensures s.words == [] && s.chords == [] && s.notes == [] ==> r == 0.0
  {
    if s.words != [] then
      var r := MaxOf(WordEnds(s.words));
      assert forall i :: 0 <= i < |s.words| ==> WordEnds(s.words)[i] == s.words[i].end;
      r
    else if s.chords != [] then MaxOf(ChordEnds(s.chords))
    else if s.notes != [] then MaxOf(NoteEnds(s.notes))
    else 0.0
  }

  function GetWordCount(s: SongData): nat { |s.words| }
  function GetChordCount(s: SongData): nat { |s.chords| }
  function GetNoteCount(s: SongData): nat { |s.notes| }
}
