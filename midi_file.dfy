/** `MidiExporter.export` and `export_tempo_map` on the mido path: which
    tracks the file gets, in which order, and when the export fails. */
module MidiFile {
  import opened Common
  import opened MidiTrack
  import opened MidiExporter
  import opened MidiChords
  import opened MidiMelody

  /** The exporter's constructor arguments; the defaults are 480 ticks per
      beat and every track included. */
  datatype Settings = Settings(ticksPerBeat: int, includeTempoMap: bool, includeLyrics: bool, includeChords: bool, includeMelody: bool)

  const DefaultSettings := Settings(480, true, true, true, true)

  /** What `export` reads from the song: `audio_analysis.tempo`, which is
      None when missing, `audio_analysis.tempo_changes`, `words`, `chords`
      and `notes`. */
  datatype MidiSong = MidiSong(tempo: Option<real>, tempoChanges: seq<TempoChange>, words: seq<MWord>, chords: seq<MChord>, notes: seq<MNote>)

  /** A missing tempo is 120 beats per minute. */
  function SongBpm(song: MidiSong): real {
    song.tempo.GetOr(120.0)
  }

  /** The file: its resolution and its tracks in order. */
  datatype MidiFileValue = MidiFileValue(ticksPerBeat: int, tracks: seq<seq<Timed>>)

  /** The variable tempo path is taken when asked for and there are tempo
      changes. */
  predicate VariablePath(song: MidiSong, useVariableTempo: bool) {
    useVariableTempo && song.tempoChanges != []
  }

  /** The tempo map track, or None when a tempo of zero, or one a set_tempo
      message does not accept, makes building it raise. */
  function TempoMap(song: MidiSong, useVariableTempo: bool, tpb: int): (r: Option<seq<Timed>>)
    ensures r.None? <==> if VariablePath(song, useVariableTempo) then !TemposValid(song.tempoChanges) else TempoUs(SongBpm(song)).None?
  {
    if VariablePath(song, useVariableTempo) then
      if TemposValid(song.tempoChanges) then Some(Deltas(VariableTempoEvents(song.tempoChanges, tpb))) else None
    else TempoTrack(SongBpm(song))
  }

  /** The tempo map holds the fixed tempo and 4/4 at tick 0, or on the
      variable path each tempo change at the tick of its time. */
  lemma TempoMapContents(song: MidiSong, useVariableTempo: bool, tpb: int)
    requires TempoMap(song, useVariableTempo, tpb).Some?
    ensures var t := TempoMap(song, useVariableTempo, tpb).value;
            if VariablePath(song, useVariableTempo) then Absolute(t) == VariableTempoEvents(song.tempoChanges, tpb)
            else Absolute(t) == TempoEvents(TempoUs(SongBpm(song)).value)
  {
    if VariablePath(song, useVariableTempo) {
      AbsoluteDeltas(VariableTempoEvents(song.tempoChanges, tpb));
    }
  }

  /** A track when its part is included and present, else nothing. */
  function Part(included: bool, track: seq<Timed>): seq<seq<Timed>> {
    if included then [track] else []
  }

  function LyricsTrackOf(song: MidiSong, tpb: int): seq<Timed> {
    Deltas(LyricEvents(song.words, SongBpm(song), tpb))
  }

  function ChordsTrackOf(song: MidiSong, tpb: int): seq<Timed> {
    ChordsFoldAsWritten(TickedAll(song.chords, SongBpm(song), tpb)).track
  }

  function MelodyTrackOf(song: MidiSong, tpb: int): seq<Timed> {
    Deltas(MelodyEvents(song.notes, SongBpm(song), tpb))
  }

  /** The tracks `export` builds, before it picks the included ones. */
  datatype Built = Built(tempo: Option<seq<Timed>>, lyrics: seq<Timed>, chords: seq<Timed>, melody: seq<Timed>)

  function Build(s: Settings, song: MidiSong, useVariableTempo: bool): Built {
    Built(TempoMap(song, useVariableTempo, s.ticksPerBeat), LyricsTrackOf(song, s.ticksPerBeat),
          ChordsTrackOf(song, s.ticksPerBeat), MelodyTrackOf(song, s.ticksPerBeat))
  }

  /** A track for each part that is included and present, in the order the
      exporter appends them. */
  function OptionalTracks(s: Settings, song: MidiSong, b: Built): seq<seq<Timed>> {
    Part(s.includeLyrics && song.words != [], b.lyrics)
    + Part(s.includeChords && song.chords != [], b.chords)
    + Part(s.includeMelody && song.notes != [], b.melody)
  }

  /** The file from the built tracks, or None when the tempo map is
      included and could not be built. */
  function Assemble(s: Settings, song: MidiSong, b: Built): Option<MidiFileValue> {
    if s.includeTempoMap then
      match b.tempo
      case None => None
      case Some(t) => Some(MidiFileValue(s.ticksPerBeat, [t] + OptionalTracks(s, song, b)))
    else Some(MidiFileValue(s.ticksPerBeat, OptionalTracks(s, song, b)))
  }

  /** The file `export` writes, or None when it returns False. */
  function ExportFile(s: Settings, song: MidiSong, useVariableTempo: bool): Option<MidiFileValue> {
    Save(Assemble(s, song, Build(s, song, useVariableTempo)))
  }

  // ---------------------------------------------------------------------------
  // Saving

  /** What mido accepts of a message, when it is built or when `save`
      encodes it: a set_tempo of 0..MaxTempo, a note and a velocity of
      0..127, and a name or text that latin-1 can encode. */
  predicate MsgEncodable(m: Msg) {
    match m
    case TrackName(name) => AllLatin1(name)
    case SetTempo(tempo) => 0 <= tempo <= MaxTempo
    case TimeSignature(_, _) => true
    case LyricMeta(text) => AllLatin1(text)
    case TextMeta(text) => AllLatin1(text)
    case NoteOn(note, velocity) => 0 <= note <= 127 && 0 <= velocity <= 127
    case NoteOff(note, velocity) => 0 <= note <= 127 && 0 <= velocity <= 127
  }

  /** A track `save` writes: every message encodable and no delta
      negative, which the variable-length delta encoding refuses. */
  predicate TrackSaves(track: seq<Timed>) {
    forall i :: 0 <= i < |track| ==> 0 <= track[i].delta && MsgEncodable(track[i].msg)
  }

  predicate AllSave(tracks: seq<seq<Timed>>) {
    forall k :: 0 <= k < |tracks| ==> TrackSaves(tracks[k])
  }

  /** `save`: the file, or None when it raises. */
  function Save(f: Option<MidiFileValue>): Option<MidiFileValue> {
    if f.Some? && AllSave(f.value.tracks) then f else None
  }

  lemma AllSaveAppend(a: seq<seq<Timed>>, b: seq<seq<Timed>>)
    ensures AllSave(a + b) <==> AllSave(a) && AllSave(b)
  {
    if AllSave(a) && AllSave(b) {
      forall k | 0 <= k < |a + b|
        ensures TrackSaves((a + b)[k])
      {
        if k >= |a| {
          assert (a + b)[k] == b[k - |a|];
        }
      }
    }
    if AllSave(a + b) {
      forall k | 0 <= k < |a|
        ensures TrackSaves(a[k])
      {
        assert (a + b)[k] == a[k];
      }
      forall k | 0 <= k < |b|
        ensures TrackSaves(b[k])
      {
        assert (a + b)[|a| + k] == b[k];
      }
    }
  }

  lemma AllSavePart(included: bool, track: seq<Timed>)
    ensures AllSave(Part(included, track)) <==> (included ==> TrackSaves(track))
  {
    if included {
      assert Part(included, track)[0] == track;
    }
  }

  /** The name a track opens with, or "" when its first message is not a
      track name. */
  function FirstName(track: seq<Timed>): string {
    if track != [] && track[0].msg.TrackName? then track[0].msg.name else ""
  }

  function PartName(included: bool, name: string): seq<string> {
    if included then [name] else []
  }

  /** The names the tracks of the file should carry. */
  function ExpectedNames(s: Settings, song: MidiSong, useVariableTempo: bool): seq<string> {
    PartName(s.includeTempoMap, TempoName(song, useVariableTempo))
    + (PartName(s.includeLyrics && song.words != [], LyricsTrackName)
       + PartName(s.includeChords && song.chords != [], ChordsTrackName)
       + PartName(s.includeMelody && song.notes != [], MelodyTrackName))
  }

  function Names(tracks: seq<seq<Timed>>): (r: seq<string>)
    ensures |r| == |tracks| && forall i :: 0 <= i < |r| ==> r[i] == FirstName(tracks[i])
  {
    seq(|tracks|, i requires 0 <= i < |tracks| => FirstName(tracks[i]))
  }

  /** Export fails exactly when the tempo map is included and cannot be
      built, or some included track holds a message mido refuses or a
      negative delta. */
  lemma ExportFails(s: Settings, song: MidiSong, useVariableTempo: bool)
    ensures var tpb := s.ticksPerBeat;
            var t := TempoMap(song, useVariableTempo, tpb);
            ExportFile(s, song, useVariableTempo).None? <==>
              (s.includeTempoMap && (t.None? || !TrackSaves(t.value)))
              || (s.includeLyrics && song.words != [] && !TrackSaves(LyricsTrackOf(song, tpb)))
              || (s.includeChords && song.chords != [] && !TrackSaves(ChordsTrackOf(song, tpb)))
              || (s.includeMelody && song.notes != [] && !TrackSaves(MelodyTrackOf(song, tpb)))
  {
    var tpb := s.ticksPerBeat;
    var b := Build(s, song, useVariableTempo);
    var l := Part(s.includeLyrics && song.words != [], b.lyrics);
    var c := Part(s.includeChords && song.chords != [], b.chords);
    var m := Part(s.includeMelody && song.notes != [], b.melody);
    AllSavePart(s.includeLyrics && song.words != [], b.lyrics);
    AllSavePart(s.includeChords && song.chords != [], b.chords);
    AllSavePart(s.includeMelody && song.notes != [], b.melody);
    AllSaveAppend(l, c);
    AllSaveAppend(l + c, m);
    if s.includeTempoMap && b.tempo.Some? {
      AllSavePart(true, b.tempo.value);
      AllSaveAppend([b.tempo.value], l + c + m);
    }
  }

  /** Tempo changes whose ticks never move backwards, from tick 0 on. */
  predicate ChangesInOrder(changes: seq<TempoChange>, tpb: int) {
    && (changes != [] ==> 0 <= ChangeTick(changes[0], tpb))
    && (forall j :: 0 <= j < |changes| - 1 ==> ChangeTick(changes[j], tpb) <= ChangeTick(changes[j + 1], tpb))
  }

  /** A variable tempo track of valid tempos saves exactly when its changes
      are in time order. */
  lemma VariableTempoSaves(changes: seq<TempoChange>, tpb: int)
    requires TemposValid(changes)
    ensures TrackSaves(Deltas(VariableTempoEvents(changes, tpb))) <==> ChangesInOrder(changes, tpb)
  {
    var e := VariableTempoEvents(changes, tpb);
    var t := Deltas(e);
    assert AllLatin1(VariableTempoName);
    if ChangesInOrder(changes, tpb) {
      forall i | 0 <= i < |t|
        ensures 0 <= t[i].delta && MsgEncodable(t[i].msg)
      {
        DeltaAt(e, 0, i);
        if i >= 2 {
          VariableTempoPlacement(changes, tpb, i - 2);
        }
        if i >= 3 {
          VariableTempoPlacement(changes, tpb, i - 3);
        }
      }
    }
    if TrackSaves(t) {
      if changes != [] {
        DeltaAt(e, 0, 2);
        VariableTempoPlacement(changes, tpb, 0);
      }
      forall j | 0 <= j < |changes| - 1
        ensures ChangeTick(changes[j], tpb) <= ChangeTick(changes[j + 1], tpb)
      {
        DeltaAt(e, 0, 3 + j);
        VariableTempoPlacement(changes, tpb, j);
        VariableTempoPlacement(changes, tpb, j + 1);
      }
    }
  }

  /** A tempo map that could be built always saves on the fixed path, and
      on the variable path exactly when its changes are in time order. */
  lemma TempoMapSaves(song: MidiSong, useVariableTempo: bool, tpb: int)
    requires TempoMap(song, useVariableTempo, tpb).Some?
    ensures TrackSaves(TempoMap(song, useVariableTempo, tpb).value) <==>
              (VariablePath(song, useVariableTempo) ==> ChangesInOrder(song.tempoChanges, tpb))
  {
    if VariablePath(song, useVariableTempo) {
      VariableTempoSaves(song.tempoChanges, tpb);
    } else {
      var us := TempoUs(SongBpm(song)).value;
      var t := TempoMap(song, useVariableTempo, tpb).value;
      var e := TempoEvents(us);
      assert t == Deltas(e);
      assert AllLatin1(TempoTrackName);
      forall i | 0 <= i < |t|
        ensures 0 <= t[i].delta && MsgEncodable(t[i].msg)
      {
        DeltaAt(e, 0, i);
      }
    }
  }

  /** Every message of the lyrics track is encodable: the lyrics are
      sanitised to latin-1. */
  lemma {:induction false} LyricMessagesEncodable(words: seq<MWord>, bpm: real, tpb: int)
    ensures forall j :: 0 <= j < |LyricEvents(words, bpm, tpb)| ==> MsgEncodable(LyricEvents(words, bpm, tpb)[j].msg)
  {
    assert AllLatin1(LyricsTrackName);
    if words != [] {
      var p := words[..|words| - 1];
      LyricMessagesEncodable(p, bpm, tpb);
      var e: seq<Placed> := LyricEvents(p, bpm, tpb);
      var o: seq<Placed> := LyricOf(words[|words| - 1], bpm, tpb);
      forall j | 0 <= j < |e + o|
        ensures MsgEncodable((e + o)[j].msg)
      {
        if j < |e| {
          assert (e + o)[j] == e[j];
        } else {
          assert (e + o)[j] == o[0];
        }
      }
    }
  }

  /** Words in start order, none before 0, give a lyrics track that
      saves. */
  lemma LyricsTrackSaves(song: MidiSong, tpb: int)
    requires 0.0 <= SongBpm(song) && 0 <= tpb
    requires forall j :: 0 <= j < |song.words| ==> 0.0 <= song.words[j].start.GetOr(0.0)
    requires forall j :: 0 <= j < |song.words| - 1 ==> song.words[j].start.GetOr(0.0) <= song.words[j + 1].start.GetOr(0.0)
    ensures TrackSaves(LyricsTrackOf(song, tpb))
  {
    LyricsTrackValid(song.words, SongBpm(song), tpb);
    LyricMessagesEncodable(song.words, SongBpm(song), tpb);
  }

  /** A word that lands on an earlier tick than the word before it gives a
      negative delta, and the save fails. */
  lemma LyricsOutOfOrder(song: MidiSong, tpb: int, k: nat)
    requires forall j :: 0 <= j < |song.words| ==> Sanitize(song.words[j].text.GetOr("")) != ""
    requires k + 1 < |song.words|
    requires TimeToTicks(song.words[k + 1].start.GetOr(0.0), SongBpm(song), tpb)
             < TimeToTicks(song.words[k].start.GetOr(0.0), SongBpm(song), tpb)
    ensures !TrackSaves(LyricsTrackOf(song, tpb))
  {
    var bpm := SongBpm(song);
    LyricPlacement(song.words, bpm, tpb, k);
    LyricPlacement(song.words, bpm, tpb, k + 1);
    DeltaAt(LyricEvents(song.words, bpm, tpb), 0, 2 + k);
  }

  /** Every note's pitch and velocity fit a MIDI data byte. */
  predicate NotesInRange(notes: seq<MNote>) {
    forall k :: 0 <= k < |notes| ==> 0 <= NotePitch(notes[k]) <= 127 && 0 <= NoteVelocity(notes[k]) <= 127
  }

  /** Sequential notes give a melody track that saves exactly when every
      pitch and velocity is in 0..127; out of that range the note-on
      refuses it whatever the order. */
  lemma MelodyTrackSaves(song: MidiSong, tpb: int)
    ensures TrackSaves(MelodyTrackOf(song, tpb)) ==> NotesInRange(song.notes)
    ensures 0.0 <= SongBpm(song) && 0 <= tpb && Sequential(song.notes) && NotesInRange(song.notes) ==>
              TrackSaves(MelodyTrackOf(song, tpb))
  {
    var bpm := SongBpm(song);
    var t := MelodyTrackOf(song, tpb);
    if TrackSaves(t) {
      forall k | 0 <= k < |song.notes|
        ensures 0 <= NotePitch(song.notes[k]) <= 127 && 0 <= NoteVelocity(song.notes[k]) <= 127
      {
        MelodyPlacement(song.notes, bpm, tpb, k);
        assert MsgEncodable(t[1 + 2 * k].msg);
      }
    }
    if 0.0 <= bpm && 0 <= tpb && Sequential(song.notes) && NotesInRange(song.notes) {
      MelodyTrackValid(song.notes, bpm, tpb);
      assert AllLatin1(MelodyTrackName);
      forall i | 0 <= i < |t|
        ensures MsgEncodable(t[i].msg)
      {
        if i > 0 {
          MelodyPlacement(song.notes, bpm, tpb, (i - 1) / 2);
        }
      }
    }
  }

  lemma TrackSavesAppend(a: seq<Timed>, b: seq<Timed>)
    requires TrackSaves(a) && TrackSaves(b)
    ensures TrackSaves(a + b)
  {
    forall i | 0 <= i < |a + b|
      ensures 0 <= (a + b)[i].delta && MsgEncodable((a + b)[i].msg)
    {
      if i >= |a| {
        assert (a + b)[i] == b[i - |a|];
      }
    }
  }

  /** Chords the exporter can save: each symbol latin-1 and voiced by the
      table, each duration non-negative, start ticks never moving backwards
      from 0. */
  predicate ChordsSaveable(ts: seq<TickedChord>) {
    && (forall k :: 0 <= k < |ts| ==> AllLatin1(ts[k].symbol) && 0 <= ts[k].duration && ts[k].notes == GetChordNotes(ts[k].symbol))
    && (ts != [] ==> 0 <= ts[0].tick)
    && (forall k :: 0 <= k < |ts| - 1 ==> ts[k].tick <= ts[k + 1].tick)
  }

  lemma {:induction false} ChordsFoldSaves(ts: seq<TickedChord>)
    requires ChordsSaveable(ts)
    ensures TrackSaves(ChordsFoldAsWritten(ts).track)
    ensures ChordsFoldAsWritten(ts).last == if ts == [] then 0 else ts[|ts| - 1].tick
  {
    assert AllLatin1(ChordsTrackName);
    if ts != [] {
      var p := ts[..|ts| - 1];
      var c := ts[|ts| - 1];
      assert ChordsSaveable(p) by {
        assert forall k :: 0 <= k < |p| ==> p[k] == ts[k];
      }
      ChordsFoldSaves(p);
      var st := ChordsFoldAsWritten(p);
      assert st.last <= c.tick by {
        if p != [] {
          assert p[|p| - 1] == ts[|ts| - 2];
        }
      }
      ChunkSaves(c, st.last);
      TrackSavesAppend(st.track, ChordChunkAsWritten(c, st.last));
    }
  }

  /** One chord's messages save when its symbol is latin-1, its duration
      non-negative and its start no earlier than `last`. */
  lemma ChunkSaves(c: TickedChord, last: int)
    requires AllLatin1(c.symbol) && 0 <= c.duration && c.notes == GetChordNotes(c.symbol) && last <= c.tick
    ensures TrackSaves(ChordChunkAsWritten(c, last))
  {
    var a := TextCarry(c.symbol, c.tick - last);
    var b := Carry(NoteOns(c.notes), 0, 0);
    var d := Carry(NoteOffs(c.notes), 0, c.duration);
    assert TrackSaves(b) && TrackSaves(d);
    TrackSavesAppend(a, b);
    TrackSavesAppend(a + b, d);
  }

  /** Chords in start order, none before 0, none ending before it starts,
      each symbol latin-1, give a chords track that saves. */
  lemma ChordsTrackSaves(song: MidiSong, tpb: int)
    requires 0.0 <= SongBpm(song) && 0 <= tpb
    requires forall k :: 0 <= k < |song.chords| ==>
               AllLatin1(song.chords[k].symbol.GetOr("")) && 0.0 <= ChordStart(song.chords[k]) <= ChordEnd(song.chords[k])
    requires forall k :: 0 <= k < |song.chords| - 1 ==> ChordStart(song.chords[k]) <= ChordStart(song.chords[k + 1])
    ensures TrackSaves(ChordsTrackOf(song, tpb))
  {
    var bpm := SongBpm(song);
    var ts := TickedAll(song.chords, bpm, tpb);
    forall k | 0 <= k < |ts| - 1
      ensures ts[k].tick <= ts[k + 1].tick
    {
      TimeToTicksMonotone(ChordStart(song.chords[k]), ChordStart(song.chords[k + 1]), bpm, tpb);
    }
    ChordsFoldSaves(ts);
  }

  /** The chord's symbol lands in the track as a text event. */
  lemma {:induction false} ChordTextAt(ts: seq<TickedChord>, k: nat) returns (i: nat)
    requires k < |ts| && ts[k].symbol != ""
    ensures i < |ChordsFoldAsWritten(ts).track| && ChordsFoldAsWritten(ts).track[i].msg == TextMeta(ts[k].symbol)
  {
    var p := ts[..|ts| - 1];
    var st := ChordsFoldAsWritten(p);
    if k < |p| {
      assert p[k] == ts[k];
      i := ChordTextAt(p, k);
      assert ChordsFoldAsWritten(ts).track[i] == st.track[i];
    } else {
      var c := ts[|ts| - 1];
      i := |st.track|;
      assert ChordChunkAsWritten(c, st.last)[0] == Timed(TextMeta(c.symbol), c.tick - st.last);
      assert ChordsFoldAsWritten(ts).track[i] == ChordChunkAsWritten(c, st.last)[0];
    }
  }

  /** A chord symbol latin-1 cannot encode is written unsanitised, and the
      save fails. */
  lemma ChordSymbolFails(song: MidiSong, tpb: int, k: nat)
    requires k < |song.chords| && !AllLatin1(song.chords[k].symbol.GetOr(""))
    ensures !TrackSaves(ChordsTrackOf(song, tpb))
  {
    var ts := TickedAll(song.chords, SongBpm(song), tpb);
    assert ts[k].symbol == song.chords[k].symbol.GetOr("");
    var i := ChordTextAt(ts, k);
  }

  lemma DeltasName(evs: seq<Placed>, name: string)
    requires evs != [] && evs[0] == Placed(TrackName(name), 0)
    ensures FirstName(Deltas(evs)) == name
  {
  }

  lemma {:induction false} ChordsFoldFirst(ts: seq<TickedChord>)
    ensures FirstName(ChordsFoldAsWritten(ts).track) == ChordsTrackName
    ensures ChordsFoldAsWritten(ts).track != []
  {
    if ts != [] {
      ChordsFoldFirst(ts[..|ts| - 1]);
      var st := ChordsFoldAsWritten(ts[..|ts| - 1]);
      assert ChordsFoldAsWritten(ts).track[0] == st.track[0];
    }
  }

  lemma NamesAppend(a: seq<seq<Timed>>, b: seq<seq<Timed>>)
    ensures Names(a + b) == Names(a) + Names(b)
  {
  }

  lemma PartNames(included: bool, track: seq<Timed>, name: string)
    requires FirstName(track) == name
    ensures Names(Part(included, track)) == PartName(included, name)
  {
  }

  lemma ThreeParts(a: bool, x: seq<Timed>, nx: string, b: bool, y: seq<Timed>, ny: string, c: bool, z: seq<Timed>, nz: string)
    requires FirstName(x) == nx && FirstName(y) == ny && FirstName(z) == nz
    ensures Names(Part(a, x) + Part(b, y) + Part(c, z)) == PartName(a, nx) + PartName(b, ny) + PartName(c, nz)
  {
    PartNames(a, x, nx);
    PartNames(b, y, ny);
    PartNames(c, z, nz);
    NamesAppend(Part(a, x) + Part(b, y), Part(c, z));
    NamesAppend(Part(a, x), Part(b, y));
  }

  function TempoName(song: MidiSong, useVariableTempo: bool): string {
    if VariablePath(song, useVariableTempo) then VariableTempoName else TempoTrackName
  }

  /** Each built track opens with its own name. */
  predicate NamedTracks(b: Built, tempoName: string) {
    && (b.tempo.Some? ==> FirstName(b.tempo.value) == tempoName)
    && FirstName(b.lyrics) == LyricsTrackName
    && FirstName(b.chords) == ChordsTrackName
    && FirstName(b.melody) == MelodyTrackName
  }

  lemma TempoMapName(song: MidiSong, useVariableTempo: bool, tpb: int)
    requires TempoMap(song, useVariableTempo, tpb).Some?
    ensures FirstName(TempoMap(song, useVariableTempo, tpb).value) == TempoName(song, useVariableTempo)
  {
    var t := TempoMap(song, useVariableTempo, tpb).value;
    if VariablePath(song, useVariableTempo) {
      DeltasName(VariableTempoEvents(song.tempoChanges, tpb), VariableTempoName);
    } else {
      TempoMapContents(song, useVariableTempo, tpb);
      assert t[0].msg == Absolute(t)[0].msg;
    }
  }

  lemma BuildNamed(s: Settings, song: MidiSong, useVariableTempo: bool)
    ensures NamedTracks(Build(s, song, useVariableTempo), TempoName(song, useVariableTempo))
  {
    var tpb := s.ticksPerBeat;
    DeltasName(LyricEvents(song.words, SongBpm(song), tpb), LyricsTrackName);
    ChordsFoldFirst(TickedAll(song.chords, SongBpm(song), tpb));
    DeltasName(MelodyEvents(song.notes, SongBpm(song), tpb), MelodyTrackName);
    if TempoMap(song, useVariableTempo, tpb).Some? {
      TempoMapName(song, useVariableTempo, tpb);
    }
  }

  /** Assembling named tracks gives the names of the included parts in
      order. */
  lemma AssembleNames(s: Settings, song: MidiSong, b: Built, useVariableTempo: bool)
    requires NamedTracks(b, TempoName(song, useVariableTempo)) && Assemble(s, song, b).Some?
    ensures Names(Assemble(s, song, b).value.tracks) == ExpectedNames(s, song, useVariableTempo)
  {
    var opt := OptionalTracks(s, song, b);
    ThreeParts(s.includeLyrics && song.words != [], b.lyrics, LyricsTrackName,
               s.includeChords && song.chords != [], b.chords, ChordsTrackName,
               s.includeMelody && song.notes != [], b.melody, MelodyTrackName);
    var rest := PartName(s.includeLyrics && song.words != [], LyricsTrackName)
                + PartName(s.includeChords && song.chords != [], ChordsTrackName)
                + PartName(s.includeMelody && song.notes != [], MelodyTrackName);
    assert Names(opt) == rest;
    if s.includeTempoMap {
      var t := b.tempo.value;
      assert Assemble(s, song, b).value.tracks == [t] + opt;
      NamesAppend([t], opt);
      assert Names([t]) == PartName(true, TempoName(song, useVariableTempo));
    } else {
      assert Assemble(s, song, b).value.tracks == opt;
      assert PartName(false, TempoName(song, useVariableTempo)) + rest == rest;
    }
  }

  /** When export succeeds the file has the configured resolution and one
      track per included part, opening with its name, in the order tempo
      map, lyrics, chords, melody; empty parts get no track. */
  lemma ExportTrackNames(s: Settings, song: MidiSong, useVariableTempo: bool)
    requires ExportFile(s, song, useVariableTempo).Some?
    ensures var f := ExportFile(s, song, useVariableTempo).value;
            f.ticksPerBeat == s.ticksPerBeat && Names(f.tracks) == ExpectedNames(s, song, useVariableTempo)
  {
    BuildNamed(s, song, useVariableTempo);
    AssembleNames(s, song, Build(s, song, useVariableTempo), useVariableTempo);
  }

  /** `export` on the mido path: builds each included track and returns
      the file, or None where the Python code catches an exception and
      returns False. */
  method Export(s: Settings, song: MidiSong, useVariableTempo: bool) returns (r: Option<MidiFileValue>)
    ensures r == ExportFile(s, song, useVariableTempo)
  {
    var bpm := SongBpm(song);
    var tempo: seq<seq<Timed>> := [];
    if s.includeTempoMap {
      var tempoTrack := ExportTempoTrack(song, useVariableTempo, s.ticksPerBeat);
      if tempoTrack.None? {
        return None;
      }
      tempo := [tempoTrack.value];
    }
    var lyrics, chords, melody: seq<seq<Timed>> := [], [], [];
    if s.includeLyrics && song.words != [] {
      var t := CreateLyricsTrack(song.words, bpm, s.ticksPerBeat);
      lyrics := [t];
    }
    if s.includeChords && song.chords != [] {
      var t := CreateChordsTrack(song.chords, bpm, s.ticksPerBeat);
      chords := [t];
    }
    if s.includeMelody && song.notes != [] {
      var t := CreateMelodyTrack(song.notes, bpm, s.ticksPerBeat);
      melody := [t];
    }
    assert lyrics == Part(s.includeLyrics && song.words != [], LyricsTrackOf(song, s.ticksPerBeat));
    assert chords == Part(s.includeChords && song.chords != [], ChordsTrackOf(song, s.ticksPerBeat));
    assert melody == Part(s.includeMelody && song.notes != [], MelodyTrackOf(song, s.ticksPerBeat));
    ExportAssembled(s, song, useVariableTempo, tempo, lyrics, chords, melody);
    var f := MidiFileValue(s.ticksPerBeat, tempo + (lyrics + chords + melody));
    if !AllSave(f.tracks) {
      return None;
    }
    r := Some(f);
  }

  /** The tracks `export` collects, in its order, make up the exported
      file. */
  lemma ExportAssembled(s: Settings, song: MidiSong, useVariableTempo: bool,
                        tempo: seq<seq<Timed>>, lyrics: seq<seq<Timed>>, chords: seq<seq<Timed>>, melody: seq<seq<Timed>>)
    requires s.includeTempoMap ==> TempoMap(song, useVariableTempo, s.ticksPerBeat).Some?
                                   && tempo == [TempoMap(song, useVariableTempo, s.ticksPerBeat).value]
    requires !s.includeTempoMap ==> tempo == []
    requires lyrics == Part(s.includeLyrics && song.words != [], LyricsTrackOf(song, s.ticksPerBeat))
    requires chords == Part(s.includeChords && song.chords != [], ChordsTrackOf(song, s.ticksPerBeat))
    requires melody == Part(s.includeMelody && song.notes != [], MelodyTrackOf(song, s.ticksPerBeat))
    ensures Some(MidiFileValue(s.ticksPerBeat, tempo + (lyrics + chords + melody))) == Assemble(s, song, Build(s, song, useVariableTempo))
  {
    assert lyrics + chords + melody == OptionalTracks(s, song, Build(s, song, useVariableTempo));
    if !s.includeTempoMap {
      assert tempo + (lyrics + chords + melody) == lyrics + chords + melody;
    }
  }

  /** The tempo track either path builds. */
  method ExportTempoTrack(song: MidiSong, useVariableTempo: bool, tpb: int) returns (r: Option<seq<Timed>>)
    ensures r == TempoMap(song, useVariableTempo, tpb)
  {
    if useVariableTempo && song.tempoChanges != [] {
      r := CreateVariableTempoTrack(song.tempoChanges, tpb);
    } else {
      r := TempoTrack(SongBpm(song));
    }
  }

  /** `export_tempo_map`: a file holding only the tempo track, or None
      when building or saving it raises. */
  method ExportTempoMap(s: Settings, song: MidiSong, useVariableTempo: bool) returns (r: Option<MidiFileValue>)
    ensures var t := TempoMap(song, useVariableTempo, s.ticksPerBeat);
            r.None? <==> t.None? || !TrackSaves(t.value)
    ensures r.Some? ==> r.value == MidiFileValue(s.ticksPerBeat, [TempoMap(song, useVariableTempo, s.ticksPerBeat).value])
  {
    var t := ExportTempoTrack(song, useVariableTempo, s.ticksPerBeat);
    if t.None? || !TrackSaves(t.value) {
      return None;
    }
    r := Some(MidiFileValue(s.ticksPerBeat, [t.value]));
  }

  /** The tempo-map file is the export of a song with only the tempo map
      included. */
  lemma TempoMapIsExport(s: Settings, song: MidiSong, useVariableTempo: bool)
    ensures var only := Settings(s.ticksPerBeat, true, false, false, false);
            var t := TempoMap(song, useVariableTempo, s.ticksPerBeat);
            ExportFile(only, song, useVariableTempo) ==
              if t.None? || !TrackSaves(t.value) then None else Some(MidiFileValue(s.ticksPerBeat, [t.value]))
  {
    var only := Settings(s.ticksPerBeat, true, false, false, false);
    var b := Build(only, song, useVariableTempo);
    assert OptionalTracks(only, song, b) == [];
    if b.tempo.Some? {
      assert [b.tempo.value] + OptionalTracks(only, song, b) == [b.tempo.value];
      AllSavePart(true, b.tempo.value);
    }
  }
}
