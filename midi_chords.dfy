/** The chords track of the multi-track MIDI exporter
    (`export/midi_exporter.py`, `_create_chords_track`), as written and with
    the note-offs of a chord landing together. */
module MidiChords {
  import opened Common
  import opened MidiTrack
  import opened MidiExporter

  /** A chord record; a missing field is None. */
  datatype MChord = MChord(symbol: Option<string>, start: Option<real>, end: Option<real>)

  function ChordStart(c: MChord): real {
    c.start.GetOr(0.0)
  }

  /** A missing end is one second after the start. */
  function ChordEnd(c: MChord): real {
    c.end.GetOr(ChordStart(c) + 1.0)
  }

  /** A chord as the loop sees it: its symbol, its voiced notes, its start
      tick and its duration in ticks. */
  datatype TickedChord = TickedChord(symbol: string, notes: seq<int>, tick: int, duration: int)

  /** A symbol that is empty has no notes, as `GetChordNotes` ensures. */
  predicate Voiced(c: TickedChord) {
    c.symbol == "" ==> c.notes == []
  }

  function Ticked(c: MChord, bpm: real, tpb: int): (r: TickedChord)
    ensures r.symbol == c.symbol.GetOr("") && r.notes == GetChordNotes(r.symbol) && Voiced(r)
    ensures r.tick == TimeToTicks(ChordStart(c), bpm, tpb)
    ensures r.duration == TimeToTicks(ChordEnd(c) - ChordStart(c), bpm, tpb)
  {
    var symbol := c.symbol.GetOr("");
    TickedChord(symbol, GetChordNotes(symbol), TimeToTicks(ChordStart(c), bpm, tpb), TimeToTicks(ChordEnd(c) - ChordStart(c), bpm, tpb))
  }

  function TickedAll(chords: seq<MChord>, bpm: real, tpb: int): (r: seq<TickedChord>)
    ensures |r| == |chords| && forall i :: 0 <= i < |r| ==> r[i] == Ticked(chords[i], bpm, tpb)
  {
    seq(|chords|, i requires 0 <= i < |chords| => Ticked(chords[i], bpm, tpb))
  }

  function NoteOns(notes: seq<int>): (r: seq<Msg>)
    ensures |r| == |notes| && forall i :: 0 <= i < |r| ==> r[i] == NoteOn(notes[i], 60)
  {
    seq(|notes|, i requires 0 <= i < |notes| => NoteOn(notes[i], 60))
  }

  function NoteOffs(notes: seq<int>): (r: seq<Msg>)
    ensures |r| == |notes| && forall i :: 0 <= i < |r| ==> r[i] == NoteOff(notes[i], 0)
  {
    seq(|notes|, i requires 0 <= i < |notes| => NoteOff(notes[i], 0))
  }

  /** The text event of a chord, when its symbol is not empty. */
  function ChordText(symbol: string): seq<Msg> {
    if symbol != "" then [TextMeta(symbol)] else []
  }

  /** The messages a chord starts with: its text event, then a note-on per
      voiced note. */
  function ChordHead(c: TickedChord): (r: seq<Msg>)
    ensures |r| == |ChordText(c.symbol)| + |c.notes|
  {
    ChordText(c.symbol) + NoteOns(c.notes)
  }

  const ChordsTrackName := "Chords"

  /** The text event with the step from `last`, when there is one. */
  function TextCarry(symbol: string, step: int): seq<Timed> {
    if symbol != "" then [Timed(TextMeta(symbol), step)] else []
  }

  /** What one pass of the chords loop appends, as written: the text event
      with the step from `last`, the note-ons with 0, then the note-offs
      with 0 on the first and the whole chord duration on each later one. */
  function ChordChunkAsWritten(c: TickedChord, last: int): seq<Timed> {
    TextCarry(c.symbol, c.tick - last) + Carry(NoteOns(c.notes), 0, 0) + Carry(NoteOffs(c.notes), 0, c.duration)
  }

  /** The chords loop's variables: the track so far and `last_tick`. */
  datatype ChordsState = ChordsState(track: seq<Timed>, last: int)

  /** The variables after all chords, as written: `last_tick` is set to
      the chord's start tick whatever was appended. */
  function ChordsFoldAsWritten(chords: seq<TickedChord>): ChordsState {
    if chords == [] then ChordsState([Timed(TrackName(ChordsTrackName), 0)], 0)
    else
      var st := ChordsFoldAsWritten(chords[..|chords| - 1]);
      var c := chords[|chords| - 1];
      ChordsState(st.track + ChordChunkAsWritten(c, st.last), c.tick)
  }

  /** One pass of `_create_chords_track`'s loop, once the chord's ticks are
      known. */
  method AppendChordAsWritten(track: seq<Timed>, last: int, c: TickedChord) returns (track': seq<Timed>, last': int)
    ensures track' == track + ChordChunkAsWritten(c, last)
    ensures last' == c.tick
  {
    var chunk := TextCarry(c.symbol, c.tick - last);
    if c.notes != [] {
      chunk := AppendCarried(chunk, NoteOns(c.notes), 0, 0);
      chunk := AppendCarried(chunk, NoteOffs(c.notes), 0, c.duration);
    }
    track' := track + chunk;
    last' := c.tick;
  }

  /** `_create_chords_track`, as written. */
  method CreateChordsTrack(chords: seq<MChord>, bpm: real, tpb: int) returns (track: seq<Timed>)
    ensures track == ChordsFoldAsWritten(TickedAll(chords, bpm, tpb)).track
  {
    ghost var ts := TickedAll(chords, bpm, tpb);
    track := [Timed(TrackName(ChordsTrackName), 0)];
    if chords == [] {
      return;
    }
    var last := 0;
    assert ts[..0] == [];
    for i := 0 to |chords|
      invariant ChordsState(track, last) == ChordsFoldAsWritten(ts[..i])
    {
      var tc := Ticked(chords[i], bpm, tpb);
      assert ts[..i + 1] == ts[..i] + [tc];
      track, last := AppendChordAsWritten(track, last, tc);
    }
    assert ts[..|chords|] == ts;
  }

  /** Where a chord's messages are meant to land: the head at the chord's
      start tick and every note-off together, one duration later. */
  function ChordEvents(c: TickedChord): seq<Placed> {
    AtTick(ChordHead(c), c.tick) + AtTick(NoteOffs(c.notes), c.tick + c.duration)
  }

  /** The text event and the note-ons land on the chord's start tick, and
      every note-off one chord duration later. */
  lemma ChordEventsTicks(c: TickedChord)
    ensures var r := ChordEvents(c);
            var h := |ChordHead(c)|;
            && |r| == h + |c.notes|
            && (forall i :: 0 <= i < h ==> r[i].tick == c.tick)
            && (forall i :: h <= i < |r| ==> r[i] == Placed(NoteOff(c.notes[i - h], 0), c.tick + c.duration))
  {
    var r := ChordEvents(c);
    var h := |ChordHead(c)|;
    var offs := AtTick(NoteOffs(c.notes), c.tick + c.duration);
    forall i | h <= i < |r|
      ensures r[i] == Placed(NoteOff(c.notes[i - h], 0), c.tick + c.duration)
    {
      assert r[i] == offs[i - h];
    }
  }

  function ChordsEvents(chords: seq<TickedChord>): seq<Placed> {
    if chords == [] then [Placed(TrackName(ChordsTrackName), 0)]
    else ChordsEvents(chords[..|chords| - 1]) + ChordEvents(chords[|chords| - 1])
  }

  lemma ChordsEventsSnoc(ts: seq<TickedChord>, i: nat)
    requires i < |ts|
    ensures ChordsEvents(ts[..i + 1]) == ChordsEvents(ts[..i]) + ChordEvents(ts[i])
  {
    assert ts[..i + 1][..i] == ts[..i];
  }

  /** What the corrected loop appends for a chord after tick `last`: the
      text event with the step, the note-ons with 0, and the note-offs
      with the duration on the first and 0 on the others. */
  function ChordChunk(c: TickedChord, last: int): seq<Timed> {
    TextCarry(c.symbol, c.tick - last) + Carry(NoteOns(c.notes), if c.symbol == "" then c.tick - last else 0, 0)
    + Carry(NoteOffs(c.notes), c.duration, 0)
  }

  /** The head carried with the step is the text event and the note-ons. */
  lemma HeadCarry(c: TickedChord, step: int)
    ensures Carry(ChordHead(c), step, 0) == TextCarry(c.symbol, step) + Carry(NoteOns(c.notes), if c.symbol == "" then step else 0, 0)
  {
    if c.symbol != "" {
      CarryCons(TextMeta(c.symbol), NoteOns(c.notes), step);
    } else {
      assert ChordHead(c) == NoteOns(c.notes);
    }
  }

  /** The head carries the step on its first message, and the first
      note-off the duration. */
  lemma ChordEventsCarry(c: TickedChord, last: int)
    ensures DeltasFrom(ChordEvents(c), last) == Carry(ChordHead(c), c.tick - last, 0) + Carry(NoteOffs(c.notes), c.duration, 0)
  {
    HeadThenOffs(c, last);
  }

  lemma HeadThenOffs(c: TickedChord, last: int)
    ensures DeltasFrom(AtTick(ChordHead(c), c.tick) + AtTick(NoteOffs(c.notes), c.tick + c.duration), last)
            == Carry(ChordHead(c), c.tick - last, 0) + Carry(NoteOffs(c.notes), c.duration, 0)
  {
    GroupThenLater(ChordHead(c), NoteOffs(c.notes), c.tick, c.duration, last);
  }

  /** After a chord the track ends on its note-offs, or on its text event
      when it has no notes, or where it was when it has neither. */
  lemma ChordEventsLast(c: TickedChord, last: int)
    ensures LastTick(ChordEvents(c), last) ==
              if c.notes != [] then c.tick + c.duration
              else if c.symbol != "" then c.tick
              else last
  {
    GroupThenLater(ChordHead(c), NoteOffs(c.notes), c.tick, c.duration, last);
  }

  lemma ChordEventsPieces(c: TickedChord, last: int)
    ensures DeltasFrom(ChordEvents(c), last)
            == TextCarry(c.symbol, c.tick - last) + Carry(NoteOns(c.notes), if c.symbol == "" then c.tick - last else 0, 0)
               + Carry(NoteOffs(c.notes), c.duration, 0)
  {
    ChordEventsCarry(c, last);
    HeadCarry(c, c.tick - last);
  }

  /** The deltas of a chord's placement after tick `last` are its chunk. */
  lemma ChordEventsDeltas(c: TickedChord, last: int)
    ensures DeltasFrom(ChordEvents(c), last) == ChordChunk(c, last)
  {
    ChordEventsPieces(c, last);
  }

  /** Placing a chord after a placement extends its track by the chunk. */
  lemma ChordsStep(e: seq<Placed>, c: TickedChord)
    ensures Deltas(e + ChordEvents(c)) == Deltas(e) + ChordChunk(c, LastTick(e, 0))
    ensures LastTick(e + ChordEvents(c), 0) == LastTick(ChordEvents(c), LastTick(e, 0))
  {
    DeltasAppend(e, ChordEvents(c), 0);
    LastTickAppend(e, ChordEvents(c), 0);
    ChordEventsDeltas(c, LastTick(e, 0));
  }

  /** A chord with notes has a symbol, so its note-ons carry nothing;
      a chord without notes is its text event alone. */
  lemma VoicedChunk(c: TickedChord, last: int)
    requires Voiced(c)
    ensures ChordChunk(c, last)
            == if c.notes != [] then TextCarry(c.symbol, c.tick - last) + Carry(NoteOns(c.notes), 0, 0)
                                     + Carry(NoteOffs(c.notes), c.duration, 0)
               else TextCarry(c.symbol, c.tick - last)
  {
    if c.notes == [] {
      assert NoteOns(c.notes) == [] && NoteOffs(c.notes) == [];
      assert Carry([], if c.symbol == "" then c.tick - last else 0, 0) == [];
      assert Carry([], c.duration, 0) == [];
    }
  }

  /** One pass of the corrected loop: the note-offs land together, and
      `last_tick` follows the last message appended. */
  method AppendChord(track: seq<Timed>, last: int, c: TickedChord, ghost e: seq<Placed>)
    returns (track': seq<Timed>, last': int)
    requires Voiced(c)
    requires track == Deltas(e) && last == LastTick(e, 0)
    ensures track' == Deltas(e + ChordEvents(c))
    ensures last' == LastTick(e + ChordEvents(c), 0)
  {
    ChordsStep(e, c);
    ChordEventsLast(c, last);
    VoicedChunk(c, last);
    var chunk := TextCarry(c.symbol, c.tick - last);
    last' := last;
    if c.symbol != "" {
      last' := c.tick;
    }
    if c.notes != [] {
      chunk := AppendCarried(chunk, NoteOns(c.notes), 0, 0);
      chunk := AppendCarried(chunk, NoteOffs(c.notes), c.duration, 0);
      last' := c.tick + c.duration;
    }
    track' := track + chunk;
  }

  /** The chords track with the note-offs of a chord together and
      `last_tick` at the last message appended. */
  method CreateChordsTrackCorrected(chords: seq<MChord>, bpm: real, tpb: int) returns (track: seq<Timed>)
    ensures track == Deltas(ChordsEvents(TickedAll(chords, bpm, tpb)))
  {
    ghost var ts := TickedAll(chords, bpm, tpb);
    track := [Timed(TrackName(ChordsTrackName), 0)];
    if chords == [] {
      return;
    }
    var last := 0;
    assert ts[..0] == [];
    for i := 0 to |chords|
      invariant track == Deltas(ChordsEvents(ts[..i]))
      invariant last == LastTick(ChordsEvents(ts[..i]), 0)
    {
      ChordsEventsSnoc(ts, i);
      track, last := AppendChord(track, last, Ticked(chords[i], bpm, tpb), ChordsEvents(ts[..i]));
    }
    assert ts[..|chords|] == ts;
  }

  // ---------------------------------------------------------------------------
  // The drift, on two chords

  /** C for the first second and Am for the next, at 120 beats per minute
      and 480 ticks per beat. */
  lemma TwoChordsTicks()
    ensures TickedAll([MChord(Some("C"), Some(0.0), Some(1.0)), MChord(Some("Am"), Some(1.0), Some(2.0))], 120.0, 480)
            == [DriftC, DriftAm]
  {
    OneSecondAt120();
    MajorTriadVoicing();
    MinorTriadVoicing();
    assert 2.0 - 1.0 == 1.0 - 0.0 == 1.0;
  }

  const DriftC := TickedChord("C", [60, 64, 67], 0, 960)
  const DriftAm := TickedChord("Am", [69, 72, 76], 960, 960)

  /** The first chord's messages up to its note-offs, and its note-offs,
      as the loop appends them. */
  function DriftHead(): seq<Timed> {
    [Timed(TrackName(ChordsTrackName), 0)] + TextCarry("C", 0) + Carry(NoteOns(DriftC.notes), 0, 0)
  }

  function DriftOffs(): seq<Timed> {
    Carry(NoteOffs(DriftC.notes), 0, 960)
  }

  lemma DriftTrackShape()
    ensures ChordsFoldAsWritten([DriftC, DriftAm]).track == DriftHead() + DriftOffs() + ChordChunkAsWritten(DriftAm, 0)
  {
    assert [DriftC, DriftAm][..1] == [DriftC] && [DriftC][..0] == [];
    assert ChordsFoldAsWritten([DriftC]) == ChordsState(DriftHead() + DriftOffs(), 0) by {
      assert ChordsFoldAsWritten([DriftC][..0]) == ChordsState([Timed(TrackName(ChordsTrackName), 0)], 0);
    }
  }

  lemma DriftHeadTotal()
    ensures |DriftHead()| == 5 && Total(DriftHead()) == 0
  {
    TotalAppend([Timed(TrackName(ChordsTrackName), 0)], TextCarry("C", 0));
    TotalAppend([Timed(TrackName(ChordsTrackName), 0)] + TextCarry("C", 0), Carry(NoteOns(DriftC.notes), 0, 0));
    TotalCarry(NoteOns(DriftC.notes), 0, 0);
  }

  /** As written, each of C's note-offs after the first waits the whole
      chord duration again. */
  lemma DriftOffsPlaced()
    ensures AbsoluteFrom(DriftOffs(), 0) == [Placed(NoteOff(60, 0), 0), Placed(NoteOff(64, 0), 960), Placed(NoteOff(67, 0), 1920)]
    ensures Total(DriftOffs()) == 1920
  {
    AbsoluteCarry(NoteOffs(DriftC.notes), 0, 960, 0);
    TotalCarry(NoteOffs(DriftC.notes), 0, 960);
    var r := AbsoluteFrom(DriftOffs(), 0);
    assert r[1].tick == 960 && r[2].tick == 1920;
  }

  /** As written, C's note-offs land on 0, 960 and 1920 instead of all on
      960, and since `last_tick` stays at C's start tick, Am's text lands
      on 2880 instead of 960. */
  lemma ChordsDriftAsWritten()
    ensures var placed := Absolute(ChordsFoldAsWritten([DriftC, DriftAm]).track);
            && |placed| == 15
            && placed[5..8] == [Placed(NoteOff(60, 0), 0), Placed(NoteOff(64, 0), 960), Placed(NoteOff(67, 0), 1920)]
            && placed[8] == Placed(TextMeta("Am"), 2880)
  {
    var head, offs, second := DriftHead(), DriftOffs(), ChordChunkAsWritten(DriftAm, 0);
    DriftTrackShape();
    DriftHeadTotal();
    DriftOffsPlaced();
    TotalAppend(head, offs);
    AbsoluteAppend(head + offs, second, 0);
    AbsoluteAppend(head, offs, 0);
    var placed := Absolute(head + offs + second);
    assert placed[..8] == AbsoluteFrom(head, 0) + AbsoluteFrom(offs, 0);
    assert placed[5..8] == placed[..8][5..];
    assert second[0] == Timed(TextMeta("Am"), 960);
    assert placed[8] == AbsoluteFrom(second, 1920)[0];
  }

  /** The corrected placement is built chord by chord: the first `k`
      chords' messages are a prefix of all of them. */
  lemma {:induction false} ChordsEventsPrefix(ts: seq<TickedChord>, k: nat)
    requires k <= |ts|
    ensures ChordsEvents(ts[..k]) <= ChordsEvents(ts)
    decreases |ts| - k
  {
    if k == |ts| {
      assert ts[..k] == ts;
    } else {
      var init := ts[..|ts| - 1];
      ChordsEventsPrefix(init, k);
      assert init[..k] == ts[..k];
    }
  }

  /** In the corrected track every chord's messages sit together, right
      after those of the chords before it, at the ticks `ChordEventsTicks`
      gives. */
  lemma ChordPlacedCorrected(ts: seq<TickedChord>, k: nat)
    requires k < |ts|
    ensures var lo := |ChordsEvents(ts[..k])|;
            var evs := ChordsEvents(ts);
            && lo + |ChordEvents(ts[k])| <= |evs|
            && evs[lo..lo + |ChordEvents(ts[k])|] == ChordEvents(ts[k])
  {
    ChordsEventsSnoc(ts, k);
    ChordsEventsPrefix(ts, k + 1);
    PrefixSlice(ChordsEvents(ts[..k]), ChordEvents(ts[k]), ChordsEvents(ts));
  }

  /** With the correction C's note-offs land together on 960 and Am's text
      on Am's start tick. */
  lemma ChordsNoDriftCorrected()
    ensures var placed := Absolute(Deltas(ChordsEvents([DriftC, DriftAm])));
            && |placed| == 15
            && placed[5..8] == AtTick([NoteOff(60, 0), NoteOff(64, 0), NoteOff(67, 0)], 960)
            && placed[8] == Placed(TextMeta("Am"), 960)
  {
    var ts := [DriftC, DriftAm];
    AbsoluteDeltas(ChordsEvents(ts));
    ChordsEventsSnoc(ts, 1);
    ChordsEventsSnoc(ts, 0);
    assert ts[..0] == [];
    var first := [Placed(TrackName(ChordsTrackName), 0)] + ChordEvents(DriftC);
    assert ChordsEvents(ts) == first + ChordEvents(DriftAm) by {
      assert ts[..2] == ts;
    }
    assert ChordEvents(DriftC)[4..] == AtTick(NoteOffs(DriftC.notes), 960);
    assert NoteOffs(DriftC.notes) == [NoteOff(60, 0), NoteOff(64, 0), NoteOff(67, 0)];
    assert ChordHead(DriftAm)[0] == TextMeta("Am");
  }
}
