/** The melody track of the multi-track MIDI exporter
    (`export/midi_exporter.py`, `_create_melody_track`): a note-on at each
    note's start and its note-off one note duration later. */
module MidiMelody {
  import opened Common
  import opened MidiTrack
  import opened MidiExporter

  /** A note record; a missing field is None. */
  datatype MNote = MNote(start: Option<real>, end: Option<real>, pitch: Option<int>, velocity: Option<int>)

  function NoteStart(n: MNote): real {
    n.start.GetOr(0.0)
  }

  /** A missing end is half a second after the start. */
  function NoteEnd(n: MNote): real {
    n.end.GetOr(NoteStart(n) + 0.5)
  }

  function NotePitch(n: MNote): int {
    n.pitch.GetOr(60)
  }

  function NoteVelocity(n: MNote): int {
    n.velocity.GetOr(80)
  }

  const MelodyTrackName := "Melody"

  /** Where a note's two messages land: the note-on at its start tick, the
      note-off (velocity 0) one note duration later. */
  function NoteEvents(n: MNote, bpm: real, tpb: int): (r: seq<Placed>)
    ensures |r| == 2
  {
    var t := TimeToTicks(NoteStart(n), bpm, tpb);
    var dur := TimeToTicks(NoteEnd(n) - NoteStart(n), bpm, tpb);
    [Placed(NoteOn(NotePitch(n), NoteVelocity(n)), t), Placed(NoteOff(NotePitch(n), 0), t + dur)]
  }

  function MelodyEvents(notes: seq<MNote>, bpm: real, tpb: int): (r: seq<Placed>)
    ensures |r| == 1 + 2 * |notes| && r[0] == Placed(TrackName(MelodyTrackName), 0)
  {
    if notes == [] then [Placed(TrackName(MelodyTrackName), 0)]
    else MelodyEvents(notes[..|notes| - 1], bpm, tpb) + NoteEvents(notes[|notes| - 1], bpm, tpb)
  }

  /** Note k's note-on is message 1 + 2k, at the tick of its start, and its
      note-off message 2 + 2k, one note duration later, with the same
      pitch and velocity 0. */
  lemma {:induction false} MelodyPlacement(notes: seq<MNote>, bpm: real, tpb: int, k: nat)
    requires k < |notes|
    ensures var r := MelodyEvents(notes, bpm, tpb);
            var t := TimeToTicks(NoteStart(notes[k]), bpm, tpb);
            && r[1 + 2 * k] == Placed(NoteOn(NotePitch(notes[k]), NoteVelocity(notes[k])), t)
            && r[2 + 2 * k] == Placed(NoteOff(NotePitch(notes[k]), 0), t + TimeToTicks(NoteEnd(notes[k]) - NoteStart(notes[k]), bpm, tpb))
  {
    var p := notes[..|notes| - 1];
    if k < |p| {
      MelodyPlacement(p, bpm, tpb, k);
      assert notes[k] == p[k];
    }
  }

  /** The ticks of two stretches of time never exceed the ticks of both
      together. */
  lemma TimeToTicksSuperadditive(a: real, b: real, bpm: real, tpb: int)
    requires 0.0 <= a && 0.0 <= b && 0.0 <= bpm && 0 <= tpb
    ensures TimeToTicks(a, bpm, tpb) + TimeToTicks(b, bpm, tpb) <= TimeToTicks(a + b, bpm, tpb)
  {
    var k := (bpm / 60.0) * tpb as real;
    assert 0.0 <= k;
    assert a * (bpm / 60.0) * tpb as real == a * k;
    assert b * (bpm / 60.0) * tpb as real == b * k;
    assert (a + b) * (bpm / 60.0) * tpb as real == a * k + b * k;
    assert 0.0 <= a * k && 0.0 <= b * k;
  }

  /** A note's note-off lands no later than the tick of its end. */
  lemma NoteOffBeforeEnd(n: MNote, bpm: real, tpb: int)
    requires 0.0 <= NoteStart(n) <= NoteEnd(n) && 0.0 <= bpm && 0 <= tpb
    ensures NoteEvents(n, bpm, tpb)[1].tick <= TimeToTicks(NoteEnd(n), bpm, tpb)
  {
    TimeToTicksSuperadditive(NoteStart(n), NoteEnd(n) - NoteStart(n), bpm, tpb);
    assert NoteStart(n) + (NoteEnd(n) - NoteStart(n)) == NoteEnd(n);
  }

  /** Notes that start at or after 0, end no earlier than they start, and
      each start no earlier than the previous one ends never make the
      placement move backwards. */
  predicate Sequential(notes: seq<MNote>) {
    && (forall j :: 0 <= j < |notes| ==> 0.0 <= NoteStart(notes[j]) <= NoteEnd(notes[j]))
    && (forall j :: 0 <= j < |notes| - 1 ==> NoteEnd(notes[j]) <= NoteStart(notes[j + 1]))
  }

  lemma {:induction false} MelodyEventsMonotone(notes: seq<MNote>, bpm: real, tpb: int)
    requires 0.0 <= bpm && 0 <= tpb && Sequential(notes)
    ensures Monotone(MelodyEvents(notes, bpm, tpb))
    ensures notes != [] ==> LastTick(MelodyEvents(notes, bpm, tpb), 0) <= TimeToTicks(NoteEnd(notes[|notes| - 1]), bpm, tpb)
  {
    if notes != [] {
      var p := notes[..|notes| - 1];
      var n := notes[|notes| - 1];
      assert Sequential(p) by {
        assert forall j :: 0 <= j < |p| ==> p[j] == notes[j];
      }
      MelodyEventsMonotone(p, bpm, tpb);
      var e := MelodyEvents(p, bpm, tpb);
      var ne := NoteEvents(n, bpm, tpb);
      assert LastTick(e, 0) <= ne[0].tick by {
        if p != [] {
          assert p[|p| - 1] == notes[|notes| - 2];
          TimeToTicksMonotone(NoteEnd(p[|p| - 1]), NoteStart(n), bpm, tpb);
        } else {
          TimeToTicksMonotone(0.0, NoteStart(n), bpm, tpb);
        }
      }
      assert ne[0].tick <= ne[1].tick;
      NoteOffBeforeEnd(n, bpm, tpb);
      var r := e + ne;
      forall j | 0 <= j < |r| - 1
        ensures r[j].tick <= r[j + 1].tick
      {
        if j + 1 < |e| {
          assert r[j] == e[j] && r[j + 1] == e[j + 1];
        } else if j + 1 == |e| {
          assert r[j] == e[|e| - 1] && r[j + 1] == ne[0];
        } else {
          assert r[j] == ne[0] && r[j + 1] == ne[1];
        }
      }
    }
  }

  /** Sequential notes give a melody track with no negative delta. */
  lemma MelodyTrackValid(notes: seq<MNote>, bpm: real, tpb: int)
    requires 0.0 <= bpm && 0 <= tpb && Sequential(notes)
    ensures forall j :: 0 <= j < 1 + 2 * |notes| ==> Deltas(MelodyEvents(notes, bpm, tpb))[j].delta >= 0
  {
    MelodyEventsMonotone(notes, bpm, tpb);
    MonotoneDeltas(MelodyEvents(notes, bpm, tpb), 0);
  }

  /** One pass of the melody loop: the note-on carries the step from
      `last_tick`, the note-off the duration, and `last_tick` moves to the
      note-off. */
  method AppendNote(track: seq<Timed>, last: int, n: MNote, bpm: real, tpb: int, ghost e: seq<Placed>)
    returns (track': seq<Timed>, last': int)
    requires track == Deltas(e) && last == LastTick(e, 0)
    ensures track' == Deltas(e + NoteEvents(n, bpm, tpb)) && last' == LastTick(e + NoteEvents(n, bpm, tpb), 0)
  {
    var current := TimeToTicks(NoteStart(n), bpm, tpb);
    var pitch := NotePitch(n);
    var velocity := NoteVelocity(n);
    var duration := TimeToTicks(NoteEnd(n) - NoteStart(n), bpm, tpb);
    var ne := NoteEvents(n, bpm, tpb);
    DeltasAppend(e, ne, 0);
    assert DeltasFrom(ne, last) == [Timed(NoteOn(pitch, velocity), current - last), Timed(NoteOff(pitch, 0), duration)];
    track' := track + [Timed(NoteOn(pitch, velocity), current - last)];
    track' := track' + [Timed(NoteOff(pitch, 0), duration)];
    last' := current + duration;
  }

  /** `_create_melody_track`. */
  method CreateMelodyTrack(notes: seq<MNote>, bpm: real, tpb: int) returns (track: seq<Timed>)
    ensures track == Deltas(MelodyEvents(notes, bpm, tpb))
  {
    track := [Timed(TrackName(MelodyTrackName), 0)];
    if notes == [] {
      return;
    }
    var last := 0;
    assert notes[..0] == [];
    for i := 0 to |notes|
      invariant track == Deltas(MelodyEvents(notes[..i], bpm, tpb))
      invariant last == LastTick(MelodyEvents(notes[..i], bpm, tpb), 0)
    {
      assert notes[..i + 1][..i] == notes[..i];
      track, last := AppendNote(track, last, notes[i], bpm, tpb, MelodyEvents(notes[..i], bpm, tpb));
    }
    assert notes[..|notes|] == notes;
  }
}
