/** Note post-processing of the melody extractor (`core/melody_extractor.py`):
    MIDI note names, the Basic Pitch event filter, the CREPE frame-to-note
    state machine, the duration filter, the merge of consecutive same-pitch
    notes and the final sort. The engines' outputs (note events, per-frame
    times, rounded MIDI numbers and confidences) are inputs. */
module Melody {
  import opened Common

  /** One extracted note, the dictionary the extractor builds. */
  datatype MelNote = MelNote(pitchMidi: int, pitchName: string, start: real, end: real, duration: real,
                             velocity: int, confidence: real, detectionMethod: string)

  /** The extractor's settings (constructor defaults 21, 108, 0.1, 0.5). */
  datatype Settings = Settings(minPitch: int, maxPitch: int, minNoteDuration: real, minConfidence: real)

  const DefaultSettings: Settings := Settings(21, 108, 0.1, 0.5)

  // ---------------------------------------------------------------------------
  // `_midi_to_note_name`

  /** Pitch class name followed by the octave `m // 12 - 1`. */
  function MidiToNoteName(m: int): string {
    NoteNames[m % 12] + IntToString(m / 12 - 1)
  }

  lemma MidiToNoteNameExamples()
    ensures MidiToNoteName(60) == "C4"
    ensures MidiToNoteName(21) == "A0"
    ensures MidiToNoteName(69) == "A4"
    ensures MidiToNoteName(108) == "C8"
  {
  }

  /** A pitch class name is one or two characters and ends in no digit. */
  lemma NoteNameShape(i: nat)
    requires i < 12
    ensures 1 <= |NoteNames[i]| <= 2 && !IsDigit(NoteNames[i][|NoteNames[i]| - 1]) && !IsDigit(NoteNames[i][0])
  {
  }

  /** Raising a pitch by an octave keeps its pitch class and raises the
      printed octave by one. */
  lemma OctaveUp(m: int)
    ensures MidiToNoteName(m + 12) == NoteNames[m % 12] + IntToString(m / 12)
  {
    assert (m + 12) % 12 == m % 12;
    assert (m + 12) / 12 - 1 == m / 12;
  }

  // ---------------------------------------------------------------------------
  // Basic Pitch events

  /** One Basic Pitch note event: start, end, pitch and amplitude. */
  datatype NoteEvent = NoteEvent(start: real, end: real, pitch: real, amplitude: real)

  /** The note an event becomes, or None when a filter drops it: pitch range,
      then minimum duration, then `min(1, amplitude / 0.5)` as confidence. */
  function BasicPitchNote(e: NoteEvent, s: Settings): (r: Option<MelNote>)
    ensures r.Some? <==> s.minPitch <= Trunc(e.pitch) <= s.maxPitch && e.end - e.start >= s.minNoteDuration
                         && MinR(1.0, e.amplitude / 0.5) >= s.minConfidence
    ensures r.Some? ==> r.value.pitchMidi == Trunc(e.pitch) && r.value.start == e.start && r.value.end == e.end
                        && r.value.duration == e.end - e.start && r.value.velocity == Trunc(e.amplitude * 127.0)
                        && r.value.confidence <= 1.0 && r.value.detectionMethod == "basic_pitch"
  {
    var p := Trunc(e.pitch);
    if s.minPitch <= p <= s.maxPitch then
      var duration := e.end - e.start;
      if duration >= s.minNoteDuration then
        var confidence := MinR(1.0, e.amplitude / 0.5);
        if confidence >= s.minConfidence then
          Some(MelNote(p, MidiToNoteName(p), e.start, e.end, duration, Trunc(e.amplitude * 127.0), confidence, "basic_pitch"))
        else None
      else None
    else None
  }

  function OptionToSeq<T>(o: Option<T>): (r: seq<T>)
    ensures o.None? ==> r == []
    ensures o.Some? ==> r == [o.value]
  {
    match o
    case None => []
    case Some(x) => [x]
  }

  /** The kept events' notes, in event order. */
  function BasicPitchNotes(events: seq<NoteEvent>, s: Settings): (r: seq<MelNote>)
    ensures |r| <= |events|
    ensures forall n :: n in r ==> s.minPitch <= n.pitchMidi <= s.maxPitch && n.duration >= s.minNoteDuration
                                   && s.minConfidence <= n.confidence <= 1.0
  {
    if events == [] then []
    else
      OptionToSeq(BasicPitchNote(events[0], s)) + BasicPitchNotes(events[1..], s)
  }

  /** An event whose every filter passes is kept, so an all-passing event
      list loses nothing. */
  lemma {:induction false} BasicPitchKeepsAll(events: seq<NoteEvent>, s: Settings)
    requires forall k :: 0 <= k < |events| ==> BasicPitchNote(events[k], s).Some?
    ensures |BasicPitchNotes(events, s)| == |events|
  {
    if events != [] {
      BasicPitchKeepsAll(events[1..], s);
    }
  }

  lemma BasicPitchStep(events: seq<NoteEvent>, i: nat, s: Settings)
    requires i < |events|
    ensures BasicPitchNotes(events[i..], s) == OptionToSeq(BasicPitchNote(events[i], s)) + BasicPitchNotes(events[i + 1..], s)
  {
    assert events[i..][0] == events[i] && events[i..][1..] == events[i + 1..];
  }

  /** One pass of the event loop: the filters in the source's order. */
  method KeepEvent(e: NoteEvent, s: Settings) returns (kept: seq<MelNote>)
    ensures kept == OptionToSeq(BasicPitchNote(e, s))
  {
    kept := [];
    var pitchMidi := Trunc(e.pitch);
    if s.minPitch <= pitchMidi <= s.maxPitch {
      var duration := e.end - e.start;
      if duration >= s.minNoteDuration {
        var confidence := MinR(1.0, e.amplitude / 0.5);
        if confidence >= s.minConfidence {
          kept := [MelNote(pitchMidi, MidiToNoteName(pitchMidi), e.start, e.end, duration,
                           Trunc(e.amplitude * 127.0), confidence, "basic_pitch")];
        }
      }
    }
  }

  /** The source's event loop. */
  method BasicPitchLoop(events: seq<NoteEvent>, s: Settings) returns (notes: seq<MelNote>)
    ensures notes == BasicPitchNotes(events, s)
  {
    notes := [];
    var i := 0;
    while i < |events|
      invariant 0 <= i <= |events|
      invariant notes + BasicPitchNotes(events[i..], s) == BasicPitchNotes(events, s)
    {
      var kept := KeepEvent(events[i], s);
      BasicPitchStep(events, i, s);
      assert notes + (kept + BasicPitchNotes(events[i + 1..], s)) == (notes + kept) + BasicPitchNotes(events[i + 1..], s);
      notes := notes + kept;
      i := i + 1;
    }
    assert events[i..] == [];
  }

  // ---------------------------------------------------------------------------
  // CREPE state machine

  /** The range mask: out-of-range MIDI numbers become 0. */
  function MaskPitch(midi: int, s: Settings): (r: int)
    ensures r == 0 || (s.minPitch <= r <= s.maxPitch && r == midi)
  {
    if s.minPitch <= midi <= s.maxPitch then midi else 0
  }

  /** The open `current_note`: pitch, start and the confidence of its first
      frame. */
  datatype OpenNote = OpenNote(pitch: int, start: real, confidence: real)

  /** Closing the open note at time t: emitted only when long enough. */
  function Close(o: OpenNote, t: real, s: Settings): (r: seq<MelNote>)
    ensures |r| <= 1
    ensures r != [] <==> t - o.start >= s.minNoteDuration
    ensures r != [] ==> r[0].pitchMidi == o.pitch && r[0].start == o.start && r[0].end == t
                        && r[0].duration == t - o.start && r[0].confidence == o.confidence
                        && r[0].velocity == Trunc(o.confidence * 127.0) && r[0].detectionMethod == "crepe"
  {
    if t - o.start >= s.minNoteDuration then
      [MelNote(o.pitch, MidiToNoteName(o.pitch), o.start, t, t - o.start, Trunc(o.confidence * 127.0), o.confidence, "crepe")]
    else []
  }

  predicate ValidFrame(midi: int, conf: real, s: Settings) {
    midi > 0 && conf >= s.minConfidence
  }

  /** The notes from frame i on with `cur` open. */
  function CrepeFrom(times: seq<real>, midi: seq<int>, confs: seq<real>, s: Settings, i: nat, cur: Option<OpenNote>): seq<MelNote>
    requires |times| == |midi| == |confs|
    requires i <= |times|
    requires cur.Some? ==> 0 < i
    decreases |times| - i
  {
    if i == |times| then (if cur.Some? then Close(cur.value, times[|times| - 1], s) else [])
    else if ValidFrame(midi[i], confs[i], s) then
      var started := Some(OpenNote(midi[i], times[i], confs[i]));
      if cur.None? then CrepeFrom(times, midi, confs, s, i + 1, started)
      else if midi[i] != cur.value.pitch then Close(cur.value, times[i], s) + CrepeFrom(times, midi, confs, s, i + 1, started)
      else CrepeFrom(times, midi, confs, s, i + 1, cur)
    else (if cur.Some? then Close(cur.value, times[i], s) else []) + CrepeFrom(times, midi, confs, s, i + 1, None)
  }

  predicate NonDecreasing(times: seq<real>) {
    forall i, j :: 0 <= i < j < |times| ==> times[i] <= times[j]
  }

  /** Notes in time order that never overlap: each ends no later than the
      next starts, and none ends before it starts. */
  predicate Sequential(notes: seq<MelNote>) {
    (forall k :: 0 <= k < |notes| ==> notes[k].start <= notes[k].end)
    && (forall k :: 0 <= k < |notes| - 1 ==> notes[k].end <= notes[k + 1].start)
  }

  predicate StartsFrom(notes: seq<MelNote>, lb: real) {
    forall k :: 0 <= k < |notes| ==> lb <= notes[k].start
  }

  lemma SequentialAppend(a: seq<MelNote>, b: seq<MelNote>, t: real)
    requires Sequential(a) && Sequential(b) && StartsFrom(b, t)
    requires forall k :: 0 <= k < |a| ==> a[k].end <= t
    ensures Sequential(a + b)
  {
  }

  /** A note the state machine emits: long enough, from a voiced confident
      frame, with velocity `int(confidence * 127)`, pitch within the range. */
  predicate CrepeNoteOk(n: MelNote, s: Settings) {
    s.minPitch <= n.pitchMidi <= s.maxPitch && n.duration >= s.minNoteDuration
    && n.confidence >= s.minConfidence && n.velocity == Trunc(n.confidence * 127.0)
  }

  /** With non-decreasing frame times, the state machine emits sequential
      notes, none starting before a bound below the open note and the
      remaining frames. */
  lemma {:induction false} CrepeFromSequential(times: seq<real>, midi: seq<int>, confs: seq<real>, s: Settings,
                                               i: nat, cur: Option<OpenNote>, lb: real)
    requires |times| == |midi| == |confs| && i <= |times| && (cur.Some? ==> 0 < i)
    requires NonDecreasing(times)
    requires cur.Some? ==> lb <= cur.value.start <= times[i - 1]
    requires i < |times| ==> lb <= times[i]
    ensures Sequential(CrepeFrom(times, midi, confs, s, i, cur))
    ensures StartsFrom(CrepeFrom(times, midi, confs, s, i, cur), lb)
    decreases |times| - i
  {
    if i < |times| {
      var t := times[i];
      if i + 1 < |times| {
        assert t <= times[i + 1];
      }
      if cur.Some? {
        assert times[i - 1] <= t;
      }
      if ValidFrame(midi[i], confs[i], s) {
        var started := Some(OpenNote(midi[i], t, confs[i]));
        if cur.None? {
          CrepeFromSequential(times, midi, confs, s, i + 1, started, lb);
        } else if midi[i] != cur.value.pitch {
          CrepeFromSequential(times, midi, confs, s, i + 1, started, t);
          SequentialAppend(Close(cur.value, t, s), CrepeFrom(times, midi, confs, s, i + 1, started), t);
        } else {
          CrepeFromSequential(times, midi, confs, s, i + 1, cur, lb);
        }
      } else {
        CrepeFromSequential(times, midi, confs, s, i + 1, None, t);
        var closed := if cur.Some? then Close(cur.value, t, s) else [];
        SequentialAppend(closed, CrepeFrom(times, midi, confs, s, i + 1, None), t);
      }
    }
  }

  /** Every emitted note meets CrepeNoteOk when the pitches are already
      masked to the range. */
  lemma {:induction false} CrepeFromNotesOk(times: seq<real>, midi: seq<int>, confs: seq<real>, s: Settings,
                                            i: nat, cur: Option<OpenNote>)
    requires |times| == |midi| == |confs| && i <= |times| && (cur.Some? ==> 0 < i)
    requires forall k :: 0 <= k < |midi| ==> midi[k] == 0 || s.minPitch <= midi[k] <= s.maxPitch
    requires cur.Some? ==> s.minPitch <= cur.value.pitch <= s.maxPitch && cur.value.confidence >= s.minConfidence
    ensures forall n :: n in CrepeFrom(times, midi, confs, s, i, cur) ==> CrepeNoteOk(n, s)
    decreases |times| - i
  {
    if i < |times| {
      var started := Some(OpenNote(midi[i], times[i], confs[i]));
      if ValidFrame(midi[i], confs[i], s) {
        if cur.None? || midi[i] != cur.value.pitch {
          CrepeFromNotesOk(times, midi, confs, s, i + 1, started);
        } else {
          CrepeFromNotesOk(times, midi, confs, s, i + 1, cur);
        }
      } else {
        CrepeFromNotesOk(times, midi, confs, s, i + 1, None);
      }
    }
  }

  /** The CREPE notes of a frame track, the range mask applied first. */
  function CrepeNotes(times: seq<real>, midi: seq<int>, confs: seq<real>, s: Settings): seq<MelNote>
    requires |times| == |midi| == |confs|
  {
    CrepeFrom(times, seq(|midi|, k requires 0 <= k < |midi| => MaskPitch(midi[k], s)), confs, s, 0, None)
  }

  /** The emitted CREPE notes are sequential, within the pitch range, long
      enough, confident enough, with velocity `int(conf * 127)`. */
  lemma CrepeNotesSpec(times: seq<real>, midi: seq<int>, confs: seq<real>, s: Settings)
    requires |times| == |midi| == |confs| && NonDecreasing(times)
    ensures Sequential(CrepeNotes(times, midi, confs, s))
    ensures forall n :: n in CrepeNotes(times, midi, confs, s) ==> CrepeNoteOk(n, s)
  {
    var masked := seq(|midi|, k requires 0 <= k < |midi| => MaskPitch(midi[k], s));
    var lb := if |times| > 0 then times[0] else 0.0;
    CrepeFromSequential(times, masked, confs, s, 0, None, lb);
    CrepeFromNotesOk(times, masked, confs, s, 0, None);
  }

  /** The source's frame loop with its mutable `current_note`. */
  method CrepeLoop(times: seq<real>, midiRaw: seq<int>, confs: seq<real>, s: Settings) returns (notes: seq<MelNote>)
    requires |times| == |midiRaw| == |confs|
    ensures notes == CrepeNotes(times, midiRaw, confs, s)
  {
    var midi := seq(|midiRaw|, k requires 0 <= k < |midiRaw| => MaskPitch(midiRaw[k], s));
    notes := [];
    var current: Option<OpenNote> := None;
    var i := 0;
    while i < |times|
      invariant 0 <= i <= |times|
      invariant current.Some? ==> 0 < i
      invariant notes + CrepeFrom(times, midi, confs, s, i, current) == CrepeNotes(times, midiRaw, confs, s)
    {
      var t := times[i];
      var midiNote := midi[i];
      var conf := confs[i];
      if ValidFrame(midiNote, conf, s) {
        if current.None? {
          CrepeStart(notes, times, midi, confs, s, i);
          current := Some(OpenNote(midiNote, t, conf));
        } else if midiNote != current.value.pitch {
          CrepeSwitch(notes, times, midi, confs, s, i, current.value);
          notes := notes + Close(current.value, t, s);
          current := Some(OpenNote(midiNote, t, conf));
        } else {
          CrepeHold(notes, times, midi, confs, s, i, current.value);
        }
      } else {
        if current.Some? {
          CrepeEnd(notes, times, midi, confs, s, i, current.value);
          notes := notes + Close(current.value, t, s);
          current := None;
        } else {
          CrepeIdle(notes, times, midi, confs, s, i);
        }
      }
      i := i + 1;
    }
    if current.Some? {
      notes := notes + Close(current.value, times[|times| - 1], s);
    }
  }

  // The loop's five steps: a note starts, the pitch switches, the note is
  // held, the note ends on an invalid frame, or nothing is open.

  lemma CrepeStart(notes: seq<MelNote>, times: seq<real>, midi: seq<int>, confs: seq<real>, s: Settings, i: nat)
    requires |times| == |midi| == |confs| && i < |times| && ValidFrame(midi[i], confs[i], s)
    ensures notes + CrepeFrom(times, midi, confs, s, i, None) ==
            notes + CrepeFrom(times, midi, confs, s, i + 1, Some(OpenNote(midi[i], times[i], confs[i])))
  {
  }

  lemma CrepeSwitch(notes: seq<MelNote>, times: seq<real>, midi: seq<int>, confs: seq<real>, s: Settings, i: nat, o: OpenNote)
    requires |times| == |midi| == |confs| && 0 < i < |times| && ValidFrame(midi[i], confs[i], s) && midi[i] != o.pitch
    ensures notes + CrepeFrom(times, midi, confs, s, i, Some(o)) ==
            (notes + Close(o, times[i], s)) + CrepeFrom(times, midi, confs, s, i + 1, Some(OpenNote(midi[i], times[i], confs[i])))
  {
    var rest := CrepeFrom(times, midi, confs, s, i + 1, Some(OpenNote(midi[i], times[i], confs[i])));
    ConcatAssoc(notes, Close(o, times[i], s), rest);
  }

  lemma CrepeHold(notes: seq<MelNote>, times: seq<real>, midi: seq<int>, confs: seq<real>, s: Settings, i: nat, o: OpenNote)
    requires |times| == |midi| == |confs| && 0 < i < |times| && ValidFrame(midi[i], confs[i], s) && midi[i] == o.pitch
    ensures notes + CrepeFrom(times, midi, confs, s, i, Some(o)) == notes + CrepeFrom(times, midi, confs, s, i + 1, Some(o))
  {
  }

  lemma CrepeEnd(notes: seq<MelNote>, times: seq<real>, midi: seq<int>, confs: seq<real>, s: Settings, i: nat, o: OpenNote)
    requires |times| == |midi| == |confs| && 0 < i < |times| && !ValidFrame(midi[i], confs[i], s)
    ensures notes + CrepeFrom(times, midi, confs, s, i, Some(o)) ==
            (notes + Close(o, times[i], s)) + CrepeFrom(times, midi, confs, s, i + 1, None)
  {
    var rest := CrepeFrom(times, midi, confs, s, i + 1, None);
    var closed := Close(o, times[i], s);
    assert CrepeFrom(times, midi, confs, s, i, Some(o)) == closed + rest;
    ConcatAssoc(notes, closed, rest);
  }

  lemma CrepeIdle(notes: seq<MelNote>, times: seq<real>, midi: seq<int>, confs: seq<real>, s: Settings, i: nat)
    requires |times| == |midi| == |confs| && i < |times| && !ValidFrame(midi[i], confs[i], s)
    ensures notes + CrepeFrom(times, midi, confs, s, i, None) == notes + CrepeFrom(times, midi, confs, s, i + 1, None)
  {
    var rest := CrepeFrom(times, midi, confs, s, i + 1, None);
    assert [] + rest == rest;
  }


  // ---------------------------------------------------------------------------
  // `_filter_notes_by_duration`

  function FilterByDuration(notes: seq<MelNote>, minDuration: real): (r: seq<MelNote>)
    ensures |r| <= |notes|
    ensures forall n :: n in r <==> n in notes && n.duration >= minDuration
  {
    if notes == [] then []
    else (if notes[0].duration >= minDuration then [notes[0]] else []) + FilterByDuration(notes[1..], minDuration)
  }

  /** Filtering twice filters nothing more. */
  lemma {:induction false} FilterIdempotent(notes: seq<MelNote>, minDuration: real)
    ensures FilterByDuration(FilterByDuration(notes, minDuration), minDuration) == FilterByDuration(notes, minDuration)
  {
    if notes != [] {
      FilterIdempotent(notes[1..], minDuration);
      var head := if notes[0].duration >= minDuration then [notes[0]] else [];
      FilterAppend(head, FilterByDuration(notes[1..], minDuration), minDuration);
    }
  }

  lemma {:induction false} FilterAppend(a: seq<MelNote>, b: seq<MelNote>, minDuration: real)
    ensures FilterByDuration(a + b, minDuration) == FilterByDuration(a, minDuration) + FilterByDuration(b, minDuration)
  {
    if a == [] {
      assert a + b == b;
    } else {
      assert (a + b)[1..] == a[1..] + b;
      FilterAppend(a[1..], b, minDuration);
    }
  }

  // ---------------------------------------------------------------------------
  // `_merge_similar_notes`

  const MaxGap: real := 0.1

  predicate SameNote(cur: MelNote, next: MelNote, maxGap: real) {
    cur.pitchMidi == next.pitchMidi && AbsR(next.start - cur.end) < maxGap
  }

  /** `next` folded into the running note: its end, the recomputed
      duration, the mean confidence and the floor-mean velocity. */
  function Absorb(cur: MelNote, next: MelNote): MelNote {
    cur.(end := next.end, duration := next.end - cur.start,
         confidence := (cur.confidence + next.confidence) / 2.0,
         velocity := (cur.velocity + next.velocity) / 2)
  }

  /** The running note `cur` followed by the notes still to visit. */
  function MergeFrom(cur: MelNote, rest: seq<MelNote>, maxGap: real): (r: seq<MelNote>)
    ensures 1 <= |r| <= |rest| + 1
    ensures r[0].pitchMidi == cur.pitchMidi && r[0].start == cur.start
    decreases |rest|
  {
    if rest == [] then [cur]
    else if SameNote(cur, rest[0], maxGap) then MergeFrom(Absorb(cur, rest[0]), rest[1..], maxGap)
    else [cur] + MergeFrom(rest[0], rest[1..], maxGap)
  }

  function MergeNotes(notes: seq<MelNote>, maxGap: real): (r: seq<MelNote>)
    ensures |r| <= |notes|
    ensures notes == [] <==> r == []
  {
    if notes == [] then [] else MergeFrom(notes[0], notes[1..], maxGap)
  }

  /** Without a similar neighbour pair the merge changes nothing. */
  lemma {:induction false} MergeWithoutNeighbours(cur: MelNote, rest: seq<MelNote>, maxGap: real)
    requires |rest| > 0 ==> !SameNote(cur, rest[0], maxGap)
    requires forall k :: 0 <= k < |rest| - 1 ==> !SameNote(rest[k], rest[k + 1], maxGap)
    ensures MergeFrom(cur, rest, maxGap) == [cur] + rest
    decreases |rest|
  {
    if rest != [] {
      MergeWithoutNeighbours(rest[0], rest[1..], maxGap);
      assert [rest[0]] + rest[1..] == rest;
    }
  }

  /** Merging never changes the pitch sequence's runs: every merged note
      starts where an input note starts and keeps that note's pitch. */
  lemma {:induction false} MergeFromOrigins(cur: MelNote, rest: seq<MelNote>, maxGap: real)
    ensures forall n :: n in MergeFrom(cur, rest, maxGap) ==>
              (n.start == cur.start && n.pitchMidi == cur.pitchMidi)
              || exists k :: 0 <= k < |rest| && rest[k].start == n.start && rest[k].pitchMidi == n.pitchMidi
    decreases |rest|
  {
    if rest != [] {
      if SameNote(cur, rest[0], maxGap) {
        MergeFromOrigins(Absorb(cur, rest[0]), rest[1..], maxGap);
      } else {
        MergeFromOrigins(rest[0], rest[1..], maxGap);
      }
      forall n | n in MergeFrom(cur, rest, maxGap) && !(n.start == cur.start && n.pitchMidi == cur.pitchMidi)
                 && !(n.start == rest[0].start && n.pitchMidi == rest[0].pitchMidi)
        ensures exists k :: 0 <= k < |rest| && rest[k].start == n.start && rest[k].pitchMidi == n.pitchMidi
      {
        var k :| 0 <= k < |rest[1..]| && rest[1..][k].start == n.start && rest[1..][k].pitchMidi == n.pitchMidi;
        assert rest[k + 1] == rest[1..][k];
      }
    }
  }

  lemma MergeFromStep(cur: MelNote, next: MelNote, rest: seq<MelNote>, maxGap: real)
    ensures MergeFrom(cur, [next] + rest, maxGap) ==
            if SameNote(cur, next, maxGap) then MergeFrom(Absorb(cur, next), rest, maxGap)
            else [cur] + MergeFrom(next, rest, maxGap)
  {
    assert ([next] + rest)[0] == next && ([next] + rest)[1..] == rest;
  }

  /** The source's loop with its `current_note` accumulator. */
  method MergeSimilarNotes(notes: seq<MelNote>, maxGap: real) returns (merged: seq<MelNote>)
    ensures merged == MergeNotes(notes, maxGap)
  {
    if notes == [] {
      return notes;
    }
    merged := [];
    var current := notes[0];
    var i := 1;
    while i < |notes|
      invariant 1 <= i <= |notes|
      invariant merged + MergeFrom(current, notes[i..], maxGap) == MergeNotes(notes, maxGap)
    {
      var next := notes[i];
      if SameNote(current, next, maxGap) {
        AbsorbStep(merged, current, notes, i, maxGap);
        current := Absorb(current, next);
      } else {
        KeepStep(merged, current, notes, i, maxGap);
        merged := merged + [current];
        current := next;
      }
      i := i + 1;
    }
    assert notes[i..] == [];
    merged := merged + [current];
  }

  /** The loop's step when the next note continues the running one. */
  lemma AbsorbStep(merged: seq<MelNote>, cur: MelNote, notes: seq<MelNote>, i: nat, maxGap: real)
    requires i < |notes| && SameNote(cur, notes[i], maxGap)
    ensures merged + MergeFrom(cur, notes[i..], maxGap) ==
            merged + MergeFrom(Absorb(cur, notes[i]), notes[i + 1..], maxGap)
  {
    assert notes[i..] == [notes[i]] + notes[i + 1..];
    MergeFromStep(cur, notes[i], notes[i + 1..], maxGap);
  }

  /** The loop's step when the next note starts a new run. */
  lemma KeepStep(merged: seq<MelNote>, cur: MelNote, notes: seq<MelNote>, i: nat, maxGap: real)
    requires i < |notes| && !SameNote(cur, notes[i], maxGap)
    ensures merged + MergeFrom(cur, notes[i..], maxGap) ==
            (merged + [cur]) + MergeFrom(notes[i], notes[i + 1..], maxGap)
  {
    assert notes[i..] == [notes[i]] + notes[i + 1..];
    MergeFromStep(cur, notes[i], notes[i + 1..], maxGap);
  }


  // ---------------------------------------------------------------------------
  // `notes.sort(key=start)`

  predicate SortedByStart(notes: seq<MelNote>) {
    forall i, j :: 0 <= i < j < |notes| ==> notes[i].start <= notes[j].start
  }

  /** Insert x after every note that does not start later than it. */
  function InsertByStart(x: MelNote, s: seq<MelNote>): (r: seq<MelNote>)
    requires SortedByStart(s)
    ensures SortedByStart(r)
    ensures multiset(r) == multiset(s) + multiset{x}
  {
    if s == [] then [x]
    else if s[0].start > x.start then [x] + s
    else
      var rest := InsertByStart(x, s[1..]);
      assert s == [s[0]] + s[1..];
      assert forall n :: n in rest ==> s[0].start <= n.start by {
        forall n | n in rest ensures s[0].start <= n.start {
          assert n in multiset(rest);
        }
      }
      [s[0]] + rest
  }

  /** A stable insertion sort by start time, as Python's `list.sort`. */
  function SortByStart(notes: seq<MelNote>): (r: seq<MelNote>)
    ensures SortedByStart(r)
    ensures multiset(r) == multiset(notes)
    ensures |r| == |notes|
  {
    if notes == [] then []
    else
      var init := notes[..|notes| - 1];
      assert notes == init + [notes[|notes| - 1]];
      var r := InsertByStart(notes[|notes| - 1], SortByStart(init));
      assert |r| == |multiset(r)|;
      r
  }

  /** A note starting no earlier than every other goes to the end. */
  lemma {:induction false} InsertLast(x: MelNote, s: seq<MelNote>)
    requires SortedByStart(s) && (forall n :: n in s ==> n.start <= x.start)
    ensures InsertByStart(x, s) == s + [x]
  {
    if s != [] {
      InsertLast(x, s[1..]);
      assert s == [s[0]] + s[1..];
    }
  }

  /** Sorting notes already in start order changes nothing. */
  lemma {:induction false} SortSortedNoop(notes: seq<MelNote>)
    requires SortedByStart(notes)
    ensures SortByStart(notes) == notes
  {
    if notes != [] {
      var init := notes[..|notes| - 1];
      SortSortedNoop(init);
      InsertLast(notes[|notes| - 1], init);
      assert init + [notes[|notes| - 1]] == notes;
    }
  }

  // ---------------------------------------------------------------------------
  // `extract`

  /** Duration filter, then merge, then sort: the notes come out ordered by
      start, no more of them than survive the filter, and none at all exactly
      when no input note is long enough. */
  method Extract(raw: seq<MelNote>, s: Settings) returns (notes: seq<MelNote>)
    ensures notes == SortByStart(MergeNotes(FilterByDuration(raw, s.minNoteDuration), MaxGap))
    ensures SortedByStart(notes)
    ensures |notes| <= |FilterByDuration(raw, s.minNoteDuration)|
    ensures (exists n :: n in raw && n.duration >= s.minNoteDuration) <==> notes != []
  {
    var filtered := FilterByDuration(raw, s.minNoteDuration);
    var merged := MergeSimilarNotes(filtered, MaxGap);
    notes := SortByStart(merged);
    if exists n :: n in raw && n.duration >= s.minNoteDuration {
      var n :| n in raw && n.duration >= s.minNoteDuration;
      assert n in filtered;
    }
  }
}
