// The melody editor's list logic (`ui/melody_editor.py`): the in-place
// edits of the note list (add, delete, move, the short-note filter and the
// same-pitch merge), the pitch list it exports and imports, and the
// statistics it shows.

module MelodyEditor {
  import opened Common
  import opened Song
  import opened EditorList
  import Melody

  // ---------------------------------------------------------------------------
  // Filtering

  /** Shortest note the filter keeps, in seconds. */
  const MinDuration: real := 0.1

  predicate LongEnough(n: Note) {
    n.end - n.start >= MinDuration
  }

  /** The notes at least `MinDuration` long, in their order. */
  function FilterShort(ns: seq<Note>): (r: seq<Note>)
    ensures |r| <= |ns|
    ensures forall k :: 0 <= k < |r| ==> LongEnough(r[k])
    ensures (forall k :: 0 <= k < |ns| ==> LongEnough(ns[k])) ==> r == ns
  {
    if ns == [] then []
    else (if LongEnough(ns[0]) then [ns[0]] else []) + FilterShort(ns[1..])
  }

  /** Number of notes shorter than `MinDuration`. */
  function ShortCount(ns: seq<Note>): (n: nat)
  {
    if ns == [] then 0 else (if LongEnough(ns[0]) then 0 else 1) + ShortCount(ns[1..])
  }

  /** The filter removes exactly the short notes, and filtering its result
      again changes nothing. */
  lemma {:induction false} FilterShortRemoves(ns: seq<Note>)
    ensures |ns| - |FilterShort(ns)| == ShortCount(ns)
    ensures FilterShort(FilterShort(ns)) == FilterShort(ns)
  {
    if ns != [] {
      FilterShortRemoves(ns[1..]);
    }
  }

  /** A note is kept exactly when it is in the input and long enough. */
  lemma {:induction false} FilterShortMembers(ns: seq<Note>, n: Note)
    ensures n in FilterShort(ns) <==> n in ns && LongEnough(n)
  {
    if ns != [] {
      FilterShortMembers(ns[1..], n);
      assert ns == [ns[0]] + ns[1..];
    }
  }

  // ---------------------------------------------------------------------------
  // Merging

  /** Largest gap, in seconds, between a note's end and the next note's start
      for the two to merge. */
  const MaxGap: real := 0.1

  /** The next note continues the current one: same pitch, and the current
      end lies within `MaxGap` of the next start, in either direction. */
  predicate Joins(cur: Note, next: Note) {
    cur.pitchMidi == next.pitchMidi && AbsR(cur.end - next.start) < MaxGap
  }

  /** No note continues into its neighbour. */
  predicate NoJoins(ns: seq<Note>) {
    forall j, k | 0 <= j < |ns| && 0 <= k < |ns| && k == j + 1 :: !Joins(ns[j], ns[k])
  }

  /** The merge walk: a note absorbing its continuation takes the
      continuation's end and is compared again with the note after it. */
  function CollapseNotes(ns: seq<Note>): (r: seq<Note>)
    ensures |r| <= |ns|
    ensures ns != [] ==> r != [] && r[0].pitchMidi == ns[0].pitchMidi && r[0].start == ns[0].start
    ensures NoJoins(r)
    decreases |ns|
  {
    if |ns| < 2 then ns
    else if Joins(ns[0], ns[1]) then CollapseNotes([ns[0].(end := ns[1].end)] + ns[2..])
    else [ns[0]] + CollapseNotes(ns[1..])
  }

  /** The merged list starts with the first note, stretched to some end, and
      ends where the last note ends. */
  lemma {:induction false} CollapseNotesEnds(ns: seq<Note>)
    requires ns != []
    ensures CollapseNotes(ns)[0] == ns[0].(end := CollapseNotes(ns)[0].end)
    ensures CollapseNotes(ns)[|CollapseNotes(ns)| - 1].end == ns[|ns| - 1].end
    decreases |ns|
  {
    if |ns| >= 2 {
      if Joins(ns[0], ns[1]) {
        var m := [ns[0].(end := ns[1].end)] + ns[2..];
        CollapseNotesEnds(m);
        assert m[|m| - 1].end == ns[|ns| - 1].end;
      } else {
        CollapseNotesEnds(ns[1..]);
      }
    }
  }

  /** A list with no continuing neighbours is left as it is, so merging is
      idempotent. */
  lemma {:induction false} CollapseNotesNoJoins(ns: seq<Note>)
    requires NoJoins(ns)
    ensures CollapseNotes(ns) == ns
    decreases |ns|
  {
    if |ns| >= 2 {
      CollapseNotesNoJoins(ns[1..]);
      assert [ns[0]] + ns[1..] == ns;
    }
  }

  lemma CollapseNotesIdempotent(ns: seq<Note>)
    ensures CollapseNotes(CollapseNotes(ns)) == CollapseNotes(ns)
  {
    CollapseNotesNoJoins(CollapseNotes(ns));
  }

  /** The pitches of the notes, in order. */
  function Pitches(ns: seq<Note>): (r: seq<int>)
    ensures |r| == |ns| && forall k :: 0 <= k < |ns| ==> r[k] == ns[k].pitchMidi
  {
    seq(|ns|, k requires 0 <= k < |ns| => ns[k].pitchMidi)
  }

  /** Merging only removes notes whose pitch repeats the one before: every
      removed note leaves a pitch repeat behind, so notes of a melody whose
      neighbouring pitches all differ are never merged. */
  lemma {:induction false} CollapseNotesDistinctPitches(ns: seq<Note>)
    requires forall j, k | 0 <= j < |ns| && 0 <= k < |ns| && k == j + 1 :: ns[j].pitchMidi != ns[k].pitchMidi
    ensures CollapseNotes(ns) == ns
  {
    CollapseNotesNoJoins(ns);
  }

  /** One pass of the merge loop that absorbs the next note leaves the merged
      result unchanged. */
  lemma MergeStep(s: seq<Note>, i: nat)
    requires i + 1 < |s| && Joins(s[i], s[i + 1])
    ensures var t := Delete(s[i := s[i].(end := s[i + 1].end)], i + 1);
            |t| == |s| - 1 && t[..i] + CollapseNotes(t[i..]) == s[..i] + CollapseNotes(s[i..])
  {
    var t := Delete(s[i := s[i].(end := s[i + 1].end)], i + 1);
    var tail := s[i..];
    assert tail[0] == s[i] && tail[1] == s[i + 1];
    assert t[..i] == s[..i];
    assert t[i..] == [s[i].(end := s[i + 1].end)] + tail[2..];
  }

  /** One pass of the merge loop that moves on leaves the merged result
      unchanged. */
  lemma KeepStep(s: seq<Note>, i: nat)
    requires i + 1 < |s| && !Joins(s[i], s[i + 1])
    ensures s[..i] + CollapseNotes(s[i..]) == s[..i + 1] + CollapseNotes(s[i + 1..])
  {
    var tail := s[i..];
    assert tail[0] == s[i] && tail[1] == s[i + 1];
    assert CollapseNotes(tail) == [s[i]] + CollapseNotes(tail[1..]);
    assert s[..i + 1] == s[..i] + [s[i]];
    assert s[i + 1..] == tail[1..];
  }

  /** When the merge loop stops at the last note, the list is merged. */
  lemma LastStep(s: seq<Note>, i: nat)
    requires i + 1 == |s|
    ensures s[..i] + CollapseNotes(s[i..]) == s
  {
    assert s[i..] == [s[i]];
  }

  // ---------------------------------------------------------------------------
  // Pitch lists

  /** Note `i` of an imported melody: half a second per note, velocity 80,
      confidence 0.5. */
  function ImportedNote(i: nat, pitch: int): (n: Note)
    ensures n.pitchMidi == pitch && n.pitchName == Some(Melody.MidiToNoteName(pitch))
    ensures n.start == 0.5 * i as real && n.end == n.start + 0.5
    ensures n.velocity == Some(80) && n.confidence == Some(0.5) && n.detectionMethod == Some("imported")
  {
    Note(pitch, 0.5 * i as real, 0.5 * i as real + 0.5, Some(Melody.MidiToNoteName(pitch)), None,
         Some(80), Some(0.5), Some("imported"))
  }

  /** `import_melody_midi`: one note per pitch. */
  function ImportPitches(ps: seq<int>): (r: seq<Note>)
    ensures |r| == |ps| && forall i :: 0 <= i < |ps| ==> r[i] == ImportedNote(i, ps[i])
  {
    seq(|ps|, i requires 0 <= i < |ps| => ImportedNote(i, ps[i]))
  }

  /** Exporting an imported melody gives back its pitches. */
  lemma ExportImport(ps: seq<int>)
    ensures Pitches(ImportPitches(ps)) == ps
  {
  }

  /** Imported notes follow each other without gaps or overlaps. */
  lemma ImportContiguous(ps: seq<int>, i: nat)
    requires i + 1 < |ps|
    ensures ImportPitches(ps)[i].end == ImportPitches(ps)[i + 1].start
  {
  }

  // ---------------------------------------------------------------------------
  // Statistics

  function MaxPitch(ns: seq<Note>): (m: int)
    requires ns != []
    ensures forall k :: 0 <= k < |ns| ==> ns[k].pitchMidi <= m
    ensures exists k :: 0 <= k < |ns| && ns[k].pitchMidi == m
  {
    if |ns| == 1 then ns[0].pitchMidi
    else
      var r := MaxPitch(ns[1..]);
      assert forall k :: 1 <= k < |ns| ==> ns[k] == ns[1..][k - 1];
      if ns[0].pitchMidi >= r then ns[0].pitchMidi else r
  }

  function MinPitch(ns: seq<Note>): (m: int)
    requires ns != []
    ensures forall k :: 0 <= k < |ns| ==> m <= ns[k].pitchMidi
    ensures exists k :: 0 <= k < |ns| && ns[k].pitchMidi == m
  {
    if |ns| == 1 then ns[0].pitchMidi
    else
      var r := MinPitch(ns[1..]);
      assert forall k :: 1 <= k < |ns| ==> ns[k] == ns[1..][k - 1];
      if ns[0].pitchMidi <= r then ns[0].pitchMidi else r
  }

  function TotalDuration(ns: seq<Note>): (d: real)
  {
    if ns == [] then 0.0 else (ns[0].end - ns[0].start) + TotalDuration(ns[1..])
  }

  datatype MelodyStats = MelodyStats(total: nat, pitchRange: int, averageDuration: real)

  /** The statistics panel: note count, highest minus lowest pitch, and the
      mean length; an empty list shows zeros. */
  function Statistics(ns: seq<Note>): (st: MelodyStats)
    ensures st.total == |ns| && st.pitchRange >= 0
    ensures ns == [] ==> st.pitchRange == 0 && st.averageDuration == 0.0
    ensures ns != [] ==> st.averageDuration * |ns| as real == TotalDuration(ns)
    ensures forall j, k :: 0 <= j < |ns| && 0 <= k < |ns| ==> ns[j].pitchMidi - ns[k].pitchMidi <= st.pitchRange
    ensures ns != [] ==> exists j, k :: 0 <= j < |ns| && 0 <= k < |ns| && ns[j].pitchMidi - ns[k].pitchMidi == st.pitchRange
  {
    if ns == [] then MelodyStats(0, 0, 0.0)
    else
      var hi, lo := MaxPitch(ns), MinPitch(ns);
      ghost var j :| 0 <= j < |ns| && ns[j].pitchMidi == hi;
      ghost var k :| 0 <= k < |ns| && ns[k].pitchMidi == lo;
      assert ns[j].pitchMidi - ns[k].pitchMidi == hi - lo;
      MelodyStats(|ns|, hi - lo, TotalDuration(ns) / |ns| as real)
  }

  /** Every note of the same pitch gives a range of zero. */
  lemma MonotoneRange(ns: seq<Note>, p: int)
    requires ns != [] && forall k :: 0 <= k < |ns| ==> ns[k].pitchMidi == p
    ensures Statistics(ns).pitchRange == 0
  {
    var st := Statistics(ns);
    var j, k :| 0 <= j < |ns| && 0 <= k < |ns| && ns[j].pitchMidi - ns[k].pitchMidi == st.pitchRange;
  }

  // ---------------------------------------------------------------------------
  // The editor

  /** The note a click on "add" creates from the current controls: its name
      from the pitch, confidence 0.5, method "manual". */
  function NewNote(pitch: int, velocity: int, start: real, end: real): (n: Note)
    ensures n.pitchMidi == pitch && n.pitchName == Some(Melody.MidiToNoteName(pitch))
    ensures n.start == start && n.end == end && n.velocity == Some(velocity)
    ensures n.confidence == Some(0.5) && n.detectionMethod == Some("manual")
  {
    Note(pitch, start, end, Some(Melody.MidiToNoteName(pitch)), None, Some(velocity), Some(0.5), Some("manual"))
  }

  /** The editor's note list. Rows are table rows: -1 when nothing is
      selected, otherwise an index into the list. */
  class Editor {
    var notes: seq<Note>

    constructor ()
      ensures notes == []
    {
      notes := [];
    }

    /** `add_note`: insert at the selected row, or append when none is. */
    method AddNote(row: int, pitch: int, velocity: int, start: real, end: real)
      modifies this
      ensures notes == Insert(old(notes), if row < 0 then |old(notes)| else row, NewNote(pitch, velocity, start, end))
    {
      var at := if row < 0 then |notes| else row;
      notes := Insert(notes, at, NewNote(pitch, velocity, start, end));
    }

    /** `delete_note`. */
    method DeleteNote(row: int)
      modifies this
      ensures notes == Delete(old(notes), row)
    {
      notes := Delete(notes, row);
    }

    /** `move_note_up`. */
    method MoveNoteUp(row: int)
      requires row < |notes|
      modifies this
      ensures notes == MoveUp(old(notes), row)
    {
      notes := MoveUp(notes, row);
    }

    /** `move_note_down`. */
    method MoveNoteDown(row: int)
      requires row >= -1
      modifies this
      ensures notes == MoveDown(old(notes), row)
    {
      notes := MoveDown(notes, row);
    }

    /** `filter_short_notes`: returns the number removed. */
    method FilterShortNotes() returns (removed: nat)
      modifies this
      ensures notes == FilterShort(old(notes))
      ensures removed == ShortCount(old(notes))
    {
      if notes == [] {
        return 0;
      }
      FilterShortRemoves(notes);
      var before := |notes|;
      notes := FilterShort(notes);
      removed := before - |notes|;
    }

    /** `merge_similar_notes`: walks the list, absorbing each continuation
        into the current note. Returns the number merged. */
    method MergeSimilarNotes() returns (count: nat)
      modifies this
      ensures notes == CollapseNotes(old(notes))
      ensures count == |old(notes)| - |notes|
    {
      count := 0;
      if |notes| < 2 {
        return;
      }
      ghost var orig := notes;
      var i := 0;
      while i < |notes| - 1
        invariant 0 <= i < |notes|
        invariant notes[..i] + CollapseNotes(notes[i..]) == CollapseNotes(orig)
        invariant count + |notes| == |orig|
        decreases |notes| - i
      {
        if Joins(notes[i], notes[i + 1]) {
          MergeStep(notes, i);
          notes := notes[i := notes[i].(end := notes[i + 1].end)];
          notes := Delete(notes, i + 1);
          count := count + 1;
        } else {
          KeepStep(notes, i);
          i := i + 1;
        }
      }
      LastStep(notes, i);
    }

    /** `get_notes`: a copy of the list. */
    method GetNotes() returns (r: seq<Note>)
      ensures r == notes
    {
      r := notes;
    }

    /** `set_notes`. */
    method SetNotes(ns: seq<Note>)
      modifies this
      ensures notes == ns
    {
      notes := ns;
    }

    /** `export_melody_midi`: the pitches in order. */
    method ExportMelody() returns (ps: seq<int>)
      ensures ps == Pitches(notes)
    {
      ps := [];
      var i := 0;
      while i < |notes|
        invariant i <= |notes| && ps == Pitches(notes[..i])
      {
        ps := ps + [notes[i].pitchMidi];
        i := i + 1;
      }
      assert notes[..i] == notes;
    }

    /** `import_melody_midi`: replaces the list by one note per pitch. */
    method ImportMelody(ps: seq<int>)
      modifies this
      ensures notes == ImportPitches(ps)
    {
      notes := [];
      var i := 0;
      while i < |ps|
        invariant i <= |ps| && notes == ImportPitches(ps)[..i]
      {
        notes := notes + [ImportedNote(i, ps[i])];
        i := i + 1;
      }
    }
  }
}
