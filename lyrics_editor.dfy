// The lyrics editor's list logic (`ui/lyrics_editor.py`): keeping the word
// list in step with the free-text box, the table edits, add/delete/move,
// the linear re-timing, the low-confidence fix, and the plain-text export
// and import.

module LyricsEditor {
  import opened Common
  import opened Song
  import opened EditorList

  // ---------------------------------------------------------------------------
  // New words

  /** Length in seconds the editor gives a word it creates. */
  const DefaultSpan: real := 0.5

  /** The word created for position `k` of the list: half a second per
      position, confidence 0.5, no chord. */
  function NewWord(k: nat, text: string): (w: Word)
    ensures w.text == text && w.start == 0.5 * k as real && w.end == w.start + DefaultSpan
    ensures w.confidence == 0.5 && w.alternatives.None? && w.chord.None?
  {
    Word(text, 0.5 * k as real, 0.5 * k as real + DefaultSpan, 0.5, None, None)
  }

  // ---------------------------------------------------------------------------
  // Text sync

  /** The word list after the text box holds the tokens `toks`: word i keeps
      its timing, confidence and chord and takes token i as its text; surplus
      words are dropped, and missing ones are created at their position. */
  function Synced(ws: seq<Word>, toks: seq<string>): (r: seq<Word>)
    ensures |r| == |toks|
    ensures forall i :: 0 <= i < |r| ==> r[i].text == toks[i]
    ensures forall i :: 0 <= i < |r| && i < |ws| ==> r[i] == ws[i].(text := toks[i])
    ensures forall i :: |ws| <= i < |r| ==> r[i] == NewWord(i, toks[i])
  {
    seq(|toks|, i requires 0 <= i < |toks| => if i < |ws| then ws[i].(text := toks[i]) else NewWord(i, toks[i]))
  }

  /** The texts of the words, in order. */
  function Texts(ws: seq<Word>): (r: seq<string>)
    ensures |r| == |ws| && forall i :: 0 <= i < |ws| ==> r[i] == ws[i].text
  {
    seq(|ws|, i requires 0 <= i < |ws| => ws[i].text)
  }

  /** `export_lyrics_text`: the word texts joined by single spaces. */
  function ExportText(ws: seq<Word>): string {
    Join(Texts(ws), " ")
  }

  /** After a sync the words spell the tokens, and the exported text is the
      tokens joined by single spaces. */
  lemma SyncedSpells(ws: seq<Word>, toks: seq<string>)
    ensures Texts(Synced(ws, toks)) == toks
    ensures ExportText(Synced(ws, toks)) == Join(toks, " ")
  {
    assert Texts(Synced(ws, toks)) == toks;
  }

  /** Syncing the same text twice is the same as syncing it once. */
  lemma SyncedIdempotent(ws: seq<Word>, toks: seq<string>)
    ensures Synced(Synced(ws, toks), toks) == Synced(ws, toks)
  {
  }

  /** Typing back the text the editor shows changes nothing, provided every
      word is a single non-empty token. */
  lemma SyncOwnText(ws: seq<Word>)
    requires forall i :: 0 <= i < |ws| ==> |ws[i].text| > 0 && NoSpace(ws[i].text)
    ensures Synced(ws, Split(ExportText(ws))) == ws
  {
    SplitJoin(Texts(ws));
    var r := Synced(ws, Split(ExportText(ws)));
    assert forall i :: 0 <= i < |ws| ==> r[i] == ws[i];
  }

  // ---------------------------------------------------------------------------
  // Plain-text import

  /** `import_lyrics_text`: one new word per whitespace token. */
  function Imported(text: string): (r: seq<Word>)
    ensures |r| == |Split(text)|
    ensures forall i :: 0 <= i < |r| ==> r[i] == NewWord(i, Split(text)[i])
  {
    Synced([], Split(text))
  }

  /** Exporting an imported text gives its tokens joined by single spaces,
      and importing that again gives the same words. */
  lemma ExportImported(text: string)
    ensures ExportText(Imported(text)) == Join(Split(text), " ")
    ensures Imported(ExportText(Imported(text))) == Imported(text)
  {
    SyncedSpells([], Split(text));
    SplitJoin(Split(text));
  }

  /** Imported words follow each other without gaps. */
  lemma ImportedContiguous(text: string, i: nat)
    requires i + 1 < |Imported(text)|
    ensures Imported(text)[i].end == Imported(text)[i + 1].start
  {
  }

  // ---------------------------------------------------------------------------
  // Linear re-timing

  /** Seconds the re-timing spreads words over when no song is loaded. */
  const FallbackDuration: real := 60.0

  /** The span `auto_align_timing` uses: the song's duration if a song is
      loaded, else a minute. */
  function AlignSpan(song: Option<SongData>): (d: real)
    ensures song.Some? ==> d == GetDuration(song.value)
    ensures song.None? ==> d == FallbackDuration
  {
    match song
    case Some(s) => GetDuration(s)
    case None => FallbackDuration
  }

  /** Word i spread over `[i*D/n, (i+1)*D/n]`, nothing else changed. */
  function AlignedAt(w: Word, i: nat, total: real, n: nat): (r: Word)
    requires n > 0
    ensures r == w.(start := i as real * (total / n as real), end := (i + 1) as real * (total / n as real))
  {
    var step := total / n as real;
    w.(start := i as real * step, end := (i + 1) as real * step)
  }

  function Aligned(ws: seq<Word>, total: real): (r: seq<Word>)
    ensures |r| == |ws|
    ensures ws != [] ==> forall i :: 0 <= i < |ws| ==> r[i] == AlignedAt(ws[i], i, total, |ws|)
    ensures ws == [] ==> r == []
  {
    if ws == [] then []
    else seq(|ws|, i requires 0 <= i < |ws| => AlignedAt(ws[i], i, total, |ws|))
  }

  lemma StepsFill(n: nat, total: real)
    requires n > 0
    ensures n as real * (total / n as real) == total
  {
  }

  /** The re-timed words tile `[0, D]` in equal, contiguous spans, in list
      order, keeping their texts, confidences and chords. */
  lemma AlignedTiles(ws: seq<Word>, total: real)
    requires ws != []
    ensures Aligned(ws, total)[0].start == 0.0
    ensures Aligned(ws, total)[|ws| - 1].end == total
    ensures forall i :: 0 <= i < |ws| - 1 ==> Aligned(ws, total)[i].end == Aligned(ws, total)[i + 1].start
    ensures forall i :: 0 <= i < |ws| ==>
              Aligned(ws, total)[i].end - Aligned(ws, total)[i].start == total / |ws| as real
    ensures forall i :: 0 <= i < |ws| ==>
              Aligned(ws, total)[i].(start := ws[i].start, end := ws[i].end) == ws[i]
  {
    StepsFill(|ws|, total);
  }

  // ---------------------------------------------------------------------------
  // Low-confidence fix

  /** Lowest confidence the fix leaves a word with. */
  const ConfidenceFloor: real := 0.3

  function RaiseConfidence(w: Word): (r: Word)
    ensures w.confidence < ConfidenceFloor ==> r == w.(confidence := ConfidenceFloor)
    ensures w.confidence >= ConfidenceFloor ==> r == w
  {
    if w.confidence < ConfidenceFloor then w.(confidence := ConfidenceFloor) else w
  }

  function Raised(ws: seq<Word>): (r: seq<Word>)
    ensures |r| == |ws| && forall i :: 0 <= i < |ws| ==> r[i] == RaiseConfidence(ws[i])
  {
    seq(|ws|, i requires 0 <= i < |ws| => RaiseConfidence(ws[i]))
  }

  /** Number of words below the floor. */
  function LowCount(ws: seq<Word>): (n: nat)
    ensures n <= |ws|
  {
    if ws == [] then 0 else (if ws[0].confidence < ConfidenceFloor then 1 else 0) + LowCount(ws[1..])
  }

  lemma LowCountStep(ws: seq<Word>, i: nat)
    requires i < |ws|
    ensures LowCount(ws[i..]) == (if ws[i].confidence < ConfidenceFloor then 1 else 0) + LowCount(ws[i + 1..])
  {
    assert ws[i..][1..] == ws[i + 1..];
  }

  /** After the fix every confidence is at least the floor, none is lowered,
      a second fix changes nothing and finds nothing to fix. */
  lemma RaisedIdempotent(ws: seq<Word>)
    ensures forall i :: 0 <= i < |ws| ==> Raised(ws)[i].confidence >= ConfidenceFloor
    ensures forall i :: 0 <= i < |ws| ==> Raised(ws)[i].confidence >= ws[i].confidence
    ensures Raised(Raised(ws)) == Raised(ws)
    ensures LowCount(Raised(ws)) == 0
  {
    LowCountZero(Raised(ws));
  }

  lemma {:induction false} LowCountZero(ws: seq<Word>)
    requires forall i :: 0 <= i < |ws| ==> ws[i].confidence >= ConfidenceFloor
    ensures LowCount(ws) == 0
  {
    if ws != [] {
      LowCountZero(ws[1..]);
    }
  }

  // ---------------------------------------------------------------------------
  // The editor

  /** A table column of the word table. */
  datatype Column = TextColumn | StartColumn | EndColumn | ConfidenceColumn | ChordColumn

  /** What `on_table_item_changed` does to a word for cell text `text`;
      `number` is `float(text)`, `None` when it raises. An invalid number
      leaves the word as it was. */
  function EditCell(w: Word, col: Column, text: string, number: Option<real>): (r: Word)
    ensures col == TextColumn ==> r == w.(text := text)
    ensures col == ChordColumn ==> r == w.(chord := if text == "" then None else Some(text))
    ensures col == StartColumn ==> r == if number.Some? then w.(start := number.value) else w
    ensures col == EndColumn ==> r == if number.Some? then w.(end := number.value) else w
    ensures col == ConfidenceColumn ==> r == if number.Some? then w.(confidence := number.value) else w
  {
    match col
    case TextColumn => w.(text := text)
    case ChordColumn => w.(chord := if text == "" then None else Some(text))
    case StartColumn => if number.Some? then w.(start := number.value) else w
    case EndColumn => if number.Some? then w.(end := number.value) else w
    case ConfidenceColumn => if number.Some? then w.(confidence := number.value) else w
  }

  /** Clearing the chord cell removes the chord; any other edit of the chord
      cell stores its text. */
  lemma ClearChordCell(w: Word, number: Option<real>)
    ensures EditCell(w, ChordColumn, "", number).chord.None?
    ensures EditCell(EditCell(w, ChordColumn, "Am", number), ChordColumn, "", number) == w.(chord := None)
  {
  }

  /** The editor's word list. Rows are table rows: -1 when nothing is
      selected. */
  class Editor {
    var words: seq<Word>
    var song: Option<SongData>

    constructor ()
      ensures words == [] && song.None?
    {
      words := [];
      song := None;
    }

    /** `on_text_changed`: the texts follow the text box's tokens. */
    method OnTextChanged(text: string)
      modifies this`words
      ensures words == Synced(old(words), Split(text))
      ensures song == old(song)
    {
      var toks := Split(text);
      ghost var orig := words;
      var i := 0;
      while i < |words|
        invariant i <= |words| <= |orig|
        invariant i <= |toks|
        invariant words[..i] == Synced(orig, toks)[..i]
        invariant words[i..] == orig[i..]
        decreases |words| - i
      {
        if i < |toks| {
          words := words[i := words[i].(text := toks[i])];
          i := i + 1;
        } else {
          words := words[..|toks|];
          break;
        }
      }
      while |words| < |toks|
        invariant |orig| <= |toks| ==> |orig| <= |words|
        invariant |words| <= |toks|
        invariant words == Synced(orig, toks)[..|words|]
        decreases |toks| - |words|
      {
        words := words + [NewWord(|words|, toks[|words|])];
      }
      assert |words| == |toks|;
    }

    /** `on_table_item_changed` for a row of the table; rows past the end are
        ignored. */
    method OnTableItemChanged(row: nat, col: Column, text: string, number: Option<real>)
      modifies this`words
      ensures row < |old(words)| ==> words == old(words)[row := EditCell(old(words)[row], col, text, number)]
      ensures row >= |old(words)| ==> words == old(words)
    {
      if row >= |words| {
        return;
      }
      words := words[row := EditCell(words[row], col, text, number)];
    }

    /** `add_word`: a placeholder word at the selected row, or at the end. */
    method AddWord(row: int)
      modifies this`words
      ensures var at := if row < 0 then |old(words)| else row;
              words == Insert(old(words), at, NewWord(at, "new_word"))
    {
      var at := if row < 0 then |words| else row;
      words := Insert(words, at, NewWord(at, "new_word"));
    }

    /** `delete_word`. */
    method DeleteWord(row: int)
      modifies this`words
      ensures words == Delete(old(words), row)
    {
      words := Delete(words, row);
    }

    /** `move_word_up`. */
    method MoveWordUp(row: int)
      requires row < |words|
      modifies this`words
      ensures words == MoveUp(old(words), row)
    {
      words := MoveUp(words, row);
    }

    /** `move_word_down`. */
    method MoveWordDown(row: int)
      requires row >= -1
      modifies this`words
      ensures words == MoveDown(old(words), row)
    {
      words := MoveDown(words, row);
    }

    /** `auto_align_timing`: nothing to do without words. */
    method AutoAlignTiming()
      modifies this`words
      ensures old(words) == [] ==> words == []
      ensures old(words) != [] ==> words == Aligned(old(words), AlignSpan(song))
      ensures song == old(song)
    {
      if words == [] {
        return;
      }
      var total := AlignSpan(song);
      var n := |words|;
      var step := total / n as real;
      ghost var orig := words;
      var i := 0;
      while i < n
        invariant i <= n == |words| == |orig|
        invariant forall k :: 0 <= k < i ==> words[k] == AlignedAt(orig[k], k, total, n)
        invariant forall k :: i <= k < n ==> words[k] == orig[k]
      {
        words := words[i := words[i].(start := i as real * step, end := (i + 1) as real * step)];
        i := i + 1;
      }
      assert words == Aligned(orig, total);
    }

    /** `fix_low_confidence`: returns how many words were raised. */
    method FixLowConfidence() returns (fixed: nat)
      modifies this`words
      ensures words == Raised(old(words))
      ensures fixed == LowCount(old(words))
      ensures song == old(song)
    {
      ghost var orig := words;
      fixed := 0;
      var i := 0;
      while i < |words|
        invariant i <= |words| == |orig|
        invariant forall k :: 0 <= k < i ==> words[k] == RaiseConfidence(orig[k])
        invariant forall k :: i <= k < |words| ==> words[k] == orig[k]
        invariant fixed + LowCount(orig[i..]) == LowCount(orig)
      {
        LowCountStep(orig, i);
        if words[i].confidence < ConfidenceFloor {
          words := words[i := words[i].(confidence := ConfidenceFloor)];
          fixed := fixed + 1;
        }
        i := i + 1;
      }
      assert orig[i..] == [];
      assert words == Raised(orig);
    }

    /** `export_lyrics_text`. */
    method ExportLyricsText() returns (text: string)
      ensures text == ExportText(words)
    {
      text := ExportText(words);
    }

    /** `import_lyrics_text`: the list is replaced by one word per token. */
    method ImportLyricsText(text: string)
      modifies this`words
      ensures words == Imported(text)
      ensures song == old(song)
    {
      var toks := Split(text);
      words := [];
      var i := 0;
      while i < |toks|
        invariant i <= |toks| && words == Imported(text)[..i]
      {
        words := words + [NewWord(i, toks[i])];
        i := i + 1;
      }
    }

    /** `set_song_data`: the editor takes the song's words. */
    method SetSongData(s: SongData)
      modifies this
      ensures song == Some(s) && words == s.words
    {
      song := Some(s);
      words := s.words;
    }

    /** `get_words`: a copy of the list. */
    method GetWords() returns (r: seq<Word>)
      ensures r == words
    {
      r := words;
    }

    /** `set_words`. */
    method SetWords(ws: seq<Word>)
      modifies this`words
      ensures words == ws && song == old(song)
    {
      words := ws;
    }
  }
}
