/** The 20-second block view (`ui/block_view.py`): cutting the words into
    blocks, the chord each block word takes, a block's most frequent chord,
    the text a block's lyrics box shows, mapping a click back to a word, the
    playback window of a double-click, and gathering the edited words and
    chords again. Widgets, playback threads and saving are outside the
    model. */
module BlockView {
  import opened Common
  import opened Lyrics
  import Tally
  import FrameChords

  datatype BlockData = BlockData(startTime: real, endTime: real, localChord: string, geminiChord: string,
                                 lyrics: seq<WordRow>, geminiLyrics: seq<WordRow>)

  /** Length of a block, in seconds. */
  const BlockSize: int := 20

  /** Confidence of a chord rebuilt from a block's local chord. */
  const BlockChordConfidence: real := 0.9

  /** Duration played when a double-click hits no word. */
  const DefaultPlaySeconds: real := 5.0

  // ---------------------------------------------------------------------------
  // Cutting the words into blocks

  /** `max(word.end for word in words)`. */
  function MaxEnd(ws: seq<WordRow>): (m: real)
    requires ws != []
    ensures forall i :: 0 <= i < |ws| ==> ws[i].end <= m
    ensures exists i :: 0 <= i < |ws| && ws[i].end == m
  {
    if |ws| == 1 then ws[0].end
    else
      var m := MaxEnd(ws[..|ws| - 1]);
      assert forall i :: 0 <= i < |ws| - 1 ==> ws[..|ws| - 1][i] == ws[i];
      MaxR(m, ws[|ws| - 1].end)
  }

  /** How many starts `range(0, int(total) + 1, 20)` yields. */
  function BlockCount(total: real): (n: nat)
    ensures forall i :: 0 <= i < n ==> BlockSize * i <= Trunc(total)
    ensures Trunc(total) < BlockSize * n
  {
    var stop := Trunc(total) + 1;
    if stop <= 0 then 0 else (stop - 1) / BlockSize + 1
  }

  function BlockStart(i: nat): real {
    (BlockSize * i) as real
  }

  function BlockEnd(i: nat, total: real): real {
    MinR((BlockSize * i + BlockSize) as real, total)
  }

  predicate Inside(w: WordRow, s: real, e: real) {
    w.start >= s && w.end <= e
  }

  /** The words lying wholly inside [s, e], in input order. */
  function Within(ws: seq<WordRow>, s: real, e: real): (r: seq<WordRow>)
    ensures |r| <= |ws|
    ensures forall w :: w in r <==> w in ws && Inside(w, s, e)
  {
    if ws == [] then []
    else
      var r := Within(ws[..|ws| - 1], s, e);
      var w := ws[|ws| - 1];
      assert forall x :: x in ws <==> x in ws[..|ws| - 1] || x == w by {
        assert ws == ws[..|ws| - 1] + [w];
      }
      if Inside(w, s, e) then r + [w] else r
  }

  predicate Covers(c: FrameChords.DetectedChord, t: real) {
    c.start <= t <= c.end
  }

  /** The first chord in list order whose closed span holds t. */
  function FirstCovering(chords: seq<FrameChords.DetectedChord>, t: real): (r: Option<nat>)
    ensures r.Some? ==> r.value < |chords| && Covers(chords[r.value], t)
                        && forall j :: 0 <= j < r.value ==> !Covers(chords[j], t)
    ensures r.None? ==> forall j :: 0 <= j < |chords| ==> !Covers(chords[j], t)
  {
    if chords == [] then None
    else if Covers(chords[0], t) then Some(0)
    else
      match FirstCovering(chords[1..], t)
      case None => None
      case Some(i) => Some(i + 1)
  }

  function Midpoint(w: WordRow): real {
    (w.start + w.end) / 2.0
  }

  /** A block word takes the name of the first chord holding its midpoint;
      a word no chord holds keeps its chord. Nothing else changes. */
  function Recolor(w: WordRow, chords: seq<FrameChords.DetectedChord>): (r: WordRow)
    ensures r == w.(chord := r.chord)
    ensures FirstCovering(chords, Midpoint(w)).Some? ==>
              r.chord == Some(chords[FirstCovering(chords, Midpoint(w)).value].name)
    ensures FirstCovering(chords, Midpoint(w)).None? ==> r.chord == w.chord
  {
    match FirstCovering(chords, Midpoint(w))
    case Some(i) => w.(chord := Some(chords[i].name))
    case None => w
  }

  function Recolored(ws: seq<WordRow>, chords: seq<FrameChords.DetectedChord>): (r: seq<WordRow>)
    ensures |r| == |ws| && forall i :: 0 <= i < |ws| ==> r[i] == Recolor(ws[i], chords)
  {
    seq(|ws|, i requires 0 <= i < |ws| => Recolor(ws[i], chords))
  }

  /** The choice depends on the word's times only, so a word that lies in
      two blocks and is recoloured twice ends as after the first time. */
  lemma RecolorIdempotent(w: WordRow, chords: seq<FrameChords.DetectedChord>)
    ensures Recolor(Recolor(w, chords), chords) == Recolor(w, chords)
  {
    assert Midpoint(Recolor(w, chords)) == Midpoint(w);
  }

  /** The block words' chords that are set and non-empty, in order. */
  function ChordNames(ws: seq<WordRow>): (r: seq<string>)
    ensures forall i :: 0 <= i < |r| ==> r[i] != ""
  {
    if ws == [] then []
    else
      var r := ChordNames(ws[..|ws| - 1]);
      var c := ws[|ws| - 1].chord;
      if c.Some? && c.value != "" then r + [c.value] else r
  }

  /** `max(chord_counts, key=chord_counts.get)`, or "" without chords. */
  function LocalChord(ws: seq<WordRow>): string {
    var t := Tally.TallyOf(ChordNames(ws));
    if t == [] then "" else t[Tally.FirstMax(t)].0
  }

  /** The local chord is the most frequent chord of the block, the first
      seen among equally frequent ones, and "" exactly when no word has
      one. */
  lemma LocalChordSpec(ws: seq<WordRow>)
    ensures LocalChord(ws) == "" <==> ChordNames(ws) == []
    ensures ChordNames(ws) != [] ==> Tally.IsMode(ChordNames(ws), LocalChord(ws))
  {
    var names := ChordNames(ws);
    var t := Tally.TallyOf(names);
    Tally.TallyCorrect(names);
    if names != [] {
      Tally.TallyNonEmpty(names);
      Tally.ModeOfTally(t, names);
      var k :| 0 <= k < |names| && names[k] == LocalChord(ws);
    } else {
      assert t == [];
    }
  }

  /** Block i of the words: its span, its words recoloured, their chord. */
  function MakeBlock(ws: seq<WordRow>, chords: seq<FrameChords.DetectedChord>, i: nat, total: real): BlockData {
    var bw := Recolored(Within(ws, BlockStart(i), BlockEnd(i, total)), chords);
    BlockData(BlockStart(i), BlockEnd(i, total), LocalChord(bw), "", bw, [])
  }

  /** The blocks `create_blocks_from_data` builds for non-empty words. */
  function Blocks(ws: seq<WordRow>, chords: seq<FrameChords.DetectedChord>): (bs: seq<BlockData>)
    requires ws != []
    ensures |bs| == BlockCount(MaxEnd(ws))
    ensures forall i :: 0 <= i < |bs| ==> bs[i] == MakeBlock(ws, chords, i, MaxEnd(ws))
  {
    var total := MaxEnd(ws);
    seq(BlockCount(total), i requires 0 <= i < BlockCount(total) => MakeBlock(ws, chords, i, total))
  }

  /** Blocks start at 0, 20, 40, … no later than the last word's end,
      each ends at the earlier of 20 seconds on and that end, and they
      follow one another without overlapping. */
  lemma BlocksLayout(ws: seq<WordRow>, chords: seq<FrameChords.DetectedChord>)
    requires ws != []
    ensures var bs := Blocks(ws, chords);
            var total := MaxEnd(ws);
            && (total >= 0.0 ==> |bs| >= 1)
            && (forall i :: 0 <= i < |bs| ==>
                  bs[i].startTime == (BlockSize * i) as real && (total >= 0.0 ==> bs[i].startTime <= total)
                  && bs[i].endTime == MinR(bs[i].startTime + BlockSize as real, total))
            && (forall i, j :: 0 <= i < j < |bs| ==> bs[i].endTime <= bs[j].startTime)
  {
    var total := MaxEnd(ws);
    var bs := Blocks(ws, chords);
    forall i | 0 <= i < |bs| ensures total >= 0.0 ==> bs[i].startTime <= total {
      assert BlockSize * i <= Trunc(total);
    }
    forall i, j | 0 <= i < j < |bs| ensures bs[i].endTime <= bs[j].startTime {
      assert BlockSize * i + BlockSize <= BlockSize * j;
    }
  }

  /** Block i holds the recoloured form of exactly the words inside it. */
  lemma BlockWords(ws: seq<WordRow>, chords: seq<FrameChords.DetectedChord>, i: nat)
    requires ws != [] && i < |Blocks(ws, chords)|
    ensures var b := Blocks(ws, chords)[i];
            var inside := Within(ws, b.startTime, b.endTime);
            && b.lyrics == Recolored(inside, chords)
            && (forall w :: w in inside <==> w in ws && Inside(w, b.startTime, b.endTime))
            && b.localChord == LocalChord(b.lyrics)
  {
  }

  /** A word that straddles a block boundary lands in no block. */
  lemma StraddlerInNoBlock(ws: seq<WordRow>, chords: seq<FrameChords.DetectedChord>, w: WordRow, j: nat)
    requires ws != [] && j >= 1
    requires w.start < (BlockSize * j) as real < w.end
    ensures forall i :: 0 <= i < |Blocks(ws, chords)| ==>
              var b := Blocks(ws, chords)[i];
              !Inside(w, b.startTime, b.endTime)
  {
    var bs := Blocks(ws, chords);
    forall i | 0 <= i < |bs| ensures !Inside(w, bs[i].startTime, bs[i].endTime) {
      if i < j {
        assert BlockSize * i + BlockSize <= BlockSize * j;
      } else {
        assert BlockSize * j <= BlockSize * i;
      }
    }
  }

  // ---------------------------------------------------------------------------
  // The block's lyrics text

  /** The chord a word shows: "[chord]" when it has one that differs from
      the previous word's chord. */
  function ChordTag(ws: seq<WordRow>, k: nat): string
    requires k < |ws|
  {
    var c := ws[k].chord;
    var prev := if k == 0 then None else ws[k - 1].chord;
    if c.Some? && c.value != "" && c != prev then "[" + c.value + "]" else ""
  }

  function AltTag(w: WordRow): string {
    if w.altText.Some? && w.altText.value != "" then "<" + w.altText.value + ">" else ""
  }

  /** What `set_lyrics` shows for word k. */
  function DisplayPiece(ws: seq<WordRow>, k: nat): string
    requires k < |ws|
  {
    ws[k].text + ChordTag(ws, k) + AltTag(ws[k])
  }

  function DisplayPieces(ws: seq<WordRow>): (r: seq<string>)
    ensures |r| == |ws| && forall k :: 0 <= k < |ws| ==> r[k] == DisplayPiece(ws, k)
  {
    seq(|ws|, k requires 0 <= k < |ws| => DisplayPiece(ws, k))
  }

  /** The text of a block's lyrics box. */
  function DisplayText(ws: seq<WordRow>): string {
    Join(DisplayPieces(ws), " ")
  }

  /** The loop of `set_lyrics`, carrying the previous word's chord. */
  method BuildDisplayText(lyrics: seq<WordRow>) returns (text: string)
    ensures text == DisplayText(lyrics)
  {
    var lines: seq<string> := [];
    var previousChord: Option<string> := None;
    var i := 0;
    while i < |lyrics|
      invariant i <= |lyrics|
      invariant lines == DisplayPieces(lyrics)[..i]
      invariant previousChord == if i == 0 then None else lyrics[i - 1].chord
    {
      var word := lyrics[i];
      var currentChord := word.chord;
      var chordText := "";
      var altText := "";
      if currentChord.Some? && currentChord.value != "" && currentChord != previousChord {
        chordText := "[" + currentChord.value + "]";
      }
      if word.altText.Some? && word.altText.value != "" {
        altText := "<" + word.altText.value + ">";
      }
      assert chordText == ChordTag(lyrics, i);
      assert altText == AltTag(word);
      PrefixStep(DisplayPieces(lyrics), lines, i, word.text + chordText + altText);
      lines := lines + [word.text + chordText + altText];
      previousChord := currentChord;
      i := i + 1;
    }
    assert DisplayPieces(lyrics)[..|lyrics|] == DisplayPieces(lyrics);
    text := Join(lines, " ");
  }

  /** One more element extends a prefix of a sequence. */
  lemma PrefixStep<T>(all: seq<T>, done: seq<T>, i: nat, x: T)
    requires i < |all| && done == all[..i] && x == all[i]
    ensures done + [x] == all[..i + 1]
  {
  }

  /** The chord last shown at or before word k. */
  function LastShownChord(ws: seq<WordRow>, k: nat): Option<string>
    requires k < |ws|
  {
    if ChordTag(ws, k) != "" then ws[k].chord
    else if k == 0 then None
    else LastShownChord(ws, k - 1)
  }

  /** Hiding repeated chords loses nothing for a word with a chord: the
      chord last shown at or before it is its own. */
  lemma {:induction false} ShownChordIsOwn(ws: seq<WordRow>, k: nat)
    requires k < |ws| && ws[k].chord.Some? && ws[k].chord.value != ""
    ensures LastShownChord(ws, k) == ws[k].chord
  {
    if ChordTag(ws, k) == "" {
      ShownChordIsOwn(ws, k - 1);
    }
  }

  // ---------------------------------------------------------------------------
  // From a click position to a word

  /** Where piece k starts when the pieces are joined by single spaces. */
  function Offset(ps: seq<string>, k: nat): int
    requires k <= |ps|
  {
    if k == 0 then 0 else Offset(ps, k - 1) + |ps[k - 1]| + 1
  }

  predicate InSpan(ps: seq<string>, k: nat, pos: int)
    requires k < |ps|
  {
    Offset(ps, k) <= pos <= Offset(ps, k) + |ps[k]|
  }

  /** The first piece from k on whose closed span holds pos. */
  function FirstSpan(ps: seq<string>, pos: int, k: nat): (r: Option<nat>)
    requires k <= |ps|
    ensures r.Some? ==> k <= r.value < |ps| && InSpan(ps, r.value, pos)
                        && forall j :: k <= j < r.value ==> !InSpan(ps, j, pos)
    ensures r.None? ==> forall j :: k <= j < |ps| ==> !InSpan(ps, j, pos)
    decreases |ps| - k
  {
    if k == |ps| then None
    else if InSpan(ps, k, pos) then Some(k)
    else FirstSpan(ps, pos, k + 1)
  }

  /** What `find_word_at_position` measures for word k: the word and its
      chord tag, without the "<alt>" that `set_lyrics` also shows. */
  function MappedPiece(ws: seq<WordRow>, k: nat): string
    requires k < |ws|
  {
    ws[k].text + ChordTag(ws, k)
  }

  function MappedPieces(ws: seq<WordRow>): (r: seq<string>)
    ensures |r| == |ws| && forall k :: 0 <= k < |ws| ==> r[k] == MappedPiece(ws, k)
  {
    seq(|ws|, k requires 0 <= k < |ws| => MappedPiece(ws, k))
  }

  /** `find_word_at_position` as written: the index of the word found. */
  method FindWordAtPosition(position: int, lyrics: seq<WordRow>) returns (r: Option<nat>)
    ensures r == FirstSpan(MappedPieces(lyrics), position, 0)
  {
    var pieces := WordTexts(lyrics);
    var starts, ends := Spans(pieces);
    r := SearchSpans(pieces, starts, ends, position);
  }

  /** The second loop of `find_word_at_position`: the first span holding
      the position. */
  method SearchSpans(pieces: seq<string>, starts: seq<int>, ends: seq<int>, position: int)
    returns (r: Option<nat>)
    requires |starts| == |pieces| && |ends| == |pieces|
    requires forall j :: 0 <= j < |pieces| ==>
               starts[j] == Offset(pieces, j) && ends[j] == Offset(pieces, j) + |pieces[j]|
    ensures r == FirstSpan(pieces, position, 0)
  {
    var k := 0;
    while k < |pieces|
      invariant k <= |pieces|
      invariant FirstSpan(pieces, position, k) == FirstSpan(pieces, position, 0)
    {
      if starts[k] <= position <= ends[k] {
        assert InSpan(pieces, k, position);
        return Some(k);
      }
      k := k + 1;
    }
    return None;
  }

  /** The text each word of `find_word_at_position`'s first loop measures,
      carrying the previous word's chord. */
  method WordTexts(lyrics: seq<WordRow>) returns (pieces: seq<string>)
    ensures pieces == MappedPieces(lyrics)
  {
    pieces := [];
    var prevChord: Option<string> := None;
    var i := 0;
    while i < |lyrics|
      invariant i <= |lyrics|
      invariant pieces == MappedPieces(lyrics)[..i]
      invariant prevChord == if i == 0 then None else lyrics[i - 1].chord
    {
      var word := lyrics[i];
      var wordText := word.text;
      if word.chord.Some? && word.chord.value != "" && word.chord != prevChord {
        wordText := wordText + "[" + word.chord.value + "]";
      }
      assert wordText == MappedPiece(lyrics, i);
      assert MappedPieces(lyrics)[..i + 1] == MappedPieces(lyrics)[..i] + [MappedPiece(lyrics, i)];
      pieces := pieces + [wordText];
      prevChord := word.chord;
      i := i + 1;
    }
    assert MappedPieces(lyrics)[..|lyrics|] == MappedPieces(lyrics);
  }

  /** The character spans of `find_word_at_position`'s first loop: each
      piece's start and end, counting one space between pieces. */
  method Spans(pieces: seq<string>) returns (starts: seq<int>, ends: seq<int>)
    ensures |starts| == |pieces| && |ends| == |pieces|
    ensures forall j :: 0 <= j < |pieces| ==>
              starts[j] == Offset(pieces, j) && ends[j] == Offset(pieces, j) + |pieces[j]|
  {
    var charPos := 0;
    starts := [];
    ends := [];
    var i := 0;
    while i < |pieces|
      invariant i <= |pieces| && |starts| == i && |ends| == i
      invariant charPos == Offset(pieces, i)
      invariant forall j :: 0 <= j < i ==>
                  starts[j] == Offset(pieces, j) && ends[j] == Offset(pieces, j) + |pieces[j]|
    {
      SpanStep(pieces, starts, ends, i);
      starts := starts + [charPos];
      ends := ends + [charPos + |pieces[i]|];
      charPos := charPos + |pieces[i]| + 1;
      i := i + 1;
    }
  }

  /** The spans of the first i pieces, extended by piece i's span. */
  lemma SpanStep(pieces: seq<string>, starts: seq<int>, ends: seq<int>, i: nat)
    requires i < |pieces| && |starts| == i && |ends| == i
    requires forall j :: 0 <= j < i ==>
               starts[j] == Offset(pieces, j) && ends[j] == Offset(pieces, j) + |pieces[j]|
    ensures var s, e := starts + [Offset(pieces, i)], ends + [Offset(pieces, i) + |pieces[i]|];
            forall j :: 0 <= j < i + 1 ==>
              s[j] == Offset(pieces, j) && e[j] == Offset(pieces, j) + |pieces[j]|
  {
  }

  /** The mapping that agrees with the text shown: spans over the display
      pieces, "<alt>" included. */
  function FindWordCorrected(position: int, lyrics: seq<WordRow>): Option<nat> {
    FirstSpan(DisplayPieces(lyrics), position, 0)
  }

  lemma {:induction false} OffsetTail(ps: seq<string>, k: nat)
    requires 1 <= k <= |ps|
    ensures Offset(ps, k) == |ps[0]| + 1 + Offset(ps[1..], k - 1)
  {
    if k > 1 {
      OffsetTail(ps, k - 1);
    }
  }

  /** Piece k sits at its offset in the joined text. */
  lemma {:induction false} JoinAt(ps: seq<string>, k: nat)
    requires k < |ps|
    ensures 0 <= Offset(ps, k) && Offset(ps, k) + |ps[k]| <= |Join(ps, " ")|
            && Join(ps, " ")[Offset(ps, k)..Offset(ps, k) + |ps[k]|] == ps[k]
  {
    if |ps| > 1 {
      var j := Join(ps, " ");
      var rest := Join(ps[1..], " ");
      assert j == ps[0] + " " + rest;
      if k > 0 {
        JoinAt(ps[1..], k - 1);
        OffsetTail(ps, k);
        var o := Offset(ps[1..], k - 1);
        var h := |ps[0]| + 1;
        assert ps[1..][k - 1] == ps[k];
        assert j[h..] == rest;
        assert j[h + o..h + o + |ps[k]|] == rest[o..o + |ps[k]|];
      } else {
        assert j[..|ps[0]|] == ps[0];
      }
    }
  }

  lemma {:induction false} OffsetGrows(ps: seq<string>, j: nat, k: nat)
    requires j < k <= |ps|
    ensures Offset(ps, j) + |ps[j]| < Offset(ps, k)
    decreases k - j
  {
    if j + 1 < k {
      OffsetGrows(ps, j, k - 1);
    }
  }

  /** A span holding pos that no earlier span from m on holds is the one
      found from m. */
  lemma {:induction false} FirstSpanIs(ps: seq<string>, pos: int, m: nat, k: nat)
    requires m <= k < |ps| && InSpan(ps, k, pos)
    requires forall j :: m <= j < k ==> !InSpan(ps, j, pos)
    ensures FirstSpan(ps, pos, m) == Some(k)
    decreases k - m
  {
    if m < k {
      FirstSpanIs(ps, pos, m + 1, k);
    }
  }

  /** Every position within word k's shown text (which `JoinAt` places at
      its offset), from its first character to just past its last, maps
      back to word k. */
  lemma FindWordCorrectedSpec(lyrics: seq<WordRow>, k: nat, position: int)
    requires k < |lyrics|
    requires var ps := DisplayPieces(lyrics);
             Offset(ps, k) <= position <= Offset(ps, k) + |ps[k]|
    ensures FindWordCorrected(position, lyrics) == Some(k)
  {
    var ps := DisplayPieces(lyrics);
    forall j | 0 <= j < k ensures !InSpan(ps, j, position) {
      OffsetGrows(ps, j, k);
    }
    FirstSpanIs(ps, position, 0, k);
  }

  /** A word with an alternative shifts every later word's shown text past
      the offsets the as-written mapping uses: here the click on the first
      letter of the second word maps to no word. */
  lemma FindWordMissesAfterAlternative()
    ensures var ws := [Row("a", 0.0, 1.0, 1.0).(altText := Some("x")), Row("b", 1.0, 2.0, 1.0)];
            && DisplayText(ws) == "a<x> b"
            && DisplayText(ws)[5] == 'b'
            && FirstSpan(MappedPieces(ws), 5, 0) == None
            && FindWordCorrected(5, ws) == Some(1)
  {
    var ws := [Row("a", 0.0, 1.0, 1.0).(altText := Some("x")), Row("b", 1.0, 2.0, 1.0)];
    assert ChordTag(ws, 0) == "" && ChordTag(ws, 1) == "";
    assert AltTag(ws[0]) == "<x>" && AltTag(ws[1]) == "";
    assert DisplayPiece(ws, 0) == "a<x>" && DisplayPiece(ws, 1) == "b";
    assert DisplayPieces(ws) == ["a<x>", "b"];
    assert MappedPiece(ws, 0) == "a" && MappedPiece(ws, 1) == "b";
    assert MappedPieces(ws) == ["a", "b"];
    assert Join(["a<x>", "b"], " ") == "a<x>" + " " + "b";
    assert Offset(MappedPieces(ws), 1) == 2;
    assert Offset(DisplayPieces(ws), 1) == 5;
  }

  // ---------------------------------------------------------------------------
  // Double-click playback

  datatype PlayRequest = PlayRequest(start: real, duration: real)

  /** The request `on_lyrics_double_click` sends: a window of the given
      length centred on the clicked word, clipped at 0 and at the block's
      end, or the block from its start when no word was hit. */
  function DoubleClickRequest(clicked: Option<WordRow>, durationSeconds: real, block: BlockData): PlayRequest {
    match clicked
    case None => PlayRequest(block.startTime, DefaultPlaySeconds)
    case Some(w) =>
      var half := durationSeconds / 2.0;
      var start := MaxR(0.0, Midpoint(w) - half);
      var end := MinR(Midpoint(w) + half, block.endTime);
      PlayRequest(start, end - start)
  }

  /** For a word whose midpoint lies in [0, block end], the window holds the
      midpoint, never starts before 0 and is no longer than asked. */
  lemma DoubleClickWindow(w: WordRow, durationSeconds: real, block: BlockData)
    requires durationSeconds >= 0.0 && 0.0 <= Midpoint(w) <= block.endTime
    ensures var r := DoubleClickRequest(Some(w), durationSeconds, block);
            && 0.0 <= r.start <= Midpoint(w) <= r.start + r.duration
            && 0.0 <= r.duration <= durationSeconds
  {
  }

  /** `get_updated_data`: the block's times and words, with its chords and
      alternative lyrics cleared. */
  function UpdatedData(b: BlockData): (r: BlockData)
    ensures r.startTime == b.startTime && r.endTime == b.endTime && r.lyrics == b.lyrics
    ensures r.localChord == "" && r.geminiChord == "" && r.geminiLyrics == []
  {
    BlockData(b.startTime, b.endTime, "", "", b.lyrics, [])
  }

  // ---------------------------------------------------------------------------
  // Gathering words and chords again

  /** All blocks' words, block after block. */
  function AllLyrics(bs: seq<BlockData>): seq<WordRow> {
    if bs == [] then [] else AllLyrics(bs[..|bs| - 1]) + bs[|bs| - 1].lyrics
  }

  /** One chord per block with a local chord, spanning that block. */
  function BlockChords(bs: seq<BlockData>): (cs: seq<FrameChords.DetectedChord>)
    ensures |cs| <= |bs|
    ensures forall i :: 0 <= i < |cs| ==> cs[i].name != "" && cs[i].confidence == BlockChordConfidence
  {
    if bs == [] then []
    else
      var cs := BlockChords(bs[..|bs| - 1]);
      var b := bs[|bs| - 1];
      if b.localChord != "" then cs + [FrameChords.DetectedChord(b.localChord, b.startTime, b.endTime, BlockChordConfidence)]
      else cs
  }

  lemma {:induction false} BlockChordsEndBy(bs: seq<BlockData>, t: real)
    requires forall i :: 0 <= i < |bs| ==> bs[i].endTime <= t
    ensures forall c :: c in BlockChords(bs) ==> c.end <= t
  {
    if bs != [] {
      BlockChordsEndBy(bs[..|bs| - 1], t);
    }
  }

  /** Blocks in time order give chords in time order, none overlapping. */
  lemma {:induction false} BlockChordsOrdered(bs: seq<BlockData>)
    requires forall i, j :: 0 <= i < j < |bs| ==> bs[i].endTime <= bs[j].startTime
    ensures var cs := BlockChords(bs);
            forall i, j :: 0 <= i < j < |cs| ==> cs[i].end <= cs[j].start
  {
    if bs != [] {
      var pre := bs[..|bs| - 1];
      var b := bs[|bs| - 1];
      assert forall i, j :: 0 <= i < j < |pre| ==> pre[i].endTime <= pre[j].startTime;
      BlockChordsOrdered(pre);
      assert forall i, j :: 0 <= i < j < |BlockChords(pre)| ==> BlockChords(pre)[i].end <= BlockChords(pre)[j].start;
      BlockChordsEndBy(pre, b.startTime);
      var cp := BlockChords(pre);
      if b.localChord != "" {
        var c := FrameChords.DetectedChord(b.localChord, b.startTime, b.endTime, BlockChordConfidence);
        var cs := cp + [c];
        assert BlockChords(bs) == cs;
        forall i, j | 0 <= i < j < |cs| ensures cs[i].end <= cs[j].start {
          if j == |cs| - 1 {
            assert cs[i] == cp[i] && cp[i] in cp;
            assert cs[j] == c;
          } else {
            assert cs[i] == cp[i] && cs[j] == cp[j];
          }
        }
      } else {
        assert BlockChords(bs) == cp;
      }
    }
  }

  /** The chords gathered from fresh blocks follow one another in time. */
  lemma UpdatedChordsOrdered(ws: seq<WordRow>, chords: seq<FrameChords.DetectedChord>)
    requires ws != []
    ensures var cs := BlockChords(Blocks(ws, chords));
            forall i, j :: 0 <= i < j < |cs| ==> cs[i].end <= cs[j].start
  {
    BlocksLayout(ws, chords);
    BlockChordsOrdered(Blocks(ws, chords));
  }

  // ---------------------------------------------------------------------------
  // The view

  class View {
    var blocks: seq<BlockData>

    constructor ()
      ensures blocks == []
    {
      blocks := [];
    }

    /** `create_blocks_from_data`: without words nothing changes. */
    method CreateBlocksFromData(words: seq<WordRow>, chords: seq<FrameChords.DetectedChord>)
      modifies this`blocks
      ensures words == [] ==> blocks == old(blocks)
      ensures words != [] ==> blocks == Blocks(words, chords)
    {
      if words == [] {
        return;
      }
      var total := TotalDuration(words);
      var newBlocks: seq<BlockData> := [];
      var i := 0;
      var count := BlockCount(total);
      while i < count
        invariant i <= count
        invariant newBlocks == Blocks(words, chords)[..i]
      {
        var blockStart := BlockStart(i);
        var blockEnd := BlockEnd(i, total);
        var blockWords := WordsWithin(words, blockStart, blockEnd);
        blockWords := AlignChords(blockWords, chords);
        var blockChord := MostCommonChord(blockWords);
        assert BlockData(blockStart, blockEnd, blockChord, "", blockWords, []) == MakeBlock(words, chords, i, total);
        PrefixStep(Blocks(words, chords), newBlocks, i, MakeBlock(words, chords, i, total));
        newBlocks := newBlocks + [BlockData(blockStart, blockEnd, blockChord, "", blockWords, [])];
        i := i + 1;
      }
      blocks := newBlocks;
    }

    /** `get_updated_words`. */
    method GetUpdatedWords() returns (updated: seq<WordRow>)
      ensures updated == AllLyrics(blocks)
    {
      updated := [];
      var i := 0;
      while i < |blocks|
        invariant i <= |blocks| && updated == AllLyrics(blocks[..i])
      {
        assert blocks[..i + 1][..i] == blocks[..i];
        updated := updated + blocks[i].lyrics;
        i := i + 1;
      }
      assert blocks[..|blocks|] == blocks;
    }

    /** `get_updated_chords`. */
    method GetUpdatedChords() returns (updated: seq<FrameChords.DetectedChord>)
      ensures updated == BlockChords(blocks)
    {
      updated := [];
      var i := 0;
      while i < |blocks|
        invariant i <= |blocks| && updated == BlockChords(blocks[..i])
      {
        assert blocks[..i + 1][..i] == blocks[..i];
        var block := blocks[i];
        if block.localChord != "" {
          updated := updated + [FrameChords.DetectedChord(block.localChord, block.startTime, block.endTime, BlockChordConfidence)];
        }
        i := i + 1;
      }
      assert blocks[..|blocks|] == blocks;
    }
  }

  /** The running maximum of the word ends. */
  method TotalDuration(words: seq<WordRow>) returns (total: real)
    requires words != []
    ensures total == MaxEnd(words)
  {
    total := words[0].end;
    var i := 1;
    while i < |words|
      invariant 1 <= i <= |words| && total == MaxEnd(words[..i])
    {
      MaxEndStep(words, i);
      total := MaxR(total, words[i].end);
      i := i + 1;
    }
    assert words[..|words|] == words;
  }

  lemma MaxEndStep(words: seq<WordRow>, i: nat)
    requires 1 <= i < |words|
    ensures MaxEnd(words[..i + 1]) == MaxR(MaxEnd(words[..i]), words[i].end)
  {
    assert words[..i + 1][..i] == words[..i];
  }

  /** `[w for w in words if w.start >= s and w.end <= e]`. */
  method WordsWithin(words: seq<WordRow>, s: real, e: real) returns (r: seq<WordRow>)
    ensures r == Within(words, s, e)
  {
    r := [];
    var i := 0;
    while i < |words|
      invariant i <= |words| && r == Within(words[..i], s, e)
    {
      assert words[..i + 1][..i] == words[..i];
      if words[i].start >= s && words[i].end <= e {
        r := r + [words[i]];
      }
      i := i + 1;
    }
    assert words[..|words|] == words;
  }

  /** The chord loop for each block word, stopping at the first chord that
      holds the word's midpoint. */
  method AlignChords(blockWords: seq<WordRow>, chords: seq<FrameChords.DetectedChord>) returns (r: seq<WordRow>)
    ensures r == Recolored(blockWords, chords)
  {
    r := blockWords;
    var i := 0;
    while i < |blockWords|
      invariant i <= |blockWords| && |r| == |blockWords|
      invariant forall j :: 0 <= j < i ==> r[j] == Recolor(blockWords[j], chords)
      invariant forall j :: i <= j < |r| ==> r[j] == blockWords[j]
    {
      var word := r[i];
      var wordMid := (word.start + word.end) / 2.0;
      ghost var before := r;
      var k := 0;
      while k < |chords|
        invariant k <= |chords| && r == before
        invariant forall j :: 0 <= j < k ==> !Covers(chords[j], wordMid)
      {
        var chord := chords[k];
        if chord.start <= wordMid <= chord.end {
          r := r[i := word.(chord := Some(chord.name))];
          break;
        }
        k := k + 1;
      }
      i := i + 1;
    }
  }

  /** The counting dictionary of the block's chords and its first maximum. */
  method MostCommonChord(blockWords: seq<WordRow>) returns (chord: string)
    ensures chord == LocalChord(blockWords)
  {
    chord := "";
    if blockWords != [] {
      var names: seq<string> := [];
      var i := 0;
      while i < |blockWords|
        invariant i <= |blockWords| && names == ChordNames(blockWords[..i])
      {
        assert blockWords[..i + 1][..i] == blockWords[..i];
        var c := blockWords[i].chord;
        if c.Some? && c.value != "" {
          names := names + [c.value];
        }
        i := i + 1;
      }
      assert blockWords[..|blockWords|] == blockWords;
      var counts := Tally.CountLoop(names);
      if counts != [] {
        chord := counts[Tally.FirstMax(counts)].0;
      }
    }
  }
}
