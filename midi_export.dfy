/** The simple mido exporter (`export_midi`): a tempo track, a lyrics track
    and, when given, a chord track of block triads and a melody track, all
    at the fixed tempo of 120 bpm with 480 ticks per beat.

    Each of its three loops appends, per item, a group of messages that
    start together (the lyric, the chord's note_ons, the note's note_on)
    and a group that stops together (the note_offs), then moves `last_tick`
    on. The loops are modelled once as a fold over `Block`s; the track
    methods run the loops and are proved equal to the fold. */
module MidiExport {
  import opened Common
  import opened MidiTrack
  import L = Lyrics
  import FC = FrameChords
  import G = GeminiClient

  const TicksPerBeat := 480

  /** `mido.bpm2tempo(120)`: microseconds per beat at 120 bpm. */
  const Tempo := 500000

  // ---------------------------------------------------------------------------
  // Time

  /** `seconds_to_ticks`: `int(seconds * 1e6 / tempo * ticks_per_beat)`.
      A zero tempo raises ZeroDivisionError; the exporter only passes
      `Tempo`. */
  function SecondsToTicks(seconds: real, tempo: int, tpb: int): (r: int)
    requires tempo != 0
    ensures 0.0 <= seconds && 0 < tempo && 0 <= tpb ==> 0 <= r
  {
    var beats := seconds * 1000000.0 / tempo as real;
    assert 0.0 <= seconds && 0 < tempo ==> 0.0 <= beats;
    Trunc(beats * tpb as real)
  }

  /** The exporter's conversion, at `Tempo` and `TicksPerBeat`. */
  function Ticks(seconds: real): int {
    SecondsToTicks(seconds, Tempo, TicksPerBeat)
  }

  /** At 120 bpm and 480 ticks per beat a second is 960 ticks, truncated
      toward zero. */
  lemma TicksAt120(seconds: real)
    ensures Ticks(seconds) == Trunc(seconds * 960.0)
    ensures 0.0 <= seconds ==> Ticks(seconds) as real <= seconds * 960.0 < Ticks(seconds) as real + 1.0
  {
    assert seconds * 1000000.0 / 500000.0 * 480.0 == seconds * 960.0;
  }

  /** Truncation never reverses an order. */
  lemma TruncMonotone(x: real, y: real)
    requires x <= y
    ensures Trunc(x) <= Trunc(y)
  {
  }

  /** Later times never get fewer ticks. */
  lemma TicksMonotone(s1: real, s2: real)
    requires s1 <= s2
    ensures Ticks(s1) <= Ticks(s2)
  {
    TicksAt120(s1);
    TicksAt120(s2);
    TruncMonotone(s1 * 960.0, s2 * 960.0);
  }

  // ---------------------------------------------------------------------------
  // The per-item loop, once for all three tracks

  /** What one loop iteration emits: `ons` all carry the step from
      `last_tick` to `start` (the first the step, the rest 0), `offs` all
      sound `end - start` ticks later, and `last_tick` becomes `end`. The
      lyrics loop has no `offs` and moves `last_tick` to the start. */
  datatype Block = Block(ons: seq<Msg>, offs: seq<Msg>, start: int, end: int)

  /** The loop state: the track so far and `last_tick`. */
  datatype Progress = Progress(track: seq<Timed>, last: int)

  /** The messages one iteration appends after `last`: the step and the
      duration are clamped to at least 0 and at least 1 tick. */
  function Chunk(b: Block, last: int): (r: seq<Timed>)
    ensures |r| == |b.ons| + |b.offs|
    ensures forall j :: 0 <= j < |r| ==> r[j].delta >= 0
  {
    Carry(b.ons, MaxI(0, b.start - last), 0) + Carry(b.offs, MaxI(1, b.end - b.start), 0)
  }

  /** Total number of messages the blocks emit. */
  function Size(bs: seq<Block>): nat {
    if bs == [] then 0 else Size(bs[..|bs| - 1]) + |bs[|bs| - 1].ons| + |bs[|bs| - 1].offs|
  }

  /** The loop run over the blocks, from an empty track at tick 0. */
  function Fold(bs: seq<Block>): (r: Progress)
    ensures |r.track| == Size(bs)
    ensures forall j :: 0 <= j < |r.track| ==> r.track[j].delta >= 0
    ensures bs == [] ==> r == Progress([], 0)
    ensures bs != [] ==> r.last == bs[|bs| - 1].end
  {
    if bs == [] then Progress([], 0)
    else
      var p := Fold(bs[..|bs| - 1]);
      var b := bs[|bs| - 1];
      Progress(p.track + Chunk(b, p.last), b.end)
  }

  lemma FoldSnoc(bs: seq<Block>, b: Block)
    ensures Fold(bs + [b]) == Progress(Fold(bs).track + Chunk(b, Fold(bs).last), b.end)
  {
    assert (bs + [b])[..|bs|] == bs;
  }

  /** The messages of the blocks in emission order. */
  function Flat(bs: seq<Block>): seq<Msg> {
    if bs == [] then [] else Flat(bs[..|bs| - 1]) + bs[|bs| - 1].ons + bs[|bs| - 1].offs
  }

  function Msgs(track: seq<Timed>): (r: seq<Msg>)
    ensures |r| == |track| && forall j :: 0 <= j < |r| ==> r[j] == track[j].msg
  {
    seq(|track|, j requires 0 <= j < |track| => track[j].msg)
  }

  /** Whatever the times, the track holds every block's messages, in
      order, with no message dropped or added. */
  lemma {:induction false} FoldMessages(bs: seq<Block>)
    ensures Msgs(Fold(bs).track) == Flat(bs)
  {
    if bs != [] {
      var front := bs[..|bs| - 1];
      var b := bs[|bs| - 1];
      FoldMessages(front);
      var p := Fold(front);
      var c := Chunk(b, p.last);
      assert Fold(bs).track == p.track + c;
      ChunkMessages(b, p.last);
      MsgsAppend(p.track, c);
    }
  }

  lemma MsgsAppend(a: seq<Timed>, b: seq<Timed>)
    ensures Msgs(a + b) == Msgs(a) + Msgs(b)
  {
  }

  /** A chunk carries its block's ons and then its offs. */
  lemma ChunkMessages(b: Block, last: int)
    ensures Msgs(Chunk(b, last)) == b.ons + b.offs
  {
  }

  /** A block the loop handles without clamping: the offs sound after the
      ons, and a block without offs ends where it starts. */
  predicate WellFormed(b: Block) {
    b.ons != [] && (b.offs == [] ==> b.end == b.start) && (b.offs != [] ==> b.start < b.end)
  }

  /** Blocks in time order, none starting before its predecessor ends. */
  predicate InOrder(bs: seq<Block>) {
    forall k :: 0 <= k < |bs| ==>
      WellFormed(bs[k]) && (k == 0 ==> 0 <= bs[k].start) && (k > 0 ==> bs[k - 1].end <= bs[k].start)
  }

  /** Where the messages are meant to land: each block's ons at its start
      and its offs at its end. */
  function Group(b: Block): seq<Placed> {
    AtTick(b.ons, b.start) + AtTick(b.offs, b.end)
  }

  function Placement(bs: seq<Block>): seq<Placed> {
    if bs == [] then [] else Placement(bs[..|bs| - 1]) + Group(bs[|bs| - 1])
  }

  /** A block's group, placed after tick `last`. */
  lemma GroupDeltas(b: Block, last: int)
    requires WellFormed(b)
    ensures DeltasFrom(Group(b), last) == Carry(b.ons, b.start - last, 0) + Carry(b.offs, b.end - b.start, 0)
    ensures LastTick(Group(b), last) == b.end
  {
    OnsThenOffs(b, last);
  }

  lemma OnsThenOffs(b: Block, last: int)
    requires WellFormed(b)
    ensures DeltasFrom(AtTick(b.ons, b.start) + AtTick(b.offs, b.end), last)
            == Carry(b.ons, b.start - last, 0) + Carry(b.offs, b.end - b.start, 0)
    ensures LastTick(AtTick(b.ons, b.start) + AtTick(b.offs, b.end), last) == b.end
  {
    PairDeltas(b.ons, b.offs, b.start, b.end, last);
    var prev := if b.ons == [] then last else b.start;
    assert prev == b.start;
    assert Carry(b.offs, b.end - prev, 0) == Carry(b.offs, b.end - b.start, 0);
  }

  /** Without clamping, the step and the duration are the plain
      differences. */
  lemma ChunkNoClamp(b: Block, last: int)
    requires WellFormed(b) && last <= b.start
    ensures Chunk(b, last) == Carry(b.ons, b.start - last, 0) + Carry(b.offs, b.end - b.start, 0)
  {
    var d := b.end - b.start;
    assert MaxI(0, b.start - last) == b.start - last;
    if b.offs != [] {
      assert MaxI(1, d) == d;
    } else {
      assert |Carry(b.offs, MaxI(1, d), 0)| == 0 == |Carry(b.offs, d, 0)|;
    }
  }

  /** Without clamping, one iteration's chunk is the deltas of its group. */
  lemma ChunkUnclamped(b: Block, last: int)
    requires WellFormed(b) && last <= b.start
    ensures DeltasFrom(Group(b), last) == Chunk(b, last)
    ensures LastTick(Group(b), last) == b.end
  {
    GroupDeltas(b, last);
    ChunkNoClamp(b, last);
  }

  /** For blocks in order every message lands on its intended tick, and
      `last_tick` is the tick of the last message. */
  lemma {:induction false} FoldPlacement(bs: seq<Block>)
    requires InOrder(bs)
    ensures Fold(bs).track == Deltas(Placement(bs))
    ensures Fold(bs).last == LastTick(Placement(bs), 0)
  {
    if bs != [] {
      var front := bs[..|bs| - 1];
      var b := bs[|bs| - 1];
      assert InOrder(front) by {
        forall k | 0 <= k < |front|
          ensures WellFormed(front[k]) && (k == 0 ==> 0 <= front[k].start) && (k > 0 ==> front[k - 1].end <= front[k].start)
        {
          assert front[k] == bs[k];
          if k > 0 {
            assert front[k - 1] == bs[k - 1];
          }
        }
      }
      FoldPlacement(front);
      var p := Placement(front);
      var last := Fold(front).last;
      assert last <= b.start by {
        assert WellFormed(bs[|bs| - 1]);
        if front != [] {
          assert front[|front| - 1] == bs[|bs| - 2];
        }
      }
      DeltasAppend(p, Group(b), 0);
      LastTickAppend(p, Group(b), 0);
      ChunkUnclamped(b, last);
    }
  }

  /** The chunk of a block with one message and no offs. */
  lemma SingleChunk(b: Block, last: int)
    requires |b.ons| == 1 && b.offs == []
    ensures Chunk(b, last) == [Timed(b.ons[0], MaxI(0, b.start - last))]
  {
    assert |Carry(b.offs, MaxI(1, b.end - b.start), 0)| == 0;
  }

  /** The chunk of a block with one on and one off. */
  lemma PairChunk(b: Block, last: int)
    requires |b.ons| == 1 && |b.offs| == 1
    ensures Chunk(b, last) == [Timed(b.ons[0], MaxI(0, b.start - last)), Timed(b.offs[0], MaxI(1, b.end - b.start))]
  {
  }

  /** Blocks of `m` messages each emit `m` messages per block. */
  lemma {:induction false} SizeUniform(bs: seq<Block>, m: nat)
    requires forall i :: 0 <= i < |bs| ==> |bs[i].ons| + |bs[i].offs| == m
    ensures Size(bs) == m * |bs|
  {
    if bs != [] {
      var front := bs[..|bs| - 1];
      SizeUniform(front, m);
      assert m * |front| + m == m * |bs|;
    }
  }

  /** The track after the first `j` blocks is a prefix of the whole. */
  lemma {:induction false} FoldPrefix(bs: seq<Block>, j: nat)
    requires j <= |bs|
    ensures Fold(bs[..j]).track <= Fold(bs).track
    decreases |bs|
  {
    if j == |bs| {
      assert bs[..j] == bs;
    } else {
      var front := bs[..|bs| - 1];
      FoldPrefix(front, j);
      assert front[..j] == bs[..j];
    }
  }

  /** Block `k`'s chunk sits in the track right after the messages of
      the blocks before it. */
  lemma FoldChunkAt(bs: seq<Block>, k: nat)
    requires k < |bs|
    ensures Size(bs[..k + 1]) == Size(bs[..k]) + |bs[k].ons| + |bs[k].offs| <= |Fold(bs).track|
    ensures Fold(bs).track[Size(bs[..k]) .. Size(bs[..k + 1])] == Chunk(bs[k], Fold(bs[..k]).last)
  {
    assert bs[..k + 1] == bs[..k] + [bs[k]];
    assert bs[..k + 1][..k] == bs[..k];
    FoldSnoc(bs[..k], bs[k]);
    FoldPrefix(bs, k + 1);
    var t := Fold(bs).track;
    var a := Fold(bs[..k]).track;
    var c := Chunk(bs[k], Fold(bs[..k]).last);
    assert a + c == t[..|a| + |c|];
    assert t[|a| .. |a| + |c|] == (a + c)[|a|..];
  }

  /** With `m` messages per block, block `k`'s chunk is at index `m * k`,
      after the end of block `k - 1`. */
  lemma ChunkAtIndex(bs: seq<Block>, m: nat, k: nat)
    requires forall i :: 0 <= i < |bs| ==> |bs[i].ons| + |bs[i].offs| == m
    requires k < |bs|
    ensures |Fold(bs).track| == m * |bs| && m * k + m <= m * |bs|
    ensures Fold(bs).track[m * k .. m * k + m] == Chunk(bs[k], if k == 0 then 0 else bs[k - 1].end)
  {
    FoldChunkAt(bs, k);
    SizeUniform(bs, m);
    SizeUniform(bs[..k], m);
    SizeUniform(bs[..k + 1], m);
    assert m * (k + 1) == m * k + m;
    LastBefore(bs, k);
  }

  /** The same, for a chunk already worked out. */
  lemma ChunkAtIndexIs(bs: seq<Block>, m: nat, k: nat, prev: int, want: seq<Timed>)
    requires forall i :: 0 <= i < |bs| ==> |bs[i].ons| + |bs[i].offs| == m
    requires k < |bs|
    requires prev == if k == 0 then 0 else bs[k - 1].end
    requires Chunk(bs[k], prev) == want
    ensures |Fold(bs).track| == m * |bs| && m * k + m <= m * |bs|
    ensures Fold(bs).track[m * k .. m * k + m] == want
  {
    ChunkAtIndex(bs, m, k);
  }

  /** `last_tick` before block `k`: 0, or the end of the previous block. */
  lemma LastBefore(bs: seq<Block>, k: nat)
    requires k <= |bs|
    ensures Fold(bs[..k]).last == if k == 0 then 0 else bs[k - 1].end
  {
    if k > 0 {
      assert bs[..k][k - 1] == bs[k - 1];
    }
  }

  // ---------------------------------------------------------------------------
  // Lyrics track

  /** A word becomes one lyrics meta message at its start tick, whatever
      its text (an empty text included). */
  function LyricBlock(w: L.WordRow): (r: Block)
    ensures |r.ons| == 1 && r.offs == [] && WellFormed(r)
  {
    var t := Ticks(w.start);
    Block([LyricMeta(w.text)], [], t, t)
  }

  function LyricBlocks(ws: seq<L.WordRow>): (r: seq<Block>)
    ensures |r| == |ws| && forall i :: 0 <= i < |ws| ==> r[i] == LyricBlock(ws[i])
  {
    seq(|ws|, i requires 0 <= i < |ws| => LyricBlock(ws[i]))
  }

  function LyricsTrack(ws: seq<L.WordRow>): seq<Timed> {
    Fold(LyricBlocks(ws)).track
  }

  /** One lyric per word, in order; each waits the clamped distance from
      the previous word's start tick. */
  lemma LyricsTrackShape(ws: seq<L.WordRow>)
    ensures |LyricsTrack(ws)| == |ws|
    ensures forall k :: 0 <= k < |ws| ==>
      LyricsTrack(ws)[k] == Timed(LyricMeta(ws[k].text), MaxI(0, Ticks(ws[k].start) - (if k == 0 then 0 else Ticks(ws[k - 1].start))))
  {
    SizeUniform(LyricBlocks(ws), 1);
    forall k | 0 <= k < |ws|
      ensures LyricsTrack(ws)[k] == Timed(LyricMeta(ws[k].text), MaxI(0, Ticks(ws[k].start) - (if k == 0 then 0 else Ticks(ws[k - 1].start))))
    {
      LyricAt(ws, k);
    }
  }

  lemma LyricAt(ws: seq<L.WordRow>, k: nat)
    requires k < |ws|
    ensures |LyricsTrack(ws)| == |ws|
    ensures LyricsTrack(ws)[k] == Timed(LyricMeta(ws[k].text), MaxI(0, Ticks(ws[k].start) - (if k == 0 then 0 else Ticks(ws[k - 1].start))))
  {
    var bs := LyricBlocks(ws);
    var prev := if k == 0 then 0 else Ticks(ws[k - 1].start);
    var want := [Timed(LyricMeta(ws[k].text), MaxI(0, Ticks(ws[k].start) - prev))];
    SingleChunk(bs[k], prev);
    ChunkAtIndexIs(bs, 1, k, prev, want);
    assert LyricsTrack(ws)[k] == Fold(bs).track[k .. k + 1][0];
  }

  /** Where the words are meant to land: each at its start tick. */
  function LyricsPlaced(ws: seq<L.WordRow>): (r: seq<Placed>)
    ensures |r| == |ws|
  {
    seq(|ws|, k requires 0 <= k < |ws| => Placed(LyricMeta(ws[k].text), Ticks(ws[k].start)))
  }

  lemma {:induction false} LyricsPlacementIs(ws: seq<L.WordRow>)
    ensures Placement(LyricBlocks(ws)) == LyricsPlaced(ws)
  {
    if ws != [] {
      var front := ws[..|ws| - 1];
      assert LyricBlocks(ws)[..|ws| - 1] == LyricBlocks(front);
      LyricsPlacementIs(front);
      var w := ws[|ws| - 1];
      assert Group(LyricBlock(w)) == [Placed(LyricMeta(w.text), Ticks(w.start))];
      assert LyricsPlaced(ws) == LyricsPlaced(front) + [Placed(LyricMeta(w.text), Ticks(w.start))];
    }
  }

  /** Words sorted by start time, from time 0 on, each land exactly on
      their start tick. */
  lemma LyricsOnTime(ws: seq<L.WordRow>)
    requires ws != [] ==> 0.0 <= ws[0].start
    requires forall k :: 0 < k < |ws| ==> ws[k - 1].start <= ws[k].start
    ensures Absolute(LyricsTrack(ws)) == LyricsPlaced(ws)
  {
    var bs := LyricBlocks(ws);
    assert InOrder(bs) by {
      forall k | 0 <= k < |bs|
        ensures WellFormed(bs[k]) && (k == 0 ==> 0 <= bs[k].start) && (k > 0 ==> bs[k - 1].end <= bs[k].start)
      {
        if k == 0 {
          TicksMonotone(0.0, ws[0].start);
          TicksAt120(0.0);
        } else {
          TicksMonotone(ws[k - 1].start, ws[k].start);
        }
      }
    }
    FoldPlacement(bs);
    LyricsPlacementIs(ws);
    AbsoluteDeltas(Placement(bs));
  }

  lemma LyricBlocksSnoc(ws: seq<L.WordRow>, i: nat)
    requires i < |ws|
    ensures LyricBlocks(ws[..i + 1]) == LyricBlocks(ws[..i]) + [LyricBlock(ws[i])]
  {
    assert ws[..i + 1] == ws[..i] + [ws[i]];
  }

  /** One word: its lyric after the clamped step from `last`. */
  method AppendLyric(track: seq<Timed>, last: int, w: L.WordRow) returns (track': seq<Timed>, last': int)
    ensures Progress(track', last') == Progress(track + Chunk(LyricBlock(w), last), LyricBlock(w).end)
  {
    var startTicks := Ticks(w.start);
    var delta := MaxI(0, startTicks - last);
    SingleChunk(LyricBlock(w), last);
    track' := track + [Timed(LyricMeta(w.text), delta)];
    last' := startTicks;
  }

  /** The lyrics loop. */
  method ExportLyricsTrack(words: seq<L.WordRow>) returns (track: seq<Timed>)
    ensures track == LyricsTrack(words)
  {
    track := [];
    var last := 0;
    for i := 0 to |words|
      invariant Progress(track, last) == Fold(LyricBlocks(words[..i]))
    {
      LyricBlocksSnoc(words, i);
      FoldSnoc(LyricBlocks(words[..i]), LyricBlock(words[i]));
      track, last := AppendLyric(track, last, words[i]);
    }
    assert words[..|words|] == words;
  }

  // ---------------------------------------------------------------------------
  // Chord track

  /** `name.split("/")[0]`: the text before the first slash. */
  function BeforeSlash(name: string): (r: string)
    ensures r <= name && '/' !in r
    ensures |r| < |name| ==> name[|r|] == '/'
  {
    match FindFrom(name, '/', 0)
    case None => name
    case Some(i) => name[..i]
  }

  predicate RootChar(c: char) {
    IsAsciiLetter(c) || c == '#'
  }

  /** The ASCII letters and sharps of a token, in order. */
  function KeepRootChars(s: string): (r: string)
    ensures |r| <= |s|
    ensures forall i :: 0 <= i < |r| ==> RootChar(r[i])
  {
    if s == [] then [] else (if RootChar(s[0]) then [s[0]] else []) + KeepRootChars(s[1..])
  }

  /** The root token as `export_midi` derives it: the letters and sharps
      before the slash, cut to two characters when the second is 'b' or
      '#', else to one. */
  function RootOnly(name: string): (r: string)
    ensures |r| <= 2
    ensures r <= KeepRootChars(BeforeSlash(name))
  {
    var k := KeepRootChars(BeforeSlash(name));
    if |k| >= 2 && k[1] == 'b' then k[..2]
    else if |k| > 1 && k[1] == '#' then k[..2]
    else if k == [] then []
    else k[..1]
  }

  const RootMap: map<string, int> := map[
    "C" := 60, "C#" := 61, "Db" := 61, "D" := 62, "D#" := 63, "Eb" := 63,
    "E" := 64, "F" := 65, "F#" := 66, "Gb" := 66, "G" := 67, "G#" := 68, "Ab" := 68,
    "A" := 69, "A#" := 70, "Bb" := 70, "B" := 71]

  /** `root_map.get(root_only, 60)`. */
  function RootKeyOf(token: string): (r: int)
    ensures 60 <= r <= 71
    ensures token !in RootMap ==> r == 60
  {
    if token in RootMap then RootMap[token] else 60
  }

  function RootKey(name: string): int {
    RootKeyOf(RootOnly(name))
  }

  /** Every chord is voiced as a major triad on its root, whatever its
      quality. */
  function TriadNotes(name: string): (r: seq<int>)
    ensures |r| == 3 && r[0] == RootKey(name) && r[1] == r[0] + 4 && r[2] == r[0] + 7
    ensures forall i :: 0 <= i < 3 ==> 60 <= r[i] <= 78
  {
    var k := RootKey(name);
    [k, k + 4, k + 7]
  }

  function NoteOnsAt(notes: seq<int>, velocity: int): (r: seq<Msg>)
    ensures |r| == |notes| && forall i :: 0 <= i < |notes| ==> r[i] == NoteOn(notes[i], velocity)
  {
    seq(|notes|, i requires 0 <= i < |notes| => NoteOn(notes[i], velocity))
  }

  function NoteOffsOf(notes: seq<int>): (r: seq<Msg>)
    ensures |r| == |notes| && forall i :: 0 <= i < |notes| ==> r[i] == NoteOff(notes[i], 0)
  {
    seq(|notes|, i requires 0 <= i < |notes| => NoteOff(notes[i], 0))
  }

  /** A chord: three note_ons at velocity 64 at its start, three note_offs
      at its end. */
  function ChordBlock(c: FC.DetectedChord): (r: Block)
    ensures |r.ons| == 3 && |r.offs| == 3
  {
    var ns := TriadNotes(c.name);
    Block(NoteOnsAt(ns, 64), NoteOffsOf(ns), Ticks(c.start), Ticks(c.end))
  }

  function ChordBlocks(cs: seq<FC.DetectedChord>): (r: seq<Block>)
    ensures |r| == |cs| && forall i :: 0 <= i < |cs| ==> r[i] == ChordBlock(cs[i])
  {
    seq(|cs|, i requires 0 <= i < |cs| => ChordBlock(cs[i]))
  }

  function ChordTrack(cs: seq<FC.DetectedChord>): seq<Timed> {
    Fold(ChordBlocks(cs)).track
  }

  /** What the loop appends for one chord after `last` (the chunk sits at
      index 6 * k for chord k, by `ChunkAtIndex`): the triad's note_ons,
      the first carrying the clamped step from `last`, then its note_offs,
      the first carrying the duration, at least one tick. */
  lemma ChordChunk(c: FC.DetectedChord, last: int)
    ensures var ns := TriadNotes(c.name);
            var st := Ticks(c.start);
            Chunk(ChordBlock(c), last)
            == Carry(NoteOnsAt(ns, 64), MaxI(0, st - last), 0) + Carry(NoteOffsOf(ns), MaxI(1, Ticks(c.end) - st), 0)
  {
  }

  /** Chords whose ticks are in order, each lasting at least a tick. */
  predicate ChordsInOrder(cs: seq<FC.DetectedChord>) {
    forall k :: 0 <= k < |cs| ==>
      Ticks(cs[k].start) < Ticks(cs[k].end)
      && (k == 0 ==> 0 <= Ticks(cs[k].start))
      && (k > 0 ==> Ticks(cs[k - 1].end) <= Ticks(cs[k].start))
  }

  /** Chords in order sound exactly from their start tick to their end
      tick. */
  lemma ChordsOnTime(cs: seq<FC.DetectedChord>)
    requires ChordsInOrder(cs)
    ensures Absolute(ChordTrack(cs)) == Placement(ChordBlocks(cs))
  {
    var bs := ChordBlocks(cs);
    assert InOrder(bs);
    FoldPlacement(bs);
    AbsoluteDeltas(Placement(bs));
  }

  lemma ChordBlocksSnoc(cs: seq<FC.DetectedChord>, i: nat)
    requires i < |cs|
    ensures ChordBlocks(cs[..i + 1]) == ChordBlocks(cs[..i]) + [ChordBlock(cs[i])]
  {
    assert cs[..i + 1] == cs[..i] + [cs[i]];
  }

  /** One chord: the note_on loop then the note_off loop. */
  method AppendChord(track: seq<Timed>, last: int, c: FC.DetectedChord) returns (track': seq<Timed>, last': int)
    ensures Progress(track', last') == Progress(track + Chunk(ChordBlock(c), last), Ticks(c.end))
  {
    var notes := TriadNotes(c.name);
    var startTicks := Ticks(c.start);
    var endTicks := Ticks(c.end);
    var delta := MaxI(0, startTicks - last);
    track' := AppendCarried(track, NoteOnsAt(notes, 64), delta, 0);
    var duration := MaxI(1, endTicks - startTicks);
    track' := AppendCarried(track', NoteOffsOf(notes), duration, 0);
    last' := endTicks;
  }

  /** The chord loop. */
  method ExportChordTrack(chords: seq<FC.DetectedChord>) returns (track: seq<Timed>)
    ensures track == ChordTrack(chords)
  {
    track := [];
    var last := 0;
    for i := 0 to |chords|
      invariant Progress(track, last) == Fold(ChordBlocks(chords[..i]))
    {
      ChordBlocksSnoc(chords, i);
      FoldSnoc(ChordBlocks(chords[..i]), ChordBlock(chords[i]));
      track, last := AppendChord(track, last, chords[i]);
    }
    assert chords[..|chords|] == chords;
  }

  /** A root spelled as a letter and at most one accidental right after
      it. */
  predicate RootSpelling(root: string) {
    1 <= |root| <= 2 && IsAsciiLetter(root[0]) && (|root| == 2 ==> root[1] == 'b' || root[1] == '#')
  }

  /** The root as evidently intended: the token's first character and an
      accidental immediately after it. */
  function RootOnlyCorrected(name: string): (r: string)
    ensures |r| <= 2 && r <= BeforeSlash(name)
  {
    var t := BeforeSlash(name);
    if |t| >= 2 && (t[1] == 'b' || t[1] == '#') then t[..2]
    else if t == [] then []
    else t[..1]
  }

  function RootKeyCorrected(name: string): int {
    RootKeyOf(RootOnlyCorrected(name))
  }

  /** As written, the digits of an extension are dropped before the second
      character is looked at, so the flat or sharp of the extension is
      taken for the root's accidental: D7b9 is voiced on D flat, A7#9 on
      A sharp and E7#9, whose token E# is unknown, on C. */
  lemma FlatNinthAsWritten()
    ensures RootKey("D7b9") == 61 && RootMap["D"] == 62
  {
    NinthKey('D', 'b', "Db");
  }

  lemma SharpNinthAsWritten()
    ensures RootKey("A7#9") == 70 && RootMap["A"] == 69
  {
    NinthKey('A', '#', "A#");
  }

  lemma UnknownNinthAsWritten()
    ensures RootKey("E7#9") == 60 && RootMap["E"] == 64
  {
    NinthKey('E', '#', "E#");
  }

  /** The key a dominant ninth is voiced on is the one its root letter and
      extension accidental spell together. */
  lemma NinthKey(root: char, acc: char, token: string)
    requires IsAsciiLetter(root) && (acc == 'b' || acc == '#')
    requires token == [root, acc]
    ensures RootKey([root, '7', acc, '9']) == RootKeyOf(token)
  {
    NinthRootToken(root, acc);
  }

  /** The token read from a dominant ninth such as "D7b9": the root letter
      followed by the extension's accidental. */
  lemma NinthRootToken(root: char, acc: char)
    requires IsAsciiLetter(root) && (acc == 'b' || acc == '#')
    ensures RootOnly([root, '7', acc, '9']) == [root, acc]
  {
    var name := [root, '7', acc, '9'];
    assert '/' !in name;
    assert BeforeSlash(name) == name;
    assert KeepRootChars(name[3..]) == [];
    assert KeepRootChars(name[2..]) == [acc];
    assert KeepRootChars(name[1..]) == [acc];
    assert KeepRootChars(name) == [root, acc];
  }

  /** Corrected, a symbol's root is its spelled root, whatever the quality
      and bass that follow; D7b9 is voiced on D. */
  lemma RootCorrected(root: string, rest: string)
    requires RootSpelling(root)
    requires |root| == 1 ==> rest == [] || (rest[0] != 'b' && rest[0] != '#')
    ensures RootOnlyCorrected(root + rest) == root
    ensures root in RootMap ==> RootKeyCorrected(root + rest) == RootMap[root]
  {
    var name := root + rest;
    var t := BeforeSlash(name);
    assert |t| >= |root|;
    assert t[..|root|] == root;
    if |root| == 1 && |t| >= 2 {
      assert t[1] == rest[0];
    }
  }

  lemma ExtensionAccidentalCorrected()
    ensures RootKeyCorrected("D7b9") == 62
    ensures RootKeyCorrected("A7#9") == 69
    ensures RootKeyCorrected("E7#9") == 64
  {
    RootCorrected("D", "7b9");
    assert "D" + "7b9" == "D7b9";
    RootCorrected("A", "7#9");
    assert "A" + "7#9" == "A7#9";
    RootCorrected("E", "7#9");
    assert "E" + "7#9" == "E7#9";
  }

  /** A bass note after the slash never changes the voiced root. */
  lemma RootKeyIgnoresBass(name: string, bass: string)
    requires '/' !in name
    ensures RootKey(name + "/" + bass) == RootKey(name)
  {
    var s := name + "/" + bass;
    var t := BeforeSlash(s);
    assert |t| >= |name|;
    assert forall j :: 0 <= j < |t| ==> s[j] != '/';
    assert s[|name|] == '/';
    assert |t| <= |name|;
    assert t == name;
  }

  // ---------------------------------------------------------------------------
  // Melody track

  /** `max(0, min(127, pitch_midi))`. */
  function ClampPitch(p: int): (r: int)
    ensures 0 <= r <= 127
    ensures 0 <= p <= 127 ==> r == p
    ensures p < 0 ==> r == 0
    ensures 127 < p ==> r == 127
  {
    MaxI(0, MinI(127, p))
  }

  /** A note: a note_on at velocity 70 at its start, a note_off at its
      end. */
  function NoteBlock(n: G.AltNoteTimed): (r: Block)
    ensures |r.ons| == 1 && |r.offs| == 1
  {
    var p := ClampPitch(n.pitchMidi);
    Block([NoteOn(p, 70)], [NoteOff(p, 0)], Ticks(n.start), Ticks(n.end))
  }

  function NoteBlocks(ns: seq<G.AltNoteTimed>): (r: seq<Block>)
    ensures |r| == |ns| && forall i :: 0 <= i < |ns| ==> r[i] == NoteBlock(ns[i])
  {
    seq(|ns|, i requires 0 <= i < |ns| => NoteBlock(ns[i]))
  }

  function MelodyTrack(ns: seq<G.AltNoteTimed>): seq<Timed> {
    Fold(NoteBlocks(ns)).track
  }

  /** Two messages per note: a note_on after the clamped step from the
      previous note's end, and a note_off at least one tick later, both at
      the clamped pitch. */
  lemma MelodyTrackShape(ns: seq<G.AltNoteTimed>, k: nat)
    requires k < |ns|
    ensures |MelodyTrack(ns)| == 2 * |ns|
    ensures var p := ClampPitch(ns[k].pitchMidi);
            var st := Ticks(ns[k].start);
            var prev := if k == 0 then 0 else Ticks(ns[k - 1].end);
            MelodyTrack(ns)[2 * k] == Timed(NoteOn(p, 70), MaxI(0, st - prev))
            && MelodyTrack(ns)[2 * k + 1] == Timed(NoteOff(p, 0), MaxI(1, Ticks(ns[k].end) - st))
  {
    var bs := NoteBlocks(ns);
    var p := ClampPitch(ns[k].pitchMidi);
    var st := Ticks(ns[k].start);
    var prev := if k == 0 then 0 else Ticks(ns[k - 1].end);
    var want := [Timed(NoteOn(p, 70), MaxI(0, st - prev)), Timed(NoteOff(p, 0), MaxI(1, Ticks(ns[k].end) - st))];
    PairChunk(bs[k], prev);
    ChunkAtIndexIs(bs, 2, k, prev, want);
    assert MelodyTrack(ns)[2 * k] == Fold(bs).track[2 * k .. 2 * k + 2][0];
    assert MelodyTrack(ns)[2 * k + 1] == Fold(bs).track[2 * k .. 2 * k + 2][1];
  }


  predicate NotesInOrder(ns: seq<G.AltNoteTimed>) {
    forall k :: 0 <= k < |ns| ==>
      Ticks(ns[k].start) < Ticks(ns[k].end)
      && (k == 0 ==> 0 <= Ticks(ns[k].start))
      && (k > 0 ==> Ticks(ns[k - 1].end) <= Ticks(ns[k].start))
  }

  /** Notes in order sound exactly from their start tick to their end
      tick. */
  lemma MelodyOnTime(ns: seq<G.AltNoteTimed>)
    requires NotesInOrder(ns)
    ensures Absolute(MelodyTrack(ns)) == Placement(NoteBlocks(ns))
  {
    var bs := NoteBlocks(ns);
    assert InOrder(bs);
    FoldPlacement(bs);
    AbsoluteDeltas(Placement(bs));
  }

  lemma NoteBlocksSnoc(ns: seq<G.AltNoteTimed>, i: nat)
    requires i < |ns|
    ensures NoteBlocks(ns[..i + 1]) == NoteBlocks(ns[..i]) + [NoteBlock(ns[i])]
  {
    assert ns[..i + 1] == ns[..i] + [ns[i]];
  }

  /** One note: its note_on after the clamped step from `last`, its
      note_off at least a tick later. */
  method AppendNote(track: seq<Timed>, last: int, n: G.AltNoteTimed) returns (track': seq<Timed>, last': int)
    ensures Progress(track', last') == Progress(track + Chunk(NoteBlock(n), last), NoteBlock(n).end)
  {
    var startTicks := Ticks(n.start);
    var endTicks := Ticks(n.end);
    var delta := MaxI(0, startTicks - last);
    track' := track + [Timed(NoteOn(ClampPitch(n.pitchMidi), 70), delta)];
    var duration := MaxI(1, endTicks - startTicks);
    track' := track' + [Timed(NoteOff(ClampPitch(n.pitchMidi), 0), duration)];
    last' := endTicks;
    PairChunk(NoteBlock(n), last);
  }

  /** The melody loop. */
  method ExportMelodyTrack(melody: seq<G.AltNoteTimed>) returns (track: seq<Timed>)
    ensures track == MelodyTrack(melody)
  {
    track := [];
    var last := 0;
    for i := 0 to |melody|
      invariant Progress(track, last) == Fold(NoteBlocks(melody[..i]))
    {
      NoteBlocksSnoc(melody, i);
      FoldSnoc(NoteBlocks(melody[..i]), NoteBlock(melody[i]));
      track, last := AppendNote(track, last, melody[i]);
    }
    assert melody[..|melody|] == melody;
  }

  // ---------------------------------------------------------------------------
  // The file

  /** The file `export_midi` saves: ticks per beat and the tracks. */
  datatype MidiOut = MidiOut(ticksPerBeat: int, tracks: seq<seq<Timed>>)

  /** Python's truthiness of an optional list. */
  predicate Given<T>(xs: Option<seq<T>>) {
    xs.Some? && xs.value != []
  }

  function TempoTrack(): seq<Timed> {
    [Timed(SetTempo(Tempo), 0)]
  }

  function ExportFile(words: seq<L.WordRow>, chords: Option<seq<FC.DetectedChord>>, melody: Option<seq<G.AltNoteTimed>>): MidiOut {
    MidiOut(TicksPerBeat,
      [TempoTrack(), LyricsTrack(words)]
      + (if Given(chords) then [ChordTrack(chords.value)] else [])
      + (if Given(melody) then [MelodyTrack(melody.value)] else []))
  }

  /** The tempo and lyrics tracks are always there; the chord track only
      for a non-empty chord list and the melody track only for a non-empty
      melody, in that order. */
  lemma ExportTracks(words: seq<L.WordRow>, chords: Option<seq<FC.DetectedChord>>, melody: Option<seq<G.AltNoteTimed>>)
    ensures var f := ExportFile(words, chords, melody);
            f.ticksPerBeat == 480
            && |f.tracks| == 2 + (if Given(chords) then 1 else 0) + (if Given(melody) then 1 else 0)
            && f.tracks[0] == [Timed(SetTempo(500000), 0)]
            && |f.tracks[1]| == |words|
            && (Given(chords) ==> f.tracks[2] == ChordTrack(chords.value))
            && (Given(melody) ==> f.tracks[|f.tracks| - 1] == MelodyTrack(melody.value))
  {
    LyricsTrackShape(words);
  }

  /** `export_midi` without the final `save`. */
  method ExportMidi(words: seq<L.WordRow>, chords: Option<seq<FC.DetectedChord>>, melody: Option<seq<G.AltNoteTimed>>) returns (f: MidiOut)
    ensures f == ExportFile(words, chords, melody)
  {
    var lyr := ExportLyricsTrack(words);
    var chordTracks: seq<seq<Timed>> := [];
    if Given(chords) {
      var ch := ExportChordTrack(chords.value);
      chordTracks := [ch];
    }
    var melodyTracks: seq<seq<Timed>> := [];
    if Given(melody) {
      var mel := ExportMelodyTrack(melody.value);
      melodyTracks := [mel];
    }
    f := MidiOut(TicksPerBeat, [TempoTrack(), lyr] + chordTracks + melodyTracks);
  }
}
