/** Chord symbols, the chromagram template bank and the post-processing of
    detected chord segments (`core/chord_detector.py`). The engines
    (Chordino, `librosa` chroma, `np.corrcoef`) are inputs: their chord
    lists and per-frame correlations are parameters. */
module ChordDetector {
  import opened Common
  import opened Tally

  /** One detected chord, the dictionary the detector builds. */
  datatype ChordSeg = ChordSeg(symbol: string, root: string, quality: string, bass: Option<string>,
                               start: real, end: real, duration: real, confidence: real,
                               detectionMethod: string)

  datatype ParsedChord = ParsedChord(root: string, quality: string, bass: Option<string>)

  // ---------------------------------------------------------------------------
  // `_parse_chord_symbol`

  /** The quality text after the root. The source's elif chain maps every
      listed suffix other than '', 'm' and 'm7' to itself, as it does any
      unlisted suffix. */
  function QualityName(q: string): string {
    if q == "" then "maj" else if q == "m" then "min" else if q == "m7" then "min7" else q
  }

  /** Length of the root: two characters when the second is '#' or 'b'. */
  function RootLen(head: string): (n: nat)
    ensures n <= |head|
  {
    if |head| >= 2 && (head[1] == '#' || head[1] == 'b') then 2 else if |head| >= 1 then 1 else 0
  }

  function ParseHead(head: string, bass: Option<string>): ParsedChord {
    var n := RootLen(head);
    ParsedChord(if n == 0 then "C" else head[..n], QualityName(head[n..]), bass)
  }

  /** `s.split('/')[1]` for a slash at index k: the text up to the next
      slash or the end. */
  function AfterSlash(s: string, k: nat): (b: string)
    requires k < |s|
    ensures |b| < |s| - k
    ensures '/' !in b
  {
    match FindFrom(s, '/', k + 1)
    case None => s[k + 1..]
    case Some(m) => s[k + 1..m]
  }

  function ParseChordSymbol(symbol: string): (p: ParsedChord)
    ensures Strip(symbol) == "" ==> p == ParsedChord("C", "maj", None)
    ensures p.bass.Some? <==> Strip(symbol) != "" && '/' in Strip(symbol)
    ensures p.quality != ""
  {
    var s := Strip(symbol);
    if s == "" then ParsedChord("C", "maj", None)
    else
      match FindFrom(s, '/', 0)
      case None => ParseHead(s, None)
      case Some(k) => ParseHead(s[..k], Some(AfterSlash(s, k)))
  }

  /** A well-formed root: a note letter, optionally followed by '#' or 'b'. */
  predicate IsRoot(r: string) {
    (|r| == 1 || (|r| == 2 && (r[1] == '#' || r[1] == 'b'))) && 'A' <= r[0] <= 'G'
  }

  /** A suffix that cannot be mistaken for part of the root. */
  predicate SuffixFits(root: string, q: string) {
    NoSpace(q) && '/' !in q && (|root| == 1 ==> q == [] || (q[0] != '#' && q[0] != 'b'))
  }

  lemma RootLenOf(root: string, q: string)
    requires IsRoot(root) && SuffixFits(root, q)
    ensures RootLen(root + q) == |root|
    ensures (root + q)[..|root|] == root && (root + q)[|root|..] == q
  {
  }

  /** Parsing inverts symbol composition: root + suffix (+ '/' + bass) parses
      back to that root, the suffix's quality name and that bass. */
  lemma ParseComposed(root: string, q: string, bass: Option<string>)
    requires IsRoot(root) && SuffixFits(root, q)
    requires bass.Some? ==> NoSpace(bass.value) && '/' !in bass.value
    ensures var s := root + q + (if bass.Some? then "/" + bass.value else "");
            ParseChordSymbol(s) == ParsedChord(root, QualityName(q), bass)
  {
    if bass.Some? {
      ParseSlashed(root, q, bass.value);
    } else {
      ParsePlain(root, q);
    }
  }

  lemma ParsePlain(root: string, q: string)
    requires IsRoot(root) && SuffixFits(root, q)
    ensures ParseChordSymbol(root + q) == ParsedChord(root, QualityName(q), None)
    ensures ParseChordSymbol(root + q + "") == ParsedChord(root, QualityName(q), None)
  {
    var s := root + q;
    assert s + "" == s;
    assert !IsSpace(s[0]) && !IsSpace(s[|s| - 1]);
    StripNoop(s);
    RootLenOf(root, q);
    assert '/' !in s;
    NoSlashFound(s);
  }

  lemma ParseSlashed(root: string, q: string, bass: string)
    requires IsRoot(root) && SuffixFits(root, q)
    requires NoSpace(bass) && '/' !in bass
    ensures ParseChordSymbol(root + q + ("/" + bass)) == ParsedChord(root, QualityName(q), Some(bass))
  {
    var head := root + q;
    var s := head + "/" + bass;
    assert head + ("/" + bass) == s;
    assert !IsSpace(s[0]) && !IsSpace(s[|s| - 1]);
    StripNoop(s);
    RootLenOf(root, q);
    SlashAt(head, bass);
  }

  /** In a text without a slash, the search for one finds nothing. */
  lemma NoSlashFound(s: string)
    requires '/' !in s
    ensures FindFrom(s, '/', 0) == None
  {
  }

  /** The first slash of head + "/" + bass is the one after the head, and
      the text after it is the bass. */
  lemma SlashAt(head: string, bass: string)
    requires '/' !in head && '/' !in bass
    ensures FindFrom(head + "/" + bass, '/', 0) == Some(|head|)
    ensures (head + "/" + bass)[..|head|] == head
    ensures AfterSlash(head + "/" + bass, |head|) == bass
  {
    var s := head + "/" + bass;
    assert s[..|head|] == head && s[|head|] == '/' && s[|head| + 1..] == bass;
    OnlySlash(s, |head|);
  }

  /** A text whose only slash is at n: the search finds it, and the text
      after it is everything past n. */
  lemma OnlySlash(s: string, n: nat)
    requires n < |s| && s[n] == '/' && '/' !in s[..n] && '/' !in s[n + 1..]
    ensures FindFrom(s, '/', 0) == Some(n)
    ensures AfterSlash(s, n) == s[n + 1..]
  {
    assert forall j :: 0 <= j < n ==> s[j] == s[..n][j];
    FindFromFirst(s, '/', 0, n);
    assert forall j :: n + 1 <= j < |s| ==> s[j] == s[n + 1..][j - n - 1];
    FindFromAbsent(s, '/', n + 1);
  }

  // ---------------------------------------------------------------------------
  // `_get_chord_templates`

  /** Name suffix of each template family, in the order the bank is built:
      major, minor, dominant 7th, major 7th, minor 7th, diminished, augmented. */
  const FamilySuffix: seq<string> := ["", "m", "7", "maj7", "m7", "dim", "aug"]

  const MajorBase: seq<int> := [1, 0, 0, 0, 1, 0, 0, 1, 0, 0, 0, 0]
  const MinorBase: seq<int> := [1, 0, 0, 1, 0, 0, 0, 1, 0, 0, 0, 0]

  /** The dominant-7th base vector as the source writes it: its last 1 is at
      semitone 11, the major seventh (see the Findings of the README). */
  const SeventhBaseAsWritten: seq<int> := [1, 0, 0, 0, 1, 0, 0, 1, 0, 0, 0, 1]

  /** The dominant-7th base vector as intended: root, major third, fifth and
      minor seventh (semitone 10). */
  const DominantSeventhBase: seq<int> := [1, 0, 0, 0, 1, 0, 0, 1, 0, 0, 1, 0]

  /** The base vector of each family, with the dominant 7th corrected. The
      major-7th and minor-7th families reuse the triads, as the source does
      deliberately. */
  const FamilyBase: seq<seq<int>> := [
    MajorBase,
    MinorBase,
    DominantSeventhBase,
    MajorBase,
    MinorBase,
    [1, 0, 0, 1, 0, 0, 1, 0, 0, 0, 0, 0],
    [1, 0, 0, 0, 1, 0, 0, 0, 1, 0, 0, 0]
  ]

  /** Semitone offsets above the root at which each family's base is 1. */
  const FamilyOffsets: seq<set<int>> := [{0, 4, 7}, {0, 3, 7}, {0, 4, 7, 10}, {0, 4, 7}, {0, 3, 7}, {0, 3, 6}, {0, 4, 8}]

  function TemplateName(f: nat, i: nat): string
    requires f < 7 && i < 12
  {
    NoteNames[i] + FamilySuffix[f]
  }

  function Template(f: nat, i: nat): seq<int>
    requires f < 7 && i < 12
  {
    Roll(FamilyBase[f], i)
  }

  lemma BaseOnes(f: nat, d: int)
    requires f < 7 && 0 <= d < 12
    ensures FamilyBase[f][d] == 1 <==> d in FamilyOffsets[f]
    ensures FamilyBase[f][d] == 0 <==> d !in FamilyOffsets[f]
  {
  }

  lemma OffsetsInRange(f: nat)
    requires f < 7
    ensures forall k :: k in FamilyOffsets[f] ==> 0 <= k < 12
  {
  }

  /** The template of family f for root i holds a 1 exactly at (k + i) mod 12
      for each offset k of the family, and 0 elsewhere. */
  lemma TemplateOnes(f: nat, i: nat, j: nat)
    requires f < 7 && i < 12 && j < 12
    ensures Template(f, i)[j] == 1 <==> exists k :: k in FamilyOffsets[f] && (k + i) % 12 == j
    ensures Template(f, i)[j] == 0 || Template(f, i)[j] == 1
  {
    var d := TemplateSource(f, i, j);
    OnlyOffset(f, i, j, d);
    BaseOnes(f, d);
    if d in FamilyOffsets[f] {
      assert (d + i) % 12 == j;
    }
  }

  /** Entry j of the template for root i comes from entry (j - i) mod 12 of
      the family's base vector. */
  lemma TemplateSource(f: nat, i: nat, j: nat) returns (d: nat)
    requires f < 7 && i < 12 && j < 12
    ensures d < 12 && (d + i) % 12 == j
    ensures Template(f, i)[j] == FamilyBase[f][d]
  {
    var x: int := j - i;
    ModBelow(x);
    d := x % 12;
    RollAt(FamilyBase[f], i, d);
    ModAbove(d + i);
  }

  /** Only one offset below 12 lands on j after rolling by i. */
  lemma OnlyOffset(f: nat, i: nat, j: nat, d: nat)
    requires f < 7 && i < 12 && j < 12 && d < 12 && (d + i) % 12 == j
    ensures forall k :: k in FamilyOffsets[f] && (k + i) % 12 == j ==> k == d
  {
    OffsetsInRange(f);
    ModAbove(d + i);
    forall k | k in FamilyOffsets[f] && (k + i) % 12 == j ensures k == d {
      ModAbove(k + i);
    }
  }

  /** The major-7th and minor-7th families reuse the major and minor vectors. */
  lemma SeventhsReuseTriads(i: nat)
    requires i < 12
    ensures Template(3, i) == Template(0, i) && Template(4, i) == Template(1, i)
  {
  }

  /** The bank entry of family f for root i as the source builds it. */
  function TemplateAsWritten(f: nat, i: nat): (t: seq<int>)
    requires f < 7 && i < 12
    ensures f != 2 ==> t == Template(f, i)
  {
    if f == 2 then Roll(SeventhBaseAsWritten, i) else Template(f, i)
  }

  /** The bank in dictionary order, family by family and root by root, with
      the vectors the source builds: every family but the dominant 7th holds
      its intended pattern rotated to its root, and the dominant 7th the
      as-written base rotated to its root. */
  function ChordTemplates(): (bank: seq<(string, seq<int>)>)
    ensures |bank| == 84
    ensures forall k :: 0 <= k < 84 ==> bank[k].0 == TemplateName(k / 12, k % 12)
    ensures forall k :: 0 <= k < 84 && k / 12 != 2 ==> bank[k].1 == Template(k / 12, k % 12)
    ensures forall k :: 24 <= k < 36 ==> bank[k].1 == Roll(SeventhBaseAsWritten, k % 12)
  {
    seq(84, k requires 0 <= k < 84 => (TemplateName(k / 12, k % 12), TemplateAsWritten(k / 12, k % 12)))
  }

  /** As written, the "C7" template lights B (semitone 11) and not B flat
      (semitone 10): it is the C major-7th chord, not the dominant 7th its
      name and comment announce. */
  lemma SeventhAsWrittenIsMajorSeventh()
    ensures TemplateAsWritten(2, 0)[11] == 1 && TemplateAsWritten(2, 0)[10] == 0
    ensures TemplateAsWritten(2, 0) != Template(2, 0)
  {
    assert Template(2, 0)[10] == 1;
  }

  /** The quality name of each template family. */
  const FamilyQuality: seq<string> := ["maj", "min", "7", "maj7", "min7", "dim", "aug"]

  /** Every template name parses back to its own root and the family's
      quality. */
  lemma TemplateNameParses(f: nat, i: nat)
    requires f < 7 && i < 12
    ensures ParseChordSymbol(TemplateName(f, i)) == ParsedChord(NoteNames[i], FamilyQuality[f], None)
  {
    NoteNamesAreRoots(i);
    FamilySuffixFits(f, NoteNames[i]);
    ParsePlain(NoteNames[i], FamilySuffix[f]);
  }

  lemma NoteNamesAreRoots(i: nat)
    requires i < 12
    ensures IsRoot(NoteNames[i])
  {
  }

  lemma FamilySuffixFits(f: nat, root: string)
    requires f < 7
    ensures SuffixFits(root, FamilySuffix[f]) && QualityName(FamilySuffix[f]) == FamilyQuality[f]
  {
  }


  lemma FamilyQualitiesDistinct(f1: nat, f2: nat)
    requires f1 < 7 && f2 < 7 && f1 != f2
    ensures FamilyQuality[f1] != FamilyQuality[f2]
  {
  }

  /** The 84 template names are distinct dictionary keys. */
  lemma TemplateNamesDistinct(f1: nat, i1: nat, f2: nat, i2: nat)
    requires f1 < 7 && i1 < 12 && f2 < 7 && i2 < 12
    requires TemplateName(f1, i1) == TemplateName(f2, i2)
    ensures f1 == f2 && i1 == i2
  {
    TemplateNameParses(f1, i1);
    TemplateNameParses(f2, i2);
    if i1 != i2 {
      NoteNamesDistinct(i1, i2);
    }
    if f1 != f2 {
      FamilyQualitiesDistinct(f1, f2);
    }
  }

  // ---------------------------------------------------------------------------
  // Engine outputs and their filters

  /** One Chordino result: symbol, times and an optional confidence. */
  datatype ChordinoInfo = ChordinoInfo(chord: string, start: real, end: real, confidence: Option<real>)

  function ChordinoChord(c: ChordinoInfo): ChordSeg {
    var p := ParseChordSymbol(c.chord);
    ChordSeg(c.chord, p.root, p.quality, p.bass, c.start, c.end, c.end - c.start,
             c.confidence.GetOr(0.5), "chordino")
  }

  /** Chordino results kept iff their confidence (0.5 when absent) reaches
      `min_confidence`, in order. */
  function ChordinoChords(infos: seq<ChordinoInfo>, minConfidence: real): (r: seq<ChordSeg>)
    ensures |r| <= |infos|
    ensures forall c :: c in r ==> c.confidence >= minConfidence && c.detectionMethod == "chordino"
                                   && c.duration == c.end - c.start
    ensures (forall k :: 0 <= k < |infos| ==> infos[k].confidence.GetOr(0.5) >= minConfidence) ==> |r| == |infos|
  {
    if infos == [] then []
    else
      var rest := ChordinoChords(infos[1..], minConfidence);
      if infos[0].confidence.GetOr(0.5) >= minConfidence then [ChordinoChord(infos[0])] + rest else rest
  }

  /** `max(0.0, min(1.0, (best + 1) / 2))`. */
  function ChromaConfidence(best: real): (c: real)
    ensures 0.0 <= c <= 1.0
    ensures -1.0 <= best <= 1.0 ==> c == (best + 1.0) / 2.0
  {
    MaxR(0.0, MinR(1.0, (best + 1.0) / 2.0))
  }

  /** `best_chord` after the scan over the bank: the first template whose
      correlation strictly beats the running best, starting from -1.0. */
  function BestTemplate(corrs: seq<real>): (r: Option<nat>)
    ensures r.Some? ==> r.value < |corrs|
  {
    FirstBest(corrs, 0, None, -1.0)
  }

  /** When every correlation is computed from its template, no major-7th or
      minor-7th name is ever chosen: each has the same template as the triad
      listed 36 entries earlier, and the scan only moves on a strict gain. */
  lemma RichSeventhsNeverChosen(corr: seq<int> -> real, corrs: seq<real>)
    requires |corrs| == 84
    requires forall k :: 0 <= k < 84 ==> corrs[k] == corr(ChordTemplates()[k].1)
    ensures var r := BestTemplate(corrs);
            r.Some? ==> r.value / 12 != 3 && r.value / 12 != 4
  {
    FirstBestSound(corrs, 0, None, -1.0);
    forall b | 0 <= b < 84 && (b / 12 == 3 || b / 12 == 4)
      ensures BestTemplate(corrs) != Some(b)
    {
      SeventhTiesTriad(corr, corrs, b);
    }
  }

  /** A major-7th or minor-7th entry scores exactly what the triad 36
      entries earlier scores. */
  lemma SeventhTiesTriad(corr: seq<int> -> real, corrs: seq<real>, b: nat)
    requires |corrs| == 84
    requires forall k :: 0 <= k < 84 ==> corrs[k] == corr(ChordTemplates()[k].1)
    requires 36 <= b < 60
    ensures corrs[b - 36] == corrs[b]
  {
    SeventhsReuseTriads(b % 12);
    assert (b - 36) / 12 == b / 12 - 3 && (b - 36) % 12 == b % 12;
    assert ChordTemplates()[b - 36].1 == ChordTemplates()[b].1;
  }

  function BestCorrelation(corrs: seq<real>): real {
    match BestTemplate(corrs)
    case None => -1.0
    case Some(k) => corrs[k]
  }

  datatype ChromaFrame = ChromaFrame(time: real, corrs: seq<real>)

  /** One frame of `_detect_chords_chromagram`: Some(Some chord), Some(None)
      for a frame below `min_confidence`, and None when the source would fail
      (no template beats -1 and the zero confidence still passes the filter,
      so `_parse_chord_symbol(None)` raises). */
  function ChromaFrameChord(fr: ChromaFrame, windowSize: real, minConfidence: real): (r: Option<Option<ChordSeg>>)
    requires |fr.corrs| == 84
    ensures r.Some? && r.value.Some? ==>
              r.value.value.confidence >= minConfidence && 0.0 <= r.value.value.confidence <= 1.0
              && r.value.value.start == fr.time && r.value.value.end == fr.time + windowSize
              && r.value.value.duration == windowSize
    ensures r.None? ==> minConfidence <= 0.0
  {
    var conf := ChromaConfidence(BestCorrelation(fr.corrs));
    if conf < minConfidence then Some(None)
    else match BestTemplate(fr.corrs)
      case None => None
      case Some(k) =>
        var name := TemplateName(k / 12, k % 12);
        var p := ParseChordSymbol(name);
        Some(Some(ChordSeg(name, p.root, p.quality, p.bass, fr.time, fr.time + windowSize,
                           windowSize, conf, "chromagram")))
  }

  // ---------------------------------------------------------------------------
  // `_simplify_chords`

  const NaturalRoots: seq<string> := ["C", "D", "E", "F", "G", "A", "B"]
  const ExtendedSuffixes: seq<string> :=
    ["7", "m7", "maj7", "dim", "aug", "9", "m9", "maj9", "11", "13", "sus2", "sus4", "add9", "add11"]

  /** The keys of the standardisation table. */
  const MappingKeys: set<string> :=
    (set r, q | r in NoteNames && q in ["", "m"] :: r + q)
    + (set r, q | r in NaturalRoots && q in ExtendedSuffixes :: r + q)

  /** The standardisation table: every symbol it lists maps to itself. */
  const ChordMapping: map<string, string> := map s | s in MappingKeys :: s

  /** Looking a symbol up in the table, or keeping it when unlisted. */
  function Standardize(symbol: string): (r: string)
    ensures r == symbol
  {
    MappingIsIdentity(symbol);
    if symbol in ChordMapping then ChordMapping[symbol] else symbol
  }

  lemma MappingIsIdentity(s: string)
    ensures s in ChordMapping ==> ChordMapping[s] == s
  {
  }

  /** Re-parsing one chord after standardisation. */
  function Reparse(c: ChordSeg): (r: ChordSeg)
    ensures r.symbol == c.symbol
    ensures r.(root := c.root, quality := c.quality, bass := c.bass) == c
    ensures (r.root, r.quality, r.bass) == (ParseChordSymbol(c.symbol).root, ParseChordSymbol(c.symbol).quality, ParseChordSymbol(c.symbol).bass)
  {
    var s := Standardize(c.symbol);
    var p := ParseChordSymbol(s);
    c.(symbol := s, root := p.root, quality := p.quality, bass := p.bass)
  }

  /** One chord as the loop rewrites it is its re-parse. */
  lemma ReparseIs(c: ChordSeg, symbol: string, p: ParsedChord)
    requires symbol == c.symbol && p == ParseChordSymbol(symbol)
    ensures c.(symbol := symbol, root := p.root, quality := p.quality, bass := p.bass) == Reparse(c)
  {
  }

  /** The source mutates each chord dictionary in place. With the flag off
      nothing changes; with it on, symbols are kept (the table is the
      identity) and root, quality and bass are re-derived from the symbol. */
  method SimplifyChords(chords: array<ChordSeg>, simplification: bool)
    modifies chords
    ensures !simplification ==> chords[..] == old(chords[..])
    ensures simplification ==> forall i :: 0 <= i < chords.Length ==> chords[i] == Reparse(old(chords[i]))
  {
    if !simplification {
      return;
    }
    ghost var orig := chords[..];
    var i := 0;
    while i < chords.Length
      invariant 0 <= i <= chords.Length
      invariant forall k :: 0 <= k < i ==> chords[k] == Reparse(orig[k])
      invariant forall k :: i <= k < chords.Length ==> chords[k] == orig[k]
    {
      var c := chords[i];
      var symbol := Standardize(c.symbol);
      var p := ParseChordSymbol(symbol);
      ReparseIs(c, symbol, p);
      chords[i] := c.(symbol := symbol, root := p.root, quality := p.quality, bass := p.bass);
      i := i + 1;
    }
  }

  // ---------------------------------------------------------------------------
  // `_merge_similar_chords`

  const MergeGap: real := 0.1
  const DefaultMinDuration: real := 0.5

  predicate Similar(cur: ChordSeg, next: ChordSeg) {
    cur.symbol == next.symbol && AbsR(next.start - cur.end) < MergeGap
  }

  function Absorb(cur: ChordSeg, next: ChordSeg): ChordSeg {
    cur.(end := next.end, duration := next.end - cur.start,
         confidence := (cur.confidence + next.confidence) / 2.0)
  }

  /** The running chord `cur` followed by the chords still to visit. */
  function MergeFrom(cur: ChordSeg, rest: seq<ChordSeg>, minDuration: real): (r: seq<ChordSeg>)
    ensures |r| <= |rest| + 1
    ensures forall c :: c in r ==> c.duration >= minDuration
    decreases |rest|
  {
    if rest == [] then (if cur.duration >= minDuration then [cur] else [])
    else if Similar(cur, rest[0]) then MergeFrom(Absorb(cur, rest[0]), rest[1..], minDuration)
    else (if cur.duration >= minDuration then [cur] else []) + MergeFrom(rest[0], rest[1..], minDuration)
  }

  /** Every merged chord is named after the running chord or a later one. */
  lemma {:induction false} MergeFromSymbols(cur: ChordSeg, rest: seq<ChordSeg>, minDuration: real)
    ensures forall c :: c in MergeFrom(cur, rest, minDuration) ==>
              c.symbol == cur.symbol || exists k :: 0 <= k < |rest| && rest[k].symbol == c.symbol
    decreases |rest|
  {
    if rest != [] {
      if Similar(cur, rest[0]) {
        MergeFromSymbols(Absorb(cur, rest[0]), rest[1..], minDuration);
      } else {
        MergeFromSymbols(rest[0], rest[1..], minDuration);
      }
      forall c | c in MergeFrom(cur, rest, minDuration) && c.symbol != cur.symbol && c.symbol != rest[0].symbol
        ensures exists k :: 0 <= k < |rest| && rest[k].symbol == c.symbol
      {
        var k :| 0 <= k < |rest[1..]| && rest[1..][k].symbol == c.symbol;
        assert rest[k + 1].symbol == c.symbol;
      }
    }
  }

  /** The merged, duration-filtered chord list (`_merge_similar_chords`). */
  function MergeSimilarChords(chords: seq<ChordSeg>, minDuration: real): (r: seq<ChordSeg>)
  {
    if chords == [] then [] else MergeFrom(chords[0], chords[1..], minDuration)
  }

  /** The merge is never longer than its input, empty for empty input, and
      every survivor is at least `min_duration` long and named after some
      input chord. */
  lemma MergeSimilarChordsSpec(chords: seq<ChordSeg>, minDuration: real)
    ensures |MergeSimilarChords(chords, minDuration)| <= |chords|
    ensures chords == [] ==> MergeSimilarChords(chords, minDuration) == []
    ensures forall c :: c in MergeSimilarChords(chords, minDuration) ==> c.duration >= minDuration
    ensures forall c :: c in MergeSimilarChords(chords, minDuration) ==>
              exists k :: 0 <= k < |chords| && chords[k].symbol == c.symbol
  {
    if chords != [] {
      MergeFromSymbols(chords[0], chords[1..], minDuration);
      forall c | c in MergeSimilarChords(chords, minDuration) && c.symbol != chords[0].symbol
        ensures exists k :: 0 <= k < |chords| && chords[k].symbol == c.symbol
      {
        var k :| 0 <= k < |chords[1..]| && chords[1..][k].symbol == c.symbol;
        assert chords[k + 1].symbol == c.symbol;
      }
    }
  }

  /** When no neighbours are similar the merge is exactly the duration
      filter. */
  lemma {:induction false} MergeWithoutNeighboursFilters(cur: ChordSeg, rest: seq<ChordSeg>, minDuration: real)
    requires |rest| > 0 ==> !Similar(cur, rest[0])
    requires forall k :: 0 <= k < |rest| - 1 ==> !Similar(rest[k], rest[k + 1])
    ensures MergeFrom(cur, rest, minDuration) ==
            (if cur.duration >= minDuration then [cur] else []) + LongEnough(rest, minDuration)
    decreases |rest|
  {
    if rest != [] {
      MergeWithoutNeighboursFilters(rest[0], rest[1..], minDuration);
    }
  }

  function LongEnough(cs: seq<ChordSeg>, minDuration: real): (r: seq<ChordSeg>)
    ensures |r| <= |cs|
  {
    if cs == [] then []
    else (if cs[0].duration >= minDuration then [cs[0]] else []) + LongEnough(cs[1..], minDuration)
  }

  /** A run of same-symbol chords, each starting within 0.1 s of the
      previous end, collapses into one chord spanning the run. */
  lemma {:induction false} MergeRun(cur: ChordSeg, rest: seq<ChordSeg>, minDuration: real)
    requires rest != []
    requires forall k :: 0 <= k < |rest| ==> rest[k].symbol == cur.symbol
    requires AbsR(rest[0].start - cur.end) < MergeGap
    requires forall k :: 0 <= k < |rest| - 1 ==> AbsR(rest[k + 1].start - rest[k].end) < MergeGap
    ensures var r := MergeFrom(cur, rest, minDuration);
            |r| <= 1
            && (r != [] ==> r[0].start == cur.start && r[0].end == rest[|rest| - 1].end
                            && r[0].duration == r[0].end - r[0].start && r[0].symbol == cur.symbol)
            && (r == [] <==> rest[|rest| - 1].end - cur.start < minDuration)
    decreases |rest|
  {
    var a := Absorb(cur, rest[0]);
    if |rest| > 1 {
      MergeRun(a, rest[1..], minDuration);
    }
  }

  lemma MergeFromStep(cur: ChordSeg, next: ChordSeg, rest: seq<ChordSeg>, minDuration: real)
    ensures MergeFrom(cur, [next] + rest, minDuration) ==
            if Similar(cur, next) then MergeFrom(Absorb(cur, next), rest, minDuration)
            else (if cur.duration >= minDuration then [cur] else []) + MergeFrom(next, rest, minDuration)
  {
    assert ([next] + rest)[0] == next && ([next] + rest)[1..] == rest;
  }

  /** The source's loop with its `current_chord` accumulator. */
  method MergeSimilarChordsLoop(chords: seq<ChordSeg>, minDuration: real) returns (merged: seq<ChordSeg>)
    ensures merged == MergeSimilarChords(chords, minDuration)
  {
    if chords == [] {
      return [];
    }
    merged := [];
    var current := chords[0];
    var i := 1;
    while i < |chords|
      invariant 1 <= i <= |chords|
      invariant merged + MergeFrom(current, chords[i..], minDuration) == MergeSimilarChords(chords, minDuration)
    {
      var next := chords[i];
      if Similar(current, next) {
        AbsorbStep(merged, current, chords, i, minDuration);
        current := Absorb(current, next);
      } else {
        KeepStep(merged, current, chords, i, minDuration);
        if current.duration >= minDuration {
          merged := merged + [current];
        }
        current := next;
      }
      i := i + 1;
    }
    assert chords[i..] == [];
    if current.duration >= minDuration {
      merged := merged + [current];
    }
  }

  /** The loop's step when the next chord continues the running one. */
  lemma AbsorbStep(merged: seq<ChordSeg>, cur: ChordSeg, chords: seq<ChordSeg>, i: nat, minDuration: real)
    requires i < |chords| && Similar(cur, chords[i])
    ensures merged + MergeFrom(cur, chords[i..], minDuration) ==
            merged + MergeFrom(Absorb(cur, chords[i]), chords[i + 1..], minDuration)
  {
    assert chords[i..] == [chords[i]] + chords[i + 1..];
    MergeFromStep(cur, chords[i], chords[i + 1..], minDuration);
  }

  /** The loop's step when the next chord starts a new run: the running
      chord is kept if long enough. */
  lemma KeepStep(merged: seq<ChordSeg>, cur: ChordSeg, chords: seq<ChordSeg>, i: nat, minDuration: real)
    requires i < |chords| && !Similar(cur, chords[i])
    ensures merged + MergeFrom(cur, chords[i..], minDuration) ==
            (if cur.duration >= minDuration then merged + [cur] else merged) + MergeFrom(chords[i], chords[i + 1..], minDuration)
  {
    assert chords[i..] == [chords[i]] + chords[i + 1..];
    MergeFromStep(cur, chords[i], chords[i + 1..], minDuration);
  }


  // ---------------------------------------------------------------------------
  // `analyze_chord_progression`

  datatype Analysis = Analysis(key: string, confidence: real,
                               commonProgressions: seq<(string, nat)>,
                               chordFrequencies: seq<(string, nat)>)

  function Roots(chords: seq<ChordSeg>): (r: seq<string>)
    ensures |r| == |chords| && forall i :: 0 <= i < |chords| ==> r[i] == chords[i].root
  {
    seq(|chords|, i requires 0 <= i < |chords| => chords[i].root)
  }

  function ProgressionText(a: string, b: string): string { a + " -> " + b }

  /** The n - 1 adjacent-root progressions. */
  function Progressions(roots: seq<string>): (r: seq<string>)
    ensures |r| == if |roots| < 2 then 0 else |roots| - 1
    ensures forall i :: 0 <= i < |r| ==> r[i] == ProgressionText(roots[i], roots[i + 1])
  {
    if |roots| < 2 then [] else seq(|roots| - 1, i requires 0 <= i < |roots| - 1 => ProgressionText(roots[i], roots[i + 1]))
  }

  lemma ShareBounds(c: nat, n: nat)
    requires 0 < c <= n
    ensures 0.0 < c as real / n as real <= 1.0
  {
    var r := c as real / n as real;
    assert r * n as real == c as real;
    assert (1.0 - r) * n as real == n as real - c as real;
  }

  /** The source's progression loop and its counting. */
  method CommonProgressions(roots: seq<string>) returns (common: seq<(string, nat)>)
    ensures RankedCounts(common, Progressions(roots), 5)
    ensures |common| == MinI(5, |TallyOf(Progressions(roots))|)
  {
    var progressions: seq<string> := [];
    var i := 0;
    while i < |roots| - 1
      invariant 0 <= i <= MaxI(0, |roots| - 1)
      invariant |progressions| == i
      invariant forall k :: 0 <= k < i ==> progressions[k] == ProgressionText(roots[k], roots[k + 1])
    {
      progressions := progressions + [ProgressionText(roots[i], roots[i + 1])];
      i := i + 1;
    }
    assert progressions == Progressions(roots);
    var progCounts := CountLoop(progressions);
    common := TopK(progCounts, 5);
    TopKRanked(progCounts, progressions, 5);
  }

  /** `analyze_chord_progression`: the key is the first-seen most frequent
      root, its confidence that root's share of the chords, the frequencies
      the roots' tally, and the common progressions the five most frequent
      adjacent-root pairs. */
  method AnalyzeChordProgression(chords: seq<ChordSeg>) returns (a: Analysis)
    ensures chords == [] ==> a == Analysis("Unknown", 0.0, [], [])
    ensures chords != [] ==> a.chordFrequencies == TallyOf(Roots(chords))
    ensures chords != [] ==> IsMode(Roots(chords), a.key)
    ensures chords != [] ==> a.confidence == Occ(Roots(chords), a.key) as real / |chords| as real
    ensures chords != [] ==> 0.0 < a.confidence <= 1.0
    ensures RankedCounts(a.commonProgressions, Progressions(Roots(chords)), 5)
    ensures |a.commonProgressions| == MinI(5, |TallyOf(Progressions(Roots(chords)))|)
  {
    if chords == [] {
      return Analysis("Unknown", 0.0, [], []);
    }
    var roots := seq(|chords|, k requires 0 <= k < |chords| => chords[k].root);
    assert roots == Roots(chords);
    var counts := CountLoop(roots);
    TallyNonEmpty(roots);
    ModeOfTally(counts, roots);
    var m := FirstMax(counts);
    var key := counts[m].0;
    ShareBounds(counts[m].1, |chords|);
    var confidence := MinR(1.0, counts[m].1 as real / |chords| as real);
    var common := CommonProgressions(roots);
    a := Analysis(key, confidence, common, counts);
  }
}
