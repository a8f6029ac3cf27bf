/** The CCLI exporter (`export/ccli_exporter.py`): the metadata block, the
    chord/lyrics timeline table, the ChordPro and lyrics-only sections
    (filled greedily to a maximum line length), and the chord chart.
    Writing the file is not modelled: `Export` returns the text. */
module CcliExport {
  import opened Common
  import opened CcliPunctuation
  import opened CcliWrap
  import Tally

  /** A word as the exporter reads it; a missing end is None. */
  datatype CWord = CWord(text: string, start: real, end: Option<real>)

  /** A chord as the exporter reads it; a missing end is None. */
  datatype CChord = CChord(symbol: string, start: real, end: Option<real>)

  /** The exporter's settings. */
  datatype CcliOptions = CcliOptions(includeMetadata: bool, chordFormat: string, removePunctuation: bool,
                                     maxLineLength: int)

  // ---------------------------------------------------------------------------
  // Chords for words

  /** A word without an end lasts half a second, a chord without one a
      second. */
  function WordEnd(w: CWord): real {
    w.end.GetOr(w.start + 0.5)
  }

  function ChordEnd(c: CChord): real {
    c.end.GetOr(c.start + 1.0)
  }

  /** The chord's and the word's spans meet (ends included). */
  predicate Overlaps(w: CWord, c: CChord) {
    c.start <= WordEnd(w) && ChordEnd(c) >= w.start
  }

  /** The first chord in list order that overlaps the word. */
  function FirstOverlap(w: CWord, chords: seq<CChord>): (r: Option<nat>)
    ensures r.Some? ==> r.value < |chords| && Overlaps(w, chords[r.value])
                        && forall j :: 0 <= j < r.value ==> !Overlaps(w, chords[j])
    ensures r.None? ==> forall j :: 0 <= j < |chords| ==> !Overlaps(w, chords[j])
  {
    if chords == [] then None
    else if Overlaps(w, chords[0]) then Some(0)
    else
      var r := FirstOverlap(w, chords[1..]);
      assert forall j :: 1 <= j < |chords| ==> chords[j] == chords[1..][j - 1];
      if r.Some? then Some(r.value + 1) else None
  }

  /** The symbol `_find_chord_for_word` returns. */
  function ChordFor(w: CWord, chords: seq<CChord>): Option<string> {
    match FirstOverlap(w, chords)
    case Some(i) => Some(chords[i].symbol)
    case None => None
  }

  /** `_find_chord_for_word`. */
  method FindChordForWord(w: CWord, chords: seq<CChord>) returns (symbol: Option<string>)
    ensures symbol == ChordFor(w, chords)
  {
    for i := 0 to |chords|
      invariant forall j :: 0 <= j < i ==> !Overlaps(w, chords[j])
    {
      var c := chords[i];
      if c.start <= WordEnd(w) && ChordEnd(c) >= w.start {
        return Some(c.symbol);
      }
    }
    return None;
  }

  /** `_format_chord_brackets`, `_format_chord_inline` and
      `_format_chord_separate`, chosen by the chord format; any format
      other than "brackets" and "inline" is treated as "separate". */
  function FormatChord(format: string, chord: string, word: string): (r: string)
    ensures EndsWith(r, word)
    ensures format == "brackets" ==>
              (|r| == |chord| + |word| + 2 && r[0] == '[' && r[1..|chord| + 1] == chord && r[|chord| + 1] == ']')
    ensures format == "inline" ==> |r| == |chord| + |word| && StartsWith(r, chord)
    ensures format != "brackets" && format != "inline" ==>
              |r| == |chord| + |word| + 1 && StartsWith(r, chord) && r[|chord|] == ' '
  {
    if format == "brackets" then "[" + chord + "]" + word
    else if format == "inline" then chord + word
    else chord + " " + word
  }

  // ---------------------------------------------------------------------------
  // Section text

  /** `c * n`. */
  function Repeat(c: char, n: nat): (r: string)
    ensures |r| == n && forall i :: 0 <= i < n ==> r[i] == c
  {
    if n == 0 then [] else Repeat(c, n - 1) + [c]
  }

  /** The widths of the underlines and of the table's columns. */
  const SectionRule: nat := 50
  const TableRule: nat := 70
  const TableDashes: nat := 55
  const ChordColumn: nat := 15
  const LyricsColumn: nat := 40

  /** A section: its title, an underline, a blank line, then its lines,
      joined by newlines. */
  function Section(title: string, body: seq<string>): string {
    Join([title, Repeat('=', SectionRule), ""] + body, "\n")
  }

  /** The text of a word, cleaned when requested. */
  function WordText(w: CWord, removePunctuation: bool): string {
    if removePunctuation then CleanSpec(w.text) else w.text
  }

  /** The lyrics-only section's tokens. */
  function LyricTokens(words: seq<CWord>, removePunctuation: bool): (r: seq<string>)
    ensures |r| == |words| && forall i :: 0 <= i < |words| ==> r[i] == WordText(words[i], removePunctuation)
  {
    seq(|words|, i requires 0 <= i < |words| => WordText(words[i], removePunctuation))
  }

  /** A ChordPro token: the word, with its chord when it has a non-empty
      one. */
  function ChordProToken(w: CWord, chords: seq<CChord>, opts: CcliOptions): string {
    var text := WordText(w, opts.removePunctuation);
    var chord := ChordFor(w, chords);
    if chord.Some? && chord.value != "" then FormatChord(opts.chordFormat, chord.value, text) else text
  }

  function ChordProTokens(words: seq<CWord>, chords: seq<CChord>, opts: CcliOptions): (r: seq<string>)
    ensures |r| == |words| && forall i :: 0 <= i < |words| ==> r[i] == ChordProToken(words[i], chords, opts)
  {
    seq(|words|, i requires 0 <= i < |words| => ChordProToken(words[i], chords, opts))
  }

  /** The sections a list of tokens fills. */
  function FilledSection(title: string, words: seq<CWord>, tokens: seq<string>, maxLen: int): string {
    if words == [] then "" else Section(title, Wrapped(tokens, maxLen))
  }

  /** The header and the wrapped lines joined by newlines are the filled
      section. */
  lemma FilledFromLines(title: string, words: seq<CWord>, tokens: seq<string>, maxLen: int, lines: seq<string>)
    requires words != [] && lines == [title, Repeat('=', SectionRule), ""] + Wrapped(tokens, maxLen)
    ensures Join(lines, "\n") == FilledSection(title, words, tokens, maxLen)
  {
  }

  const LyricsTitle := "LYRICS ONLY"
  const ChordProTitle := "CHORDPRO FORMAT"

  /** `_create_lyrics_only_section`. */
  method LyricsOnlySection(words: seq<CWord>, opts: CcliOptions) returns (text: string)
    ensures text == FilledSection(LyricsTitle, words, LyricTokens(words, opts.removePunctuation), opts.maxLineLength)
  {
    if words == [] {
      return "";
    }
    var lines := LyricsLines([LyricsTitle, Repeat('=', SectionRule), ""], words, opts);
    FilledFromLines(LyricsTitle, words, LyricTokens(words, opts.removePunctuation), opts.maxLineLength, lines);
    text := Join(lines, "\n");
  }

  /** The word loop of the lyrics-only section: after the header, each
      word's text filled greedily. */
  method LyricsLines(header: seq<string>, words: seq<CWord>, opts: CcliOptions) returns (lines: seq<string>)
    ensures lines == header + Wrapped(LyricTokens(words, opts.removePunctuation), opts.maxLineLength)
  {
    ghost var tokens := LyricTokens(words, opts.removePunctuation);
    lines := header;
    var current := "";
    for i := 0 to |words|
      invariant |header| <= |lines| && lines[..|header|] == header
      invariant WrapFold(tokens, opts.maxLineLength, i) == WrapState(lines[|header|..], current)
    {
      var wordText := words[i].text;
      if opts.removePunctuation {
        wordText := RemovePunctuation(wordText);
      }
      assert wordText == tokens[i];
      lines, current := AddToken(lines, current, wordText, opts.maxLineLength, |header|);
    }
    FinishLines(header, lines, current, tokens, opts.maxLineLength);
    if current != "" {
      lines := lines + [current];
    }
  }

  /** `_create_chordpro_section`. */
  method ChordProSection(words: seq<CWord>, chords: seq<CChord>, opts: CcliOptions) returns (text: string)
    ensures text == FilledSection(ChordProTitle, words, ChordProTokens(words, chords, opts), opts.maxLineLength)
  {
    if words == [] {
      return "";
    }
    var lines := ChordProLines([ChordProTitle, Repeat('=', SectionRule), ""], words, chords, opts);
    FilledFromLines(ChordProTitle, words, ChordProTokens(words, chords, opts), opts.maxLineLength, lines);
    text := Join(lines, "\n");
  }

  /** The word loop of the ChordPro section: after the header, each word
      with its chord filled greedily. */
  method ChordProLines(header: seq<string>, words: seq<CWord>, chords: seq<CChord>, opts: CcliOptions)
    returns (lines: seq<string>)
    ensures lines == header + Wrapped(ChordProTokens(words, chords, opts), opts.maxLineLength)
  {
    ghost var tokens := ChordProTokens(words, chords, opts);
    lines := header;
    var current := "";
    for i := 0 to |words|
      invariant |header| <= |lines| && lines[..|header|] == header
      invariant WrapFold(tokens, opts.maxLineLength, i) == WrapState(lines[|header|..], current)
    {
      var formatted := ChordProWord(words[i], chords, opts);
      assert formatted == tokens[i];
      lines, current := AddToken(lines, current, formatted, opts.maxLineLength, |header|);
    }
    FinishLines(header, lines, current, tokens, opts.maxLineLength);
    if current != "" {
      lines := lines + [current];
    }
  }

  /** One word of the ChordPro loop: its text, cleaned when requested,
      with its chord when it has a non-empty one. */
  method ChordProWord(w: CWord, chords: seq<CChord>, opts: CcliOptions) returns (formatted: string)
    ensures formatted == ChordProToken(w, chords, opts)
  {
    var wordText := w.text;
    if opts.removePunctuation {
      wordText := RemovePunctuation(wordText);
    }
    var chordSymbol := FindChordForWord(w, chords);
    formatted := wordText;
    if chordSymbol.Some? && chordSymbol.value != "" {
      formatted := FormatChord(opts.chordFormat, chordSymbol.value, wordText);
    }
  }

  /** A word with no overlapping chord, or whose chord symbol is empty,
      is emitted as its bare text. */
  lemma BareWhenNoChord(w: CWord, chords: seq<CChord>, opts: CcliOptions)
    requires forall j :: 0 <= j < |chords| && Overlaps(w, chords[j]) ==> chords[j].symbol == ""
    ensures ChordProToken(w, chords, opts) == WordText(w, opts.removePunctuation)
  {
  }

  // ---------------------------------------------------------------------------
  // Chord chart

  function Flatten<T>(xs: seq<seq<T>>): seq<T> {
    if xs == [] then [] else Flatten(xs[..|xs| - 1]) + xs[|xs| - 1]
  }

  /** The grouping loop's variables: finished sections, the section being
      filled and the previous chord's start. */
  datatype GroupState = GroupState(sections: seq<seq<CChord>>, current: seq<CChord>, time: real)

  /** One pass for chord `c`: a gap of more than two seconds after the
      previous chord starts a new section. */
  function GroupStep(st: GroupState, c: CChord): GroupState {
    if c.start - st.time > 2.0 && st.current != [] then GroupState(st.sections + [st.current], [c], c.start)
    else GroupState(st.sections, st.current + [c], c.start)
  }

  function GroupFold(chords: seq<CChord>, n: nat): GroupState
    requires n <= |chords|
  {
    if n == 0 then GroupState([], [], 0.0) else GroupStep(GroupFold(chords, n - 1), chords[n - 1])
  }

  /** The chart's sections. */
  function ChartSections(chords: seq<CChord>): seq<seq<CChord>> {
    var st := GroupFold(chords, |chords|);
    if st.current != [] then st.sections + [st.current] else st.sections
  }

  /** Consecutive chords of a section start at most two seconds apart. */
  predicate Tight(g: seq<CChord>) {
    forall j :: 0 <= j < |g| - 1 ==> g[j + 1].start - g[j].start <= 2.0
  }

  /** Each section after the first starts more than two seconds after the
      previous section's last chord. */
  predicate Separated(gs: seq<seq<CChord>>) {
    forall k :: 1 <= k < |gs| && gs[k] != [] && gs[k - 1] != [] ==>
      gs[k][0].start - gs[k - 1][|gs[k - 1]| - 1].start > 2.0
  }

  lemma FlattenSnocC(gs: seq<seq<CChord>>, g: seq<CChord>)
    ensures Flatten(gs + [g]) == Flatten(gs) + g
  {
    assert (gs + [g])[..|gs|] == gs;
  }

  lemma {:induction false} GroupFoldLast(chords: seq<CChord>, n: nat)
    requires n <= |chords|
    ensures var st := GroupFold(chords, n);
            (n == 0 ==> st.sections == [] && st.current == [])
            && (n > 0 ==> st.current != [] && st.time == chords[n - 1].start
                          && st.current[|st.current| - 1] == chords[n - 1])
            && (forall k :: 0 <= k < |st.sections| ==> st.sections[k] != [])
  {
    if n > 0 {
      GroupFoldLast(chords, n - 1);
    }
  }

  lemma {:induction false} GroupFoldFlat(chords: seq<CChord>, n: nat)
    requires n <= |chords|
    ensures var st := GroupFold(chords, n);
            Flatten(st.sections + [st.current]) == chords[..n]
  {
    if n > 0 {
      GroupFoldFlat(chords, n - 1);
      var st := GroupFold(chords, n - 1);
      var c := chords[n - 1];
      assert chords[..n] == chords[..n - 1] + [c];
      FlattenSnocC(st.sections, st.current);
      if c.start - st.time > 2.0 && st.current != [] {
        FlattenSnocC(st.sections + [st.current], [c]);
      } else {
        FlattenSnocC(st.sections, st.current + [c]);
      }
    }
  }

  lemma {:induction false} GroupFoldTight(chords: seq<CChord>, n: nat)
    requires n <= |chords|
    ensures var st := GroupFold(chords, n);
            (forall k :: 0 <= k < |st.sections| ==> Tight(st.sections[k])) && Tight(st.current)
  {
    if n > 0 {
      GroupFoldTight(chords, n - 1);
      GroupFoldLast(chords, n - 1);
      var st := GroupFold(chords, n - 1);
      var c := chords[n - 1];
      if !(c.start - st.time > 2.0 && st.current != []) {
        var cur := st.current + [c];
        forall j | 0 <= j < |cur| - 1
          ensures cur[j + 1].start - cur[j].start <= 2.0
        {
          if j + 1 < |st.current| {
            assert cur[j] == st.current[j] && cur[j + 1] == st.current[j + 1];
          }
        }
      }
    }
  }

  lemma {:induction false} GroupFoldSeparated(chords: seq<CChord>, n: nat)
    requires n <= |chords|
    ensures var st := GroupFold(chords, n);
            Separated(st.sections + [st.current])
  {
    if n > 0 {
      GroupFoldSeparated(chords, n - 1);
      GroupFoldLast(chords, n - 1);
      var st := GroupFold(chords, n - 1);
      var gs := st.sections + [st.current];
      var c := chords[n - 1];
      if c.start - st.time > 2.0 && st.current != [] {
        var gs': seq<seq<CChord>> := gs + [[c]];
        forall k | 1 <= k < |gs'| && gs'[k] != [] && gs'[k - 1] != []
          ensures gs'[k][0].start - gs'[k - 1][|gs'[k - 1]| - 1].start > 2.0
        {
          if k < |gs| {
            assert gs'[k] == gs[k] && gs'[k - 1] == gs[k - 1];
          }
        }
      } else {
        var cur := st.current + [c];
        var gs': seq<seq<CChord>> := st.sections + [cur];
        forall k | 1 <= k < |gs'| && gs'[k] != [] && gs'[k - 1] != []
          ensures gs'[k][0].start - gs'[k - 1][|gs'[k - 1]| - 1].start > 2.0
        {
          assert gs'[k - 1] == gs[k - 1];
          if k < |gs'| - 1 {
            assert gs'[k] == gs[k];
          } else {
            assert st.current != [];
            assert gs'[k][0] == gs[k][0];
          }
        }
      }
    }
  }

  /** The sections cover the chords in order, none is empty, chords within
      a section start at most two seconds apart, and a section starts
      exactly where a gap of more than two seconds occurs. */
  lemma ChartSectionsSpec(chords: seq<CChord>)
    ensures var gs := ChartSections(chords);
            Flatten(gs) == chords
            && (forall k :: 0 <= k < |gs| ==> gs[k] != [] && Tight(gs[k]))
            && Separated(gs)
  {
    GroupFoldLast(chords, |chords|);
    GroupFoldFlat(chords, |chords|);
    GroupFoldTight(chords, |chords|);
    GroupFoldSeparated(chords, |chords|);
    assert chords[..|chords|] == chords;
    var st := GroupFold(chords, |chords|);
    if st.current == [] {
      assert st.sections + [st.current] == st.sections + [[]];
      FlattenSnocC(st.sections, []);
      assert Flatten(st.sections) + [] == Flatten(st.sections);
    }
  }

  lemma {:induction false} FirstIndexPrefix(xs: seq<string>, n: nat, x: string)
    requires n <= |xs| && x in xs[..n]
    ensures Tally.FirstIndex(xs, x) == Tally.FirstIndex(xs[..n], x)
  {
    var i := Tally.FirstIndex(xs[..n], x);
    assert xs[..n][i] == x;
    assert forall j :: 0 <= j < n ==> xs[..n][j] == xs[j];
  }

  /** The distinct symbols of a list in order of first appearance. */
  function Dedupe(xs: seq<string>): (r: seq<string>)
    ensures forall x :: x in r <==> x in xs
    ensures forall i, j :: 0 <= i < j < |r| ==> r[i] != r[j]
  {
    if xs == [] then []
    else
      var d := Dedupe(xs[..|xs| - 1]);
      assert forall x :: x in xs <==> x in xs[..|xs| - 1] || x == xs[|xs| - 1] by {
        assert xs == xs[..|xs| - 1] + [xs[|xs| - 1]];
      }
      if xs[|xs| - 1] in d then d else d + [xs[|xs| - 1]]
  }

  /** Every element of `r` occurs in `xs`, and `r` lists them in the order
      of their first occurrence in `xs`. */
  predicate InFirstOrder(xs: seq<string>, r: seq<string>) {
    (forall x :: x in r ==> x in xs)
    && forall i, j :: 0 <= i < j < |r| ==> Tally.FirstIndex(xs, r[i]) < Tally.FirstIndex(xs, r[j])
  }

  /** The kept symbols follow the order in which each first appears. */
  lemma {:induction false} DedupeOrder(xs: seq<string>)
    ensures InFirstOrder(xs, Dedupe(xs))
  {
    if xs != [] {
      var p := xs[..|xs| - 1];
      var last := xs[|xs| - 1];
      DedupeOrder(p);
      var d := Dedupe(p);
      var r := Dedupe(xs);
      assert p == xs[..|xs| - 1];
      forall i | 0 <= i < |d|
        ensures Tally.FirstIndex(xs, d[i]) == Tally.FirstIndex(p, d[i])
      {
        assert d[i] in p;
        FirstIndexPrefix(xs, |xs| - 1, d[i]);
      }
      forall i, j | 0 <= i < j < |d|
        ensures Tally.FirstIndex(xs, d[i]) < Tally.FirstIndex(xs, d[j])
      {
        assert InFirstOrder(p, d);
        assert Tally.FirstIndex(p, d[i]) < Tally.FirstIndex(p, d[j]);
      }
      if last !in d {
        assert last !in p;
        assert Tally.FirstIndex(xs, last) == |xs| - 1;
        assert r == d + [last];
        forall i, j | 0 <= i < j < |r|
          ensures Tally.FirstIndex(xs, r[i]) < Tally.FirstIndex(xs, r[j])
        {
          assert r[i] == d[i];
          if j < |d| {
            assert r[j] == d[j];
          } else {
            assert d[i] in p && r[j] == last;
            assert Tally.FirstIndex(xs, d[i]) == Tally.FirstIndex(p, d[i]) < |p|;
          }
        }
      }
    }
  }

  function Symbols(g: seq<CChord>): (r: seq<string>)
    ensures |r| == |g| && forall i :: 0 <= i < |g| ==> r[i] == g[i].symbol
  {
    seq(|g|, i requires 0 <= i < |g| => g[i].symbol)
  }

  /** The lines of section i of the chart. */
  function SectionLines(i: nat, g: seq<CChord>): seq<string> {
    var unique := Dedupe(Symbols(g));
    ["Section " + NatToString(i + 1) + ":"] + (if unique != [] then ["  " + Join(unique, " | ")] else []) + [""]
  }

  function ChartBody(gs: seq<seq<CChord>>, n: nat): seq<string>
    requires n <= |gs|
  {
    if n == 0 then [] else ChartBody(gs, n - 1) + SectionLines(n - 1, gs[n - 1])
  }

  const ChartTitle := "CHORD CHART"

  function ChartSpec(chords: seq<CChord>): string {
    if chords == [] then "" else
    var gs := ChartSections(chords);
    Section(ChartTitle, ChartBody(gs, |gs|))
  }

  /** The grouping loop of `_create_chord_chart_section`. */
  method GroupChords(chords: seq<CChord>) returns (sections: seq<seq<CChord>>)
    ensures sections == ChartSections(chords)
  {
    sections := [];
    var current: seq<CChord> := [];
    var currentTime := 0.0;
    for i := 0 to |chords|
      invariant GroupState(sections, current, currentTime) == GroupFold(chords, i)
    {
      var chordTime := chords[i].start;
      if chordTime - currentTime > 2.0 && current != [] {
        sections := sections + [current];
        current := [];
      }
      current := current + [chords[i]];
      currentTime := chordTime;
    }
    if current != [] {
      sections := sections + [current];
    }
  }

  /** The de-duplicating loop for one section. */
  method UniqueSymbols(section: seq<CChord>) returns (unique: seq<string>)
    ensures unique == Dedupe(Symbols(section))
  {
    unique := [];
    for j := 0 to |section|
      invariant unique == Dedupe(Symbols(section)[..j])
    {
      assert Symbols(section)[..j + 1][..j] == Symbols(section)[..j];
      var symbol := section[j].symbol;
      if symbol !in unique {
        unique := unique + [symbol];
      }
    }
    assert Symbols(section)[..|section|] == Symbols(section);
  }

  /** The lines the chart loop writes for section i. */
  method SectionBlock(i: nat, section: seq<CChord>) returns (lines: seq<string>)
    ensures lines == SectionLines(i, section)
  {
    var unique := UniqueSymbols(section);
    lines := ["Section " + NatToString(i + 1) + ":"];
    if unique != [] {
      lines := lines + ["  " + Join(unique, " | ")];
    }
    lines := lines + [""];
  }

  /** `_create_chord_chart_section`. */
  method ChordChartSection(chords: seq<CChord>) returns (text: string)
    ensures text == ChartSpec(chords)
  {
    if chords == [] {
      return "";
    }
    var sections := GroupChords(chords);
    var header := [ChartTitle, Repeat('=', SectionRule), ""];
    var chartLines := header;
    for i := 0 to |sections|
      invariant chartLines == header + ChartBody(sections, i)
    {
      var lines := SectionBlock(i, sections[i]);
      ChartBodyNext(header, sections, i, lines);
      chartLines := chartLines + lines;
    }
    text := Join(chartLines, "\n");
  }

  /** One more section's lines extend the chart body by that section. */
  lemma ChartBodyNext(header: seq<string>, gs: seq<seq<CChord>>, i: nat, lines: seq<string>)
    requires i < |gs| && lines == SectionLines(i, gs[i])
    ensures header + ChartBody(gs, i) + lines == header + ChartBody(gs, i + 1)
  {
    ConcatAssoc(header, ChartBody(gs, i), lines);
  }

  // ---------------------------------------------------------------------------
  // Timeline table

  /** A row of the timeline: a chord or a word, its start, its symbol or
      text, and its position in the list built (chords first, then words). */
  datatype Event = Event(isChord: bool, time: real, name: string, order: nat)

  /** The events in the order they are appended: every chord, then every
      word. */
  function Events(words: seq<CWord>, chords: seq<CChord>): (r: seq<Event>)
    ensures |r| == |chords| + |words|
    ensures forall i :: 0 <= i < |chords| ==> r[i] == Event(true, chords[i].start, chords[i].symbol, i)
    ensures forall i :: 0 <= i < |words| ==>
              r[|chords| + i] == Event(false, words[i].start, words[i].text, |chords| + i)
  {
    seq(|chords| + |words|, i requires 0 <= i < |chords| + |words| =>
      if i < |chords| then Event(true, chords[i].start, chords[i].symbol, i)
      else Event(false, words[i - |chords|].start, words[i - |chords|].text, i))
  }

  /** `a` comes before `b` in a stable sort by time of a list in which
      `order` is the position. */
  predicate Before(a: Event, b: Event) {
    a.time < b.time || (a.time == b.time && a.order < b.order)
  }

  predicate Ordered(xs: seq<Event>) {
    forall i :: 0 <= i < |xs| - 1 ==> Before(xs[i], xs[i + 1])
  }

  /** `e` placed before the first element that starts later. */
  function Insert(xs: seq<Event>, e: Event): (r: seq<Event>)
    ensures multiset(r) == multiset(xs) + multiset{e}
    ensures |r| == |xs| + 1
    ensures r != [] && (r[0] == e || (xs != [] && r[0] == xs[0]))
  {
    if xs == [] then [e]
    else if xs[0].time > e.time then [e] + xs
    else
      assert xs == [xs[0]] + xs[1..];
      [xs[0]] + Insert(xs[1..], e)
  }

  lemma {:induction false} InsertOrdered(xs: seq<Event>, e: Event)
    requires Ordered(xs)
    requires forall i :: 0 <= i < |xs| ==> xs[i].order < e.order
    ensures Ordered(Insert(xs, e))
  {
    if xs != [] && xs[0].time <= e.time {
      var tail := xs[1..];
      assert forall i :: 0 <= i < |tail| ==> tail[i] == xs[i + 1];
      InsertOrdered(tail, e);
      var r := Insert(xs, e);
      var t := Insert(tail, e);
      assert r == [xs[0]] + t;
      forall i | 0 <= i < |r| - 1
        ensures Before(r[i], r[i + 1])
      {
        if i == 0 {
          assert r[1] == t[0];
        } else {
          assert r[i] == t[i - 1] && r[i + 1] == t[i];
        }
      }
    }
  }

  /** `events.sort(key=lambda x: x[1])`: a stable sort by start time. */
  function StableSort(xs: seq<Event>): (r: seq<Event>)
    ensures multiset(r) == multiset(xs) && |r| == |xs|
  {
    if xs == [] then []
    else
      assert xs == xs[..|xs| - 1] + [xs[|xs| - 1]];
      Insert(StableSort(xs[..|xs| - 1]), xs[|xs| - 1])
  }

  predicate Numbered(xs: seq<Event>) {
    forall i :: 0 <= i < |xs| ==> xs[i].order == i
  }

  lemma {:induction false} StableSortOrdered(xs: seq<Event>)
    requires Numbered(xs)
    ensures Ordered(StableSort(xs))
  {
    if xs != [] {
      var p := xs[..|xs| - 1];
      var e := xs[|xs| - 1];
      assert Numbered(p);
      StableSortOrdered(p);
      var s := StableSort(p);
      forall i | 0 <= i < |s|
        ensures s[i].order < e.order
      {
        assert s[i] in multiset(p);
        assert s[i] in p;
      }
      InsertOrdered(s, e);
    }
  }

  lemma {:induction false} OrderedPairwise(xs: seq<Event>, i: nat, j: nat)
    requires Ordered(xs) && i < j < |xs|
    ensures Before(xs[i], xs[j])
    decreases j - i
  {
    if j > i + 1 {
      OrderedPairwise(xs, i + 1, j);
    }
  }

  /** The sorted timeline keeps every event, is ordered by start time, and
      at equal times keeps the order of the list built: chords before
      words, each kind in its own list order. */
  lemma TimelineSorted(words: seq<CWord>, chords: seq<CChord>)
    ensures var r := StableSort(Events(words, chords));
            multiset(r) == multiset(Events(words, chords))
            && (forall i, j :: 0 <= i < j < |r| ==> r[i].time <= r[j].time)
            && (forall i, j :: 0 <= i < j < |r| && r[i].time == r[j].time ==> r[i].order < r[j].order)
            && (forall i, j :: 0 <= i < j < |r| && r[i].time == r[j].time && r[j].isChord ==> r[i].isChord)
  {
    var ev := Events(words, chords);
    var r := StableSort(ev);
    StableSortOrdered(ev);
    OrderedAllPairs(r);
    ChordOrders(words, chords, r);
  }

  /** In an ordered list every earlier event comes before every later one. */
  lemma OrderedAllPairs(r: seq<Event>)
    requires Ordered(r)
    ensures forall i, j :: 0 <= i < j < |r| ==> Before(r[i], r[j])
  {
    forall i, j | 0 <= i < j < |r|
      ensures Before(r[i], r[j])
    {
      OrderedPairwise(r, i, j);
    }
  }

  /** A rearrangement of the events still has the chords at the positions
      before the words. */
  lemma ChordOrders(words: seq<CWord>, chords: seq<CChord>, r: seq<Event>)
    requires multiset(r) == multiset(Events(words, chords))
    ensures forall k :: 0 <= k < |r| ==> (r[k].isChord <==> r[k].order < |chords|)
  {
    var ev := Events(words, chords);
    forall k | 0 <= k < |r|
      ensures r[k].isChord <==> r[k].order < |chords|
    {
      assert r[k] in multiset(ev);
      assert r[k] in ev;
    }
  }

  /** `f"{s:<n}"`: padded with spaces to at least n characters. */
  function PadRight(s: string, n: nat): (r: string)
    ensures |r| == MaxI(|s|, n) && StartsWith(r, s)
    ensures forall i :: |s| <= i < |r| ==> r[i] == ' '
  {
    if |s| >= n then s else s + Repeat(' ', n - |s|)
  }

  /** A table row without timing columns. */
  function Row(e: Event): string {
    if e.isChord then PadRight(e.name, ChordColumn) + " " + PadRight("", LyricsColumn)
    else PadRight("", ChordColumn) + " " + PadRight(e.name, LyricsColumn)
  }

  function Rows(es: seq<Event>): (r: seq<string>)
    ensures |r| == |es| && forall i :: 0 <= i < |es| ==> r[i] == Row(es[i])
  {
    seq(|es|, i requires 0 <= i < |es| => Row(es[i]))
  }

  const TableTitle := "CHORD AND LYRICS TIME ALIGNMENT TABLE"

  function TableHeader(): seq<string> {
    [TableTitle, Repeat('=', TableRule), "", PadRight("Chord", ChordColumn) + " " + PadRight("Lyrics", LyricsColumn),
     Repeat('-', TableDashes)]
  }

  function TableSpec(words: seq<CWord>, chords: seq<CChord>): string {
    if words == [] then "" else Join(TableHeader() + Rows(StableSort(Events(words, chords))), "\n")
  }

  /** The two loops that list the chords, then the words. */
  method BuildEvents(words: seq<CWord>, chords: seq<CChord>) returns (events: seq<Event>)
    ensures events == Events(words, chords)
  {
    events := ChordEvents(words, chords);
    events := AddWordEvents(words, chords, events);
  }

  /** The first loop: one event per chord. */
  method ChordEvents(words: seq<CWord>, chords: seq<CChord>) returns (events: seq<Event>)
    ensures events == Events(words, chords)[..|chords|]
  {
    ghost var all := Events(words, chords);
    events := [];
    for i := 0 to |chords|
      invariant events == all[..i]
    {
      var e := Event(true, chords[i].start, chords[i].symbol, i);
      assert e == all[i];
      TakeNext(all, i);
      events := events + [e];
    }
  }

  /** The second loop: one event per word, after the chords. */
  method AddWordEvents(words: seq<CWord>, chords: seq<CChord>, chordEvents: seq<Event>) returns (events: seq<Event>)
    requires chordEvents == Events(words, chords)[..|chords|]
    ensures events == Events(words, chords)
  {
    ghost var all := Events(words, chords);
    events := chordEvents;
    for i := 0 to |words|
      invariant events == all[..|chords| + i]
    {
      var e := Event(false, words[i].start, words[i].text, |chords| + i);
      assert e == all[|chords| + i];
      TakeNext(all, |chords| + i);
      events := events + [e];
    }
    assert all[..|chords| + |words|] == all;
  }

  /** The row loop of the table. */
  method TableRows(sorted: seq<Event>) returns (rows: seq<string>)
    ensures rows == Rows(sorted)
  {
    rows := [];
    for k := 0 to |sorted|
      invariant rows == Rows(sorted[..k])
    {
      assert Rows(sorted[..k + 1]) == Rows(sorted[..k]) + [Row(sorted[k])];
      rows := rows + [Row(sorted[k])];
    }
    assert sorted[..|sorted|] == sorted;
  }

  /** `_create_chord_lyrics_table` without the timing columns. */
  method ChordLyricsTable(words: seq<CWord>, chords: seq<CChord>) returns (text: string)
    ensures text == TableSpec(words, chords)
  {
    if words == [] {
      return "";
    }
    var events := BuildEvents(words, chords);
    var sorted := StableSort(events);
    var rows := TableRows(sorted);
    text := Join(TableHeader() + rows, "\n");
  }

  // ---------------------------------------------------------------------------
  // Metadata block

  /** The detected key. The percentage text of the confidence comes from
      Python's float formatting and is a parameter. */
  datatype KeyInput = KeyInput(root: Option<string>, mode: Option<string>, confidence: real, confidenceText: string)

  /** What the metadata block reads. Float formatting (`tempoText`) and the
      parsed creation date (`processed`, None when it does not parse) are
      parameters. */
  datatype MetaInput = MetaInput(sourceAudio: string, key: Option<KeyInput>, tempo: Option<real>, tempoText: string,
                                 duration: Option<real>, hasMetadata: bool, processed: Option<string>,
                                 engine: string)

  /** The path with its trailing slashes removed. */
  function TrimSlashes(p: string): (r: string)
    ensures |r| <= |p| && r == p[..|r|] && (r == [] || r[|r| - 1] != '/')
  {
    if p != [] && p[|p| - 1] == '/' then TrimSlashes(p[..|p| - 1]) else p
  }

  /** The text after the last '/'. */
  function AfterSlash(p: string): (r: string)
    ensures '/' !in r && EndsWith(p, r)
  {
    if p == [] then []
    else if p[|p| - 1] == '/' then []
    else
      var r := AfterSlash(p[..|p| - 1]);
      assert p[..|p| - 1][|p| - 1 - |r|..] == r;
      r + [p[|p| - 1]]
  }

  function LastDot(s: string): (r: Option<nat>)
    ensures r.Some? ==> r.value < |s| && s[r.value] == '.' && forall k :: r.value < k < |s| ==> s[k] != '.'
    ensures r.None? ==> '.' !in s
  {
    if s == [] then None
    else if s[|s| - 1] == '.' then Some(|s| - 1)
    else
      var r := LastDot(s[..|s| - 1]);
      assert forall k :: 0 <= k < |s| - 1 ==> s[k] == s[..|s| - 1][k];
      r
  }

  /** `Path(p).stem`: the last component without its last suffix; a
      leading or trailing dot is not a suffix. */
  function Stem(p: string): (r: string)
    ensures '/' !in r
    ensures StartsWith(AfterSlash(TrimSlashes(p)), r)
  {
    var name := AfterSlash(TrimSlashes(p));
    match LastDot(name)
    case Some(i) => if 0 < i < |name| - 1 then name[..i] else name
    case None => name
  }

  /** `f"{n:02d}"` for 0 <= n < 100. */
  function TwoDigits(n: nat): (r: string)
    requires n < 100
    ensures |r| == 2 && IsDigit(r[0]) && IsDigit(r[1])
  {
    if n < 10 then "0" + NatToString(n)
    else
      assert |NatToString(n / 10)| == 1;
      NatToString(n)
  }

  /** `int(d // 60)`. */
  function Minutes(d: real): int {
    (d / 60.0).Floor
  }

  /** `int(d % 60)`: Python's remainder takes the sign of the divisor. */
  function Seconds(d: real): int {
    Trunc(d - 60.0 * Minutes(d) as real)
  }

  /** The duration splits into whole minutes and whole seconds below 60,
      dropping less than a second. */
  lemma DurationSplit(d: real)
    ensures 0 <= Seconds(d) < 60
    ensures 60 * Minutes(d) + Seconds(d) <= d.Floor
    ensures (60 * Minutes(d) + Seconds(d)) as real <= d < (60 * Minutes(d) + Seconds(d)) as real + 1.0
  {
    var m := Minutes(d);
    assert m as real <= d / 60.0 < m as real + 1.0;
    assert 60.0 * m as real <= d < 60.0 * m as real + 60.0;
  }

  function DurationText(d: real): string {
    DurationSplit(d);
    IntToString(Minutes(d)) + ":" + TwoDigits(Seconds(d))
  }

  /** The key is reported unless its root is 'Unknown'. */
  predicate ShowsKey(m: MetaInput) {
    m.key.Some? && m.key.value.root != Some("Unknown")
  }

  function TitleLines(m: MetaInput): seq<string> {
    if m.sourceAudio != "" then ["Title: " + Stem(m.sourceAudio)] else []
  }

  function KeyLines(m: MetaInput): seq<string> {
    if ShowsKey(m) then
      var k := m.key.value;
      ["Key: " + k.root.GetOr("") + " " + k.mode.GetOr("major")]
      + (if k.confidence > 0.0 then ["Key Confidence: " + k.confidenceText] else [])
    else []
  }

  function TempoLines(m: MetaInput): seq<string> {
    if m.tempo.Some? && m.tempo.value != 0.0 then ["Tempo: " + m.tempoText + " BPM"] else []
  }

  function DurationLines(m: MetaInput): seq<string> {
    if m.duration.Some? && m.duration.value != 0.0 then ["Duration: " + DurationText(m.duration.value)] else []
  }

  function ProcessingLines(m: MetaInput): seq<string> {
    if m.hasMetadata then
      (if m.processed.Some? then ["Processed: " + m.processed.value] else [])
      + (if m.engine != "" then ["Transcription: " + m.engine] else [])
    else []
  }

  /** The lines of `_create_metadata_section`. */
  function MetadataLines(m: MetaInput): (r: seq<string>)
    ensures m.sourceAudio == "" && !ShowsKey(m) && m.tempo.None? && m.duration.None? && !m.hasMetadata ==> r == []
  {
    TitleLines(m) + KeyLines(m) + TempoLines(m) + DurationLines(m) + ProcessingLines(m)
  }

  function MetadataSection(m: MetaInput): string {
    var lines := MetadataLines(m);
    if lines == [] then "" else Join(lines, "\n") + "\n"
  }

  /** No line starts with "Key: ". */
  predicate NoKeyLine(ls: seq<string>) {
    forall i :: 0 <= i < |ls| ==> !StartsWith(ls[i], "Key: ")
  }

  /** A line that starts with a letter other than 'K'. */
  lemma OtherInitial(l: string)
    requires |l| > 0 && l[0] != 'K'
    ensures !StartsWith(l, "Key: ")
  {
    if |l| >= 5 {
      assert l[..5][0] == l[0];
    }
  }

  lemma NoKeyConcat(a: seq<string>, b: seq<string>)
    requires NoKeyLine(a) && NoKeyLine(b)
    ensures NoKeyLine(a + b)
  {
    assert forall i :: |a| <= i < |a + b| ==> (a + b)[i] == b[i - |a|];
  }

  lemma {:induction false} OtherPartsNoKey(m: MetaInput)
    ensures NoKeyLine(TitleLines(m)) && NoKeyLine(TempoLines(m)) && NoKeyLine(DurationLines(m))
    ensures NoKeyLine(ProcessingLines(m))
  {
    if m.sourceAudio != "" {
      OtherInitial("Title: " + Stem(m.sourceAudio));
    }
    if m.tempo.Some? && m.tempo.value != 0.0 {
      OtherInitial("Tempo: " + m.tempoText + " BPM");
    }
    if m.duration.Some? && m.duration.value != 0.0 {
      OtherInitial("Duration: " + DurationText(m.duration.value));
    }
    if m.hasMetadata {
      var a := if m.processed.Some? then ["Processed: " + m.processed.value] else [];
      var b := if m.engine != "" then ["Transcription: " + m.engine] else [];
      if m.processed.Some? {
        OtherInitial("Processed: " + m.processed.value);
      }
      if m.engine != "" {
        OtherInitial("Transcription: " + m.engine);
      }
      NoKeyConcat(a, b);
    }
  }

  /** A "Key: " line appears exactly when a key is known and its root is
      not 'Unknown'. */
  lemma KeyLineShown(m: MetaInput)
    ensures ShowsKey(m) <==> !NoKeyLine(MetadataLines(m))
  {
    var t := TitleLines(m);
    var lines := MetadataLines(m);
    if ShowsKey(m) {
      assert lines[|t|] == KeyLines(m)[0];
      assert StartsWith(lines[|t|], "Key: ");
    } else {
      OtherPartsNoKey(m);
      NoKeyConcat(t, KeyLines(m));
      NoKeyConcat(t + KeyLines(m), TempoLines(m));
      NoKeyConcat(t + KeyLines(m) + TempoLines(m), DurationLines(m));
      NoKeyConcat(t + KeyLines(m) + TempoLines(m) + DurationLines(m), ProcessingLines(m));
    }
  }

  // ---------------------------------------------------------------------------
  // Export

  /** The sections of a list that are not empty, in order. */
  function NonEmpty(ss: seq<string>): (r: seq<string>)
    ensures forall i :: 0 <= i < |r| ==> r[i] != ""
  {
    if ss == [] then [] else (if ss[0] == "" then [] else [ss[0]]) + NonEmpty(ss[1..])
  }

  lemma {:induction false} NonEmptyAppend(a: seq<string>, b: seq<string>)
    ensures NonEmpty(a + b) == NonEmpty(a) + NonEmpty(b)
  {
    if a != [] {
      assert (a + b)[1..] == a[1..] + b;
      NonEmptyAppend(a[1..], b);
    } else {
      assert a + b == b;
    }
  }

  /** A section as the file lists it: nothing when it is empty, otherwise
      itself, followed by a blank line when `blank` is set. */
  function Part(text: string, blank: bool): seq<string> {
    if text == "" then [] else [text] + (if blank then [""] else [])
  }

  function Parts(texts: seq<string>, blanks: seq<bool>): seq<string>
    requires |texts| == |blanks|
  {
    if texts == [] then []
    else Parts(texts[..|texts| - 1], blanks[..|blanks| - 1]) + Part(texts[|texts| - 1], blanks[|blanks| - 1])
  }

  /** Blank lines only separate: the non-empty parts are exactly the
      non-empty sections, in order, each once; and every blank part follows
      a section. */
  lemma {:induction false} PartsSections(texts: seq<string>, blanks: seq<bool>)
    requires |texts| == |blanks|
    ensures var r := Parts(texts, blanks);
            NonEmpty(r) == NonEmpty(texts)
            && (forall i :: 0 <= i < |r| && r[i] == "" ==> i > 0 && r[i - 1] != "")
  {
    if texts != [] {
      var n := |texts| - 1;
      var x := texts[n];
      PartsSections(texts[..n], blanks[..n]);
      var prev := Parts(texts[..n], blanks[..n]);
      var p := Part(x, blanks[n]);
      var r := prev + p;
      NonEmptyAppend(prev, p);
      if x != "" && blanks[n] {
        NonEmptyAppend([x], [""]);
      }
      assert texts == texts[..n] + [x];
      NonEmptyAppend(texts[..n], [x]);
      forall i | 0 <= i < |r| && r[i] == ""
        ensures i > 0 && r[i - 1] != ""
      {
        if i < |prev| {
          assert prev[i] == "";
          assert r[i - 1] == prev[i - 1];
        } else {
          assert i == |prev| + 1 && r[i - 1] == x;
        }
      }
    }
  }

  /** The file's parts, in order: the metadata (when wanted and not
      empty), the table, the ChordPro section and the chart (each followed
      by a blank line when not empty), then the lyrics-only section. */
  function FileParts(includeMetadata: bool, metaText: string, table: string, chordpro: string, chart: string,
                     lyrics: string): seq<string> {
    Part(if includeMetadata then metaText else "", false) + Part(table, true) + Part(chordpro, true)
    + Part(chart, true) + Part(lyrics, false)
  }

  lemma PartsSnoc(xs: seq<string>, bs: seq<bool>, x: string, b: bool)
    requires |xs| == |bs|
    ensures Parts(xs + [x], bs + [b]) == Parts(xs, bs) + Part(x, b)
  {
    assert (xs + [x])[..|xs|] == xs && (bs + [b])[..|bs|] == bs;
  }

  /** Five parts listed one after the other. */
  lemma PartsFive(a: string, b: string, c: string, d: string, e: string, p: bool, q: bool, r: bool, s: bool, t: bool)
    ensures Parts([a] + [b] + [c] + [d] + [e], [p] + [q] + [r] + [s] + [t])
            == Part(a, p) + Part(b, q) + Part(c, r) + Part(d, s) + Part(e, t)
  {
    var t1, b1 := [a], [p];
    var t2, b2 := t1 + [b], b1 + [q];
    var t3, b3 := t2 + [c], b2 + [r];
    var t4, b4 := t3 + [d], b3 + [s];
    PartsOne(a, p);
    PartsSnoc(t1, b1, b, q);
    PartsSnoc(t2, b2, c, r);
    PartsSnoc(t3, b3, d, s);
    PartsSnoc(t4, b4, e, t);
  }

  lemma PartsOne(a: string, p: bool)
    ensures Parts([a], [p]) == Part(a, p)
  {
    assert [a][..0] == [] && [p][..0] == [];
  }

  lemma SnocFive<T>(a: T, b: T, c: T, d: T, e: T)
    ensures [a] + [b] + [c] + [d] + [e] == [a, b, c, d, e]
  {
  }

  /** The file lists the non-empty sections in their fixed order, and blank
      lines only separate them. */
  lemma FilePartsSections(includeMetadata: bool, metaText: string, table: string, chordpro: string, chart: string,
                          lyrics: string)
    ensures var r := FileParts(includeMetadata, metaText, table, chordpro, chart, lyrics);
            NonEmpty(r) == NonEmpty([if includeMetadata then metaText else "", table, chordpro, chart, lyrics])
            && (forall i :: 0 <= i < |r| && r[i] == "" ==> i > 0 && r[i - 1] != "")
  {
    var m := if includeMetadata then metaText else "";
    var ts := [m] + [table] + [chordpro] + [chart] + [lyrics];
    var bs := [false] + [true] + [true] + [true] + [false];
    PartsFive(m, table, chordpro, chart, lyrics, false, true, true, true, false);
    PartsSections(ts, bs);
    SnocFive(m, table, chordpro, chart, lyrics);
  }

  /** The assembly at the end of `export`: the sections collected in order
      and joined by newlines. */
  method JoinSections(includeMetadata: bool, metadata: string, table: string, chordpro: string, chart: string,
                      lyrics: string) returns (content: string)
    ensures content == Join(FileParts(includeMetadata, metadata, table, chordpro, chart, lyrics), "\n")
  {
    var m := if includeMetadata then metadata else "";
    var sections := AddPart([], m, false);
    assert sections == Part(m, false);
    sections := AddPart(sections, table, true);
    sections := AddPart(sections, chordpro, true);
    sections := AddPart(sections, chart, true);
    sections := AddPart(sections, lyrics, false);
    content := Join(sections, "\n");
  }

  /** Appending one section when it is not empty, and a blank line after it
      when `blank` is set. */
  method AddPart(sections: seq<string>, text: string, blank: bool) returns (sections': seq<string>)
    ensures sections' == sections + Part(text, blank)
  {
    sections' := sections;
    if text != "" {
      sections' := sections' + [text];
      if blank {
        sections' := sections' + [""];
      }
    }
  }

  /** `export`: the text written. */
  method Export(opts: CcliOptions, meta: MetaInput, words: seq<CWord>, chords: seq<CChord>) returns (content: string)
    ensures content == Join(FileParts(opts.includeMetadata, MetadataSection(meta), TableSpec(words, chords),
                                      FilledSection(ChordProTitle, words, ChordProTokens(words, chords, opts),
                                                    opts.maxLineLength),
                                      ChartSpec(chords),
                                      FilledSection(LyricsTitle, words, LyricTokens(words, opts.removePunctuation),
                                                    opts.maxLineLength)), "\n")
  {
    var metadata := if opts.includeMetadata then MetadataSection(meta) else "";
    var table := ChordLyricsTable(words, chords);
    var chordpro := ChordProSection(words, chords, opts);
    var chart := ChordChartSection(chords);
    var lyrics := LyricsOnlySection(words, opts);
    content := JoinSections(opts.includeMetadata, metadata, table, chordpro, chart, lyrics);
  }
}
