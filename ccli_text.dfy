/** The ChordPro-like text writer (`export/ccli.py`): words are laid out in
    lines, a new line starting at every gap of more than half a second, and
    a "[chord]" token is injected before a word whose chord differs from
    the last chord injected on the same line. Writing the file is not
    modelled: `ExportCcli` returns the text it would write. */
module CcliText {
  import opened Common
  import opened Lyrics

  /** A token of a line: an injected chord or a word's text. */
  datatype Token = ChordTag(chord: string) | Lyric(text: string)

  function Render(t: Token): string {
    match t
    case ChordTag(c) => "[" + c + "]"
    case Lyric(s) => s
  }

  /** `w.chord` is truthy. */
  predicate HasChord(w: WordRow) {
    w.chord.Some? && w.chord.value != ""
  }

  /** A line ends after word i: the next word starts more than half a
      second after this one ends. */
  predicate Breaks(words: seq<WordRow>, i: nat)
    requires i < |words|
  {
    i + 1 < |words| && words[i + 1].start - words[i].end > 0.5
  }

  /** The chord of the nearest word before i on the same line that has one. */
  function LastChord(words: seq<WordRow>, i: nat): (r: Option<string>)
    requires i <= |words|
    ensures r.Some? ==> r.value != ""
  {
    if i == 0 || Breaks(words, i - 1) then None
    else if HasChord(words[i - 1]) then words[i - 1].chord
    else LastChord(words, i - 1)
  }

  /** Word i gets a bracket: it has a chord, and that chord is not the one
      of the nearest earlier chord-bearing word on its line. */
  predicate Injects(words: seq<WordRow>, i: nat)
    requires i < |words|
  {
    HasChord(words[i]) && words[i].chord != LastChord(words, i)
  }

  /** The tokens word i contributes. */
  function WordTokens(words: seq<WordRow>, i: nat): (r: seq<Token>)
    requires i < |words|
    ensures |r| >= 1 && r[|r| - 1] == Lyric(words[i].text)
  {
    (if Injects(words, i) then [ChordTag(words[i].chord.value)] else []) + [Lyric(words[i].text)]
  }

  /** The tokens of the first n words, in order. */
  function TokensUpTo(words: seq<WordRow>, n: nat): seq<Token>
    requires n <= |words|
  {
    if n == 0 then [] else TokensUpTo(words, n - 1) + WordTokens(words, n - 1)
  }

  /** The number of line ends among the first n words. */
  function BreakCount(words: seq<WordRow>, n: nat): nat
    requires n <= |words|
  {
    if n == 0 then 0 else BreakCount(words, n - 1) + (if Breaks(words, n - 1) then 1 else 0)
  }

  function Flatten(lines: seq<seq<Token>>): seq<Token> {
    if lines == [] then [] else Flatten(lines[..|lines| - 1]) + lines[|lines| - 1]
  }

  /** The word texts among the tokens. */
  function LyricTexts(ts: seq<Token>): seq<string> {
    if ts == [] then []
    else LyricTexts(ts[..|ts| - 1]) + (if ts[|ts| - 1].Lyric? then [ts[|ts| - 1].text] else [])
  }

  /** The loop's variables: finished lines, the current line and the last
      chord injected on it. */
  datatype State = State(lines: seq<seq<Token>>, current: seq<Token>, prev: Option<string>)

  /** One pass of the loop, for word i. */
  function Step(words: seq<WordRow>, i: nat, st: State): State
    requires i < |words|
  {
    var w := words[i];
    var inject := HasChord(w) && w.chord != st.prev;
    var cur := st.current + (if inject then [ChordTag(w.chord.value)] else []) + [Lyric(w.text)];
    var prev := if inject then w.chord else st.prev;
    if Breaks(words, i) then State(st.lines + [cur], [], None) else State(st.lines, cur, prev)
  }

  /** The variables after the first n passes. */
  function Fold(words: seq<WordRow>, n: nat): State
    requires n <= |words|
  {
    if n == 0 then State([], [], None) else Step(words, n - 1, Fold(words, n - 1))
  }

  /** The lines written: the finished lines and a non-empty last one. */
  function Lines(words: seq<WordRow>): seq<seq<Token>> {
    var st := Fold(words, |words|);
    if st.current != [] then st.lines + [st.current] else st.lines
  }

  /** A line as written: its tokens joined by single spaces, stripped, with
      a newline. */
  function LineText(line: seq<Token>): (r: string)
    ensures |r| > 0 && r[|r| - 1] == '\n'
  {
    Strip(Join(seq(|line|, k requires 0 <= k < |line| => Render(line[k])), " ")) + "\n"
  }

  /** The file's contents. */
  function Output(lines: seq<seq<Token>>): string {
    if lines == [] then [] else Output(lines[..|lines| - 1]) + LineText(lines[|lines| - 1])
  }

  /** The chord memory is the last chord on the current line, and the
      current line is empty exactly after a line end. */
  lemma {:induction false} FoldPrev(words: seq<WordRow>, n: nat)
    requires n <= |words|
    ensures Fold(words, n).prev == LastChord(words, n)
    ensures n > 0 ==> (Fold(words, n).current == [] <==> Breaks(words, n - 1))
    ensures n == 0 ==> Fold(words, n).current == []
  {
    if n > 0 {
      FoldPrev(words, n - 1);
    }
  }

  lemma FlattenSnoc(lines: seq<seq<Token>>, line: seq<Token>)
    ensures Flatten(lines + [line]) == Flatten(lines) + line
  {
    assert (lines + [line])[..|lines|] == lines;
  }

  /** One pass appends word i's tokens to the current line, which it then
      finishes at a line end. */
  lemma StepTokens(words: seq<WordRow>, i: nat, st: State)
    requires i < |words|
    requires st.prev == LastChord(words, i)
    ensures var next := Step(words, i, st);
            Breaks(words, i) ==> next.lines == st.lines + [st.current + WordTokens(words, i)] && next.current == []
    ensures var next := Step(words, i, st);
            !Breaks(words, i) ==> next.lines == st.lines && next.current == st.current + WordTokens(words, i)
  {
    var w := words[i];
    var inject := HasChord(w) && w.chord != st.prev;
    var cur := st.current + (if inject then [ChordTag(w.chord.value)] else []) + [Lyric(w.text)];
    assert inject == Injects(words, i);
    assert cur == st.current + WordTokens(words, i);
  }

  /** One pass appends exactly word i's tokens to everything written so
      far. */
  lemma StepFlatten(words: seq<WordRow>, i: nat, st: State)
    requires i < |words|
    requires st.prev == LastChord(words, i)
    ensures var next := Step(words, i, st);
            Flatten(next.lines) + next.current == Flatten(st.lines) + st.current + WordTokens(words, i)
  {
    StepTokens(words, i, st);
    var wt := WordTokens(words, i);
    if Breaks(words, i) {
      FlattenSnoc(st.lines, st.current + wt);
    }
  }

  /** Every word so far has contributed its tokens, in order. */
  lemma {:induction false} FoldTokens(words: seq<WordRow>, n: nat)
    requires n <= |words|
    ensures Flatten(Fold(words, n).lines) + Fold(words, n).current == TokensUpTo(words, n)
  {
    if n > 0 {
      FoldTokens(words, n - 1);
      FoldPrev(words, n - 1);
      StepFlatten(words, n - 1, Fold(words, n - 1));
    }
  }

  /** One line is finished per line end, and none of them is empty. */
  lemma {:induction false} FoldLines(words: seq<WordRow>, n: nat)
    requires n <= |words|
    ensures |Fold(words, n).lines| == BreakCount(words, n)
    ensures forall k :: 0 <= k < |Fold(words, n).lines| ==> Fold(words, n).lines[k] != []
  {
    if n > 0 {
      FoldLines(words, n - 1);
    }
  }

  /** The lines cover every word's tokens in order; there is one more line
      than there are line ends, and no line is empty. */
  lemma CcliLines(words: seq<WordRow>)
    requires words != []
    ensures Flatten(Lines(words)) == TokensUpTo(words, |words|)
    ensures |Lines(words)| == 1 + BreakCount(words, |words|)
    ensures forall k :: 0 <= k < |Lines(words)| ==> Lines(words)[k] != []
  {
    var n := |words|;
    FoldPrev(words, n);
    FoldTokens(words, n);
    FoldLines(words, n);
    var st := Fold(words, n);
    assert !Breaks(words, n - 1);
    var ls := st.lines + [st.current];
    assert ls[..|ls| - 1] == st.lines;
  }

  lemma {:induction false} LyricTextsAppend(a: seq<Token>, b: seq<Token>)
    ensures LyricTexts(a + b) == LyricTexts(a) + LyricTexts(b)
    decreases |b|
  {
    if b != [] {
      var b' := b[..|b| - 1];
      assert (a + b)[..|a + b| - 1] == a + b';
      LyricTextsAppend(a, b');
    } else {
      assert a + b == a;
    }
  }

  /** The texts of the first n words. */
  function WordTexts(words: seq<WordRow>, n: nat): (r: seq<string>)
    requires n <= |words|
    ensures |r| == n && forall i :: 0 <= i < n ==> r[i] == words[i].text
  {
    if n == 0 then [] else WordTexts(words, n - 1) + [words[n - 1].text]
  }

  /** Every word's text appears exactly once among the lyric tokens, in
      input order. */
  lemma {:induction false} TextsInOrder(words: seq<WordRow>, n: nat)
    requires n <= |words|
    ensures LyricTexts(TokensUpTo(words, n)) == WordTexts(words, n)
  {
    if n > 0 {
      TextsInOrder(words, n - 1);
      LyricTextsAppend(TokensUpTo(words, n - 1), WordTokens(words, n - 1));
      WordLyric(words, n - 1);
    }
  }

  /** A word contributes exactly its text as a lyric. */
  lemma WordLyric(words: seq<WordRow>, i: nat)
    requires i < |words|
    ensures LyricTexts(WordTokens(words, i)) == [words[i].text]
  {
    var wt := WordTokens(words, i);
    if Injects(words, i) {
      var c := ChordTag(words[i].chord.value);
      assert |wt| == 2 && wt[1] == Lyric(words[i].text);
      assert wt[..1] == [c];
      assert [c][..0] == [];
      assert LyricTexts([c]) == [];
    } else {
      assert wt[..0] == [];
    }
  }

  /** A line's first chord-bearing word always gets its bracket: the
      chord memory is cleared at each line end. Here the line starts at word
      `start` and words start..i-1 carry no chord. */
  lemma {:induction false} LineStartInjects(words: seq<WordRow>, start: nat, i: nat)
    requires start <= i < |words| && HasChord(words[i])
    requires start == 0 || Breaks(words, start - 1)
    requires forall j :: start <= j < i ==> !Breaks(words, j) && !HasChord(words[j])
    ensures Injects(words, i)
  {
    NoChordSinceStart(words, start, i);
  }

  lemma {:induction false} NoChordSinceStart(words: seq<WordRow>, start: nat, i: nat)
    requires start <= i <= |words|
    requires start == 0 || (start - 1 < |words| && Breaks(words, start - 1))
    requires forall j :: start <= j < i ==> !Breaks(words, j) && !HasChord(words[j])
    ensures LastChord(words, i).None?
  {
    if i > start {
      NoChordSinceStart(words, start, i - 1);
    }
  }

  /** `export_ccli`: the text written. An empty word list writes nothing. */
  method ExportCcli(words: seq<WordRow>) returns (out: string)
    ensures out == Output(Lines(words))
    ensures words == [] ==> out == ""
  {
    var lines: seq<seq<Token>> := [];
    var current: seq<Token> := [];
    var prev: Option<string> := None;
    for i := 0 to |words|
      invariant State(lines, current, prev) == Fold(words, i)
    {
      ghost var before := State(lines, current, prev);
      var w := words[i];
      if HasChord(w) && w.chord != prev {
        current := current + [ChordTag(w.chord.value)];
        prev := w.chord;
      } else {
        assert current == current + [];
      }
      current := current + [Lyric(w.text)];
      if i + 1 < |words| {
        var next := words[i + 1];
        if next.start - w.end > 0.5 {
          lines := lines + [current];
          current := [];
          prev := None;
        }
      }
      assert State(lines, current, prev) == Step(words, i, before);
    }
    if current != [] {
      lines := lines + [current];
    }
    assert lines == Lines(words);
    out := "";
    for k := 0 to |lines|
      invariant out == Output(lines[..k])
    {
      assert lines[..k + 1][..k] == lines[..k];
      out := out + LineText(lines[k]);
    }
    assert lines[..|lines|] == lines;
  }
}
