// The enhanced lyrics editor's text logic (`ui/enhanced_lyrics_editor.py`):
// removing chord annotations, laying the words out in lines, the
// 60-character wrap, the line-break flags it writes back to the words, and
// the grouping of rhyming words for colouring. The widgets, painting and
// timers are outside the model.

module EnhancedLyrics {
  import opened Common
  import opened Lyrics
  import CcliWrap
  import RhymeAnalysis
  import Tally

  // ---------------------------------------------------------------------------
  // Chord annotations

  /** Some '[' comes before some ']'. */
  predicate HasBracketPair(s: string) {
    exists i, j :: 0 <= i < j < |s| && s[i] == '[' && s[j] == ']'
  }

  /** The stripping loop: while the text holds both brackets, cut from the
      first '[' through the next ']' after it; stop when that '[' has no ']'
      after it. */
  function StripChords(s: string): (r: string)
    ensures |r| <= |s|
    ensures !HasBracketPair(r)
    decreases |s|
  {
    if '[' in s && ']' in s then
      match FindFrom(s, '[', 0)
      case None => s
      case Some(start) =>
        match FindFrom(s, ']', start)
        case None =>
          assert !HasBracketPair(s) by {
            forall i, j | 0 <= i < j < |s| && s[i] == '['
              ensures s[j] != ']'
            {
            }
          }
          s
        case Some(end) => StripChords(s[..start] + s[end + 1..])
    else s
  }

  /** A text without a '[' before a ']' is left alone, so stripping twice
      is stripping once. */
  lemma StripChordsFixed(r: string)
    requires !HasBracketPair(r)
    ensures StripChords(r) == r
  {
    if '[' in r && ']' in r {
      var start := FindFrom(r, '[', 0).value;
      assert forall j :: start <= j < |r| ==> r[j] != ']';
      FindFromAbsent(r, ']', start);
    }
  }

  lemma StripChordsIdempotent(s: string)
    ensures StripChords(StripChords(s)) == StripChords(s)
  {
    StripChordsFixed(StripChords(s));
  }

  /** The stripping loop of the syllable panel, the rhyme panel and the
      rhyme analysis. */
  method RemoveChordAnnotations(s: string) returns (r: string)
    ensures r == StripChords(s)
  {
    r := s;
    while '[' in r && ']' in r
      invariant StripChords(r) == StripChords(s)
      decreases |r|
    {
      var start := FindFrom(r, '[', 0).value;
      var end := FindFrom(r, ']', start);
      if end.None? {
        break;
      }
      r := r[..start] + r[end.value + 1..];
    }
  }

  // ---------------------------------------------------------------------------
  // Line building

  /** A word as the editor shows it: "[chord]text" when it has a chord. */
  function RenderWord(w: WordRow): (r: string)
    ensures w.chord.Some? && w.chord.value != "" ==> r == "[" + w.chord.value + "]" + w.text
    ensures !(w.chord.Some? && w.chord.value != "") ==> r == w.text
  {
    if w.chord.Some? && w.chord.value != "" then "[" + w.chord.value + "]" + w.text else w.text
  }

  function Renders(ws: seq<WordRow>): (r: seq<string>)
    ensures |r| == |ws| && forall i :: 0 <= i < |ws| ==> r[i] == RenderWord(ws[i])
  {
    seq(|ws|, i requires 0 <= i < |ws| => RenderWord(ws[i]))
  }

  /** A line ends after a word ending in one of `. ! ? : ;` or flagged as
      the end of a line. */
  predicate EndsLine(w: WordRow) {
    (w.text != [] && w.text[|w.text| - 1] in ".!?:;") || w.lineBreak
  }

  /** The loop's variables: finished lines of words and the open line. */
  datatype LineState = LineState(lines: seq<seq<WordRow>>, current: seq<WordRow>)

  function LineFold(ws: seq<WordRow>, n: nat): (st: LineState)
    requires n <= |ws|
  {
    if n == 0 then LineState([], [])
    else
      var st := LineFold(ws, n - 1);
      var cur := st.current + [ws[n - 1]];
      if EndsLine(ws[n - 1]) then LineState(st.lines + [cur], []) else LineState(st.lines, cur)
  }

  /** The lines `set_lyrics_data` lays the words out in. */
  function LineGroups(ws: seq<WordRow>): seq<seq<WordRow>> {
    var st := LineFold(ws, |ws|);
    if st.current != [] then st.lines + [st.current] else st.lines
  }

  function Flatten(gs: seq<seq<WordRow>>): seq<WordRow> {
    if gs == [] then [] else gs[0] + Flatten(gs[1..])
  }

  lemma {:induction false} FlattenSnoc(gs: seq<seq<WordRow>>, g: seq<WordRow>)
    ensures Flatten(gs + [g]) == Flatten(gs) + g
  {
    if gs != [] {
      assert (gs + [g])[1..] == gs[1..] + [g];
      FlattenSnoc(gs[1..], g);
    } else {
      assert [g][1..] == [];
    }
  }

  /** A well-formed line: not empty, and no word but the last ends a line. */
  predicate Open(g: seq<WordRow>) {
    forall k :: 0 <= k < |g| ==> !EndsLine(g[k])
  }

  predicate Closed(g: seq<WordRow>) {
    g != [] && Open(g[..|g| - 1]) && EndsLine(g[|g| - 1])
  }

  lemma {:induction false} LineFoldShape(ws: seq<WordRow>, n: nat)
    requires n <= |ws|
    ensures var st := LineFold(ws, n);
            && Flatten(st.lines) + st.current == ws[..n]
            && (forall i :: 0 <= i < |st.lines| ==> Closed(st.lines[i]))
            && Open(st.current)
  {
    if n > 0 {
      LineFoldShape(ws, n - 1);
      var st := LineFold(ws, n - 1);
      var cur := st.current + [ws[n - 1]];
      assert ws[..n] == ws[..n - 1] + [ws[n - 1]];
      assert cur[..|cur| - 1] == st.current;
      if EndsLine(ws[n - 1]) {
        FlattenSnoc(st.lines, cur);
      }
    }
  }

  /** Every word appears once, in order; every line is non-empty; a line
      ends exactly after a word that ends lines, or at the last word. */
  lemma LineGroupsShape(ws: seq<WordRow>)
    ensures Flatten(LineGroups(ws)) == ws
    ensures forall i :: 0 <= i < |LineGroups(ws)| ==> LineGroups(ws)[i] != []
    ensures forall i :: 0 <= i < |LineGroups(ws)| ==>
              Open(LineGroups(ws)[i][..|LineGroups(ws)[i]| - 1])
    ensures forall i :: 0 <= i < |LineGroups(ws)| - 1 ==> Closed(LineGroups(ws)[i])
  {
    LineFoldShape(ws, |ws|);
    var st := LineFold(ws, |ws|);
    assert ws[..|ws|] == ws;
    if st.current != [] {
      FlattenSnoc(st.lines, st.current);
      var gs := st.lines + [st.current];
      assert gs[|gs| - 1] == st.current;
    } else {
      assert Flatten(st.lines) + [] == Flatten(st.lines);
    }
  }

  function LineText(g: seq<WordRow>): string {
    Join(Renders(g), " ")
  }

  function LineTexts(gs: seq<seq<WordRow>>): (r: seq<string>)
    ensures |r| == |gs| && forall i :: 0 <= i < |gs| ==> r[i] == LineText(gs[i])
  {
    seq(|gs|, i requires 0 <= i < |gs| => LineText(gs[i]))
  }

  /** The editor text for a word list: its lines joined by newlines. */
  function LyricsText(ws: seq<WordRow>): string {
    Join(LineTexts(LineGroups(ws)), "\n")
  }

  /** The line-building loop of `set_lyrics_data`. */
  method BuildLyricsText(ws: seq<WordRow>) returns (text: string)
    ensures text == LyricsText(ws)
  {
    var textLines: seq<string> := [];
    var currentLine: seq<string> := [];
    var i := 0;
    while i < |ws|
      invariant i <= |ws|
      invariant textLines == LineTexts(LineFold(ws, i).lines)
      invariant currentLine == Renders(LineFold(ws, i).current)
    {
      var w := ws[i];
      ghost var st := LineFold(ws, i);
      assert Renders(st.current + [w]) == Renders(st.current) + [RenderWord(w)];
      currentLine := currentLine + [RenderWord(w)];
      if EndsLine(w) {
        textLines := textLines + [Join(currentLine, " ")];
        currentLine := [];
        assert LineTexts(st.lines + [st.current + [w]]) == LineTexts(st.lines) + [LineText(st.current + [w])];
      }
      i := i + 1;
    }
    ghost var st := LineFold(ws, |ws|);
    if currentLine != [] {
      assert st.current != [];
      assert LineTexts(st.lines + [st.current]) == LineTexts(st.lines) + [LineText(st.current)];
      textLines := textLines + [Join(currentLine, " ")];
    } else {
      assert st.current == [];
    }
    text := Join(textLines, "\n");
  }

  // ---------------------------------------------------------------------------
  // Auto-wrap

  /** Longest line the wrap leaves, in characters. */
  const MaxLineChars: nat := 60

  /** Narrowest editor, in pixels after the 40-pixel margins, that wraps. */
  const MinEditorWidth: int := 200

  /** One line of the text after wrapping: blank lines and lines that fit
      stay as they are; longer ones are refilled greedily. */
  function WrapLine(line: string): (r: seq<string>)
    ensures Strip(line) == [] || |line| <= MaxLineChars ==> r == [line]
    ensures !(Strip(line) == [] || |line| <= MaxLineChars) ==> r == CcliWrap.Wrapped(Split(line), MaxLineChars)
  {
    if Strip(line) == [] || |line| <= MaxLineChars then [line]
    else CcliWrap.Wrapped(Split(line), MaxLineChars)
  }

  function WrapLines(lines: seq<string>): seq<string> {
    if lines == [] then [] else WrapLine(lines[0]) + WrapLines(lines[1..])
  }

  /** The text `apply_auto_wrapping` computes. */
  function WrappedText(text: string): string {
    Join(WrapLines(SplitOn(text, '\n')), "\n")
  }

  /** A refilled line keeps its words in order, and each piece fits or is a
      single word. */
  lemma WrapLineShape(line: string)
    requires Strip(line) != [] && |line| > MaxLineChars
    ensures Join(WrapLine(line), " ") == Join(Split(line), " ")
    ensures forall k :: 0 <= k < |WrapLine(line)| ==>
              WrapLine(line)[k] != [] && (|WrapLine(line)[k]| <= MaxLineChars || WrapLine(line)[k] in Split(line))
  {
    CcliWrap.WrappedJoin(Split(line), MaxLineChars);
    CcliWrap.WrappedShape(Split(line), MaxLineChars);
  }

  /** No piece of a refill holds a character that is neither a space nor
      in a token. */
  lemma {:induction false} WrapFoldAvoids(tokens: seq<string>, c: char, n: nat)
    requires c != ' ' && n <= |tokens| && forall i :: 0 <= i < |tokens| ==> c !in tokens[i]
    ensures var st := CcliWrap.WrapFold(tokens, MaxLineChars, n);
            c !in st.current && forall i :: 0 <= i < |st.lines| ==> c !in st.lines[i]
  {
    if n > 0 {
      WrapFoldAvoids(tokens, c, n - 1);
    }
  }

  /** A line without whitespace inside, or one that fits, wraps to itself. */
  lemma WrapLineFixed(piece: string)
    requires '\n' !in piece
    requires Strip(piece) == [] || |piece| <= MaxLineChars || (piece != [] && NoSpace(piece))
    ensures WrapLine(piece) == [piece]
  {
    if !(Strip(piece) == [] || |piece| <= MaxLineChars) {
      SplitSingle(piece);
      var st := CcliWrap.WrapFold([piece], MaxLineChars, 1);
      assert CcliWrap.WrapFold([piece], MaxLineChars, 0) == CcliWrap.WrapState([], "");
    }
  }

  /** A line with no words is blank. */
  lemma BlankSplit(s: string)
    ensures Split(s) == [] ==> Strip(s) == []
  {
    if Split(s) == [] {
      AllSpace(s);
    }
  }

  lemma {:induction false} AllSpace(s: string)
    requires Split(s) == []
    ensures forall i :: 0 <= i < |s| ==> IsSpace(s[i])
    decreases |s|
  {
    if s != [] {
      if IsSpace(s[0]) {
        AllSpace(s[1..]);
        assert forall i :: 1 <= i < |s| ==> s[i] == s[1..][i - 1];
      }
    }
  }

  /** A non-empty string without whitespace is one token. */
  lemma SplitSingle(w: string)
    requires w != [] && NoSpace(w)
    ensures Split(w) == [w]
  {
    SplitJoin([w]);
  }

  /** Every piece of a wrapped line wraps to itself and holds no newline. */
  lemma WrapLinePieces(line: string)
    requires '\n' !in line
    ensures |WrapLine(line)| >= 1
    ensures forall k :: 0 <= k < |WrapLine(line)| ==>
              '\n' !in WrapLine(line)[k] && WrapLine(WrapLine(line)[k]) == [WrapLine(line)[k]]
  {
    var r := WrapLine(line);
    if !(Strip(line) == [] || |line| <= MaxLineChars) {
      var toks := Split(line);
      CcliWrap.WrappedShape(toks, MaxLineChars);
      CcliWrap.WrapFoldJoin(toks, MaxLineChars, |toks|);
      WrapFoldAvoids(toks, '\n', |toks|);
      BlankSplit(line);
      forall k | 0 <= k < |r|
        ensures '\n' !in r[k] && WrapLine(r[k]) == [r[k]]
      {
        if r[k] in toks {
          var j :| 0 <= j < |toks| && toks[j] == r[k];
        }
        WrapLineFixed(r[k]);
      }
    } else {
      WrapLineFixed(line);
    }
  }

  lemma {:induction false} WrapLinesPieces(lines: seq<string>)
    requires forall i :: 0 <= i < |lines| ==> '\n' !in lines[i]
    ensures |WrapLines(lines)| >= |lines|
    ensures forall k :: 0 <= k < |WrapLines(lines)| ==>
              '\n' !in WrapLines(lines)[k] && WrapLine(WrapLines(lines)[k]) == [WrapLines(lines)[k]]
  {
    if lines != [] {
      WrapLinePieces(lines[0]);
      WrapLinesPieces(lines[1..]);
    }
  }

  /** Lines that each wrap to themselves are left as they are. */
  lemma {:induction false} WrapLinesFixed(lines: seq<string>)
    requires forall k :: 0 <= k < |lines| ==> WrapLine(lines[k]) == [lines[k]]
    ensures WrapLines(lines) == lines
  {
    if lines != [] {
      WrapLinesFixed(lines[1..]);
    }
  }

  /** Wrapping a wrapped text changes nothing, so the wrap the editor
      re-runs on every resize settles after one pass. */
  lemma WrappedTextIdempotent(text: string)
    ensures WrappedText(WrappedText(text)) == WrappedText(text)
  {
    var lines := SplitOn(text, '\n');
    var w := WrapLines(lines);
    WrapLinesPieces(lines);
    SplitOnJoin(w, '\n');
    WrapLinesFixed(w);
  }

  /** The filling loop of `apply_auto_wrapping` for one long line, which
      tracks the open line as a list of words and its length. */
  method WrapLongLine(line: string) returns (pieces: seq<string>)
    ensures pieces == CcliWrap.Wrapped(Split(line), MaxLineChars)
  {
    var words := Split(line);
    pieces := [];
    var currentLine: seq<string> := [];
    var currentLength := 0;
    var i := 0;
    while i < |words|
      invariant i <= |words|
      invariant var st := CcliWrap.WrapFold(words, MaxLineChars, i);
                pieces == st.lines && Join(currentLine, " ") == st.current
                && currentLength == |st.current| && (currentLine == [] <==> st.current == [])
      invariant forall k :: 0 <= k < |currentLine| ==> currentLine[k] != []
    {
      var word := words[i];
      var spaceLength := if currentLine != [] then 1 else 0;
      ghost var cur := Join(currentLine, " ");
      if currentLine != [] && currentLength + |word| + spaceLength > MaxLineChars {
        pieces := pieces + [Join(currentLine, " ")];
        currentLine := [word];
        currentLength := |word|;
      } else {
        CcliWrap.JoinSnoc(currentLine, word, " ");
        currentLine := currentLine + [word];
        currentLength := currentLength + |word| + spaceLength;
      }
      i := i + 1;
    }
    if currentLine != [] {
      pieces := pieces + [Join(currentLine, " ")];
    }
  }

  // ---------------------------------------------------------------------------
  // Line-break flags

  /** The flags of one line of `n` words: only the last is set. */
  function LineFlags(n: nat): (r: seq<bool>)
    ensures |r| == n && forall i :: 0 <= i < n ==> (r[i] <==> i == n - 1)
  {
    seq(n, i requires 0 <= i < n => i == n - 1)
  }

  /** The flags for every word of the text, line after line. */
  function AllFlags(lines: seq<string>): seq<bool> {
    if lines == [] then [] else AllFlags(lines[..|lines| - 1]) + LineFlags(|Split(lines[|lines| - 1])|)
  }

  /** Word k takes flag k, as far as both go; nothing else changes. */
  function WithFlags(ws: seq<WordRow>, flags: seq<bool>): (r: seq<WordRow>)
    ensures |r| == |ws|
    ensures forall k :: 0 <= k < |ws| && k < |flags| ==> r[k] == ws[k].(lineBreak := flags[k])
    ensures forall k :: |flags| <= k < |ws| ==> r[k] == ws[k]
  {
    seq(|ws|, k requires 0 <= k < |ws| => if k < |flags| then ws[k].(lineBreak := flags[k]) else ws[k])
  }

  /** One more flag changes at most the word at its position. */
  lemma WithFlagsSnoc(ws: seq<WordRow>, flags: seq<bool>, b: bool)
    ensures var cur := WithFlags(ws, flags);
            WithFlags(ws, flags + [b])
              == if |flags| < |ws| then cur[|flags| := cur[|flags|].(lineBreak := b)] else cur
  {
  }

  /** `update_lyrics_data_with_line_breaks` on the editor text. */
  function FlaggedWords(ws: seq<WordRow>, text: string): seq<WordRow> {
    WithFlags(ws, AllFlags(SplitOn(text, '\n')))
  }

  function CountTrue(bs: seq<bool>): nat {
    if bs == [] then 0 else (if bs[|bs| - 1] then 1 else 0) + CountTrue(bs[..|bs| - 1])
  }

  function NonBlankLines(lines: seq<string>): nat {
    if lines == [] then 0
    else (if Split(lines[|lines| - 1]) != [] then 1 else 0) + NonBlankLines(lines[..|lines| - 1])
  }

  lemma {:induction false} CountTrueAppend(a: seq<bool>, b: seq<bool>)
    ensures CountTrue(a + b) == CountTrue(a) + CountTrue(b)
    decreases |b|
  {
    if b != [] {
      assert (a + b)[..|a + b| - 1] == a + b[..|b| - 1];
      CountTrueAppend(a, b[..|b| - 1]);
    } else {
      assert a + b == a;
    }
  }

  lemma {:induction false} LineFlagsCount(n: nat)
    ensures CountTrue(LineFlags(n)) == if n > 0 then 1 else 0
  {
    if n > 0 {
      var f := LineFlags(n);
      assert f[..n - 1] == seq(n - 1, i requires 0 <= i < n - 1 => false);
      FalseCount(n - 1);
    }
  }

  lemma {:induction false} FalseCount(n: nat)
    ensures CountTrue(seq(n, i requires 0 <= i < n => false)) == 0
  {
    if n > 0 {
      var f := seq(n, i requires 0 <= i < n => false);
      assert f[..n - 1] == seq(n - 1, i requires 0 <= i < n - 1 => false);
      FalseCount(n - 1);
    }
  }

  /** One flag per word of the text, and exactly one set flag per
      non-blank line. */
  lemma {:induction false} AllFlagsCount(lines: seq<string>)
    ensures CountTrue(AllFlags(lines)) == NonBlankLines(lines)
  {
    if lines != [] {
      var pre := lines[..|lines| - 1];
      AllFlagsCount(pre);
      CountTrueAppend(AllFlags(pre), LineFlags(|Split(lines[|lines| - 1])|));
      LineFlagsCount(|Split(lines[|lines| - 1])|);
    }
  }

  lemma {:induction false} WrapLinesSnoc(lines: seq<string>, line: string)
    ensures WrapLines(lines + [line]) == WrapLines(lines) + WrapLine(line)
  {
    if lines == [] {
      assert [line][1..] == [];
    } else {
      assert (lines + [line])[1..] == lines[1..] + [line];
      WrapLinesSnoc(lines[1..], line);
    }
  }

  lemma WrapLinesStep(lines: seq<string>, i: nat)
    requires i < |lines|
    ensures WrapLines(lines[..i + 1]) == WrapLines(lines[..i]) + WrapLine(lines[i])
  {
    assert lines[..i + 1] == lines[..i] + [lines[i]];
    WrapLinesSnoc(lines[..i], lines[i]);
  }

  /** One line of the wrapping loop. */
  method WrapOneLine(line: string) returns (pieces: seq<string>)
    ensures pieces == WrapLine(line)
  {
    if Strip(line) == [] || |line| <= MaxLineChars {
      pieces := [line];
    } else {
      pieces := WrapLongLine(line);
    }
  }

  /** Whether `apply_auto_wrapping` acts at all: there are words, the text
      is not blank and the editor is wide enough. */
  predicate WrapApplies(hasWords: bool, text: string, viewportWidth: int) {
    hasWords && Strip(text) != [] && viewportWidth - 40 >= MinEditorWidth
  }

  // ---------------------------------------------------------------------------
  // Rhyme grouping

  /** The ASCII letters and apostrophes of a token, in order. */
  function KeepLetters(w: string): (r: string)
    ensures |r| <= |w|
    ensures forall i :: 0 <= i < |r| ==> IsAsciiLetter(r[i]) || r[i] == '\''
  {
    if w == [] then []
    else
      var r := KeepLetters(w[..|w| - 1]);
      if IsAsciiLetter(w[|w| - 1]) || w[|w| - 1] == '\'' then r + [w[|w| - 1]] else r
  }

  /** The character loop that cleans one token. */
  method CleanToken(w: string) returns (cleaned: string)
    ensures cleaned == KeepLetters(w)
  {
    cleaned := [];
    var i := 0;
    while i < |w|
      invariant i <= |w| && cleaned == KeepLetters(w[..i])
    {
      assert w[..i + 1][..i] == w[..i];
      if IsAsciiLetter(w[i]) || w[i] == '\'' {
        cleaned := cleaned + [w[i]];
      }
      i := i + 1;
    }
    assert w[..|w|] == w;
  }

  /** The cleaned tokens that are not empty, in order. */
  function CleanTokens(toks: seq<string>): (r: seq<string>)
    ensures forall i :: 0 <= i < |r| ==> r[i] != []
  {
    if toks == [] then []
    else
      var r := CleanTokens(toks[..|toks| - 1]);
      var c := KeepLetters(toks[|toks| - 1]);
      if c != [] then r + [c] else r
  }

  /** The words `analyze_rhymes` works on: the chord-free text lower-cased,
      split, cleaned, and each kept once in order of first occurrence. */
  function RhymeWords(text: string): seq<string> {
    Tally.KeysOf(Tally.TallyOf(CleanTokens(Split(Lower(StripChords(text))))))
  }

  lemma RhymeWordsSpec(text: string)
    ensures var toks := CleanTokens(Split(Lower(StripChords(text))));
            var ws := RhymeWords(text);
            && (forall w :: w in ws <==> w in toks)
            && (forall i, j :: 0 <= i < j < |ws| ==> ws[i] != ws[j])
            && (forall i, j :: 0 <= i < j < |ws| ==>
                  Tally.FirstIndex(toks, ws[i]) < Tally.FirstIndex(toks, ws[j]))
  {
    var toks := CleanTokens(Split(Lower(StripChords(text))));
    var t := Tally.TallyOf(toks);
    Tally.TallyCorrect(toks);
    Tally.TallyDistinct(t, toks);
    var ws := Tally.KeysOf(t);
    forall w | w in ws ensures w in toks {
      var i :| 0 <= i < |ws| && ws[i] == w;
      assert t[i].0 in toks;
    }
  }

  /** The distinct non-empty keys of the words, in order of first use (the
      insertion order of the key-to-words dictionary). */
  function KeyOrder(ws: seq<string>, key: string -> string): seq<string> {
    if ws == [] then []
    else
      var ks := KeyOrder(ws[..|ws| - 1], key);
      var k := key(ws[|ws| - 1]);
      if k != "" && k !in ks then ks + [k] else ks
  }

  /** The words with key k, in order: the dictionary's list for k. */
  function Bucket(ws: seq<string>, key: string -> string, k: string): seq<string> {
    if ws == [] then []
    else
      var b := Bucket(ws[..|ws| - 1], key, k);
      var w := ws[|ws| - 1];
      if key(w) == k then b + [w] else b
  }

  function Buckets(ws: seq<string>, key: string -> string): (m: map<string, seq<string>>)
    ensures forall k :: k in m <==> k in KeyOrder(ws, key)
  {
    map k | k in KeyOrder(ws, key) :: Bucket(ws, key, k)
  }

  /** Distinct non-empty keys, one for every word with a non-empty key. */
  lemma KeyOrderSpec(ws: seq<string>, key: string -> string)
    ensures var ks := KeyOrder(ws, key);
            && (forall i :: 0 <= i < |ks| ==> ks[i] != "")
            && (forall i, j :: 0 <= i < j < |ks| ==> ks[i] != ks[j])
            && (forall w :: w in ws && key(w) != "" ==> key(w) in ks)
  {
    KeyOrderDistinct(ws, key);
    KeyOrderCovers(ws, key);
  }

  lemma {:induction false} KeyOrderDistinct(ws: seq<string>, key: string -> string)
    ensures forall i :: 0 <= i < |KeyOrder(ws, key)| ==> KeyOrder(ws, key)[i] != ""
    ensures forall i, j :: 0 <= i < j < |KeyOrder(ws, key)| ==> KeyOrder(ws, key)[i] != KeyOrder(ws, key)[j]
  {
    if ws != [] {
      var pre := ws[..|ws| - 1];
      KeyOrderDistinct(pre, key);
      var ks := KeyOrder(pre, key);
      var k := key(ws[|ws| - 1]);
      assert KeyOrder(ws, key) == if k != "" && k !in ks then ks + [k] else ks;
      if k != "" && k !in ks {
        DistinctSnoc(ks, k);
      }
    }
  }

  lemma DistinctSnoc(ks: seq<string>, k: string)
    requires forall i :: 0 <= i < |ks| ==> ks[i] != ""
    requires forall i, j :: 0 <= i < j < |ks| ==> ks[i] != ks[j]
    requires k != "" && k !in ks
    ensures var r := ks + [k];
            && (forall i :: 0 <= i < |r| ==> r[i] != "")
            && (forall i, j :: 0 <= i < j < |r| ==> r[i] != r[j])
  {
    var r := ks + [k];
    assert forall i :: 0 <= i < |ks| ==> r[i] == ks[i];
  }

  lemma {:induction false} KeyOrderCovers(ws: seq<string>, key: string -> string)
    ensures forall w :: w in ws && key(w) != "" ==> key(w) in KeyOrder(ws, key)
  {
    if ws != [] {
      var pre := ws[..|ws| - 1];
      KeyOrderCovers(pre, key);
      assert ws == pre + [ws[|ws| - 1]];
      var ks := KeyOrder(pre, key);
      assert forall x :: x in ks ==> x in KeyOrder(ws, key);
    }
  }

  /** A key's list holds exactly the words with that key. */
  lemma {:induction false} BucketSpec(ws: seq<string>, key: string -> string, k: string)
    ensures forall w :: w in Bucket(ws, key, k) <==> w in ws && key(w) == k
  {
    if ws != [] {
      var pre := ws[..|ws| - 1];
      BucketSpec(pre, key, k);
      assert forall w :: w in ws <==> w in pre || w == ws[|ws| - 1] by {
        assert ws == pre + [ws[|ws| - 1]];
      }
    }
  }

  /** Position of a key in a list of keys, or the length when absent. */
  function Pos(ks: seq<string>, k: string): (i: nat)
    ensures i <= |ks|
    ensures k in ks ==> i < |ks| && ks[i] == k
    ensures k !in ks ==> i == |ks|
  {
    if ks == [] then 0
    else if ks[|ks| - 1] == k && k !in ks[..|ks| - 1] then |ks| - 1
    else if k in ks[..|ks| - 1] then Pos(ks[..|ks| - 1], k)
    else |ks|
  }

  lemma PosUnique(ks: seq<string>, i: nat)
    requires i < |ks| && forall a, b :: 0 <= a < b < |ks| ==> ks[a] != ks[b]
    ensures Pos(ks, ks[i]) == i
  {
  }

  /** `for w in group_words: groups[w] = name`. */
  function Label(m: map<string, string>, ws: seq<string>, name: string): (r: map<string, string>)
    ensures forall w :: w in r <==> w in m || w in ws
    ensures forall w :: w in ws ==> r[w] == name
    ensures forall w :: w in m && w !in ws ==> r[w] == m[w]
  {
    if ws == [] then m
    else
      var r := Label(m, ws[..|ws| - 1], name);
      assert forall x :: x in ws <==> x in ws[..|ws| - 1] || x == ws[|ws| - 1] by {
        assert ws == ws[..|ws| - 1] + [ws[|ws| - 1]];
      }
      r[ws[|ws| - 1] := name]
  }

  datatype Groups = Groups(names: map<string, string>, count: nat)

  /** The naming loop over the first j keys: every key with two or more
      words gets the next number. */
  function Assign(order: seq<string>, buckets: map<string, seq<string>>, prefix: string, j: nat): (g: Groups)
    requires j <= |order| && forall k :: k in order ==> k in buckets
    ensures g.count <= j
  {
    if j == 0 then Groups(map[], 0)
    else
      var g := Assign(order, buckets, prefix, j - 1);
      var b := buckets[order[j - 1]];
      if |b| < 2 then g
      else Groups(Label(g.names, b, prefix + NatToString(g.count + 1)), g.count + 1)
  }

  /** `analyze_rhymes`' grouping of `ws` by `key`, named `prefix` + id. */
  function GroupNames(ws: seq<string>, key: string -> string, prefix: string): map<string, string> {
    Assign(KeyOrder(ws, key), Buckets(ws, key), prefix, |KeyOrder(ws, key)|).names
  }

  /** The number of groups formed among the first j keys. */
  function GroupCount(ws: seq<string>, key: string -> string, j: nat): nat
    requires j <= |KeyOrder(ws, key)|
  {
    Assign(KeyOrder(ws, key), Buckets(ws, key), "", j).count
  }

  /** A key forms a group when at least two words share it. */
  predicate Grouped(ws: seq<string>, key: string -> string, w: string) {
    key(w) != "" && |Bucket(ws, key, key(w))| >= 2
  }

  /** The number of groups does not depend on the name prefix. */
  lemma {:induction false} AssignCount(order: seq<string>, buckets: map<string, seq<string>>, prefix: string, j: nat)
    requires j <= |order| && forall k :: k in order ==> k in buckets
    ensures Assign(order, buckets, prefix, j).count == Assign(order, buckets, "", j).count
  {
    if j > 0 {
      AssignCount(order, buckets, prefix, j - 1);
    }
  }


  /** After the first j keys: a word is named iff its key is among them and
      forms a group, and its name carries one more than the number of
      groups formed before its key. */
  lemma AssignSpec(ws: seq<string>, key: string -> string, prefix: string, j: nat, w: string)
    requires j <= |KeyOrder(ws, key)|
    ensures var order := KeyOrder(ws, key);
            var g := Assign(order, Buckets(ws, key), prefix, j);
            && (w in g.names <==> w in ws && Grouped(ws, key, w) && Pos(order, key(w)) < j)
            && (w in g.names ==> g.names[w] == prefix + NatToString(GroupCount(ws, key, Pos(order, key(w))) + 1))
  {
    AssignMembers(ws, key, prefix, j, w);
    if w in Assign(KeyOrder(ws, key), Buckets(ws, key), prefix, j).names {
      AssignNames(ws, key, prefix, j, w);
    }
  }

  /** Step j of the naming loop looks up key j-1's list. */
  lemma AssignStep(ws: seq<string>, key: string -> string, prefix: string, j: nat)
    requires 0 < j <= |KeyOrder(ws, key)|
    ensures var order := KeyOrder(ws, key);
            var g := Assign(order, Buckets(ws, key), prefix, j - 1);
            var b := Bucket(ws, key, order[j - 1]);
            Assign(order, Buckets(ws, key), prefix, j)
              == if |b| < 2 then g else Groups(Label(g.names, b, prefix + NatToString(g.count + 1)), g.count + 1)
  {
  }

  lemma {:induction false} AssignMembers(ws: seq<string>, key: string -> string, prefix: string, j: nat, w: string)
    requires j <= |KeyOrder(ws, key)|
    ensures w in Assign(KeyOrder(ws, key), Buckets(ws, key), prefix, j).names
            <==> w in ws && Grouped(ws, key, w) && Pos(KeyOrder(ws, key), key(w)) < j
  {
    if j > 0 {
      var order := KeyOrder(ws, key);
      AssignMembers(ws, key, prefix, j - 1, w);
      AssignStep(ws, key, prefix, j);
      var k := order[j - 1];
      BucketSpec(ws, key, k);
      if key(w) == k {
        KeyOrderDistinct(ws, key);
        PosUnique(order, j - 1);
      } else {
        assert Pos(order, key(w)) != j - 1;
      }
    }
  }

  lemma AssignNames(ws: seq<string>, key: string -> string, prefix: string, j: nat, w: string)
    requires j <= |KeyOrder(ws, key)|
    requires w in Assign(KeyOrder(ws, key), Buckets(ws, key), prefix, j).names
    ensures Assign(KeyOrder(ws, key), Buckets(ws, key), prefix, j).names[w]
            == prefix + NatToString(GroupCount(ws, key, Pos(KeyOrder(ws, key), key(w))) + 1)
  {
    var order := KeyOrder(ws, key);
    var buckets := Buckets(ws, key);
    KeyOrderDistinct(ws, key);
    BucketsKeyed(ws, key);
    NamesAt(order, buckets, key, prefix, j, w, GroupCount(ws, key, Pos(KeyOrder(ws, key), key(w))));
  }

  /** Every list in the key-to-words dictionary holds only words with its key. */
  lemma BucketsKeyed(ws: seq<string>, key: string -> string)
    ensures forall k :: k in KeyOrder(ws, key) ==> forall x :: x in Buckets(ws, key)[k] ==> key(x) == k
  {
    forall k | k in KeyOrder(ws, key)
      ensures forall x :: x in Bucket(ws, key, k) ==> key(x) == k
    {
      BucketSpec(ws, key, k);
    }
  }

  /** The naming loop over any distinct keys whose lists hold only words
      with that key: a named word carries its key's group number. */
  lemma {:induction false} NamesAt(order: seq<string>, buckets: map<string, seq<string>>, key: string -> string,
                                   prefix: string, j: nat, w: string, before: nat)
    requires j <= |order| && forall k :: k in order ==> k in buckets
    requires forall a, b :: 0 <= a < b < |order| ==> order[a] != order[b]
    requires forall k :: k in order ==> forall x :: x in buckets[k] ==> key(x) == k
    requires w in Assign(order, buckets, prefix, j).names
    requires before == Assign(order, buckets, "", Pos(order, key(w))).count
    ensures Assign(order, buckets, prefix, j).names[w] == prefix + NatToString(before + 1)
  {
    var g := Assign(order, buckets, prefix, j - 1);
    var b := buckets[order[j - 1]];
    if |b| < 2 {
      NamesAt(order, buckets, key, prefix, j - 1, w, before);
    } else if w in b {
      assert key(w) == order[j - 1];
      PosUnique(order, j - 1);
      AssignCount(order, buckets, prefix, j - 1);
    } else {
      NamesAt(order, buckets, key, prefix, j - 1, w, before);
    }
  }



  /** A word of `ws` is grouped iff it shares a non-empty key with at
      least one other entry. */
  lemma GroupNamesMembers(ws: seq<string>, key: string -> string, prefix: string, w: string)
    ensures w in GroupNames(ws, key, prefix) <==> w in ws && Grouped(ws, key, w)
  {
    var order := KeyOrder(ws, key);
    AssignSpec(ws, key, prefix, |order|, w);
    KeyOrderSpec(ws, key);
  }

  lemma {:induction false} GroupCountGrows(ws: seq<string>, key: string -> string, a: nat, b: nat)
    requires a < b <= |KeyOrder(ws, key)|
    requires |Bucket(ws, key, KeyOrder(ws, key)[a])| >= 2
    ensures GroupCount(ws, key, a) < GroupCount(ws, key, b)
    decreases b - a
  {
    if a + 1 < b {
      GroupCountGrows(ws, key, a, b - 1);
    }
  }

  /** Group ids follow the order in which keys were first seen. */
  lemma GroupIdsOrdered(ws: seq<string>, key: string -> string, w1: string, w2: string)
    requires w1 in ws && Grouped(ws, key, w1)
    requires Pos(KeyOrder(ws, key), key(w1)) < Pos(KeyOrder(ws, key), key(w2)) <= |KeyOrder(ws, key)|
    ensures GroupCount(ws, key, Pos(KeyOrder(ws, key), key(w1))) < GroupCount(ws, key, Pos(KeyOrder(ws, key), key(w2)))
  {
    KeyOrderSpec(ws, key);
    GroupCountGrows(ws, key, Pos(KeyOrder(ws, key), key(w1)), Pos(KeyOrder(ws, key), key(w2)));
  }

  /** Names with the same prefix differ when their numbers do. */
  lemma NameInjective(prefix: string, a: nat, b: nat)
    requires prefix + NatToString(a) == prefix + NatToString(b)
    ensures a == b
  {
    assert NatToString(a) == (prefix + NatToString(a))[|prefix|..];
    assert NatToString(b) == (prefix + NatToString(b))[|prefix|..];
    NatToStringInjective(a, b);
  }

  /** The name of a grouped word: its key's number among the groups. */
  lemma GroupNameOf(ws: seq<string>, key: string -> string, prefix: string, w: string) returns (i: nat)
    requires w in GroupNames(ws, key, prefix)
    ensures w in ws && Grouped(ws, key, w)
    ensures i < |KeyOrder(ws, key)| && KeyOrder(ws, key)[i] == key(w) && Pos(KeyOrder(ws, key), key(w)) == i
    ensures GroupNames(ws, key, prefix)[w] == prefix + NatToString(GroupCount(ws, key, i) + 1)
  {
    AssignSpec(ws, key, prefix, |KeyOrder(ws, key)|, w);
    i := Pos(KeyOrder(ws, key), key(w));
  }

  /** Different grouping keys get different numbers. */
  lemma CountsDistinct(ws: seq<string>, key: string -> string, a: nat, b: nat)
    requires a < |KeyOrder(ws, key)| && b < |KeyOrder(ws, key)| && a != b
    requires |Bucket(ws, key, KeyOrder(ws, key)[a])| >= 2 && |Bucket(ws, key, KeyOrder(ws, key)[b])| >= 2
    ensures GroupCount(ws, key, a) != GroupCount(ws, key, b)
  {
    if a < b {
      GroupCountGrows(ws, key, a, b);
    } else {
      GroupCountGrows(ws, key, b, a);
    }
  }

  /** Grouped words with the same key carry the same name. */
  lemma SameKeySameName(ws: seq<string>, key: string -> string, prefix: string, w1: string, w2: string)
    requires w1 in GroupNames(ws, key, prefix) && w2 in GroupNames(ws, key, prefix)
    requires key(w1) == key(w2)
    ensures GroupNames(ws, key, prefix)[w1] == GroupNames(ws, key, prefix)[w2]
  {
    var i1 := GroupNameOf(ws, key, prefix, w1);
    var i2 := GroupNameOf(ws, key, prefix, w2);
  }

  /** Grouped words with the same name have the same key. */
  lemma SameNameSameKey(ws: seq<string>, key: string -> string, prefix: string, w1: string, w2: string)
    requires w1 in GroupNames(ws, key, prefix) && w2 in GroupNames(ws, key, prefix)
    requires GroupNames(ws, key, prefix)[w1] == GroupNames(ws, key, prefix)[w2]
    ensures key(w1) == key(w2)
  {
    var i1 := GroupNameOf(ws, key, prefix, w1);
    var i2 := GroupNameOf(ws, key, prefix, w2);
    NameInjective(prefix, GroupCount(ws, key, i1) + 1, GroupCount(ws, key, i2) + 1);
    if i1 != i2 {
      CountsDistinct(ws, key, i1, i2);
    }
  }

  /** The words not already in a group. */
  function Outside(ws: seq<string>, groups: map<string, string>): (r: seq<string>)
    ensures forall w :: w in r <==> w in ws && w !in groups
  {
    if ws == [] then []
    else
      var r := Outside(ws[..|ws| - 1], groups);
      var w := ws[|ws| - 1];
      assert forall x :: x in ws <==> x in ws[..|ws| - 1] || x == w by {
        assert ws == ws[..|ws| - 1] + [w];
      }
      if w in groups then r else r + [w]
  }

  lemma {:induction false} OutsideNone(ws: seq<string>)
    ensures Outside(ws, map[]) == ws
  {
    if ws != [] {
      OutsideNone(ws[..|ws| - 1]);
    }
  }

  function PerfectKey(p: RhymeAnalysis.Pronouncer): string -> string {
    w => RhymeAnalysis.RhymeKey(p, w)
  }

  function NearKey(p: RhymeAnalysis.Pronouncer): string -> string {
    w => RhymeAnalysis.NearRhymeKey(p, w)
  }

  /** The perfect-rhyme groups of a text: "group_1", "group_2", … */
  function PerfectGroups(p: RhymeAnalysis.Pronouncer, text: string): map<string, string> {
    GroupNames(RhymeWords(text), PerfectKey(p), "group_")
  }

  /** The near-rhyme groups, formed among the words in no perfect group. */
  function NearGroups(p: RhymeAnalysis.Pronouncer, text: string): map<string, string> {
    GroupNames(Outside(RhymeWords(text), PerfectGroups(p, text)), NearKey(p), "near_")
  }

  /** No word is both a perfect and a near rhyme, and every grouped word
      is a word of the text. */
  lemma NearGroupsOutside(p: RhymeAnalysis.Pronouncer, text: string, w: string)
    ensures w in NearGroups(p, text) ==> w !in PerfectGroups(p, text) && w in RhymeWords(text)
    ensures w in PerfectGroups(p, text) ==> w in RhymeWords(text)
  {
    var ws := RhymeWords(text);
    GroupNamesMembers(ws, PerfectKey(p), "group_", w);
    GroupNamesMembers(Outside(ws, PerfectGroups(p, text)), NearKey(p), "near_", w);
  }

  /** The first pass of `analyze_rhymes` for one key: the words per key,
      in key order, skipping words already grouped. */
  method CollectByKey(ws: seq<string>, key: string -> string, skip: map<string, string>)
    returns (order: seq<string>, buckets: map<string, seq<string>>)
    ensures order == KeyOrder(Outside(ws, skip), key) && buckets == Buckets(Outside(ws, skip), key)
  {
    order := [];
    buckets := map[];
    ghost var seen: seq<string> := [];
    var i := 0;
    while i < |ws|
      invariant i <= |ws|
      invariant seen == Outside(ws[..i], skip)
      invariant order == KeyOrder(seen, key) && buckets == Buckets(seen, key)
    {
      var w := ws[i];
      assert ws[..i + 1] == ws[..i] + [w];
      if w !in skip {
        var k := key(w);
        BucketsStep(seen, key, w);
        if k != "" {
          if k in buckets {
            buckets := buckets[k := buckets[k] + [w]];
          } else {
            order := order + [k];
            buckets := buckets[k := [w]];
          }
        }
        seen := seen + [w];
      }
      i := i + 1;
    }
    assert ws[..|ws|] == ws;
  }

  /** The second pass: number the keys shared by two or more words, in
      order, and name their words. */
  method NameGroups(order: seq<string>, buckets: map<string, seq<string>>, prefix: string)
    returns (groups: map<string, string>)
    requires forall k :: k in order ==> k in buckets
    ensures groups == Assign(order, buckets, prefix, |order|).names
  {
    groups := map[];
    var groupId := 0;
    var j := 0;
    while j < |order|
      invariant j <= |order|
      invariant Assign(order, buckets, prefix, j) == Groups(groups, groupId)
    {
      var groupWords := buckets[order[j]];
      if |groupWords| >= 2 {
        groupId := groupId + 1;
        groups := LabelWords(groups, groupWords, prefix + NatToString(groupId));
      }
      j := j + 1;
    }
  }

  method LabelWords(m: map<string, string>, ws: seq<string>, name: string) returns (r: map<string, string>)
    ensures r == Label(m, ws, name)
  {
    r := m;
    var i := 0;
    while i < |ws|
      invariant i <= |ws| && r == Label(m, ws[..i], name)
    {
      assert ws[..i + 1][..i] == ws[..i];
      r := r[ws[i] := name];
      i := i + 1;
    }
    assert ws[..|ws|] == ws;
  }

  /** Both passes for one key. */
  method GroupByKey(ws: seq<string>, key: string -> string, skip: map<string, string>, prefix: string)
    returns (groups: map<string, string>)
    ensures groups == GroupNames(Outside(ws, skip), key, prefix)
  {
    var order, buckets := CollectByKey(ws, key, skip);
    groups := NameGroups(order, buckets, prefix);
  }

  /** A non-empty key not yet seen has no words. */
  lemma BucketEmpty(ws: seq<string>, key: string -> string, k: string)
    requires k != "" && k !in KeyOrder(ws, key)
    ensures Bucket(ws, key, k) == []
  {
    BucketSpec(ws, key, k);
    KeyOrderSpec(ws, key);
  }

  /** One more word extends its key's list, adding the key when new. */
  lemma BucketsStep(ws: seq<string>, key: string -> string, w: string)
    ensures var k := key(w);
            var bs := Buckets(ws, key);
            && KeyOrder(ws + [w], key) == (if k != "" && k !in KeyOrder(ws, key) then KeyOrder(ws, key) + [k] else KeyOrder(ws, key))
            && Buckets(ws + [w], key) == (if k == "" then bs
                                         else if k in bs then bs[k := bs[k] + [w]]
                                         else bs[k := [w]])
  {
    var ws' := ws + [w];
    var k := key(w);
    assert ws'[..|ws'| - 1] == ws;
    var bs, bs' := Buckets(ws, key), Buckets(ws', key);
    KeyOrderDistinct(ws, key);
    assert k == "" ==> k !in bs;
    forall x | x in bs && x != k ensures bs'[x] == bs[x] {
      assert Bucket(ws', key, x) == Bucket(ws, key, x);
    }
    if k != "" && k !in bs {
      BucketEmpty(ws, key, k);
    }
    ExtendMap(bs, bs', k, w);
  }

  /** The map-level shape of one step of `BucketsStep`. */
  lemma ExtendMap(bs: map<string, seq<string>>, bs': map<string, seq<string>>, k: string, w: string)
    requires forall x :: x in bs' <==> x in bs || (k != "" && x == k)
    requires k == "" ==> k !in bs
    requires forall x :: x in bs && x != k ==> bs'[x] == bs[x]
    requires k != "" && k in bs ==> bs'[k] == bs[k] + [w]
    requires k != "" && k !in bs ==> bs'[k] == [w]
    ensures bs' == if k == "" then bs else if k in bs then bs[k := bs[k] + [w]] else bs[k := [w]]
  {
  }

  // ---------------------------------------------------------------------------
  // The editor's text and word list

  class Editor {
    var lyricsData: seq<WordRow>
    var text: string
    var rhymeGroups: map<string, string>
    var nearRhymeGroups: map<string, string>

    constructor ()
      ensures lyricsData == [] && text == [] && rhymeGroups == map[] && nearRhymeGroups == map[]
    {
      lyricsData := [];
      text := [];
      rhymeGroups := map[];
      nearRhymeGroups := map[];
    }

    /** `analyze_rhymes`: regroup the words of the current text. */
    method AnalyzeRhymes(p: RhymeAnalysis.Pronouncer)
      modifies this`rhymeGroups, this`nearRhymeGroups
      ensures rhymeGroups == PerfectGroups(p, text) && nearRhymeGroups == NearGroups(p, text)
    {
      var cleanText := RemoveChordAnnotations(text);
      var toks := Split(Lower(cleanText));
      var words := CleanWords(toks);
      var uniqueWords := Tally.KeysOf(Tally.TallyOf(words));
      OutsideNone(uniqueWords);
      rhymeGroups := GroupByKey(uniqueWords, PerfectKey(p), map[], "group_");
      nearRhymeGroups := GroupByKey(uniqueWords, NearKey(p), rhymeGroups, "near_");
    }

    /** `set_lyrics_data`: keep the words and show them one line per group. */
    method SetLyricsData(ws: seq<WordRow>)
      modifies this
      ensures lyricsData == ws && text == LyricsText(ws)
    {
      lyricsData := ws;
      text := BuildLyricsText(ws);
    }

    /** `update_lyrics_data_with_line_breaks`: the word at each token
        position takes "last token of its line" as its line-break flag. */
    method UpdateLineBreaks(t: string)
      modifies this`lyricsData
      ensures lyricsData == FlaggedWords(old(lyricsData), t)
    {
      var lines := SplitOn(t, '\n');
      ghost var orig := lyricsData;
      var wordIndex := 0;
      var li := 0;
      assert AllFlags(lines[..0]) == [];
      while li < |lines|
        invariant li <= |lines| && |lyricsData| == |orig|
        invariant wordIndex == |AllFlags(lines[..li])|
        invariant lyricsData == WithFlags(orig, AllFlags(lines[..li]))
      {
        var wordsInLine := Split(lines[li]);
        AllFlagsSnoc(lines, li);
        wordIndex := FlagLine(wordsInLine, wordIndex, orig, AllFlags(lines[..li]));
        li := li + 1;
      }
      assert lines[..|lines|] == lines;
    }

    /** The inner loop of `update_lyrics_data_with_line_breaks`: the words
        of one line take their flags, the last one True. */
    method FlagLine(wordsInLine: seq<string>, wordIndex0: nat, ghost orig: seq<WordRow>, ghost pre: seq<bool>)
      returns (wordIndex: nat)
      requires lyricsData == WithFlags(orig, pre) && wordIndex0 == |pre|
      modifies this`lyricsData
      ensures lyricsData == WithFlags(orig, pre + LineFlags(|wordsInLine|))
      ensures wordIndex == |pre| + |wordsInLine|
    {
      wordIndex := wordIndex0;
      var i := 0;
      while i < |wordsInLine|
        invariant i <= |wordsInLine|
        invariant wordIndex == |pre| + i
        invariant lyricsData == WithFlags(orig, pre + LineFlags(|wordsInLine|)[..i])
      {
        var isLast := i == |wordsInLine| - 1;
        FlagStep(orig, pre, |wordsInLine|, i);
        if wordIndex < |lyricsData| {
          lyricsData := lyricsData[wordIndex := lyricsData[wordIndex].(lineBreak := isLast)];
        }
        wordIndex := wordIndex + 1;
        i := i + 1;
      }
      assert LineFlags(|wordsInLine|)[..|wordsInLine|] == LineFlags(|wordsInLine|);
    }

    /** `apply_auto_wrapping`: when it applies, the text becomes its
        wrapped form, and if that differs the flags follow the new lines. */
    method ApplyAutoWrapping(viewportWidth: int)
      modifies this`text, this`lyricsData
      ensures !WrapApplies(old(lyricsData) != [], old(text), viewportWidth) ==>
                text == old(text) && lyricsData == old(lyricsData)
      ensures WrapApplies(old(lyricsData) != [], old(text), viewportWidth) ==>
                text == WrappedText(old(text))
                && lyricsData == (if text == old(text) then old(lyricsData)
                                  else FlaggedWords(old(lyricsData), text))
    {
      if lyricsData == [] || Strip(text) == [] || viewportWidth - 40 < MinEditorWidth {
        return;
      }
      var lines := SplitOn(text, '\n');
      var newLines := WrapAll(lines);
      var newText := Join(newLines, "\n");
      assert newText == WrappedText(text);
      if newText != text {
        text := newText;
        UpdateLineBreaks(newText);
      }
    }
  }

  /** The line loop of `apply_auto_wrapping`. */
  method WrapAll(lines: seq<string>) returns (newLines: seq<string>)
    ensures newLines == WrapLines(lines)
  {
    newLines := [];
    var i := 0;
    while i < |lines|
      invariant i <= |lines|
      invariant newLines == WrapLines(lines[..i])
    {
      var line := lines[i];
      WrapLinesStep(lines, i);
      var pieces := WrapOneLine(line);
      newLines := newLines + pieces;
      i := i + 1;
    }
    assert lines[..|lines|] == lines;
  }

  lemma AllFlagsSnoc(lines: seq<string>, li: nat)
    requires li < |lines|
    ensures AllFlags(lines[..li + 1]) == AllFlags(lines[..li]) + LineFlags(|Split(lines[li])|)
  {
    assert lines[..li + 1][..li] == lines[..li] && lines[..li + 1][li] == lines[li];
  }

  lemma FlagStep(orig: seq<WordRow>, pre: seq<bool>, n: nat, i: nat)
    requires i < n
    ensures var flags := pre + LineFlags(n)[..i];
            var cur := WithFlags(orig, flags);
            |flags| == |pre| + i
            && WithFlags(orig, pre + LineFlags(n)[..i + 1])
               == if |flags| < |orig| then cur[|flags| := cur[|flags|].(lineBreak := i == n - 1)] else cur
  {
    assert pre + LineFlags(n)[..i + 1] == pre + LineFlags(n)[..i] + [i == n - 1];
    WithFlagsSnoc(orig, pre + LineFlags(n)[..i], i == n - 1);
  }

  /** The token loop of `analyze_rhymes`: each token cleaned, the empty
      ones dropped. */
  method CleanWords(toks: seq<string>) returns (words: seq<string>)
    ensures words == CleanTokens(toks)
  {
    words := [];
    var i := 0;
    while i < |toks|
      invariant i <= |toks| && words == CleanTokens(toks[..i])
    {
      assert toks[..i + 1][..i] == toks[..i];
      var cleaned := CleanToken(toks[i]);
      if cleaned != [] {
        words := words + [cleaned];
      }
      i := i + 1;
    }
    assert toks[..|toks|] == toks;
  }
}
