/** Punctuation stripping for CCLI text (`_remove_punctuation_for_ccli` in
    `export/ccli_exporter.py`): apostrophes are kept, `. , ! ? ; :` become
    spaces, every other ASCII punctuation character is dropped, runs of
    spaces are collapsed and the result is stripped. */
module CcliPunctuation {
  import opened Common

  /** Python's `string.punctuation`: the printable ASCII characters that are
      neither letters, digits nor space. */
  predicate IsPunct(c: char) {
    ('!' <= c <= '/') || (':' <= c <= '@') || ('[' <= c <= '`') || ('{' <= c <= '~')
  }

  /** Punctuation that becomes a space. */
  predicate IsSpacer(c: char) {
    c == '.' || c == ',' || c == '!' || c == '?' || c == ';' || c == ':'
  }

  /** A character the cleaning never removes or rewrites. */
  predicate Kept(c: char) {
    !IsPunct(c) || c == '\''
  }

  /** What one character of the input becomes. */
  function MapChar(c: char): (r: string)
    ensures |r| <= 1
    ensures Kept(c) ==> r == [c]
    ensures !Kept(c) && IsSpacer(c) ==> r == " "
    ensures !Kept(c) && !IsSpacer(c) ==> r == []
  {
    if Kept(c) then [c] else if IsSpacer(c) then " " else []
  }

  /** The character loop's result. */
  function MapPunct(s: string): string {
    if s == [] then [] else MapPunct(s[..|s| - 1]) + MapChar(s[|s| - 1])
  }

  /** No two adjacent spaces (`"  " not in s`). */
  predicate NoDoubleSpace(s: string) {
    forall i :: 0 <= i < |s| - 1 ==> !(s[i] == ' ' && s[i + 1] == ' ')
  }

  /** `s.replace("  ", " ")`: pairs of spaces, matched left to right without
      overlap, each become one space. */
  function ReplacePairs(s: string): (r: string)
    ensures |r| <= |s|
  {
    if |s| >= 2 && s[0] == ' ' && s[1] == ' ' then " " + ReplacePairs(s[2..])
    else if s == [] then []
    else [s[0]] + ReplacePairs(s[1..])
  }

  /** Every run of spaces shortened to one space; `afterSpace` says whether
      the text before `s` ended in a space. */
  function CollapseAfter(s: string, afterSpace: bool): string {
    if s == [] then []
    else if s[0] == ' ' && afterSpace then CollapseAfter(s[1..], true)
    else [s[0]] + CollapseAfter(s[1..], s[0] == ' ')
  }

  function Collapse(s: string): string {
    CollapseAfter(s, false)
  }

  /** One replacement pass leaves the collapsed form unchanged. */
  lemma {:induction false} ReplaceKeepsCollapse(s: string, afterSpace: bool)
    ensures CollapseAfter(ReplacePairs(s), afterSpace) == CollapseAfter(s, afterSpace)
    decreases |s|
  {
    if |s| >= 2 && s[0] == ' ' && s[1] == ' ' {
      ReplaceKeepsCollapse(s[2..], true);
      var r := " " + ReplacePairs(s[2..]);
      assert r[1..] == ReplacePairs(s[2..]);
      assert s[1..][1..] == s[2..];
    } else if s != [] {
      ReplaceKeepsCollapse(s[1..], s[0] == ' ');
      var r := [s[0]] + ReplacePairs(s[1..]);
      assert r[1..] == ReplacePairs(s[1..]);
    }
  }

  /** A replacement pass shortens a text that still holds a double space. */
  lemma {:induction false} ReplaceShortens(s: string)
    requires !NoDoubleSpace(s)
    ensures |ReplacePairs(s)| < |s|
  {
    var i :| 0 <= i < |s| - 1 && s[i] == ' ' && s[i + 1] == ' ';
    if |s| >= 2 && s[0] == ' ' && s[1] == ' ' {
    } else {
      assert i > 0;
      assert s[1..][i - 1] == ' ' && s[1..][i] == ' ';
      ReplaceShortens(s[1..]);
    }
  }

  /** A text without a double space is its own collapsed form. */
  lemma {:induction false} CollapseNoop(s: string, afterSpace: bool)
    requires NoDoubleSpace(s)
    requires afterSpace ==> s == [] || s[0] != ' '
    ensures CollapseAfter(s, afterSpace) == s
  {
    if s != [] {
      if |s| >= 2 && s[0] == ' ' {
        assert s[1] != ' ';
      }
      assert NoDoubleSpace(s[1..]) by {
        forall i | 0 <= i < |s[1..]| - 1
          ensures !(s[1..][i] == ' ' && s[1..][i + 1] == ' ')
        {
          assert s[1..][i] == s[i + 1] && s[1..][i + 1] == s[i + 2];
        }
      }
      CollapseNoop(s[1..], s[0] == ' ');
    }
  }

  /** The collapsed form has no double space and does not start with a
      space when the text before it ended in one. */
  lemma {:induction false} CollapseNoDouble(s: string, afterSpace: bool)
    ensures NoDoubleSpace(CollapseAfter(s, afterSpace))
    ensures afterSpace ==> CollapseAfter(s, afterSpace) == [] || CollapseAfter(s, afterSpace)[0] != ' '
    decreases |s|
  {
    if s != [] {
      CollapseNoDouble(s[1..], if s[0] == ' ' && afterSpace then true else s[0] == ' ');
      if !(s[0] == ' ' && afterSpace) {
        var t := CollapseAfter(s[1..], s[0] == ' ');
        var r := [s[0]] + t;
        forall i | 0 <= i < |r| - 1
          ensures !(r[i] == ' ' && r[i + 1] == ' ')
        {
          if i > 0 {
            assert r[i] == t[i - 1] && r[i + 1] == t[i];
          }
        }
      }
    }
  }

  /** The non-space characters of a text, in order. */
  function NonSpace(s: string): string {
    if s == [] then [] else NonSpace(s[..|s| - 1]) + (if IsSpace(s[|s| - 1]) then [] else [s[|s| - 1]])
  }

  /** The characters the cleaning keeps that are not whitespace, in order. */
  function KeptText(s: string): string {
    if s == [] then []
    else KeptText(s[..|s| - 1]) + (if Kept(s[|s| - 1]) && !IsSpace(s[|s| - 1]) then [s[|s| - 1]] else [])
  }

  lemma {:induction false} NonSpaceAppend(a: string, b: string)
    ensures NonSpace(a + b) == NonSpace(a) + NonSpace(b)
    decreases |b|
  {
    if b == [] {
      assert a + b == a;
    } else {
      assert (a + b)[..|a + b| - 1] == a + b[..|b| - 1];
      NonSpaceAppend(a, b[..|b| - 1]);
    }
  }

  lemma {:induction false} NonSpaceMapPunct(s: string)
    ensures NonSpace(MapPunct(s)) == KeptText(s)
  {
    if s != [] {
      NonSpaceMapPunct(s[..|s| - 1]);
      var m := MapChar(s[|s| - 1]);
      NonSpaceAppend(MapPunct(s[..|s| - 1]), m);
      if m != [] {
        assert m[..0] == [];
      }
    }
  }

  lemma {:induction false} NonSpacePrepend(c: char, s: string)
    ensures NonSpace([c] + s) == (if IsSpace(c) then [] else [c]) + NonSpace(s)
  {
    NonSpaceAppend([c], s);
    assert [c][..0] == [];
  }

  lemma {:induction false} NonSpaceCollapse(s: string, afterSpace: bool)
    ensures NonSpace(CollapseAfter(s, afterSpace)) == NonSpace(s)
    decreases |s|
  {
    if s != [] {
      assert s == [s[0]] + s[1..];
      NonSpacePrepend(s[0], s[1..]);
      if s[0] == ' ' && afterSpace {
        NonSpaceCollapse(s[1..], true);
      } else {
        NonSpaceCollapse(s[1..], s[0] == ' ');
        NonSpacePrepend(s[0], CollapseAfter(s[1..], s[0] == ' '));
      }
    }
  }

  lemma {:induction false} NonSpaceAllSpace(s: string)
    requires forall i :: 0 <= i < |s| ==> IsSpace(s[i])
    ensures NonSpace(s) == []
  {
    if s != [] {
      NonSpaceAllSpace(s[..|s| - 1]);
    }
  }

  /** Stripping is a slice: the result starts at offset k. */
  lemma StripSlice(s: string) returns (k: nat)
    ensures k + |Strip(s)| <= |s| && Strip(s) == s[k..k + |Strip(s)|]
  {
    var l := LStrip(s);
    var r := RStrip(l);
    k := |s| - |l|;
    assert Strip(s) == r;
    assert l == s[k..] && r == l[..|r|];
    assert s[k..][..|r|] == s[k..k + |r|];
  }

  /** What stripping removes is whitespace. */
  lemma StripNonSpace(s: string)
    ensures NonSpace(Strip(s)) == NonSpace(s)
  {
    LStripNonSpace(s);
    RStripNonSpace(LStrip(s));
  }

  lemma LStripNonSpace(s: string)
    ensures NonSpace(LStrip(s)) == NonSpace(s)
  {
    var l := LStrip(s);
    var k := |s| - |l|;
    var w := s[..k];
    assert s == w + l;
    assert forall i :: 0 <= i < |w| ==> IsSpace(w[i]);
    NonSpaceAllSpace(w);
    NonSpaceAppend(w, l);
  }

  lemma RStripNonSpace(s: string)
    ensures NonSpace(RStrip(s)) == NonSpace(s)
  {
    var r := RStrip(s);
    var w := s[|r|..];
    assert s == r + w;
    assert forall i :: 0 <= i < |w| ==> IsSpace(w[i]);
    NonSpaceAllSpace(w);
    NonSpaceAppend(r, w);
  }

  /** The cleaned text. */
  function CleanSpec(text: string): string {
    Strip(Collapse(MapPunct(text)))
  }

  lemma {:induction false} MapPunctChars(s: string)
    ensures forall i :: 0 <= i < |MapPunct(s)| ==> Kept(MapPunct(s)[i])
  {
    if s != [] {
      MapPunctChars(s[..|s| - 1]);
    }
  }

  lemma {:induction false} CollapseChars(s: string, afterSpace: bool)
    requires forall i :: 0 <= i < |s| ==> Kept(s[i])
    ensures forall i :: 0 <= i < |CollapseAfter(s, afterSpace)| ==> Kept(CollapseAfter(s, afterSpace)[i])
    decreases |s|
  {
    if s != [] {
      CollapseChars(s[1..], if s[0] == ' ' && afterSpace then true else s[0] == ' ');
    }
  }

  /** What the cleaning promises: only apostrophes remain of the
      punctuation, no double space is left, the ends are stripped, and the
      non-space characters are exactly the input's kept ones, in order. */
  lemma CleanSpecProperties(text: string)
    ensures var r := CleanSpec(text);
            (forall i :: 0 <= i < |r| ==> Kept(r[i]))
            && NoDoubleSpace(r)
            && (r == [] || (!IsSpace(r[0]) && !IsSpace(r[|r| - 1])))
            && NonSpace(r) == KeptText(text)
            && (text == [] ==> r == [])
  {
    CleanKeeps(text);
    CleanNoDouble(text);
    CleanNonSpace(text);
  }

  lemma CleanKeeps(text: string)
    ensures var r := CleanSpec(text); forall i :: 0 <= i < |r| ==> Kept(r[i])
  {
    var m := MapPunct(text);
    var c := Collapse(m);
    MapPunctChars(text);
    CollapseChars(m, false);
    var k := StripSlice(c);
    var r := Strip(c);
    forall i | 0 <= i < |r|
      ensures Kept(r[i])
    {
      assert r[i] == c[k + i];
    }
  }

  lemma CleanNoDouble(text: string)
    ensures NoDoubleSpace(CleanSpec(text))
  {
    var c := Collapse(MapPunct(text));
    CollapseNoDouble(MapPunct(text), false);
    var k := StripSlice(c);
    NoDoubleSlice(c, k, k + |Strip(c)|);
  }

  /** A slice of a text without a double space has none. */
  lemma NoDoubleSlice(c: string, i: nat, j: nat)
    requires NoDoubleSpace(c) && i <= j <= |c|
    ensures NoDoubleSpace(c[i..j])
  {
    var r := c[i..j];
    forall n | 0 <= n < |r| - 1
      ensures !(r[n] == ' ' && r[n + 1] == ' ')
    {
      assert r[n] == c[i + n] && r[n + 1] == c[i + n + 1];
    }
  }

  lemma CleanNonSpace(text: string)
    ensures NonSpace(CleanSpec(text)) == KeptText(text)
  {
    var m := MapPunct(text);
    StripNonSpace(Collapse(m));
    NonSpaceCollapse(m, false);
    NonSpaceMapPunct(text);
  }

  /** `_remove_punctuation_for_ccli`. */
  method RemovePunctuation(text: string) returns (cleaned: string)
    ensures cleaned == CleanSpec(text)
  {
    if text == [] {
      return "";
    }
    cleaned := "";
    for i := 0 to |text|
      invariant cleaned == MapPunct(text[..i])
    {
      assert text[..i + 1][..i] == text[..i];
      var c := text[i];
      if Kept(c) {
        cleaned := cleaned + [c];
      } else if IsSpacer(c) {
        cleaned := cleaned + " ";
      }
    }
    assert text[..|text|] == text;
    ghost var mapped := cleaned;
    while !NoDoubleSpace(cleaned)
      invariant Collapse(cleaned) == Collapse(mapped)
      decreases |cleaned|
    {
      ReplaceShortens(cleaned);
      ReplaceKeepsCollapse(cleaned, false);
      cleaned := ReplacePairs(cleaned);
    }
    CollapseNoop(cleaned, false);
    cleaned := Strip(cleaned);
  }
}
