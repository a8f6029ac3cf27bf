// The chord editor's list logic (`ui/chord_editor.py`): the symbol preview
// built from root, quality and bass, the in-place edits of the chord list
// (add, delete, move, simplify, merge), the progression text it exports and
// imports, and the statistics it shows.

module ChordEditor {
  import opened Common
  import opened Song
  import opened EditorList

  // ---------------------------------------------------------------------------
  // Symbol preview

  /** The text the quality selection appends to the root. Major adds nothing,
      minor adds "m", the other listed qualities add their own name, and a
      quality outside the list adds nothing. */
  function QualitySuffix(quality: string): (r: string)
    ensures quality == "major" ==> r == ""
    ensures quality == "minor" ==> r == "m"
    ensures quality != "major" && quality != "minor" ==> r == [] || r == quality
  {
    if quality == "minor" then "m"
    else if quality in {"dim", "aug", "7", "m7", "maj7", "dim7", "sus2", "sus4"} then quality
    else ""
  }

  /** The preview symbol: root, the quality suffix, and "/bass" when a bass
      is chosen that differs from the root. */
  function SymbolPreview(root: string, quality: string, bass: string): (r: string)
    ensures StartsWith(r, root)
    ensures bass != "" && bass != root ==> EndsWith(r, "/" + bass)
    ensures bass == "" || bass == root ==> r == root + QualitySuffix(quality)
  {
    var s := root + QualitySuffix(quality);
    var r := if bass != "" && bass != root then s + "/" + bass else s;
    assert r[..|root|] == root;
    r
  }

  // ---------------------------------------------------------------------------
  // Progression text

  /** The symbols of the chords, in order. */
  function Symbols(cs: seq<Chord>): (r: seq<string>)
    ensures |r| == |cs| && forall k :: 0 <= k < |cs| ==> r[k] == cs[k].symbol
  {
    seq(|cs|, k requires 0 <= k < |cs| => cs[k].symbol)
  }

  /** `export_progression`: the symbols separated by single spaces. */
  function ExportProgression(cs: seq<Chord>): (r: string)
    ensures cs == [] ==> r == ""
    ensures |cs| == 1 ==> r == cs[0].symbol
  {
    Join(Symbols(cs), " ")
  }

  /** Root and quality that the import's simple parsing reads off a symbol:
      any "m" not ending in "7" is minor with every "m" removed; an ending "7"
      is "m7" (every "m7" removed) when the symbol holds an "m", else "7"
      (every "7" removed); anything else is major. */
  function ParseSymbol(symbol: string): (r: (string, string))
    ensures r.1 in {"minor", "m7", "7", "major"}
    ensures r.1 == "major" ==> r.0 == symbol
    ensures |r.0| <= |symbol|
  {
    if 'm' in symbol && !EndsWith(symbol, "7") then (RemoveAll(symbol, "m"), "minor")
    else if EndsWith(symbol, "7") then
      if 'm' in symbol then (RemoveAll(symbol, "m7"), "m7") else (RemoveAll(symbol, "7"), "7")
    else (symbol, "major")
  }

  /** Chord `i` of an imported progression: one second per chord. */
  function ImportedChord(i: nat, symbol: string): (c: Chord)
    ensures c.symbol == symbol && c.start == i as real && c.end == i as real + 1.0
    ensures c.detectionMethod == Some("imported") && c.bass.None?
    ensures (c.root, c.quality) == ParseSymbol(symbol)
  {
    var (root, quality) := ParseSymbol(symbol);
    Chord(symbol, root, quality, i as real, i as real + 1.0, None, None, None, Some("imported"))
  }

  /** `import_progression`: one chord per whitespace token. */
  function ImportProgression(text: string): (r: seq<Chord>)
    ensures |r| == |Split(text)|
    ensures forall i :: 0 <= i < |r| ==> r[i] == ImportedChord(i, Split(text)[i])
  {
    var toks := Split(text);
    seq(|toks|, i requires 0 <= i < |toks| => ImportedChord(i, toks[i]))
  }

  /** Importing the exported progression gives back the symbols, one second
      apart, when no symbol is empty or holds whitespace. */
  lemma ExportImportSymbols(cs: seq<Chord>)
    requires forall k :: 0 <= k < |cs| ==> cs[k].symbol != "" && NoSpace(cs[k].symbol)
    ensures Symbols(ImportProgression(ExportProgression(cs))) == Symbols(cs)
    ensures forall i :: 0 <= i < |cs| ==>
              ImportProgression(ExportProgression(cs))[i].start == i as real &&
              ImportProgression(ExportProgression(cs))[i].end == i as real + 1.0
  {
    SplitJoin(Symbols(cs));
  }

  /** The import reads back the root and quality of a bass-less preview
      symbol of the four qualities simplification produces, provided the
      root holds no "m" and no "7". */
  lemma PreviewParses(root: string, quality: string)
    requires 'm' !in root && '7' !in root
    requires quality in {"major", "minor", "7", "m7"}
    ensures ParseSymbol(SymbolPreview(root, quality, "")) == (root, quality)
  {
    var s := SymbolPreview(root, quality, "");
    if quality == "minor" {
      assert s == root + "m";
      assert s[|s| - 1] == 'm';
      RemoveAllSuffix(root, "m");
    } else if quality == "7" {
      assert s == root + "7";
      assert s[|s| - 1..] == "7";
      assert 'm' !in s by { assert forall k :: 0 <= k < |s| ==> s[k] == if k < |root| then root[k] else '7'; }
      RemoveAllSuffix(root, "7");
    } else if quality == "m7" {
      assert s == root + "m7";
      assert s[|s| - 1..] == "7";
      assert s[|root|] == 'm';
      RemoveAllSuffix(root, "m7");
    } else {
      assert s == root;
      assert 'm' !in s;
      assert !EndsWith(s, "7") by {
        if |s| >= 1 { assert s[|s| - 1] != '7'; assert s[|s| - 1..] != "7"; }
      }
    }
  }

  // ---------------------------------------------------------------------------
  // Simplification

  /** The chords `simplify_chords` rewrites: no bass, and quality major,
      minor, 7 or m7. */
  predicate Simplifiable(c: Chord) {
    !Truthy(c.bass) && (c.quality == "major" || c.quality == "minor" || c.quality == "7" || c.quality == "m7")
  }

  /** One chord after simplification: the symbol becomes the bass-less
      preview of its root and quality; nothing else changes. */
  function Simplify(c: Chord): (r: Chord)
    ensures r == c.(symbol := r.symbol)
    ensures Simplifiable(c) ==> r.symbol == SymbolPreview(c.root, c.quality, "")
    ensures !Simplifiable(c) ==> r == c
  {
    if !Truthy(c.bass) then
      if c.quality == "major" then c.(symbol := c.root)
      else if c.quality == "minor" then c.(symbol := c.root + "m")
      else if c.quality == "7" then c.(symbol := c.root + "7")
      else if c.quality == "m7" then c.(symbol := c.root + "m7")
      else c
    else c
  }

  predicate Changed(c: Chord) {
    Simplify(c).symbol != c.symbol
  }

  /** How many chords simplification changes. */
  function ChangedCount(cs: seq<Chord>): (n: nat)
    ensures n <= |cs|
  {
    if cs == [] then 0
    else ChangedCount(cs[..|cs| - 1]) + (if Changed(cs[|cs| - 1]) then 1 else 0)
  }

  /** The count is zero exactly when no chord changes. */
  lemma {:induction false} ChangedCountZero(cs: seq<Chord>)
    ensures ChangedCount(cs) == 0 <==> forall k :: 0 <= k < |cs| ==> !Changed(cs[k])
  {
    if cs != [] {
      var p := cs[..|cs| - 1];
      ChangedCountZero(p);
      assert forall k :: 0 <= k < |p| ==> p[k] == cs[k];
    }
  }

  function SimplifyAll(cs: seq<Chord>): (r: seq<Chord>)
    ensures |r| == |cs| && forall k :: 0 <= k < |cs| ==> r[k] == Simplify(cs[k])
  {
    seq(|cs|, k requires 0 <= k < |cs| => Simplify(cs[k]))
  }

  /** Simplifying twice is simplifying once, and the second pass reports no
      change. */
  lemma SimplifyIdempotent(cs: seq<Chord>)
    ensures SimplifyAll(SimplifyAll(cs)) == SimplifyAll(cs)
    ensures ChangedCount(SimplifyAll(cs)) == 0
  {
    var s := SimplifyAll(cs);
    forall k | 0 <= k < |cs| ensures Simplify(s[k]) == s[k] {
      assert Simplifiable(s[k]) <==> Simplifiable(cs[k]);
    }
    ChangedCountZero(s);
  }

  /** The count only grows with a chord whose symbol actually changes. */
  lemma {:induction false} ChangedCountAppend(cs: seq<Chord>, c: Chord)
    ensures ChangedCount(cs + [c]) == ChangedCount(cs) + if Changed(c) then 1 else 0
  {
    assert (cs + [c])[..|cs|] == cs;
  }

  /** One pass of the simplification loop: the chord at `i` is simplified
      and counted. */
  lemma SimplifyStep(orig: seq<Chord>, cur: seq<Chord>, i: nat)
    requires i < |orig| && cur == SimplifyAll(orig[..i]) + orig[i..]
    ensures cur[i] == orig[i]
    ensures cur[i := Simplify(orig[i])] == SimplifyAll(orig[..i + 1]) + orig[i + 1..]
    ensures ChangedCount(orig[..i + 1]) == ChangedCount(orig[..i]) + if Changed(orig[i]) then 1 else 0
  {
    ChangedCountAppend(orig[..i], orig[i]);
    assert orig[..i + 1] == orig[..i] + [orig[i]];
    var lhs := cur[i := Simplify(orig[i])];
    var rhs := SimplifyAll(orig[..i + 1]) + orig[i + 1..];
    forall k | 0 <= k < |lhs| ensures lhs[k] == rhs[k] {
      if k > i {
        assert lhs[k] == orig[i..][k - i] == orig[k];
      }
    }
  }

  // ---------------------------------------------------------------------------
  // Merging

  /** No two neighbouring chords share a symbol. */
  predicate NoRepeats(cs: seq<Chord>) {
    forall j, k | 0 <= j < |cs| && 0 <= k < |cs| && k == j + 1 :: cs[j].symbol != cs[k].symbol
  }

  /** Runs of adjacent chords with the same symbol collapse into their first
      chord, which takes the end of the run's last chord. There is no check
      of the gap between the chords. */
  function Collapse(cs: seq<Chord>): (r: seq<Chord>)
    ensures |r| <= |cs|
    ensures cs != [] ==> r != [] && r[0].symbol == cs[0].symbol
    ensures NoRepeats(r)
    decreases |cs|
  {
    if |cs| < 2 then cs
    else if cs[0].symbol == cs[1].symbol then Collapse([cs[0].(end := cs[1].end)] + cs[2..])
    else [cs[0]] + Collapse(cs[1..])
  }

  /** The merged list starts with the first chord, stretched to some end, and
      ends where the last chord ends. */
  lemma {:induction false} CollapseEnds(cs: seq<Chord>)
    requires cs != []
    ensures Collapse(cs)[0] == cs[0].(end := Collapse(cs)[0].end)
    ensures Collapse(cs)[|Collapse(cs)| - 1].end == cs[|cs| - 1].end
    decreases |cs|
  {
    if |cs| >= 2 {
      if cs[0].symbol == cs[1].symbol {
        var m := [cs[0].(end := cs[1].end)] + cs[2..];
        CollapseEnds(m);
        assert m[|m| - 1].end == cs[|cs| - 1].end;
      } else {
        CollapseEnds(cs[1..]);
      }
    }
  }

  /** Reference definition: a list of symbols with adjacent repeats dropped. */
  function Dedup(xs: seq<string>): (r: seq<string>)
    decreases |xs|
  {
    if |xs| < 2 then xs
    else if xs[0] == xs[1] then Dedup(xs[1..])
    else [xs[0]] + Dedup(xs[1..])
  }

  /** Number of adjacent positions holding the same symbol. */
  function Repeats(xs: seq<string>): (n: nat)
    ensures n < |xs| || xs == []
    decreases |xs|
  {
    if |xs| < 2 then 0
    else (if xs[0] == xs[1] then 1 else 0) + Repeats(xs[1..])
  }

  /** The symbols of a list whose head is `c`. */
  lemma SymbolsCons(c: Chord, cs: seq<Chord>)
    ensures Symbols([c] + cs) == [c.symbol] + Symbols(cs)
  {
  }

  /** The merged symbols are the input symbols with adjacent repeats
      dropped. */
  lemma {:induction false} CollapseSymbols(cs: seq<Chord>)
    ensures Symbols(Collapse(cs)) == Dedup(Symbols(cs))
    decreases |cs|
  {
    if |cs| >= 2 {
      if cs[0].symbol == cs[1].symbol {
        var m := [cs[0].(end := cs[1].end)] + cs[2..];
        CollapseSymbols(m);
        DedupRepeat(cs, m);
      } else {
        CollapseSymbols(cs[1..]);
        DedupDistinct(cs);
      }
    }
  }

  lemma DedupRepeat(cs: seq<Chord>, m: seq<Chord>)
    requires |cs| >= 2 && cs[0].symbol == cs[1].symbol
    requires m == [cs[0].(end := cs[1].end)] + cs[2..]
    ensures Collapse(cs) == Collapse(m)
    ensures Dedup(Symbols(cs)) == Dedup(Symbols(m))
  {
    var xs := Symbols(cs);
    assert Symbols(m) == xs[1..];
  }

  lemma DedupDistinct(cs: seq<Chord>)
    requires |cs| >= 2 && cs[0].symbol != cs[1].symbol
    ensures Symbols(Collapse(cs)) == [cs[0].symbol] + Symbols(Collapse(cs[1..]))
    ensures Dedup(Symbols(cs)) == [cs[0].symbol] + Dedup(Symbols(cs[1..]))
  {
    var xs := Symbols(cs);
    assert Symbols(cs[1..]) == xs[1..];
    SymbolsCons(cs[0], Collapse(cs[1..]));
  }

  /** The number of chords merging removes is the number of adjacent
      repeats. */
  lemma {:induction false} CollapseRemoved(cs: seq<Chord>)
    ensures |cs| - |Collapse(cs)| == Repeats(Symbols(cs))
    decreases |cs|
  {
    if |cs| >= 2 {
      if cs[0].symbol == cs[1].symbol {
        var m := [cs[0].(end := cs[1].end)] + cs[2..];
        CollapseRemoved(m);
        DedupRepeat(cs, m);
        RepeatsRepeat(cs, m);
      } else {
        CollapseRemoved(cs[1..]);
        RepeatsDistinct(cs);
      }
    }
  }

  lemma RepeatsRepeat(cs: seq<Chord>, m: seq<Chord>)
    requires |cs| >= 2 && cs[0].symbol == cs[1].symbol
    requires m == [cs[0].(end := cs[1].end)] + cs[2..]
    ensures Repeats(Symbols(cs)) == 1 + Repeats(Symbols(m))
  {
    var xs := Symbols(cs);
    assert Symbols(m) == xs[1..];
  }

  lemma RepeatsDistinct(cs: seq<Chord>)
    requires |cs| >= 2 && cs[0].symbol != cs[1].symbol
    ensures |Collapse(cs)| == 1 + |Collapse(cs[1..])|
    ensures Repeats(Symbols(cs)) == Repeats(Symbols(cs[1..]))
  {
    var xs := Symbols(cs);
    assert Symbols(cs[1..]) == xs[1..];
  }

  /** One pass of the merge loop that absorbs the next chord leaves the
      merged result unchanged. */
  lemma MergeStep(s: seq<Chord>, i: nat)
    requires i + 1 < |s| && s[i].symbol == s[i + 1].symbol
    ensures var t := Delete(s[i := s[i].(end := s[i + 1].end)], i + 1);
            |t| == |s| - 1 && t[..i] + Collapse(t[i..]) == s[..i] + Collapse(s[i..])
  {
    var t := Delete(s[i := s[i].(end := s[i + 1].end)], i + 1);
    var tail := s[i..];
    assert tail[0] == s[i] && tail[1] == s[i + 1];
    assert t[..i] == s[..i];
    assert t[i..] == [s[i].(end := s[i + 1].end)] + tail[2..];
  }

  /** One pass of the merge loop that moves on to the next chord leaves the
      merged result unchanged. */
  lemma KeepStep(s: seq<Chord>, i: nat)
    requires i + 1 < |s| && s[i].symbol != s[i + 1].symbol
    ensures s[..i] + Collapse(s[i..]) == s[..i + 1] + Collapse(s[i + 1..])
  {
    var tail := s[i..];
    assert tail[0] == s[i] && tail[1] == s[i + 1];
    assert Collapse(tail) == [s[i]] + Collapse(tail[1..]);
    assert s[..i + 1] == s[..i] + [s[i]];
    assert s[i + 1..] == tail[1..];
  }

  /** When the merge loop stops at the last chord, the list is merged. */
  lemma LastStep(s: seq<Chord>, i: nat)
    requires i + 1 == |s|
    ensures s[..i] + Collapse(s[i..]) == s
  {
    assert s[i..] == [s[i]];
  }

  /** Merging a list with no adjacent repeats changes nothing, so merging is
      idempotent. */
  lemma {:induction false} CollapseIdempotent(cs: seq<Chord>)
    ensures Collapse(Collapse(cs)) == Collapse(cs)
  {
    CollapseNoRepeats(Collapse(cs));
  }

  lemma {:induction false} CollapseNoRepeats(cs: seq<Chord>)
    requires NoRepeats(cs)
    ensures Collapse(cs) == cs
    decreases |cs|
  {
    if |cs| >= 2 {
      CollapseNoRepeats(cs[1..]);
      assert [cs[0]] + cs[1..] == cs;
    }
  }

  // ---------------------------------------------------------------------------
  // Statistics

  datatype ChordStats = ChordStats(total: nat, unique: nat, duration: real)

  /** The distinct symbols. */
  function SymbolSet(cs: seq<Chord>): (r: set<string>)
    ensures |r| <= |cs|
    ensures forall k :: 0 <= k < |cs| ==> cs[k].symbol in r
    ensures forall x :: x in r ==> exists k :: 0 <= k < |cs| && cs[k].symbol == x
  {
    if cs == [] then {}
    else
      var rest := SymbolSet(cs[1..]);
      assert forall k :: 1 <= k < |cs| ==> cs[k] == cs[1..][k - 1];
      {cs[0].symbol} + rest
  }

  /** Sum of the chord lengths, end minus start. */
  function TotalDuration(cs: seq<Chord>): (d: real)
  {
    if cs == [] then 0.0 else (cs[0].end - cs[0].start) + TotalDuration(cs[1..])
  }

  /** The statistics panel: chord count, number of distinct symbols and
      total length. */
  function Statistics(cs: seq<Chord>): (st: ChordStats)
    ensures st.total == |cs| && st.unique <= st.total
    ensures st.unique == 0 <==> cs == []
    ensures st.duration == TotalDuration(cs)
  {
    var u := SymbolSet(cs);
    assert cs != [] ==> cs[0].symbol in u;
    ChordStats(|cs|, |u|, TotalDuration(cs))
  }

  /** Merging keeps the set of distinct symbols. */
  lemma {:induction false} CollapseKeepsSymbols(cs: seq<Chord>)
    ensures SymbolSet(Collapse(cs)) == SymbolSet(cs)
    decreases |cs|
  {
    if |cs| >= 2 {
      if cs[0].symbol == cs[1].symbol {
        var m := [cs[0].(end := cs[1].end)] + cs[2..];
        CollapseKeepsSymbols(m);
        assert m[1..] == cs[2..] == cs[1..][1..];
      } else {
        CollapseKeepsSymbols(cs[1..]);
        assert ([cs[0]] + Collapse(cs[1..]))[1..] == Collapse(cs[1..]);
      }
    }
  }

  /** The chord list's total length is the sum over each part of a split. */
  lemma {:induction false} TotalDurationAppend(a: seq<Chord>, b: seq<Chord>)
    ensures TotalDuration(a + b) == TotalDuration(a) + TotalDuration(b)
    decreases |a|
  {
    if a != [] {
      TotalDurationAppend(a[1..], b);
      assert (a + b)[1..] == a[1..] + b;
    } else {
      assert a + b == b;
    }
  }

  // ---------------------------------------------------------------------------
  // The editor

  /** The chord a click on "add" creates at row `at` from the current
      selections: symbol from the preview, one second long starting at the
      row number, an empty bass left unset. */
  function NewChord(at: nat, root: string, quality: string, bass: string): (c: Chord)
    ensures c.start == at as real && c.end == c.start + 1.0
    ensures c.symbol == SymbolPreview(root, quality, bass) && c.root == root && c.quality == quality
    ensures c.bass == (if bass == "" then None else Some(bass))
    ensures c.detectionMethod == Some("manual")
  {
    Chord(SymbolPreview(root, quality, bass), root, quality, at as real, at as real + 1.0,
          if bass == "" then None else Some(bass), None, None, Some("manual"))
  }

  /** The editor's chord list. Rows are table rows: -1 when nothing is
      selected, otherwise an index into the list. */
  class Editor {
    var chords: seq<Chord>

    constructor ()
      ensures chords == []
    {
      chords := [];
    }

    /** `add_chord`: insert at the selected row, or append when none is. */
    method AddChord(row: int, root: string, quality: string, bass: string)
      modifies this
      ensures var at := if row < 0 then |old(chords)| else row;
              chords == Insert(old(chords), at, NewChord(at, root, quality, bass))
    {
      var at := if row < 0 then |chords| else row;
      chords := Insert(chords, at, NewChord(at, root, quality, bass));
    }

    /** `delete_chord`. */
    method DeleteChord(row: int)
      modifies this
      ensures chords == Delete(old(chords), row)
    {
      chords := Delete(chords, row);
    }

    /** `move_chord_up`. */
    method MoveChordUp(row: int)
      requires row < |chords|
      modifies this
      ensures chords == MoveUp(old(chords), row)
    {
      chords := MoveUp(chords, row);
    }

    /** `move_chord_down`. */
    method MoveChordDown(row: int)
      requires row >= -1
      modifies this
      ensures chords == MoveDown(old(chords), row)
    {
      chords := MoveDown(chords, row);
    }

    /** `simplify_chords`: rewrites each chord in turn and counts the symbols
        that changed. */
    method SimplifyChords() returns (count: nat)
      modifies this
      ensures chords == SimplifyAll(old(chords))
      ensures count == ChangedCount(old(chords))
    {
      ghost var orig := chords;
      var i := 0;
      count := 0;
      while i < |chords|
        invariant i <= |chords| == |orig|
        invariant chords == SimplifyAll(orig[..i]) + orig[i..]
        invariant count == ChangedCount(orig[..i])
      {
        SimplifyStep(orig, chords, i);
        var c := chords[i];
        if Simplify(c).symbol != c.symbol {
          count := count + 1;
        }
        chords := chords[i := Simplify(c)];
        i := i + 1;
      }
      assert orig[..i] == orig;
    }

    /** `merge_similar_chords`: walks the list, absorbing each next chord
        with the same symbol into the current one. Returns the number
        merged. */
    method MergeSimilarChords() returns (count: nat)
      modifies this
      ensures chords == Collapse(old(chords))
      ensures count == |old(chords)| - |chords|
    {
      count := 0;
      if |chords| < 2 {
        return;
      }
      ghost var orig := chords;
      var i := 0;
      while i < |chords| - 1
        invariant 0 <= i < |chords|
        invariant chords[..i] + Collapse(chords[i..]) == Collapse(orig)
        invariant count + |chords| == |orig|
        decreases |chords| - i
      {
        if chords[i].symbol == chords[i + 1].symbol {
          MergeStep(chords, i);
          chords := chords[i := chords[i].(end := chords[i + 1].end)];
          chords := Delete(chords, i + 1);
          count := count + 1;
        } else {
          KeepStep(chords, i);
          i := i + 1;
        }
      }
      LastStep(chords, i);
    }

    /** `get_chords`: a copy of the list. */
    method GetChords() returns (r: seq<Chord>)
      ensures r == chords
    {
      r := chords;
    }

    /** `set_chords`. */
    method SetChords(cs: seq<Chord>)
      modifies this
      ensures chords == cs
    {
      chords := cs;
    }

    /** `import_progression`: replaces the list by the parsed chords. */
    method ImportProgressionText(text: string)
      modifies this
      ensures chords == ImportProgression(text)
    {
      var toks := Split(text);
      chords := [];
      var i := 0;
      while i < |toks|
        invariant i <= |toks|
        invariant chords == ImportProgression(text)[..i]
      {
        chords := chords + [ImportedChord(i, toks[i])];
        i := i + 1;
      }
    }
  }
}
