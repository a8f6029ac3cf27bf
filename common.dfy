/** Shared vocabulary of the song editor model: optional values, Python's
    numeric conversions and the handful of `str` methods the code relies on
    (`strip`, `split`, `join`, `lower`, `startswith`, `str(int)`). */
module Common {

  /** A Python value that may be `None`. */
  datatype Option<T> = None | Some(value: T) {
    function GetOr(default: T): (r: T)
      ensures Some? ==> r == value
      ensures None? ==> r == default
    {
      match this
      case Some(v) => v
      case None => default
    }
  }

  /** The outcome of an operation that returns a value or raises. */
  datatype Result<T> = Ok(value: T) | Err(error: string)

  // ---------------------------------------------------------------------------
  // Numbers

  /** Python `int(x)` on a float: truncation toward zero. */
  function Trunc(x: real): (r: int)
    ensures 0.0 <= x ==> r as real <= x < r as real + 1.0
    ensures x < 0.0 ==> x <= r as real < x + 1.0
  {
    if x >= 0.0 then x.Floor else -((-x).Floor)
  }

  function MaxR(a: real, b: real): (r: real)
    ensures r >= a && r >= b && (r == a || r == b)
  {
    if a >= b then a else b
  }

  function MinR(a: real, b: real): (r: real)
    ensures r <= a && r <= b && (r == a || r == b)
  {
    if a <= b then a else b
  }

  function AbsR(x: real): (r: real)
    ensures r >= 0.0 && (r == x || r == -x)
  {
    if x >= 0.0 then x else -x
  }

  function MaxI(a: int, b: int): (r: int)
    ensures r >= a && r >= b && (r == a || r == b)
  {
    if a >= b then a else b
  }

  function MinI(a: int, b: int): (r: int)
    ensures r <= a && r <= b && (r == a || r == b)
  {
    if a <= b then a else b
  }

  // ---------------------------------------------------------------------------
  // Strings

  /** The characters Python's argument-less `split()` and `strip()` treat as
      whitespace (ASCII subset). */
  predicate IsSpace(c: char) {
    c == ' ' || c == '\t' || c == '\n' || c == '\r' || c == '\U{000B}' || c == '\U{000C}'
  }

  predicate NoSpace(s: string) {
    forall i :: 0 <= i < |s| ==> !IsSpace(s[i])
  }

  predicate IsAsciiLetter(c: char) {
    ('a' <= c <= 'z') || ('A' <= c <= 'Z')
  }

  predicate IsDigit(c: char) {
    '0' <= c <= '9'
  }

  function LowerChar(c: char): (r: char)
    ensures IsAsciiLetter(c) ==> 'a' <= r <= 'z'
    ensures !('A' <= c <= 'Z') ==> r == c
  {
    if 'A' <= c <= 'Z' then (c as int - 'A' as int + 'a' as int) as char else c
  }

  /** `s.lower()` on ASCII letters; other characters are kept. */
  function Lower(s: string): (r: string)
    ensures |r| == |s|
    ensures forall i :: 0 <= i < |s| ==> r[i] == LowerChar(s[i])
  {
    if s == [] then [] else [LowerChar(s[0])] + Lower(s[1..])
  }

  /** `s.lstrip()`. */
  function LStrip(s: string): (r: string)
    ensures |r| <= |s| && r == s[|s| - |r|..]
    ensures r == [] || !IsSpace(r[0])
    ensures forall i :: 0 <= i < |s| - |r| ==> IsSpace(s[i])
  {
    if s != [] && IsSpace(s[0]) then LStrip(s[1..]) else s
  }

  /** `s.rstrip()`. */
  function RStrip(s: string): (r: string)
    ensures |r| <= |s| && r == s[..|r|]
    ensures r == [] || !IsSpace(r[|r| - 1])
    ensures forall i :: |r| <= i < |s| ==> IsSpace(s[i])
  {
    if s != [] && IsSpace(s[|s| - 1]) then RStrip(s[..|s| - 1]) else s
  }

  /** `s.strip()`. */
  function Strip(s: string): (r: string)
    ensures |r| <= |s|
    ensures r == [] || (!IsSpace(r[0]) && !IsSpace(r[|r| - 1]))
  {
    RStrip(LStrip(s))
  }

  /** A string with no whitespace at either end is its own `strip()`. */
  lemma StripNoop(s: string)
    requires s == [] || (!IsSpace(s[0]) && !IsSpace(s[|s| - 1]))
    ensures Strip(s) == s
  {
    assert LStrip(s) == s;
  }

  predicate StartsWith(s: string, p: string) {
    |p| <= |s| && s[..|p|] == p
  }

  predicate EndsWith(s: string, p: string) {
    |p| <= |s| && s[|s| - |p|..] == p
  }

  /** Length of the leading run of non-whitespace characters. */
  function TokenLen(s: string): (n: nat)
    ensures n <= |s|
    ensures forall i :: 0 <= i < n ==> !IsSpace(s[i])
    ensures n == |s| || IsSpace(s[n])
  {
    if s == [] || IsSpace(s[0]) then 0 else 1 + TokenLen(s[1..])
  }

  /** Python's argument-less `s.split()`: the maximal runs of non-whitespace. */
  function Split(s: string): (r: seq<string>)
    ensures forall i :: 0 <= i < |r| ==> |r[i]| > 0 && NoSpace(r[i])
    decreases |s|
  {
    if s == [] then []
    else if IsSpace(s[0]) then Split(s[1..])
    else
      var n := TokenLen(s);
      [s[..n]] + Split(s[n..])
  }

  /** `sep.join(ss)`. */
  function Join(ss: seq<string>, sep: string): (r: string)
    ensures |ss| == 1 ==> r == ss[0]
    ensures ss == [] ==> r == []
  {
    if ss == [] then []
    else if |ss| == 1 then ss[0]
    else ss[0] + sep + Join(ss[1..], sep)
  }

  /** Concatenation of the strings in `ss` (`"".join(ss)`). */
  function Concat(ss: seq<string>): (r: string)
    ensures ss == [] ==> r == []
  {
    if ss == [] then [] else ss[0] + Concat(ss[1..])
  }

  lemma {:induction false} TokenLenPrefix(w: string, t: string)
    requires NoSpace(w)
    requires t == [] || IsSpace(t[0])
    ensures TokenLen(w + t) == |w|
  {
    if w != [] {
      assert (w + t)[1..] == w[1..] + t;
      TokenLenPrefix(w[1..], t);
    } else {
      assert w + t == t;
    }
  }

  /** Splitting the space-joined tokens gives the tokens back, provided no
      token is empty or holds whitespace. */
  lemma {:induction false} SplitJoin(ws: seq<string>)
    requires forall i :: 0 <= i < |ws| ==> |ws[i]| > 0 && NoSpace(ws[i])
    ensures Split(Join(ws, " ")) == ws
  {
    if ws == [] {
    } else if |ws| == 1 {
      var w := ws[0];
      TokenLenPrefix(w, []);
      assert w + [] == w;
      assert w[|w|..] == [];
    } else {
      var w := ws[0];
      var rest := Join(ws[1..], " ");
      var s := w + " " + rest;
      assert Join(ws, " ") == s;
      TokenLenPrefix(w, " " + rest);
      assert s == w + (" " + rest);
      assert s[..|w|] == w;
      assert s[|w|..] == " " + rest;
      assert (" " + rest)[1..] == rest;
      SplitJoin(ws[1..]);
      assert ws == [w] + ws[1..];
    }
  }

  /** Decimal digits of a natural number, as `str(n)` prints them. */
  function NatToString(n: nat): (r: string)
    ensures |r| > 0
    ensures forall i :: 0 <= i < |r| ==> IsDigit(r[i])
    decreases n
  {
    var d := ['0' + (n % 10) as char];
    if n < 10 then d else NatToString(n / 10) + d
  }

  /** `str(i)` for a Python int. */
  function IntToString(i: int): (r: string)
    ensures |r| > 0
    ensures i >= 0 ==> IsDigit(r[0])
    ensures i < 0 ==> r[0] == '-'
  {
    if i >= 0 then NatToString(i) else "-" + NatToString(-i)
  }

  /** Different numbers print differently. */
  lemma {:induction false} NatToStringInjective(a: nat, b: nat)
    requires NatToString(a) == NatToString(b)
    ensures a == b
    decreases a
  {
    var ra, rb := NatToString(a), NatToString(b);
    assert ra[|ra| - 1] == '0' + (a % 10) as char;
    assert rb[|rb| - 1] == '0' + (b % 10) as char;
    if a >= 10 && b >= 10 {
      assert ra[..|ra| - 1] == NatToString(a / 10);
      assert rb[..|rb| - 1] == NatToString(b / 10);
      NatToStringInjective(a / 10, b / 10);
    }
  }

  /** `s.split(c)` for a one-character separator: the pieces between
      occurrences of `c`, at least one. */
  function SplitOn(s: string, c: char): (r: seq<string>)
    ensures |r| >= 1
    ensures forall i :: 0 <= i < |r| ==> c !in r[i]
    decreases |s|
  {
    match FindFrom(s, c, 0)
    case None => [s]
    case Some(k) => [s[..k]] + SplitOn(s[k + 1..], c)
  }

  /** Joining the pieces with the separator gives the text back. */
  lemma {:induction false} JoinSplitOn(s: string, c: char)
    ensures Join(SplitOn(s, c), [c]) == s
    decreases |s|
  {
    match FindFrom(s, c, 0)
    case None =>
    case Some(k) =>
      var rest := SplitOn(s[k + 1..], c);
      var ps := [s[..k]] + rest;
      assert SplitOn(s, c) == ps;
      assert ps[1..] == rest;
      assert Join(ps, [c]) == s[..k] + [c] + Join(rest, [c]);
      JoinSplitOn(s[k + 1..], c);
      assert s == s[..k] + [c] + s[k + 1..];
  }

  /** Splitting pieces joined by a separator they do not hold gives the
      pieces back. */
  lemma {:induction false} SplitOnJoin(ps: seq<string>, c: char)
    requires |ps| >= 1 && forall i :: 0 <= i < |ps| ==> c !in ps[i]
    ensures SplitOn(Join(ps, [c]), c) == ps
  {
    var p := ps[0];
    if |ps| == 1 {
      FindFromAbsent(p, c, 0);
    } else {
      var rest := Join(ps[1..], [c]);
      var s := p + [c] + rest;
      assert Join(ps, [c]) == s;
      assert s[|p|] == c;
      assert forall j :: 0 <= j < |p| ==> s[j] == p[j];
      FindFromFirst(s, c, 0, |p|);
      assert s[..|p|] == p;
      assert s[|p| + 1..] == rest;
      SplitOnJoin(ps[1..], c);
    }
  }

  /** `s.replace(p, "")`: the non-overlapping occurrences of `p`, found left
      to right, removed. */
  function RemoveAll(s: string, p: string): (r: string)
    requires p != []
    ensures |r| <= |s|
    decreases |s|
  {
    if |s| < |p| then s
    else if s[..|p|] == p then RemoveAll(s[|p|..], p)
    else [s[0]] + RemoveAll(s[1..], p)
  }

  /** A text that does not hold the first character of `p`, followed by `p`,
      loses exactly that `p`. */
  lemma {:induction false} RemoveAllSuffix(w: string, p: string)
    requires p != [] && p[0] !in w
    ensures RemoveAll(w + p, p) == w
    decreases |w|
  {
    if w == [] {
      assert w + p == p;
      assert p[|p|..] == [];
    } else {
      var s := w + p;
      assert s[0] == w[0] != p[0];
      assert s[..|p|] != p;
      assert s[1..] == w[1..] + p;
      RemoveAllSuffix(w[1..], p);
      assert [w[0]] + w[1..] == w;
    }
  }

  /** Index of the first occurrence of `c` in `s`, from `from` on (`str.find`). */
  function FindFrom(s: string, c: char, from: nat): (r: Option<nat>)
    ensures r.Some? ==> from <= r.value < |s| && s[r.value] == c
    ensures r.Some? ==> forall k :: from <= k < r.value ==> s[k] != c
    ensures r.None? ==> forall k :: from <= k < |s| ==> s[k] != c
    decreases |s| - from
  {
    if from >= |s| then None
    else if s[from] == c then Some(from)
    else FindFrom(s, c, from + 1)
  }

  /** Concatenation regroups freely. */
  /** The part after `a` of a prefix `a + b` of `s` sits in `s` right after `a`. */
  lemma PrefixSlice<T>(a: seq<T>, b: seq<T>, s: seq<T>)
    requires a + b <= s
    ensures |a| + |b| <= |s| && s[|a|..|a| + |b|] == b
  {
    assert s[..|a| + |b|] == a + b;
  }

  /** A prefix one element longer. */
  lemma TakeNext<T>(s: seq<T>, i: nat)
    requires i < |s|
    ensures s[..i + 1] == s[..i] + [s[i]]
  {
  }

  lemma ConcatAssoc<T>(a: seq<T>, b: seq<T>, c: seq<T>)
    ensures a + (b + c) == (a + b) + c
  {
  }

  /** The search finds the first occurrence at or after `from`, and nothing
      when there is none. */
  lemma {:induction false} FindFromFirst(s: string, c: char, from: nat, k: nat)
    requires from <= k < |s| && s[k] == c
    requires forall j :: from <= j < k ==> s[j] != c
    ensures FindFrom(s, c, from) == Some(k)
    decreases k - from
  {
    if from < k {
      FindFromFirst(s, c, from + 1, k);
    }
  }

  lemma {:induction false} FindFromAbsent(s: string, c: char, from: nat)
    requires forall j :: from <= j < |s| ==> s[j] != c
    ensures FindFrom(s, c, from) == None
    decreases |s| - from
  {
    if from < |s| {
      FindFromAbsent(s, c, from + 1);
    }
  }

  // ---------------------------------------------------------------------------
  // Scans

  /** The index a `if x > best: best = x` scan settles on, from position i
      with running index `best` and value `bestVal`: the first strict
      improvement wins, so ties keep the earlier index. */
  function FirstBest(xs: seq<real>, i: nat, best: Option<nat>, bestVal: real): (r: Option<nat>)
    requires best.Some? ==> best.value < |xs|
    ensures r.Some? ==> r.value < |xs|
    decreases |xs| - i
  {
    if i >= |xs| then best
    else if xs[i] > bestVal then FirstBest(xs, i + 1, Some(i), xs[i])
    else FirstBest(xs, i + 1, best, bestVal)
  }

  /** The scan's state after [0, i): every value seen is at most the running
      best, which is strictly better than every value before it. */
  predicate FirstBestInv(xs: seq<real>, i: nat, best: Option<nat>, bestVal: real) {
    i <= |xs|
    && (forall j :: 0 <= j < i ==> xs[j] <= bestVal)
    && (best.Some? ==> best.value < i && xs[best.value] == bestVal
                       && forall j :: 0 <= j < best.value ==> xs[j] < bestVal)
  }

  /** The scan finds the first maximum; with no choice, nothing beat the
      starting value. */
  lemma {:induction false} FirstBestSound(xs: seq<real>, i: nat, best: Option<nat>, bestVal: real)
    requires FirstBestInv(xs, i, best, bestVal)
    ensures var r := FirstBest(xs, i, best, bestVal);
            (r.Some? ==> (forall j :: 0 <= j < |xs| ==> xs[j] <= xs[r.value])
                         && (forall j :: 0 <= j < r.value ==> xs[j] < xs[r.value]))
            && (r.Some? && best.None? ==> xs[r.value] > bestVal)
            && (r.None? ==> best.None? && forall j :: 0 <= j < |xs| ==> xs[j] <= bestVal)
    decreases |xs| - i
  {
    if i < |xs| {
      if xs[i] > bestVal {
        FirstBestSound(xs, i + 1, Some(i), xs[i]);
      } else {
        FirstBestSound(xs, i + 1, best, bestVal);
      }
    }
  }

  // ---------------------------------------------------------------------------
  // Pitch classes

  /** The twelve pitch-class names, sharps only, from C. */
  const NoteNames: seq<string> := ["C", "C#", "D", "D#", "E", "F", "F#", "G", "G#", "A", "A#", "B"]

  lemma NoteNamesDistinct(i1: nat, i2: nat)
    requires i1 < 12 && i2 < 12 && i1 != i2
    ensures NoteNames[i1] != NoteNames[i2]
  {
    var a := NoteNames[i1];
    var b := NoteNames[i2];
    if |a| == |b| && a[0] == b[0] {
      assert |a| == 2;
      assert a[1] == '#' && b[1] == '#';
    }
  }

  /** `np.roll(t, i)` on a 12-vector: element j of the result is element
      (j - i) mod 12. */
  function Roll<T>(t: seq<T>, i: int): (r: seq<T>)
    requires |t| == 12
    ensures |r| == 12
    ensures forall j :: 0 <= j < 12 ==> r[j] == t[(j - i) % 12]
  {
    seq(12, j requires 0 <= j < 12 => t[(j - i) % 12])
  }

  lemma ModBelow(x: int)
    requires -12 < x < 12
    ensures x % 12 == if x >= 0 then x else x + 12
  {
  }

  lemma ModAbove(x: int)
    requires 0 <= x < 24
    ensures x % 12 == if x < 12 then x else x - 12
  {
  }

  /** Rolling by i moves entry d to position (d + i) mod 12. */
  lemma RollAt<T>(t: seq<T>, i: nat, d: nat)
    requires |t| == 12 && i < 12 && d < 12
    ensures Roll(t, i)[(d + i) % 12] == t[d]
  {
    ModAbove(d + i);
    var j := (d + i) % 12;
    ModBelow(j - i);
  }
}
