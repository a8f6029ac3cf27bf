/** The word analysers behind the enhanced lyrics editor
    (`ui/enhanced_lyrics_editor.py`): syllable counting, rhyme keys, rhyme
    search and frequency ordering. The pronunciation dictionary, the
    `pronouncing` library and the corpus word counts are not modelled:
    each enters as a function given by the caller. Only ASCII letters are
    letters here. */
module RhymeAnalysis {
  import opened Common

  // ---------------------------------------------------------------------------
  // Character classes and cleaning

  /** An ASCII character of the regular-expression class `\w`: a letter,
      a digit or '_'. Python's `\w` also matches non-ASCII letters and
      digits. */
  predicate IsWordChar(c: char) {
    IsAsciiLetter(c) || IsDigit(c) || c == '_'
  }

  predicate IsVowel(c: char) {
    c in "aeiouy"
  }

  /** `re.sub(r'[^\w\s]', '', w.lower())`: word characters and whitespace
      of the lower-cased word. */
  function CleanWord(w: string): (r: string)
    ensures |r| <= |w|
    ensures forall i :: 0 <= i < |r| ==> IsWordChar(r[i]) || IsSpace(r[i])
  {
    KeepWordChars(Lower(w))
  }

  function KeepWordChars(s: string): (r: string)
    ensures |r| <= |s|
    ensures forall i :: 0 <= i < |r| ==> IsWordChar(r[i]) || IsSpace(r[i])
  {
    if s == [] then []
    else (if IsWordChar(s[0]) || IsSpace(s[0]) then [s[0]] else []) + KeepWordChars(s[1..])
  }

  /** `re.sub(r'[^A-Za-z]', '', w.lower())`: the letters of the lower-cased
      word. */
  function LettersOnly(w: string): (r: string)
    ensures |r| <= |w|
    ensures forall i :: 0 <= i < |r| ==> 'a' <= r[i] <= 'z'
  {
    if w == [] then []
    else (if IsAsciiLetter(w[0]) then [LowerChar(w[0])] else []) + LettersOnly(w[1..])
  }

  /** The last `n` characters (`s[-n:]`), the whole of a shorter string. */
  function Last(s: string, n: nat): (r: string)
    ensures |r| == MinI(n, |s|) && r == s[|s| - |r|..]
  {
    if |s| >= n then s[|s| - n..] else s
  }

  // ---------------------------------------------------------------------------
  // Syllables

  /** Number of maximal runs of vowels (`len(re.findall('[aeiouy]+', s))`);
      `inRun` says whether the character before `s` was a vowel. */
  function VowelRuns(s: string, inRun: bool): (n: nat)
    ensures n <= |s|
    ensures (exists i :: 0 <= i < |s| && IsVowel(s[i])) ==> n >= 1 || inRun
  {
    if s == [] then 0
    else if IsVowel(s[0]) then (if inRun then 0 else 1) + VowelRuns(s[1..], true)
    else VowelRuns(s[1..], false)
  }

  /** A phoneme carrying a stress digit is a vowel sound. */
  predicate Stressed(p: string) {
    p != [] && IsDigit(p[|p| - 1])
  }

  function StressedCount(ps: seq<string>): (n: nat)
    ensures n <= |ps|
  {
    if ps == [] then 0 else (if Stressed(ps[0]) then 1 else 0) + StressedCount(ps[1..])
  }

  /** `count_syllables` without its cache: a dictionary word counts its
      stressed phonemes (of its first pronunciation, which `cmu` gives),
      any other word its vowel runs, at least one. */
  function Syllables(cmu: map<string, seq<string>>, w: string): (n: nat)
    ensures CleanWord(w) in cmu ==> n == StressedCount(cmu[CleanWord(w)])
    ensures CleanWord(w) !in cmu ==> n >= 1 && n == MaxI(1, VowelRuns(CleanWord(w), false))
  {
    var clean := CleanWord(w);
    if clean in cmu then StressedCount(cmu[clean]) else MaxI(1, VowelRuns(clean, false))
  }

  /** `SyllableCounter`: the dictionary and the per-word cache. */
  class SyllableCounter {
    const cmu: map<string, seq<string>>
    var cache: map<string, nat>

    /** Every cached count is the count of its word. */
    ghost predicate Valid()
      reads this
    {
      forall w :: w in cache ==> cache[w] == Syllables(cmu, w)
    }

    constructor (dict: map<string, seq<string>>)
      ensures Valid() && cmu == dict && cache == map[]
    {
      cmu := dict;
      cache := map[];
    }

    /** `count_syllables`: answers from the cache when it can, and caches
        what it computes; the answer never depends on the cache. */
    method CountSyllables(w: string) returns (n: nat)
      requires Valid()
      modifies this`cache
      ensures Valid()
      ensures n == Syllables(cmu, w)
      ensures cache == old(cache)[w := n]
    {
      if w in cache {
        n := cache[w];
        return;
      }
      var clean := CleanWord(w);
      if clean in cmu {
        n := StressedCount(cmu[clean]);
      } else {
        var groups := VowelRuns(clean, false);
        n := if groups >= 1 then groups else 1;
      }
      cache := cache[w := n];
    }
  }

  // ---------------------------------------------------------------------------
  // Rhyme keys

  /** The `pronouncing` library as the model sees it: pronunciations of a
      word (each a space-separated phoneme string), the rhyming part of a
      pronunciation, stress patterns of a word, the words with a stress
      pattern, and the perfect rhymes of a word. */
  datatype Pronouncer = Pronouncer(
    phones: string -> seq<string>,
    rhymingPart: string -> string,
    stresses: string -> seq<string>,
    searchStresses: string -> seq<string>,
    rhymes: string -> seq<string>)

  /** `rhyme_key`: the rhyming part of the first pronunciation of the
      word's letters, or, for a word the dictionary lacks, its last three
      letters. No letters give no key. */
  function RhymeKey(p: Pronouncer, w: string): (k: string)
    ensures LettersOnly(w) == [] ==> k == []
    ensures LettersOnly(w) != [] && p.phones(LettersOnly(w)) == [] ==> k == Last(LettersOnly(w), 3)
    ensures LettersOnly(w) != [] && p.phones(LettersOnly(w)) != [] ==>
              k == p.rhymingPart(p.phones(LettersOnly(w))[0])
  {
    var clean := LettersOnly(w);
    if clean == [] then []
    else
      var phones := p.phones(clean);
      if phones != [] then p.rhymingPart(phones[0]) else Last(clean, 3)
  }

  predicate HasDigit(s: string) {
    exists i :: 0 <= i < |s| && IsDigit(s[i])
  }

  function DropDigits(s: string): (r: string)
    ensures |r| <= |s| && forall i :: 0 <= i < |r| ==> !IsDigit(r[i])
  {
    if s == [] then [] else (if IsDigit(s[0]) then [] else [s[0]]) + DropDigits(s[1..])
  }

  /** The last phoneme holding a digit, searched from the end. */
  function LastVowelPhone(ps: seq<string>): (r: Option<string>)
    ensures r.Some? ==> r.value in ps && HasDigit(r.value)
    ensures r.None? ==> forall i :: 0 <= i < |ps| ==> !HasDigit(ps[i])
  {
    if ps == [] then None
    else if HasDigit(ps[|ps| - 1]) then Some(ps[|ps| - 1])
    else LastVowelPhone(ps[..|ps| - 1])
  }

  /** The maximal run of vowels that ends `s`. */
  function TrailingVowels(s: string): (r: string)
    ensures |r| <= |s| && r == s[|s| - |r|..]
    ensures forall i :: 0 <= i < |r| ==> IsVowel(r[i])
    ensures |r| == |s| || !IsVowel(s[|s| - |r| - 1])
  {
    if s == [] || !IsVowel(s[|s| - 1]) then [] else TrailingVowels(s[..|s| - 1]) + [s[|s| - 1]]
  }

  /** The last group of `re.findall('[aeiouy]+', s)`, if any. */
  function LastVowelGroup(s: string): (r: Option<string>)
    ensures r.Some? ==> r.value != [] && forall i :: 0 <= i < |r.value| ==> IsVowel(r.value[i])
    ensures r.None? ==> forall i :: 0 <= i < |s| ==> !IsVowel(s[i])
  {
    if s == [] then None
    else if IsVowel(s[|s| - 1]) then Some(TrailingVowels(s))
    else LastVowelGroup(s[..|s| - 1])
  }

  /** `near_rhyme_key`: the last vowel phoneme without its stress digit;
      for a word the dictionary lacks (or whose pronunciation has no
      vowel), the last vowel group of its letters, else its last two
      letters. No letters give no key. */
  function NearRhymeKey(p: Pronouncer, w: string): (k: string)
    ensures LettersOnly(w) == [] ==> k == []
    ensures LettersOnly(w) != [] && p.phones(LettersOnly(w)) == [] ==>
              k == match LastVowelGroup(LettersOnly(w))
                   case Some(g) => g
                   case None => Last(LettersOnly(w), 2)
  {
    var clean := LettersOnly(w);
    if clean == [] then []
    else
      var phones := p.phones(clean);
      var vowel := if phones != [] then LastVowelPhone(Split(phones[0])) else None;
      match vowel
      case Some(v) => DropDigits(v)
      case None =>
        match LastVowelGroup(clean)
        case Some(g) => g
        case None => Last(clean, 2)
  }

  // ---------------------------------------------------------------------------
  // Rhyme tests and search

  predicate InLower(w: string, ws: seq<string>) {
    exists i :: 0 <= i < |ws| && Lower(ws[i]) == Lower(w)
  }

  /** `are_perfect_rhymes`: `w2` is among the library's rhymes of `w1`,
      ignoring case; a word does not rhyme with itself. */
  predicate ArePerfectRhymes(p: Pronouncer, w1: string, w2: string) {
    w1 != w2 && InLower(w2, p.rhymes(w1))
  }

  /** `are_near_rhymes`: both words are in the dictionary, their rhyming
      parts are not the same non-empty string, their last vowel phonemes
      agree without stress, and their rhyme keys are not the same
      non-empty key. */
  predicate AreNearRhymes(p: Pronouncer, w1: string, w2: string) {
    && w1 != w2
    && p.phones(w1) != [] && p.phones(w2) != []
    && var r1, r2 := p.rhymingPart(p.phones(w1)[0]), p.rhymingPart(p.phones(w2)[0]);
    && !(r1 == r2 && r1 != [])
    && var v1, v2 := LastVowelPhone(Split(p.phones(w1)[0])), LastVowelPhone(Split(p.phones(w2)[0]));
    && v1.Some? && v2.Some?
    && DropDigits(v1.value) == DropDigits(v2.value)
    && var k1, k2 := RhymeKey(p, w1), RhymeKey(p, w2);
    && !(k1 == k2 && k1 != [])
  }

  /** The class a word of the list falls in for `find_rhymes`. */
  function RhymeClass(p: Pronouncer, target: string, w: string): (c: int)
    ensures Lower(w) == Lower(target) ==> c == 0
  {
    if Lower(w) == Lower(target) then 0
    else if ArePerfectRhymes(p, target, w) then 1
    else if AreNearRhymes(p, target, w) then 2
    else 0
  }

  /** The words of `ws` of class `c`, in order. */
  function OfClass(p: Pronouncer, target: string, ws: seq<string>, c: int): (r: seq<string>)
    ensures |r| <= |ws|
    ensures forall i :: 0 <= i < |r| ==> r[i] in ws && RhymeClass(p, target, r[i]) == c
  {
    if ws == [] then []
    else
      var pre := OfClass(p, target, ws[..|ws| - 1], c);
      var w := ws[|ws| - 1];
      if RhymeClass(p, target, w) == c then pre + [w] else pre
  }

  /** Every word of the list other than the target lands in the perfect
      list if it is a perfect rhyme, in the near list if it is a near rhyme
      and not a perfect one, and the target itself in neither. */
  lemma {:induction false} OfClassMembers(p: Pronouncer, target: string, ws: seq<string>, w: string, c: int)
    requires w in ws
    ensures w in OfClass(p, target, ws, c) <==> RhymeClass(p, target, w) == c
  {
    if ws != [] {
      var pre := ws[..|ws| - 1];
      if w in pre {
        OfClassMembers(p, target, pre, w, c);
      }
      assert ws == pre + [ws[|ws| - 1]];
    }
  }

  /** `find_rhymes`: splits the list into perfect and near rhymes of the
      target, skipping the target itself. */
  method FindRhymes(p: Pronouncer, target: string, ws: seq<string>) returns (perfect: seq<string>, near: seq<string>)
    ensures perfect == OfClass(p, target, ws, 1)
    ensures near == OfClass(p, target, ws, 2)
  {
    perfect, near := [], [];
    var i := 0;
    while i < |ws|
      invariant i <= |ws|
      invariant perfect == OfClass(p, target, ws[..i], 1)
      invariant near == OfClass(p, target, ws[..i], 2)
    {
      var w := ws[i];
      assert ws[..i + 1][..i] == ws[..i];
      if Lower(w) == Lower(target) {
      } else if ArePerfectRhymes(p, target, w) {
        perfect := perfect + [w];
      } else if AreNearRhymes(p, target, w) {
        near := near + [w];
      }
      i := i + 1;
    }
    assert ws[..i] == ws;
  }

  /** No word is in both lists, and the target is in neither. */
  lemma FindRhymesDisjoint(p: Pronouncer, target: string, ws: seq<string>, w: string)
    requires w in ws
    ensures !(w in OfClass(p, target, ws, 1) && w in OfClass(p, target, ws, 2))
    ensures Lower(w) == Lower(target) ==> w !in OfClass(p, target, ws, 1) && w !in OfClass(p, target, ws, 2)
  {
    OfClassMembers(p, target, ws, w, 1);
    OfClassMembers(p, target, ws, w, 2);
  }

  // ---------------------------------------------------------------------------
  // Frequency ordering

  /** `get_frequency`: the corpus count of the stripped, lower-cased word. */
  function Frequency(freq: string -> nat): (key: string -> nat)
    ensures forall w :: key(w) == freq(Lower(Strip(w)))
  {
    w => freq(Lower(Strip(w)))
  }

  /** Inserts `x` before the first entry whose key is at most its own. */
  function InsertByKey(key: string -> nat, x: string, s: seq<string>): (r: seq<string>)
    ensures multiset(r) == multiset(s) + multiset{x}
    ensures |r| == |s| + 1
  {
    if s == [] || key(s[0]) <= key(x) then [x] + s
    else
      assert s == [s[0]] + s[1..];
      [s[0]] + InsertByKey(key, x, s[1..])
  }

  /** Python's stable `sorted(s, key=key, reverse=True)`. */
  function SortByKey(key: string -> nat, s: seq<string>): (r: seq<string>)
    ensures multiset(r) == multiset(s) && |r| == |s|
  {
    if s == [] then []
    else
      assert s == [s[0]] + s[1..];
      InsertByKey(key, s[0], SortByKey(key, s[1..]))
  }

  /** `sort_by_frequency`: most frequent first, ties in input order. */
  function SortByFrequency(freq: string -> nat, s: seq<string>): (r: seq<string>)
    ensures multiset(r) == multiset(s)
  {
    SortByKey(Frequency(freq), s)
  }

  predicate Descending(key: string -> nat, s: seq<string>) {
    forall i, j :: 0 <= i < j < |s| ==> key(s[i]) >= key(s[j])
  }

  /** The entries of key `f`, in order. */
  function WithKey(key: string -> nat, s: seq<string>, f: nat): (r: seq<string>) {
    if s == [] then []
    else (if key(s[0]) == f then [s[0]] else []) + WithKey(key, s[1..], f)
  }

  lemma InsertKeepsOrder(key: string -> nat, x: string, s: seq<string>)
    requires Descending(key, s)
    ensures Descending(key, InsertByKey(key, x, s))
    ensures forall f :: WithKey(key, InsertByKey(key, x, s), f)
                        == (if key(x) == f then [x] else []) + WithKey(key, s, f)
  {
    InsertDescending(key, x, s);
    InsertWithKey(key, x, s);
  }

  /** Every entry of the result is the new entry or an old one. */
  lemma InsertMembers(key: string -> nat, x: string, s: seq<string>)
    ensures forall y :: y in InsertByKey(key, x, s) ==> y == x || y in s
  {
    var r := InsertByKey(key, x, s);
    forall y | y in r ensures y == x || y in s {
      assert y in multiset(r);
    }
  }

  lemma {:induction false} InsertDescending(key: string -> nat, x: string, s: seq<string>)
    requires Descending(key, s)
    ensures Descending(key, InsertByKey(key, x, s))
  {
    if s == [] || key(s[0]) <= key(x) {
      var r := [x] + s;
      assert r[1..] == s;
    } else {
      InsertDescending(key, x, s[1..]);
      InsertMembers(key, x, s[1..]);
      var t := InsertByKey(key, x, s[1..]);
      var r := [s[0]] + t;
      assert r == InsertByKey(key, x, s);
      forall k | 0 <= k < |t|
        ensures key(s[0]) >= key(t[k])
      {
        assert t[k] in t;
        if t[k] != x {
          assert t[k] in s[1..];
        }
      }
      assert forall k :: 1 <= k < |r| ==> r[k] == t[k - 1];
    }
  }

  lemma {:induction false} InsertWithKey(key: string -> nat, x: string, s: seq<string>)
    ensures forall f :: WithKey(key, InsertByKey(key, x, s), f)
                        == (if key(x) == f then [x] else []) + WithKey(key, s, f)
  {
    if s == [] || key(s[0]) <= key(x) {
      var r := [x] + s;
      assert r[1..] == s;
    } else {
      InsertWithKey(key, x, s[1..]);
      var t := InsertByKey(key, x, s[1..]);
      var r := [s[0]] + t;
      assert r[1..] == t;
    }
  }

  /** The sort orders by non-increasing key, keeps every entry, and is
      stable: the entries of each key keep their relative order. */
  lemma {:induction false} SortByKeyCorrect(key: string -> nat, s: seq<string>)
    ensures Descending(key, SortByKey(key, s))
    ensures forall f :: WithKey(key, SortByKey(key, s), f) == WithKey(key, s, f)
  {
    if s != [] {
      SortByKeyCorrect(key, s[1..]);
      InsertKeepsOrder(key, s[0], SortByKey(key, s[1..]));
    }
  }

  /** No two entries share a lower-case spelling. */
  predicate DistinctLower(s: seq<string>) {
    forall i, j :: 0 <= i < j < |s| ==> Lower(s[i]) != Lower(s[j])
  }

  lemma {:induction false} InsertDistinct(key: string -> nat, x: string, s: seq<string>)
    requires DistinctLower(s) && forall k :: 0 <= k < |s| ==> Lower(s[k]) != Lower(x)
    ensures DistinctLower(InsertByKey(key, x, s))
  {
    if s != [] && key(s[0]) > key(x) {
      InsertDistinct(key, x, s[1..]);
      InsertMembers(key, x, s[1..]);
      var t := InsertByKey(key, x, s[1..]);
      forall k | 0 <= k < |t|
        ensures Lower(s[0]) != Lower(t[k])
      {
        assert t[k] in t;
        if t[k] != x {
          assert t[k] in s[1..];
        }
      }
      var r := [s[0]] + t;
      assert r == InsertByKey(key, x, s);
      assert forall k :: 1 <= k < |r| ==> r[k] == t[k - 1];
    }
  }

  /** Sorting keeps spellings distinct. */
  lemma {:induction false} SortDistinct(key: string -> nat, s: seq<string>)
    requires DistinctLower(s)
    ensures DistinctLower(SortByKey(key, s))
  {
    if s != [] {
      SortDistinct(key, s[1..]);
      var t := SortByKey(key, s[1..]);
      forall k | 0 <= k < |t|
        ensures Lower(t[k]) != Lower(s[0])
      {
        assert t[k] in multiset(s[1..]);
        assert t[k] in s[1..];
      }
      InsertDistinct(key, s[0], t);
    }
  }

  // ---------------------------------------------------------------------------
  // Dictionary rhymes

  function LowerAll(ws: seq<string>): (r: seq<string>)
    ensures |r| == |ws| && forall i :: 0 <= i < |ws| ==> r[i] == Lower(ws[i])
  {
    seq(|ws|, i requires 0 <= i < |ws| => Lower(ws[i]))
  }

  /** The candidates other than the word itself and its perfect rhymes,
      compared in lower case. */
  function Exclude(cands: seq<string>, clean: string, perfect: set<string>): (r: seq<string>)
    ensures |r| <= |cands|
    ensures forall i :: 0 <= i < |r| ==> r[i] in cands && Lower(r[i]) != clean && Lower(r[i]) !in perfect
  {
    if cands == [] then []
    else
      var pre := Exclude(cands[..|cands| - 1], clean, perfect);
      var w := cands[|cands| - 1];
      if Lower(w) == clean || Lower(w) in perfect then pre else pre + [w]
  }

  /** The first entry of each lower-case spelling, in order. */
  function DedupLower(ws: seq<string>): (r: seq<string>)
    ensures |r| <= |ws|
    ensures forall i :: 0 <= i < |r| ==> r[i] in ws
    ensures forall i, j :: 0 <= i < j < |r| ==> Lower(r[i]) != Lower(r[j])
    ensures forall x :: x in ws ==> Lower(x) in LowerAll(r)
  {
    if ws == [] then []
    else
      var pre := DedupLower(ws[..|ws| - 1]);
      var w := ws[|ws| - 1];
      assert ws == ws[..|ws| - 1] + [w];
      if Lower(w) in LowerAll(pre) then pre
      else
        var r := pre + [w];
        assert LowerAll(r) == LowerAll(pre) + [Lower(w)];
        r
  }

  /** `dict_perfect_rhymes`: the library's rhymes of the cleaned word, most
      frequent first. */
  function DictPerfectRhymes(p: Pronouncer, freq: string -> nat, target: string): (r: seq<string>)
    ensures multiset(r) == multiset(p.rhymes(CleanWord(target)))
  {
    SortByFrequency(freq, p.rhymes(CleanWord(target)))
  }

  /** The lower-case spellings of the library's perfect rhymes. */
  function PerfectSet(p: Pronouncer, clean: string): (r: set<string>)
    ensures forall w :: Lower(w) in r <==> InLower(w, p.rhymes(clean))
  {
    var rh := p.rhymes(clean);
    var r := set i | 0 <= i < |rh| :: Lower(rh[i]);
    assert forall w :: InLower(w, rh) ==> Lower(w) in r;
    r
  }

  /** The candidates `dict_near_rhymes` keeps before sorting. */
  function NearCandidates(p: Pronouncer, clean: string): (r: seq<string>)
  {
    var stresses := p.stresses(clean);
    if stresses == [] then []
    else DedupLower(Exclude(p.searchStresses(stresses[0]), clean, PerfectSet(p, clean)))
  }

  /** `dict_near_rhymes`: words with the same stress pattern as the cleaned
      word, without the word itself and its perfect rhymes, one per
      lower-case spelling, most frequent first; a word without a stress
      pattern gives none. */
  function DictNearRhymes(p: Pronouncer, freq: string -> nat, target: string): (r: seq<string>)
    ensures p.stresses(CleanWord(target)) == [] ==> r == []
  {
    SortByFrequency(freq, NearCandidates(p, CleanWord(target)))
  }

  /** The near rhymes never hold the word itself or one of its perfect
      rhymes, hold each lower-case spelling once, come most frequent first,
      and keep candidate order among equally frequent words. */
  lemma DictNearRhymesFiltered(p: Pronouncer, freq: string -> nat, target: string)
    ensures var r := DictNearRhymes(p, freq, target);
            var clean := CleanWord(target);
            && (forall i :: 0 <= i < |r| ==> Lower(r[i]) != clean && !InLower(r[i], p.rhymes(clean)))
            && DistinctLower(r)
            && Descending(Frequency(freq), r)
            && forall f :: WithKey(Frequency(freq), r, f) == WithKey(Frequency(freq), NearCandidates(p, clean), f)
  {
    var clean := CleanWord(target);
    var d := NearCandidates(p, clean);
    var r := SortByKey(Frequency(freq), d);
    SortByKeyCorrect(Frequency(freq), d);
    SortDistinct(Frequency(freq), d);
    forall i | 0 <= i < |r|
      ensures Lower(r[i]) != clean && !InLower(r[i], p.rhymes(clean))
    {
      assert r[i] in multiset(d);
    }
  }
}
