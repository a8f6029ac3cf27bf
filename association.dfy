/** Attaching detected chords to transcribed words
    (`ProcessingThread._associate_chords_with_words`, `ui/main_window.py`).
    A chord is a candidate for a word when its closed interval holds the
    word's midpoint; the candidate with the strictly largest positive overlap
    wins, so ties keep the earlier chord. */
module ChordAssociation {
  import opened Common
  import opened Song

  function Mid(w: Word): real { (w.start + w.end) / 2.0 }

  predicate Candidate(w: Word, c: Chord) { c.start <= Mid(w) <= c.end }

  function Overlap(w: Word, c: Chord): real { MinR(w.end, c.end) - MaxR(w.start, c.start) }

  /** Chord k is the one the source settles on: a candidate with positive
      overlap, strictly better than every earlier candidate and at least as
      good as every later one. */
  predicate Wins(w: Word, cs: seq<Chord>, k: nat) {
    k < |cs| && Candidate(w, cs[k]) && Overlap(w, cs[k]) > 0.0
    && (forall j :: 0 <= j < k && Candidate(w, cs[j]) ==> Overlap(w, cs[j]) < Overlap(w, cs[k]))
    && (forall j :: k < j < |cs| && Candidate(w, cs[j]) ==> Overlap(w, cs[j]) <= Overlap(w, cs[k]))
  }

  /** State of the scan after chords [0, i): `best`/`bestOv` as the inner
      loop keeps them. */
  predicate BestSoFar(w: Word, cs: seq<Chord>, i: nat, best: Option<nat>, bestOv: real) {
    i <= |cs|
    && (best.None? ==> bestOv == 0.0 && forall j :: 0 <= j < i && Candidate(w, cs[j]) ==> Overlap(w, cs[j]) <= 0.0)
    && (best.Some? ==>
          best.value < i && Candidate(w, cs[best.value]) && Overlap(w, cs[best.value]) == bestOv && bestOv > 0.0
          && (forall j :: 0 <= j < best.value && Candidate(w, cs[j]) ==> Overlap(w, cs[j]) < bestOv)
          && (forall j :: best.value < j < i && Candidate(w, cs[j]) ==> Overlap(w, cs[j]) <= bestOv))
  }

  /** The scan from chord i on, with the running best. */
  function BestFrom(w: Word, cs: seq<Chord>, i: nat, best: Option<nat>, bestOv: real): Option<nat>
    decreases |cs| - i
  {
    if i >= |cs| then best
    else if Candidate(w, cs[i]) && Overlap(w, cs[i]) > bestOv then BestFrom(w, cs, i + 1, Some(i), Overlap(w, cs[i]))
    else BestFrom(w, cs, i + 1, best, bestOv)
  }

  function BestChord(w: Word, cs: seq<Chord>): Option<nat> { BestFrom(w, cs, 0, None, 0.0) }

  /** One word after association: the winner's symbol, or unchanged. */
  function AssociateWord(w: Word, cs: seq<Chord>): Word {
    match BestChord(w, cs)
    case None => w
    case Some(k) => if k < |cs| then w.(chord := Some(cs[k].symbol)) else w
  }

  lemma {:induction false} BestFromSound(w: Word, cs: seq<Chord>, i: nat, best: Option<nat>, bestOv: real)
    requires BestSoFar(w, cs, i, best, bestOv)
    ensures var r := BestFrom(w, cs, i, best, bestOv);
            (r.None? ==> forall j :: 0 <= j < |cs| && Candidate(w, cs[j]) ==> Overlap(w, cs[j]) <= 0.0)
            && (r.Some? ==> Wins(w, cs, r.value))
    decreases |cs| - i
  {
    if i >= |cs| {
    } else if Candidate(w, cs[i]) && Overlap(w, cs[i]) > bestOv {
      BestFromSound(w, cs, i + 1, Some(i), Overlap(w, cs[i]));
    } else {
      BestFromSound(w, cs, i + 1, best, bestOv);
    }
  }

  lemma WinnerUnique(w: Word, cs: seq<Chord>, k1: nat, k2: nat)
    requires Wins(w, cs, k1) && Wins(w, cs, k2)
    ensures k1 == k2
  {
  }

  /** A word takes the winning chord's symbol when there is a winner and is
      left exactly as it was (its old chord included) when there is none. */
  lemma AssociateWordSpec(w: Word, cs: seq<Chord>)
    ensures forall k: nat :: Wins(w, cs, k) ==> AssociateWord(w, cs) == w.(chord := Some(cs[k].symbol))
    ensures (forall k: nat :: !Wins(w, cs, k)) ==> AssociateWord(w, cs) == w
    ensures (forall k: nat :: !Wins(w, cs, k)) <==>
              forall j :: 0 <= j < |cs| && Candidate(w, cs[j]) ==> Overlap(w, cs[j]) <= 0.0
  {
    BestFromSound(w, cs, 0, None, 0.0);
    forall k: nat | Wins(w, cs, k) ensures AssociateWord(w, cs) == w.(chord := Some(cs[k].symbol)) {
      WinnerUnique(w, cs, k, BestChord(w, cs).value);
    }
  }

  /** A word of zero length never receives a chord: its overlap with any
      chord holding its midpoint is 0. */
  lemma ZeroLengthWordUntouched(w: Word, cs: seq<Chord>)
    requires w.start == w.end
    ensures AssociateWord(w, cs) == w
  {
    AssociateWordSpec(w, cs);
  }

  lemma {:induction false} BestFromIgnoresChord(w: Word, x: Option<string>, cs: seq<Chord>, i: nat, best: Option<nat>, bestOv: real)
    ensures BestFrom(w.(chord := x), cs, i, best, bestOv) == BestFrom(w, cs, i, best, bestOv)
    decreases |cs| - i
  {
    if i < |cs| {
      BestFromIgnoresChord(w, x, cs, i + 1, Some(i), Overlap(w, cs[i]));
      BestFromIgnoresChord(w, x, cs, i + 1, best, bestOv);
    }
  }

  /** Association depends only on times, so applying it twice equals
      applying it once; it touches nothing but `chord`. */
  lemma AssociateWordIdempotent(w: Word, cs: seq<Chord>)
    ensures AssociateWord(AssociateWord(w, cs), cs) == AssociateWord(w, cs)
    ensures AssociateWord(w, cs) == w.(chord := AssociateWord(w, cs).chord)
  {
    BestFromIgnoresChord(w, AssociateWord(w, cs).chord, cs, 0, None, 0.0);
  }

  /** The source's nested loop, mutating each word's chord in place. */
  method AssociateChordsWithWords(words: array<Word>, chords: seq<Chord>)
    modifies words
    ensures forall i :: 0 <= i < words.Length ==> words[i] == AssociateWord(old(words[i]), chords)
    ensures chords == [] ==> words[..] == old(words[..])
  {
    if |chords| == 0 {
      return;
    }
    var i := 0;
    while i < words.Length
      invariant 0 <= i <= words.Length
      invariant forall k :: 0 <= k < i ==> words[k] == AssociateWord(old(words[k]), chords)
      invariant forall k :: i <= k < words.Length ==> words[k] == old(words[k])
    {
      var w := words[i];
      var mid := (w.start + w.end) / 2.0;
      var best: Option<nat> := None;
      var bestOv := 0.0;
      var j := 0;
      while j < |chords|
        invariant 0 <= j <= |chords|
        invariant best.Some? ==> best.value < j
        invariant BestFrom(w, chords, j, best, bestOv) == BestChord(w, chords)
      {
        var c := chords[j];
        if c.start <= mid <= c.end {
          var overlap := MinR(w.end, c.end) - MaxR(w.start, c.start);
          if overlap > bestOv {
            bestOv := overlap;
            best := Some(j);
          }
        }
        j := j + 1;
      }
      if best.Some? {
        words[i] := w.(chord := Some(chords[best.value].symbol));
      }
      i := i + 1;
    }
  }
}
