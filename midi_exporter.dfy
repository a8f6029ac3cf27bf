/** The multi-track MIDI exporter (`export/midi_exporter.py`): text
    sanitising for latin-1 MIDI meta events, seconds-to-ticks conversion,
    chord voicing and the message lists of the tempo, lyrics, chord and
    melody tracks. Each message carries `time`, its delta in ticks from the
    previous message of its track; the absolute tick of a message is the sum
    of the deltas up to it. Writing the file is not modelled. */
module MidiExporter {
  import opened Common
  import opened MidiTrack

  // ---------------------------------------------------------------------------
  // Sanitising

  /** Encodable as latin-1. */
  predicate IsLatin1(c: char) {
    c as int < 256
  }

  predicate AllLatin1(s: string) {
    forall i :: 0 <= i < |s| ==> IsLatin1(s[i])
  }

  /** `pat` occurs in `s` at offset i. */
  predicate At(s: string, pat: string, i: nat) {
    i + |pat| <= |s| && s[i..i + |pat|] == pat
  }

  predicate Absent(s: string, pat: string) {
    forall i: nat :: i <= |s| ==> !At(s, pat, i)
  }

  /** `s.replace(pat, rep)`: occurrences found left to right, without
      overlap, each replaced. */
  function ReplaceAll(s: string, pat: string, rep: string): string
    requires pat != []
    decreases |s|
  {
    if |s| >= |pat| && s[..|pat|] == pat then rep + ReplaceAll(s[|pat|..], pat, rep)
    else if s == [] then []
    else [s[0]] + ReplaceAll(s[1..], pat, rep)
  }

  lemma {:induction false} ReplaceAbsent(s: string, pat: string, rep: string)
    requires pat != [] && Absent(s, pat)
    ensures ReplaceAll(s, pat, rep) == s
    decreases |s|
  {
    if s != [] {
      assert !At(s, pat, 0);
      assert Absent(s[1..], pat) by {
        forall i: nat
          ensures !At(s[1..], pat, i)
        {
          if At(s[1..], pat, i) {
            assert s[1..][i..i + |pat|] == s[i + 1..i + 1 + |pat|];
            assert At(s, pat, i + 1);
          }
        }
      }
      ReplaceAbsent(s[1..], pat, rep);
    }
  }

  lemma {:induction false} ReplaceIdentity(s: string, pat: string)
    requires pat != []
    ensures ReplaceAll(s, pat, pat) == s
    decreases |s|
  {
    if |s| >= |pat| && s[..|pat|] == pat {
      ReplaceIdentity(s[|pat|..], pat);
      assert s == s[..|pat|] + s[|pat|..];
    } else if s != [] {
      ReplaceIdentity(s[1..], pat);
    }
  }

  /** A one-character pattern that is not latin-1 does not occur in latin-1
      text. */
  lemma NonLatin1Absent(s: string, c: char)
    requires AllLatin1(s) && !IsLatin1(c)
    ensures Absent(s, [c])
  {
    forall i: nat | i <= |s|
      ensures !At(s, [c], i)
    {
      if i + 1 <= |s| {
        assert s[i..i + 1] == [s[i]];
      }
    }
  }

  /** A replacement table, applied in order. */
  type Table = seq<(string, string)>

  predicate Keyed(t: Table) {
    forall k :: 0 <= k < |t| ==> t[k].0 != []
  }

  function ReplaceTable(s: string, t: Table): string
    requires Keyed(t)
    decreases |t|
  {
    if t == [] then s else ReplaceTable(ReplaceAll(s, t[0].0, t[0].1), t[1..])
  }

  /** A table none of whose entries changes `s` leaves it unchanged. */
  lemma {:induction false} ReplaceTableNoop(s: string, t: Table)
    requires Keyed(t)
    requires forall k :: 0 <= k < |t| ==> ReplaceAll(s, t[k].0, t[k].1) == s
    ensures ReplaceTable(s, t) == s
    decreases |t|
  {
    if t != [] {
      assert ReplaceAll(s, t[0].0, t[0].1) == s;
      ReplaceTableNoop(s, t[1..]);
    }
  }

  /** The characters that do not encode as latin-1 replaced by '?'. */
  function Latin1Only(s: string): (r: string)
    ensures |r| == |s|
    ensures forall i :: 0 <= i < |s| ==> r[i] == (if IsLatin1(s[i]) then s[i] else '?')
  {
    if s == [] then [] else Latin1Only(s[..|s| - 1]) + [if IsLatin1(s[|s| - 1]) then s[|s| - 1] else '?']
  }

  /** Sanitising with a given table: nothing for empty text, otherwise the
      replacements, then '?' for every character latin-1 cannot encode. */
  function SanitizeWith(text: string, t: Table): (r: string)
    requires Keyed(t)
    ensures AllLatin1(r)
  {
    if text == "" then "" else Latin1Only(ReplaceTable(text, t))
  }

  const EmDash := '—'
  const EnDash := '–'
  const HorizontalEllipsis := '…'
  const MinusSign := '−'

  /** The dictionary literal as the source file spells it: the "smart
      quote" entries map the ASCII double quote to itself, and the two
      "smart apostrophe" lines open and close a triple-quoted string, so
      the key is that string's text. Later duplicate keys keep the first
      position. */
  const StrayKey: string := [':'] + " \"'\",  # smart apostrophes to regular apostrophes\n            "

  function SourceTable(): (t: Table)
    ensures Keyed(t)
  {
    [([EmDash], "-"), ([EnDash], "-"), ("\"", "\""), (StrayKey, "'"), ([HorizontalEllipsis], "..."),
     ([MinusSign], "-")]
  }

  /** `_sanitize_text_for_midi`. */
  function Sanitize(text: string): string {
    SanitizeWith(text, SourceTable())
  }

  /** Latin-1 text in which the stray key does not occur is returned
      unchanged: every other key is either not latin-1 or maps to itself. */
  lemma SanitizeKeepsLatin1(text: string)
    requires AllLatin1(text) && Absent(text, StrayKey)
    ensures Sanitize(text) == text
  {
    var t := SourceTable();
    NonLatin1Absent(text, EmDash);
    ReplaceAbsent(text, [EmDash], "-");
    NonLatin1Absent(text, EnDash);
    ReplaceAbsent(text, [EnDash], "-");
    ReplaceIdentity(text, "\"");
    ReplaceAbsent(text, StrayKey, "'");
    NonLatin1Absent(text, HorizontalEllipsis);
    ReplaceAbsent(text, [HorizontalEllipsis], "...");
    NonLatin1Absent(text, MinusSign);
    ReplaceAbsent(text, [MinusSign], "-");
    ReplaceTableNoop(text, t);
    if text != "" {
      assert Latin1Only(text) == text;
    }
  }

  /** `_sanitize_text_for_midi`: the replacement loop, then either the text
      itself when it encodes, or the character loop. */
  method SanitizeTextForMidi(text: string) returns (r: string)
    ensures r == Sanitize(text)
  {
    if text == "" {
      return "";
    }
    var t := SourceTable();
    r := text;
    for k := 0 to |t|
      invariant ReplaceTable(r, t[k..]) == ReplaceTable(text, t)
    {
      assert t[k..][1..] == t[k + 1..];
      r := ReplaceAll(r, t[k].0, t[k].1);
    }
    assert t[|t|..] == [];
    if AllLatin1(r) {
      assert Latin1Only(r) == r;
      return r;
    }
    var cleaned := "";
    for i := 0 to |r|
      invariant cleaned == Latin1Only(r[..i])
    {
      assert r[..i + 1][..i] == r[..i];
      if IsLatin1(r[i]) {
        cleaned := cleaned + [r[i]];
      } else {
        cleaned := cleaned + "?";
      }
    }
    assert r[..|r|] == r;
    r := cleaned;
  }

  // Curly quotes: the table evidently meant to map them.

  const LeftDoubleQuote := '“'
  const RightDoubleQuote := '”'
  const LeftSingleQuote := '‘'
  const RightSingleQuote := '’'

  /** A one-character text is left alone by a pattern that does not start
      with its character. */
  lemma ReplaceOther(c: char, pat: string, rep: string)
    requires pat != [] && pat[0] != c
    ensures ReplaceAll([c], pat, rep) == [c]
  {
    if |pat| <= 1 {
      assert [c][..|pat|] != pat by {
        assert [c][..|pat|][0] == c;
      }
    }
    assert [c][1..] == [];
  }

  /** A typographic apostrophe comes out as '?'. */
  lemma CurlyApostropheAsWritten()
    ensures Sanitize([RightSingleQuote]) == "?"
  {
    var c := RightSingleQuote;
    ReplaceOther(c, [EmDash], "-");
    ReplaceOther(c, [EnDash], "-");
    ReplaceOther(c, "\"", "\"");
    assert StrayKey[0] == ':';
    ReplaceOther(c, StrayKey, "'");
    ReplaceOther(c, [HorizontalEllipsis], "...");
    ReplaceOther(c, [MinusSign], "-");
    ReplaceTableNoop([c], SourceTable());
  }

  /** The table with the curly quotes it describes. */
  function IntendedTable(): (t: Table)
    ensures Keyed(t)
  {
    [([EmDash], "-"), ([EnDash], "-"), ([LeftDoubleQuote], "\""), ([RightDoubleQuote], "\""),
     ([LeftSingleQuote], "'"), ([RightSingleQuote], "'"), ([HorizontalEllipsis], "..."), ([MinusSign], "-")]
  }

  function SanitizeIntended(text: string): string {
    SanitizeWith(text, IntendedTable())
  }

  lemma {:induction false} ReplaceTableSplit(s: string, a: Table, b: Table)
    requires Keyed(a) && Keyed(b)
    ensures Keyed(a + b) && ReplaceTable(s, a + b) == ReplaceTable(ReplaceTable(s, a), b)
    decreases |a|
  {
    if a != [] {
      assert (a + b)[1..] == a[1..] + b;
      ReplaceTableSplit(ReplaceAll(s, a[0].0, a[0].1), a[1..], b);
    } else {
      assert a + b == b;
    }
  }

  /** With the intended table the apostrophe survives as "'". */
  lemma CurlyApostropheIntended()
    ensures SanitizeIntended([RightSingleQuote]) == "'"
  {
    var c := RightSingleQuote;
    ReplaceOther(c, [EmDash], "-");
    ReplaceOther(c, [EnDash], "-");
    ReplaceOther(c, [LeftDoubleQuote], "\"");
    ReplaceOther(c, [RightDoubleQuote], "\"");
    ReplaceOther(c, [LeftSingleQuote], "'");
    assert ReplaceAll([c], [c], "'") == "'" by {
      assert [c][1..] == [];
    }
    ReplaceOther('\'', [HorizontalEllipsis], "...");
    ReplaceOther('\'', [MinusSign], "-");
    var t := IntendedTable();
    ReplaceTableNoop([c], t[..5]);
    ReplaceTableNoop("'", t[6..]);
    ReplaceTableSplit([c], t[..5], t[5..]);
    assert t[..5] + t[5..] == t;
    assert ReplaceTable([c], t[5..]) == ReplaceTable("'", t[6..]) by {
      assert t[5..][1..] == t[6..];
    }
  }

  /** Every key is one character that latin-1 cannot encode, and every
      replacement is latin-1 text without '?'. */
  predicate CharTable(t: Table) {
    forall k :: 0 <= k < |t| ==>
      |t[k].0| == 1 && !IsLatin1(t[k].0[0]) && AllLatin1(t[k].1) && '?' !in t[k].1
  }

  predicate KeyIn(c: char, t: Table) {
    t != [] && (t[0].0 == [c] || KeyIn(c, t[1..]))
  }

  /** Each character is latin-1 or one of the table's keys. */
  predicate Covered(s: string, t: Table) {
    forall i :: 0 <= i < |s| ==> IsLatin1(s[i]) || KeyIn(s[i], t)
  }

  lemma {:induction false} ReplaceCharMembers(s: string, k: char, v: string, x: char)
    requires x in ReplaceAll(s, [k], v)
    ensures (x in s && x != k) || x in v
    decreases |s|
  {
    if |s| >= 1 && s[..1] == [k] {
      var rest := ReplaceAll(s[1..], [k], v);
      if x !in v {
        assert x in rest;
        ReplaceCharMembers(s[1..], k, v, x);
      }
    } else if s != [] {
      var rest := ReplaceAll(s[1..], [k], v);
      if x != s[0] {
        assert x in rest;
        ReplaceCharMembers(s[1..], k, v, x);
      } else {
        assert s[..1][0] == s[0];
      }
    }
  }

  lemma {:induction false} ReplaceTableCovered(s: string, t: Table)
    requires Keyed(t) && CharTable(t) && Covered(s, t)
    ensures AllLatin1(ReplaceTable(s, t))
    ensures '?' in ReplaceTable(s, t) ==> '?' in s
    decreases |t|
  {
    if t != [] {
      var k := t[0].0[0];
      assert t[0].0 == [k];
      var s' := ReplaceAll(s, [k], t[0].1);
      assert Keyed(t[1..]) && CharTable(t[1..]);
      forall i | 0 <= i < |s'|
        ensures IsLatin1(s'[i]) || KeyIn(s'[i], t[1..])
      {
        ReplaceCharMembers(s, k, t[0].1, s'[i]);
      }
      if '?' in s' {
        ReplaceCharMembers(s, k, t[0].1, '?');
      }
      ReplaceTableCovered(s', t[1..]);
    }
  }

  /** With the intended table, text made of latin-1 characters and table
      keys gains no '?': nothing is lost to the fallback. */
  lemma IntendedNoQuestionMarks(text: string)
    requires Covered(text, IntendedTable())
    ensures '?' in SanitizeIntended(text) ==> '?' in text
  {
    var t := IntendedTable();
    if text != "" {
      ReplaceTableCovered(text, t);
      var r := ReplaceTable(text, t);
      assert Latin1Only(r) == r;
    }
  }

  // ---------------------------------------------------------------------------
  // Ticks and tempo

  /** `_time_to_ticks`: seconds to beats at `bpm`, times the ticks per beat,
      truncated toward zero by `int`. */
  function TimeToTicks(seconds: real, bpm: real, tpb: int): (r: int)
    ensures 0.0 <= seconds && 0.0 <= bpm && 0 <= tpb ==> 0 <= r
  {
    Trunc(seconds * (bpm / 60.0) * tpb as real)
  }

  /** For non-negative inputs the tick count is the floor of
      seconds * bpm / 60 * ticks per beat. */
  lemma TimeToTicksFloor(seconds: real, bpm: real, tpb: int)
    requires 0.0 <= seconds && 0.0 <= bpm && 0 <= tpb
    ensures var r := TimeToTicks(seconds, bpm, tpb);
            r as real <= seconds * bpm * tpb as real / 60.0 < r as real + 1.0
  {
    assert seconds * (bpm / 60.0) * tpb as real == seconds * bpm * tpb as real / 60.0;
  }

  /** Later times never get fewer ticks. */
  lemma TimeToTicksMonotone(s1: real, s2: real, bpm: real, tpb: int)
    requires 0.0 <= s1 <= s2 && 0.0 <= bpm && 0 <= tpb
    ensures 0 <= TimeToTicks(s1, bpm, tpb) <= TimeToTicks(s2, bpm, tpb)
  {
    var k := (bpm / 60.0) * tpb as real;
    assert 0.0 <= k;
    assert s1 * (bpm / 60.0) * tpb as real == s1 * k;
    assert s2 * (bpm / 60.0) * tpb as real == s2 * k;
    assert s1 * k <= s2 * k by {
      assert s2 * k - s1 * k == (s2 - s1) * k;
    }
  }

  /** One second at 120 beats per minute and 480 ticks per beat. */
  lemma OneSecondAt120()
    ensures TimeToTicks(1.0, 120.0, 480) == 960
  {
  }

  /** The largest tempo a set_tempo message holds: three bytes of
      microseconds per beat. */
  const MaxTempo := 0xFF_FFFF

  /** `int(60000000 / tempo_bpm)`, microseconds per beat, as the set_tempo
      message takes it: a zero tempo raises ZeroDivisionError and a value
      outside 0..MaxTempo makes the message raise; both are None. */
  function TempoUs(bpm: real): (r: Option<int>)
    ensures bpm == 0.0 ==> r.None?
    ensures r.Some? ==> 0 <= r.value <= MaxTempo
  {
    if bpm == 0.0 then None
    else
      var us := Trunc(60000000.0 / bpm);
      if 0 <= us <= MaxTempo then Some(us) else None
  }

  /** Which tempos a set_tempo message accepts: a positive tempo exactly
      when a minute holds more than MaxTempo + 1 microseconds of beats
      (about 3.58 beats per minute and up), a negative tempo of at most
      60000000 beats per minute never, and a faster negative one, whose
      quotient truncates to 0, always. */
  lemma TempoUsRange(bpm: real)
    ensures 0.0 < bpm ==> (TempoUs(bpm).Some? <==> 60000000.0 < (MaxTempo + 1) as real * bpm)
    ensures -60000000.0 <= bpm < 0.0 ==> TempoUs(bpm).None?
    ensures bpm < -60000000.0 ==> TempoUs(bpm) == Some(0)
  {
    var m := (MaxTempo + 1) as real;
    if 0.0 < bpm {
      var q := 60000000.0 / bpm;
      QuotientTimes(60000000.0, bpm);
      if q < m {
        MulStrict(q, m, bpm);
      } else {
        MulMonotone(m, q, bpm);
      }
    } else if bpm < 0.0 {
      var q := 60000000.0 / bpm;
      QuotientTimes(60000000.0, bpm);
      var nb := -bpm;
      assert q * nb == -60000000.0;
      if -60000000.0 <= bpm {
        if -1.0 < q {
          MulStrict(-q, 1.0, nb);
        }
        assert q <= -1.0;
      } else {
        if q <= -1.0 {
          MulMonotone(1.0, -q, nb);
        }
        assert -1.0 < q < 0.0;
      }
    }
  }

  /** The tempo is the number of whole microseconds in one beat: a minute
      holds `us` beats of `us` microseconds but not one more. */
  lemma TempoUsBounds(bpm: real)
    requires 0.0 < bpm && TempoUs(bpm).Some?
    ensures var us := TempoUs(bpm).value;
            us as real * bpm <= 60000000.0 < us as real * bpm + bpm
  {
    var q := 60000000.0 / bpm;
    var us := Trunc(q);
    QuotientBounds(60000000.0, bpm, us as real);
  }

  /** Three beats per minute is too slow for a set_tempo message; four is
      not. */
  lemma SlowestTempos()
    ensures TempoUs(3.0).None? && TempoUs(4.0) == Some(15000000)
  {
  }

  /** f <= n / d < f + 1 with d > 0 means f * d <= n < f * d + d. */
  lemma QuotientBounds(n: real, d: real, f: real)
    requires 0.0 < d && f <= n / d < f + 1.0
    ensures f * d <= n < f * d + d
  {
    var q := n / d;
    QuotientTimes(n, d);
    MulStrict(q - f, 1.0, d);
    Distribute(q, f, d);
    MulMonotone(f, q, d);
  }

  lemma QuotientTimes(n: real, d: real)
    requires d != 0.0
    ensures (n / d) * d == n
  {
  }

  lemma Distribute(a: real, b: real, c: real)
    ensures (a - b) * c == a * c - b * c
  {
  }

  lemma MulMonotone(a: real, b: real, c: real)
    requires a <= b && 0.0 <= c
    ensures a * c <= b * c
  {
    assert b * c - a * c == (b - a) * c;
  }

  lemma MulStrict(a: real, b: real, c: real)
    requires a < b && 0.0 < c
    ensures a * c < b * c
  {
    assert b * c - a * c == (b - a) * c;
  }

  lemma TempoAt120()
    ensures TempoUs(120.0) == Some(500000)
  {
  }

  const TempoTrackName := "Tempo & Time Signature"

  /** `_create_tempo_track`: name, tempo and a 4/4 time signature. */
  function TempoTrack(bpm: real): (r: Option<seq<Timed>>)
    ensures r.None? <==> TempoUs(bpm).None?
    ensures r.Some? ==> Absolute(r.value) == TempoEvents(TempoUs(bpm).value)
  {
    match TempoUs(bpm)
    case None => None
    case Some(us) =>
      AbsoluteDeltas(TempoEvents(us));
      Some(Deltas(TempoEvents(us)))
  }

  /** Every message of the fixed-tempo track at tick 0. */
  function TempoEvents(us: int): seq<Placed> {
    [Placed(TrackName(TempoTrackName), 0), Placed(SetTempo(us), 0), Placed(TimeSignature(4, 4), 0)]
  }

  /** A tempo-change record; a missing or non-numeric field is None. */
  datatype TempoChange = TempoChange(time: Option<real>, tempo: Option<real>)

  function ChangeBpm(c: TempoChange): real {
    c.tempo.GetOr(120.0)
  }

  /** Change times are converted at a fixed 120 beats per minute. */
  function ChangeTick(c: TempoChange, tpb: int): int {
    TimeToTicks(c.time.GetOr(0.0), 120.0, tpb)
  }

  /** Every change has a tempo a set_tempo message accepts. */
  predicate TemposValid(changes: seq<TempoChange>) {
    forall k :: 0 <= k < |changes| ==> TempoUs(ChangeBpm(changes[k])).Some?
  }

  const VariableTempoName := "Variable Tempo"

  /** Where `_create_variable_tempo_track` means each message to land. */
  function VariableTempoEvents(changes: seq<TempoChange>, tpb: int): (r: seq<Placed>)
    requires TemposValid(changes)
    ensures |r| == 2 + |changes| && r[0] == Placed(TrackName(VariableTempoName), 0)
    ensures r[1] == Placed(TimeSignature(4, 4), 0)
  {
    if changes == [] then [Placed(TrackName(VariableTempoName), 0), Placed(TimeSignature(4, 4), 0)]
    else
      var c := changes[|changes| - 1];
      VariableTempoEvents(changes[..|changes| - 1], tpb) + [Placed(SetTempo(TempoUs(ChangeBpm(c)).value), ChangeTick(c, tpb))]
  }

  /** One more valid change adds its tempo message to the events. */
  lemma VariableTempoSnoc(changes: seq<TempoChange>, i: nat, tpb: int)
    requires i < |changes| && TemposValid(changes[..i]) && TempoUs(ChangeBpm(changes[i])).Some?
    ensures TemposValid(changes[..i + 1])
    ensures VariableTempoEvents(changes[..i + 1], tpb) ==
            VariableTempoEvents(changes[..i], tpb) + [Placed(SetTempo(TempoUs(ChangeBpm(changes[i])).value), ChangeTick(changes[i], tpb))]
  {
    var p := changes[..i + 1];
    assert p[..i] == changes[..i];
    forall j | 0 <= j < |p|
      ensures TempoUs(ChangeBpm(p[j])).Some?
    {
      if j < i {
        assert p[j] == changes[..i][j];
      }
    }
  }

  /** The k-th change sets its tempo at the tick of its own time. */
  lemma {:induction false} VariableTempoPlacement(changes: seq<TempoChange>, tpb: int, k: nat)
    requires TemposValid(changes) && k < |changes|
    ensures VariableTempoEvents(changes, tpb)[2 + k] ==
      Placed(SetTempo(TempoUs(ChangeBpm(changes[k])).value), ChangeTick(changes[k], tpb))
  {
    if k < |changes| - 1 {
      var p := changes[..|changes| - 1];
      assert TemposValid(p) by {
        forall j | 0 <= j < |p|
          ensures TempoUs(ChangeBpm(p[j])).Some?
        {
          assert p[j] == changes[j];
        }
      }
      VariableTempoPlacement(p, tpb, k);
    }
  }

  /** `_create_variable_tempo_track`: None when a tempo of zero, or one
      outside what set_tempo accepts, makes it raise. */
  method CreateVariableTempoTrack(changes: seq<TempoChange>, tpb: int) returns (r: Option<seq<Timed>>)
    ensures r.None? <==> !TemposValid(changes)
    ensures r.Some? ==> r.value == Deltas(VariableTempoEvents(changes, tpb))
  {
    var track := [Timed(TrackName(VariableTempoName), 0), Timed(TimeSignature(4, 4), 0)];
    var last := 0;
    assert changes[..0] == [];
    assert DeltasFrom([Placed(TimeSignature(4, 4), 0)], 0) == [Timed(TimeSignature(4, 4), 0)];
    for i := 0 to |changes|
      invariant TemposValid(changes[..i])
      invariant track == Deltas(VariableTempoEvents(changes[..i], tpb))
      invariant last == LastTick(VariableTempoEvents(changes[..i], tpb), 0)
    {
      var c := changes[i];
      var bpm := ChangeBpm(c);
      var tick := ChangeTick(c, tpb);
      if bpm == 0.0 {
        return None;
      }
      var us := Trunc(60000000.0 / bpm);
      if !(0 <= us <= MaxTempo) {
        return None;
      }
      VariableTempoSnoc(changes, i, tpb);
      DeltasSnoc(VariableTempoEvents(changes[..i], tpb), Placed(SetTempo(us), tick));
      track := track + [Timed(SetTempo(us), tick - last)];
      last := tick;
    }
    assert changes[..|changes|] == changes;
    r := Some(track);
  }

  // ---------------------------------------------------------------------------
  // Lyrics track

  /** A word record; a missing field is None. */
  datatype MWord = MWord(text: Option<string>, start: Option<real>)

  const LyricsTrackName := "Lyrics"

  /** The lyric a word contributes: its sanitised text at the tick of its
      start, or nothing when the text sanitises to "". */
  function LyricOf(w: MWord, bpm: real, tpb: int): (r: seq<Placed>)
    ensures |r| <= 1
    ensures r != [] ==> r[0].msg.LyricMeta? && r[0].msg.text != "" && AllLatin1(r[0].msg.text)
                        && r[0].tick == TimeToTicks(w.start.GetOr(0.0), bpm, tpb)
  {
    var text := Sanitize(w.text.GetOr(""));
    if text == "" then [] else [Placed(LyricMeta(text), TimeToTicks(w.start.GetOr(0.0), bpm, tpb))]
  }

  /** The lyric a word places, from its sanitised text and start tick. */
  lemma LyricOfIs(w: MWord, bpm: real, tpb: int, text: string, tick: int)
    requires text == Sanitize(w.text.GetOr("")) && tick == TimeToTicks(w.start.GetOr(0.0), bpm, tpb)
    ensures text != "" ==> LyricOf(w, bpm, tpb) == [Placed(LyricMeta(text), tick)]
    ensures text == "" ==> LyricOf(w, bpm, tpb) == []
  {
  }

  /** Where `_create_lyrics_track` means each message to land. */
  function LyricEvents(words: seq<MWord>, bpm: real, tpb: int): (r: seq<Placed>)
    ensures 1 <= |r| <= 1 + |words| && r[0] == Placed(TrackName(LyricsTrackName), 0)
  {
    if words == [] then [Placed(TrackName(LyricsTrackName), 0)]
    else LyricEvents(words[..|words| - 1], bpm, tpb) + LyricOf(words[|words| - 1], bpm, tpb)
  }

  /** When every word has text that survives sanitising, word k's lyric is
      message k + 1 and lands on the tick of the word's start. */
  lemma {:induction false} LyricPlacement(words: seq<MWord>, bpm: real, tpb: int, k: nat)
    requires forall j :: 0 <= j < |words| ==> Sanitize(words[j].text.GetOr("")) != ""
    requires k < |words|
    ensures |LyricEvents(words, bpm, tpb)| == 1 + |words|
    ensures LyricEvents(words, bpm, tpb)[1 + k] ==
      Placed(LyricMeta(Sanitize(words[k].text.GetOr(""))), TimeToTicks(words[k].start.GetOr(0.0), bpm, tpb))
  {
    var p := words[..|words| - 1];
    var w := words[|words| - 1];
    var e := LyricEvents(p, bpm, tpb);
    assert LyricEvents(words, bpm, tpb) == e + LyricOf(w, bpm, tpb);
    assert |LyricOf(w, bpm, tpb)| == 1;
    if p != [] {
      LyricPlacement(p, bpm, tpb, if k < |p| then k else 0);
    }
    if k < |p| {
      assert words[k] == p[k];
      assert |e| == 1 + |p|;
      LyricPlacement(p, bpm, tpb, k);
    } else {
      var text := Sanitize(w.text.GetOr(""));
      assert text != "";
      assert LyricOf(w, bpm, tpb) == [Placed(LyricMeta(text), TimeToTicks(w.start.GetOr(0.0), bpm, tpb))];
    }
  }

  /** Words in non-decreasing start order, none before 0, give a track with
      no negative delta. */
  lemma {:induction false} LyricEventsMonotone(words: seq<MWord>, bpm: real, tpb: int)
    requires 0.0 <= bpm && 0 <= tpb
    requires forall j :: 0 <= j < |words| ==> 0.0 <= words[j].start.GetOr(0.0)
    requires forall j :: 0 <= j < |words| - 1 ==> words[j].start.GetOr(0.0) <= words[j + 1].start.GetOr(0.0)
    ensures Monotone(LyricEvents(words, bpm, tpb))
    ensures words != [] ==> LastTick(LyricEvents(words, bpm, tpb), 0) <= TimeToTicks(words[|words| - 1].start.GetOr(0.0), bpm, tpb)
  {
    if words != [] {
      var p := words[..|words| - 1];
      var w := words[|words| - 1];
      LyricEventsMonotone(p, bpm, tpb);
      var e := LyricEvents(p, bpm, tpb);
      var t := TimeToTicks(w.start.GetOr(0.0), bpm, tpb);
      assert LastTick(e, 0) <= t by {
        if p != [] {
          TimeToTicksMonotone(p[|p| - 1].start.GetOr(0.0), w.start.GetOr(0.0), bpm, tpb);
        } else {
          TimeToTicksMonotone(0.0, w.start.GetOr(0.0), bpm, tpb);
        }
      }
      var r := e + LyricOf(w, bpm, tpb);
      forall j | 0 <= j < |r| - 1
        ensures r[j].tick <= r[j + 1].tick
      {
        if j + 1 < |e| {
          assert r[j] == e[j] && r[j + 1] == e[j + 1];
        }
      }
    }
  }

  lemma LyricsTrackValid(words: seq<MWord>, bpm: real, tpb: int)
    requires 0.0 <= bpm && 0 <= tpb
    requires forall j :: 0 <= j < |words| ==> 0.0 <= words[j].start.GetOr(0.0)
    requires forall j :: 0 <= j < |words| - 1 ==> words[j].start.GetOr(0.0) <= words[j + 1].start.GetOr(0.0)
    ensures forall j :: 0 <= j < |LyricEvents(words, bpm, tpb)| ==> Deltas(LyricEvents(words, bpm, tpb))[j].delta >= 0
  {
    LyricEventsMonotone(words, bpm, tpb);
    MonotoneDeltas(LyricEvents(words, bpm, tpb), 0);
  }

  /** `_create_lyrics_track`. */
  method CreateLyricsTrack(words: seq<MWord>, bpm: real, tpb: int) returns (track: seq<Timed>)
    ensures track == Deltas(LyricEvents(words, bpm, tpb))
  {
    track := [Timed(TrackName(LyricsTrackName), 0)];
    if words == [] {
      return;
    }
    var last := 0;
    assert words[..0] == [];
    for i := 0 to |words|
      invariant track == Deltas(LyricEvents(words[..i], bpm, tpb))
      invariant last == LastTick(LyricEvents(words[..i], bpm, tpb), 0)
    {
      assert words[..i + 1][..i] == words[..i];
      track, last := AppendLyric(track, last, words[i], bpm, tpb, LyricEvents(words[..i], bpm, tpb));
    }
    assert words[..|words|] == words;
  }

  /** One pass of the lyrics loop. */
  method AppendLyric(track: seq<Timed>, last: int, w: MWord, bpm: real, tpb: int, ghost e: seq<Placed>)
    returns (track': seq<Timed>, last': int)
    requires track == Deltas(e) && last == LastTick(e, 0)
    ensures track' == Deltas(e + LyricOf(w, bpm, tpb)) && last' == LastTick(e + LyricOf(w, bpm, tpb), 0)
  {
    var tick := TimeToTicks(w.start.GetOr(0.0), bpm, tpb);
    var text := SanitizeTextForMidi(w.text.GetOr(""));
    if text != "" {
      LyricOfIs(w, bpm, tpb, text, tick);
      DeltasSnoc(e, Placed(LyricMeta(text), tick));
      track' := track + [Timed(LyricMeta(text), tick - last)];
      last' := tick;
    } else {
      LyricOfIs(w, bpm, tpb, text, tick);
      assert e + [] == e;
      track', last' := track, last;
    }
  }

  // ---------------------------------------------------------------------------
  // Chord voicing

  /** `note_to_midi`: the note names of the fourth octave from C. */
  function RootMidi(root: string): (r: Option<int>)
    ensures r.Some? ==> 60 <= r.value <= 71
  {
    if root == "C" then Some(60)
    else if root == "C#" || root == "Db" then Some(61)
    else if root == "D" then Some(62)
    else if root == "D#" || root == "Eb" then Some(63)
    else if root == "E" then Some(64)
    else if root == "F" then Some(65)
    else if root == "F#" || root == "Gb" then Some(66)
    else if root == "G" then Some(67)
    else if root == "G#" || root == "Ab" then Some(68)
    else if root == "A" then Some(69)
    else if root == "A#" || root == "Bb" then Some(70)
    else if root == "B" then Some(71)
    else None
  }

  /** The key of a natural note in the fourth octave. */
  function Natural(c: char): Option<int> {
    match c
    case 'C' => Some(60) case 'D' => Some(62) case 'E' => Some(64) case 'F' => Some(65)
    case 'G' => Some(67) case 'A' => Some(69) case 'B' => Some(71)
    case _ => None
  }

  /** The table holds every natural note, and every sharp or flat of one
      that stays within C..B without being spelled as another natural
      (no E#, B#, Cb or Fb); a sharp is one key up and a flat one down. */
  lemma RootMidiReference(root: string)
    ensures RootMidi(root).Some? <==>
              (|root| == 1 && Natural(root[0]).Some?)
              || (|root| == 2 && Natural(root[0]).Some? && root[1] == '#' && root[0] != 'E' && root[0] != 'B')
              || (|root| == 2 && Natural(root[0]).Some? && root[1] == 'b' && root[0] != 'C' && root[0] != 'F')
    ensures RootMidi(root).Some? ==>
              RootMidi(root).value == Natural(root[0]).value + (if |root| == 1 then 0 else if root[1] == '#' then 1 else -1)
  {
    if |root| == 1 {
      assert root == [root[0]];
    } else if |root| == 2 {
      assert root == [root[0], root[1]];
    }
  }

  /** The root (with a '#' or 'b' as its second character) and the rest. */
  function SplitSymbol(symbol: string): (r: (string, string))
    requires symbol != ""
    ensures r.0 + r.1 == symbol && 1 <= |r.0| <= 2
    ensures |r.0| == 2 <==> |symbol| >= 2 && (symbol[1] == '#' || symbol[1] == 'b')
  {
    if |symbol| >= 2 && (symbol[1] == '#' || symbol[1] == 'b') then (symbol[..2], symbol[2..])
    else (symbol[..1], symbol[1..])
  }

  /** The intervals above the root for a quality. */
  function Intervals(quality: string): (r: seq<int>)
    ensures 2 <= |r| <= 3 && 3 <= r[0] && r[|r| - 1] <= 11
    ensures forall i :: 0 <= i < |r| - 1 ==> r[i] < r[i + 1]
  {
    if quality == "" || quality == "maj" then [4, 7]
    else if quality == "m" || quality == "min" then [3, 7]
    else if quality == "7" then [4, 7, 10]
    else if quality == "m7" || quality == "min7" then [3, 7, 10]
    else if quality == "maj7" then [4, 7, 11]
    else if quality == "dim" then [3, 6]
    else if quality == "aug" then [4, 8]
    else [4, 7]
  }

  /** `_get_chord_notes`: the root followed by the quality's intervals, or
      nothing for an empty symbol or an unknown root. */
  function GetChordNotes(symbol: string): (r: seq<int>)
    ensures symbol == "" ==> r == []
    ensures r != [] ==> 3 <= |r| <= 4 && 60 <= r[0] <= 71 && RootMidi(SplitSymbol(symbol).0) == Some(r[0])
    ensures forall i :: 0 <= i < |r| ==> 60 <= r[i] <= 82
    ensures forall i :: 0 <= i < |r| - 1 ==> r[i] < r[i + 1]
  {
    if symbol == "" then []
    else
      var (root, quality) := SplitSymbol(symbol);
      match RootMidi(root)
      case None => []
      case Some(m) =>
        var iv := Intervals(quality);
        [m] + seq(|iv|, i requires 0 <= i < |iv| => m + iv[i])
  }

  /** A symbol gets no notes exactly when it is empty or its root is not in
      the table. */
  lemma ChordNotesEmpty(symbol: string)
    ensures GetChordNotes(symbol) == [] <==> symbol == "" || RootMidi(SplitSymbol(symbol).0).None?
  {
  }

  /** Voicings of the triads and seventh chords, one per quality. */
  lemma MajorTriadVoicing()
    ensures GetChordNotes("C") == [60, 64, 67]
  {
    assert "C"[..1] == "C" && "C"[1..] == "";
  }

  lemma MinorTriadVoicing()
    ensures GetChordNotes("Am") == [69, 72, 76]
  {
    assert "Am"[..1] == "A" && "Am"[1..] == "m";
  }

  lemma DiminishedTriadVoicing()
    ensures GetChordNotes("Bdim") == [71, 74, 77]
  {
    assert "Bdim"[..1] == "B" && "Bdim"[1..] == "dim";
  }

  lemma AugmentedTriadVoicing()
    ensures GetChordNotes("Ebaug") == [63, 67, 71]
  {
    assert "Ebaug"[..2] == "Eb" && "Ebaug"[2..] == "aug";
  }

  lemma DominantSeventhVoicing()
    ensures GetChordNotes("G7") == [67, 71, 74, 77]
  {
    assert "G7"[..1] == "G" && "G7"[1..] == "7";
  }

  lemma MajorSeventhVoicing()
    ensures GetChordNotes("Bbmaj7") == [70, 74, 77, 81]
  {
    assert "Bbmaj7"[..2] == "Bb" && "Bbmaj7"[2..] == "maj7";
  }

  lemma MinorSeventhVoicing()
    ensures GetChordNotes("F#min7") == [66, 69, 73, 76]
  {
    assert "F#min7"[..2] == "F#" && "F#min7"[2..] == "min7";
  }

  /** A slash chord falls back to the major triad of its root, and a root
      outside the table gives nothing. */
  lemma FallbackVoicings()
    ensures GetChordNotes("D/F#") == [62, 66, 69]
    ensures GetChordNotes("H") == []
  {
    assert "D/F#"[..1] == "D" && "D/F#"[1..] == "/F#";
    assert "H"[..1] == "H" && "H"[1..] == "";
  }
}
