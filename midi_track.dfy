/** MIDI tracks as the exporters build them: a list of messages, each with
    its `time`, the delta in ticks from the previous message of the track.
    The absolute tick of a message is the previous absolute tick plus its
    delta. A track is most easily specified by the absolute ticks its
    messages should land on; `Deltas` turns such a list into a track and
    `Absolute` reads one back. */
module MidiTrack {

  /** The message kinds the exporters emit, without their delta. */
  datatype Msg =
    | TrackName(name: string)
    | SetTempo(tempo: int)
    | TimeSignature(numerator: nat, denominator: nat)
    | LyricMeta(text: string)
    | TextMeta(text: string)
    | NoteOn(note: int, velocity: int)
    | NoteOff(note: int, velocity: int)

  /** A message with its `time` attribute. */
  datatype Timed = Timed(msg: Msg, delta: int)

  /** A message placed at an absolute tick. */
  datatype Placed = Placed(msg: Msg, tick: int)

  /** The tick of the last placed message, or `base` when there is none. */
  function LastTick(evs: seq<Placed>, base: int): (r: int)
    ensures evs != [] ==> r == evs[|evs| - 1].tick
    ensures evs == [] ==> r == base
  {
    if evs == [] then base else evs[|evs| - 1].tick
  }

  /** The track that places each message at its tick, starting from
      absolute tick `base`: each delta is the distance from the previous
      message. */
  function DeltasFrom(evs: seq<Placed>, base: int): (r: seq<Timed>)
    ensures |r| == |evs|
    ensures forall j :: 0 <= j < |r| ==> r[j].msg == evs[j].msg
  {
    if evs == [] then [] else [Timed(evs[0].msg, evs[0].tick - base)] + DeltasFrom(evs[1..], evs[0].tick)
  }

  function Deltas(evs: seq<Placed>): seq<Timed> {
    DeltasFrom(evs, 0)
  }

  /** The messages of a track with the absolute ticks they land on, the
      track starting at tick `base`. */
  function AbsoluteFrom(track: seq<Timed>, base: int): (r: seq<Placed>)
    ensures |r| == |track|
    ensures forall j :: 0 <= j < |r| ==> r[j].msg == track[j].msg
  {
    if track == [] then [] else [Placed(track[0].msg, base + track[0].delta)] + AbsoluteFrom(track[1..], base + track[0].delta)
  }

  function Absolute(track: seq<Timed>): seq<Placed> {
    AbsoluteFrom(track, 0)
  }

  /** The sum of the deltas: the absolute tick the track ends on. */
  function Total(track: seq<Timed>): int {
    if track == [] then 0 else track[0].delta + Total(track[1..])
  }

  /** Reading the ticks back from the deltas gives the intended placement. */
  lemma {:induction false} AbsoluteDeltasFrom(evs: seq<Placed>, base: int)
    ensures AbsoluteFrom(DeltasFrom(evs, base), base) == evs
  {
    if evs != [] {
      AbsoluteDeltasFrom(evs[1..], evs[0].tick);
    }
  }

  lemma AbsoluteDeltas(evs: seq<Placed>)
    ensures Absolute(Deltas(evs)) == evs
  {
    AbsoluteDeltasFrom(evs, 0);
  }

  /** And conversely the deltas of a track's placement give the track. */
  lemma {:induction false} DeltasAbsoluteFrom(track: seq<Timed>, base: int)
    ensures DeltasFrom(AbsoluteFrom(track, base), base) == track
  {
    if track != [] {
      DeltasAbsoluteFrom(track[1..], base + track[0].delta);
    }
  }

  /** The deltas of two placements one after the other: the second starts
      from the last tick of the first. */
  lemma {:induction false} DeltasAppend(a: seq<Placed>, b: seq<Placed>, base: int)
    ensures DeltasFrom(a + b, base) == DeltasFrom(a, base) + DeltasFrom(b, LastTick(a, base))
  {
    if a == [] {
      assert a + b == b;
    } else {
      assert (a + b)[1..] == a[1..] + b;
      DeltasAppend(a[1..], b, a[0].tick);
      if a[1..] == [] {
        assert LastTick(a[1..], a[0].tick) == LastTick(a, base);
      }
    }
  }

  /** Appending one placed message adds one message whose delta is its
      distance from the previous last tick. */
  lemma DeltasSnoc(e: seq<Placed>, x: Placed)
    ensures Deltas(e + [x]) == Deltas(e) + [Timed(x.msg, x.tick - LastTick(e, 0))]
    ensures LastTick(e + [x], 0) == x.tick
  {
    DeltasAppend(e, [x], 0);
    assert DeltasFrom([x], LastTick(e, 0)) == [Timed(x.msg, x.tick - LastTick(e, 0))];
  }

  /** The track ends on the tick of its last message. */
  lemma {:induction false} TotalAbsoluteFrom(track: seq<Timed>, base: int)
    ensures LastTick(AbsoluteFrom(track, base), base) == base + Total(track)
  {
    if track != [] {
      TotalAbsoluteFrom(track[1..], base + track[0].delta);
    }
  }

  /** The placement of a concatenation: the second part starts where the
      first ends. */
  lemma {:induction false} AbsoluteAppend(a: seq<Timed>, b: seq<Timed>, base: int)
    ensures AbsoluteFrom(a + b, base) == AbsoluteFrom(a, base) + AbsoluteFrom(b, base + Total(a))
  {
    if a == [] {
      assert a + b == b;
    } else {
      assert (a + b)[1..] == a[1..] + b;
      AbsoluteAppend(a[1..], b, base + a[0].delta);
    }
  }

  /** A placement never moves backwards. */
  predicate Monotone(evs: seq<Placed>) {
    forall j :: 0 <= j < |evs| - 1 ==> evs[j].tick <= evs[j + 1].tick
  }

  /** Deltas of a placement that starts at or after `base` and never moves
      backwards are all non-negative, as a MIDI file requires. */
  lemma {:induction false} MonotoneDeltas(evs: seq<Placed>, base: int)
    requires Monotone(evs) && (evs != [] ==> base <= evs[0].tick)
    ensures forall j :: 0 <= j < |evs| ==> DeltasFrom(evs, base)[j].delta >= 0
  {
    if evs != [] {
      assert Monotone(evs[1..]) by {
        forall j | 0 <= j < |evs[1..]| - 1
          ensures evs[1..][j].tick <= evs[1..][j + 1].tick
        {
          assert evs[1..][j] == evs[j + 1] && evs[1..][j + 1] == evs[j + 2];
        }
      }
      MonotoneDeltas(evs[1..], evs[0].tick);
      var r := DeltasFrom(evs, base);
      forall j | 0 <= j < |evs|
        ensures r[j].delta >= 0
      {
        if j > 0 {
          assert r[j] == DeltasFrom(evs[1..], evs[0].tick)[j - 1];
        }
      }
    }
  }

  /** Each delta is the step from the tick of the message before, the
      first one's from `base`. */
  lemma {:induction false} DeltaAt(evs: seq<Placed>, base: int, i: nat)
    requires i < |evs|
    ensures DeltasFrom(evs, base)[i].delta == evs[i].tick - (if i == 0 then base else evs[i - 1].tick)
  {
    if i > 0 {
      var rest := evs[1..];
      DeltaAt(rest, evs[0].tick, i - 1);
      assert DeltasFrom(evs, base)[i] == DeltasFrom(rest, evs[0].tick)[i - 1];
      assert rest[i - 1] == evs[i];
      if i > 1 {
        assert rest[i - 2] == evs[i - 1];
      }
    }
  }

  /** Messages all placed at one tick. */
  function AtTick(ms: seq<Msg>, t: int): (r: seq<Placed>)
    ensures |r| == |ms| && forall i :: 0 <= i < |r| ==> r[i] == Placed(ms[i], t)
  {
    seq(|ms|, i requires 0 <= i < |ms| => Placed(ms[i], t))
  }

  /** Messages whose first carries delta `first` and the others `rest`. */
  function Carry(ms: seq<Msg>, first: int, rest: int): (r: seq<Timed>)
    ensures |r| == |ms| && forall i :: 0 <= i < |r| ==> r[i] == Timed(ms[i], if i == 0 then first else rest)
  {
    seq(|ms|, i requires 0 <= i < |ms| => Timed(ms[i], if i == 0 then first else rest))
  }

  /** Messages placed together: the first carries the whole step, the
      others a delta of 0. */
  lemma {:induction false} DeltasAtTick(ms: seq<Msg>, t: int, base: int)
    ensures DeltasFrom(AtTick(ms, t), base) == Carry(ms, t - base, 0)
    ensures LastTick(AtTick(ms, t), base) == if ms == [] then base else t
  {
    if ms != [] {
      DeltasAtTickFirst(ms, t, base);
      DeltasAtTick(ms[1..], t, t);
      CarrySame(ms[1..], t - t, 0);
      CarryCons(ms[0], ms[1..], t - base);
      assert [ms[0]] + ms[1..] == ms;
    }
  }

  /** The first of a group placed at one tick carries the step to it. */
  lemma DeltasAtTickFirst(ms: seq<Msg>, t: int, base: int)
    requires ms != []
    ensures DeltasFrom(AtTick(ms, t), base) == [Timed(ms[0], t - base)] + DeltasFrom(AtTick(ms[1..], t), t)
  {
    var p := AtTick(ms, t);
    assert p[0] == Placed(ms[0], t);
    assert p[1..] == AtTick(ms[1..], t);
  }

  /** Appending one message to a carried list. */
  lemma CarrySnoc(ms: seq<Msg>, m: Msg, first: int, rest: int)
    ensures Carry(ms + [m], first, rest) == Carry(ms, first, rest) + [Timed(m, if ms == [] then first else rest)]
  {
    var a := Carry(ms + [m], first, rest);
    var b := Carry(ms, first, rest) + [Timed(m, if ms == [] then first else rest)];
    assert |a| == |b|;
    forall i | 0 <= i < |a|
      ensures a[i] == b[i]
    {
      if i < |ms| {
        assert (ms + [m])[i] == ms[i];
      }
    }
  }

  /** A message with delta d followed by messages with delta 0. */
  lemma CarryCons(m: Msg, ms: seq<Msg>, d: int)
    ensures [Timed(m, d)] + Carry(ms, 0, 0) == Carry([m] + ms, d, 0)
  {
    var a := [Timed(m, d)] + Carry(ms, 0, 0);
    var b := Carry([m] + ms, d, 0);
    assert |a| == |b|;
    forall i | 0 <= i < |a|
      ensures a[i] == b[i]
    {
      if i > 0 {
        assert ([m] + ms)[i] == ms[i - 1];
      }
    }
  }

  /** The loop that appends messages with their deltas. */
  method AppendCarried(track: seq<Timed>, ms: seq<Msg>, first: int, rest: int) returns (r: seq<Timed>)
    ensures r == track + Carry(ms, first, rest)
  {
    r := track;
    for i := 0 to |ms|
      invariant r == track + Carry(ms[..i], first, rest)
    {
      CarrySnoc(ms[..i], ms[i], first, rest);
      assert ms[..i + 1] == ms[..i] + [ms[i]];
      r := r + [Timed(ms[i], if i == 0 then first else rest)];
    }
    assert ms[..|ms|] == ms;
  }

  /** Two groups of messages, each placed at one tick, after tick `base`:
      each group's first message carries the step to its tick. */
  lemma PairDeltas(a: seq<Msg>, b: seq<Msg>, t1: int, t2: int, base: int)
    ensures DeltasFrom(AtTick(a, t1) + AtTick(b, t2), base)
            == Carry(a, t1 - base, 0) + Carry(b, t2 - (if a == [] then base else t1), 0)
    ensures LastTick(AtTick(a, t1) + AtTick(b, t2), base) == if b != [] then t2 else if a != [] then t1 else base
  {
    DeltasAppend(AtTick(a, t1), AtTick(b, t2), base);
    DeltasAtTick(a, t1, base);
    DeltasAtTick(b, t2, LastTick(AtTick(a, t1), base));
    if b == [] {
      assert AtTick(a, t1) + AtTick(b, t2) == AtTick(a, t1);
    }
  }

  /** Carrying equal deltas gives equal messages. */
  lemma CarrySame(ms: seq<Msg>, x: int, y: int)
    requires x == y
    ensures Carry(ms, x, 0) == Carry(ms, y, 0)
  {
  }

  /** A group at tick t followed by a group one duration later, where the
      second is empty whenever the first is: the second group's first
      message carries the duration. */
  lemma GroupThenLater(a: seq<Msg>, b: seq<Msg>, t: int, d: int, base: int)
    requires a == [] ==> b == []
    ensures DeltasFrom(AtTick(a, t) + AtTick(b, t + d), base) == Carry(a, t - base, 0) + Carry(b, d, 0)
    ensures LastTick(AtTick(a, t) + AtTick(b, t + d), base) == if b != [] then t + d else if a != [] then t else base
  {
    if a == [] {
      NothingPlaced(a, b, t, d, base);
    } else {
      GroupDeltasAfter(a, b, t, d, base);
      GroupLastAfter(a, b, t, d, base);
    }
  }

  lemma NothingPlaced(a: seq<Msg>, b: seq<Msg>, t: int, d: int, base: int)
    requires a == [] && b == []
    ensures DeltasFrom(AtTick(a, t) + AtTick(b, t + d), base) == Carry(a, t - base, 0) + Carry(b, d, 0)
    ensures LastTick(AtTick(a, t) + AtTick(b, t + d), base) == base
  {
    assert AtTick(a, t) + AtTick(b, t + d) == [];
    assert Carry(a, t - base, 0) + Carry(b, d, 0) == [];
  }

  /** Deltas of two placements, given those of each part. */
  lemma Glue(x: seq<Placed>, y: seq<Placed>, base: int, t: int, cx: seq<Timed>, cy: seq<Timed>)
    requires DeltasFrom(x, base) == cx && LastTick(x, base) == t && DeltasFrom(y, t) == cy
    ensures DeltasFrom(x + y, base) == cx + cy
  {
    DeltasAppend(x, y, base);
  }

  /** A group placed d ticks after tick t carries d on its first message. */
  lemma GroupAfter(ms: seq<Msg>, t: int, d: int)
    ensures DeltasFrom(AtTick(ms, t + d), t) == Carry(ms, d, 0)
  {
    var e := t + d;
    DeltasAtTick(ms, e, t);
    assert e - t == d;
    CarrySame(ms, e - t, d);
  }

  /** After a non-empty first group, the second group's step is the
      duration. */
  lemma GroupDeltasAfter(a: seq<Msg>, b: seq<Msg>, t: int, d: int, base: int)
    requires a != []
    ensures DeltasFrom(AtTick(a, t) + AtTick(b, t + d), base) == Carry(a, t - base, 0) + Carry(b, d, 0)
  {
    DeltasAtTick(a, t, base);
    GroupAfter(b, t, d);
    Glue(AtTick(a, t), AtTick(b, t + d), base, t, Carry(a, t - base, 0), Carry(b, d, 0));
  }

  /** After a non-empty first group, the track ends on the second group
      when it has messages, else on the first. */
  lemma GroupLastAfter(a: seq<Msg>, b: seq<Msg>, t: int, d: int, base: int)
    requires a != []
    ensures LastTick(AtTick(a, t) + AtTick(b, t + d), base) == if b != [] then t + d else t
  {
    var e := t + d;
    LastTickAppend(AtTick(a, t), AtTick(b, e), base);
    DeltasAtTick(a, t, base);
    DeltasAtTick(b, e, t);
  }

  /** The deltas add up across a concatenation. */
  lemma {:induction false} TotalAppend(a: seq<Timed>, b: seq<Timed>)
    ensures Total(a + b) == Total(a) + Total(b)
  {
    if a == [] {
      assert a + b == b;
    } else {
      assert (a + b)[1..] == a[1..] + b;
      TotalAppend(a[1..], b);
    }
  }

  /** Messages carried with `first` then `rest` land `rest` ticks apart
      after the first. */
  lemma {:induction false} AbsoluteCarry(ms: seq<Msg>, first: int, rest: int, base: int)
    ensures forall i :: 0 <= i < |ms| ==> AbsoluteFrom(Carry(ms, first, rest), base)[i].tick == base + first + i * rest
  {
    if ms != [] {
      var c := Carry(ms, first, rest);
      assert c[1..] == Carry(ms[1..], rest, rest);
      AbsoluteCarry(ms[1..], rest, rest, base + first);
      var r := AbsoluteFrom(c, base);
      var r' := AbsoluteFrom(Carry(ms[1..], rest, rest), base + first);
      assert r == [Placed(ms[0], base + first)] + r';
      forall i | 0 <= i < |ms|
        ensures r[i].tick == base + first + i * rest
      {
        if i > 0 {
          assert r[i] == r'[i - 1];
          assert r'[i - 1].tick == base + first + rest + (i - 1) * rest;
          assert rest + (i - 1) * rest == i * rest;
        }
      }
    }
  }

  /** And end `rest` ticks apart after the first. */
  lemma {:induction false} TotalCarry(ms: seq<Msg>, first: int, rest: int)
    requires ms != []
    ensures Total(Carry(ms, first, rest)) == first + (|ms| - 1) * rest
  {
    var c := Carry(ms, first, rest);
    assert c[1..] == Carry(ms[1..], rest, rest);
    if ms[1..] != [] {
      TotalCarry(ms[1..], rest, rest);
      assert rest + (|ms| - 2) * rest == (|ms| - 1) * rest;
    }
  }

  /** The last tick of a concatenation is that of the second part, read
      from where the first ends. */
  lemma LastTickAppend(a: seq<Placed>, b: seq<Placed>, base: int)
    ensures LastTick(a + b, base) == LastTick(b, LastTick(a, base))
  {
    if b == [] {
      assert a + b == a;
    }
  }
}
