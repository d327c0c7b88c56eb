/**
 * The OPL's low-frequency oscillator. Samples are generated in blocks during which vibrato and tremolo do
 * not change; the length of a block is computed instead of stepping the oscillator sample by sample.
 */
module OplLfo {
  import opened CInt
  import opened Arith

  const LFO_MAX := 0x10_0000
  const TREMOLO_TABLE := 52

  /** The counter, its increment per sample, and the positions in the vibrato and tremolo tables. */
  datatype Lfo = Lfo(counter: nat, add: nat, vibrato: nat, tremolo: nat)

  predicate LfoOk(l: Lfo) {
    l.counter < LFO_MAX && 1 <= l.add <= LFO_MAX && l.vibrato < 32 && l.tremolo < TREMOLO_TABLE
  }

  /** What the oscillator contributes to a sample. */
  datatype Value = Value(vibrato: nat, tremolo: nat)

  function ValueOf(l: Lfo): (v: Value) { Value(l.vibrato, l.tremolo) }

  // ---------------------------------------------------------------- one sample at a time

  function NextVibrato(i: nat): (j: nat) { (i + 1) % 32 }

  function NextTremolo(i: nat): (j: nat) { if i + 1 < TREMOLO_TABLE then i + 1 else 0 }

  /** The oscillator after one sample: table positions move when the counter goes round. */
  function Step(l: Lfo): (l': Lfo) {
    if l.counter + l.add < LFO_MAX then Lfo(l.counter + l.add, l.add, l.vibrato, l.tremolo)
    else Lfo((l.counter + l.add) % LFO_MAX, l.add, NextVibrato(l.vibrato), NextTremolo(l.tremolo))
  }

  function After(l: Lfo, n: nat): (l': Lfo)
    decreases n
  {
    if n == 0 then l else After(Step(l), n - 1)
  }

  /** The values of `n` samples. */
  function Trace(l: Lfo, n: nat): (vs: seq<Value>)
    ensures |vs| == n
    decreases n
  {
    if n == 0 then [] else [ValueOf(l)] + Trace(Step(l), n - 1)
  }

  /** How often the counter has gone round after `n` samples. */
  function Rounds(l: Lfo, n: nat): (k: nat) { (l.counter + n * l.add) / LFO_MAX }

  /** What `n` samples make of the oscillator: the table positions are one further for each round of the counter. */
  predicate GoneRound(l: Lfo, n: nat, l': Lfo) {
    && l'.counter == (l.counter + n * l.add) % LFO_MAX && l'.add == l.add
    && l'.vibrato == (l.vibrato + Rounds(l, n)) % 32 && l'.tremolo == (l.tremolo + Rounds(l, n)) % 52
  }

  /** Vibrato goes through 32 values and tremolo through 52, one each time the counter has gone round. */
  lemma {:induction false} TablesGoRound(l: Lfo, n: nat)
    requires LfoOk(l)
    ensures GoneRound(l, n, After(l, n))
    decreases n
  {
    hide GoneRound;
    StepKeepsOk(l);
    if n == 0 {
      NotGoneRound(l);
    } else {
      TablesGoRound(Step(l), n - 1);
      RoundOfStep(l, After(Step(l), n - 1), n);
    }
  }

  lemma NotGoneRound(l: Lfo)
    requires LfoOk(l)
    ensures GoneRound(l, 0, l)
  {
    DivModUnique(l.counter, LFO_MAX, 0, l.counter);
  }

  lemma RoundOfStep(l: Lfo, l': Lfo, n: nat)
    requires LfoOk(l) && n > 0 && GoneRound(Step(l), n - 1, l')
    ensures GoneRound(l, n, l')
  {
    var s := Step(l);
    StepIs(l);
    RoundsNext(l, s, n);
    hide Step, Rounds, LfoOk;
    OneMoreTurn(l, s, l', (l.counter + l.add) / LFO_MAX, Rounds(s, n - 1), Rounds(l, n));
  }

  lemma OneMoreTurn(l: Lfo, s: Lfo, l': Lfo, turns: nat, later: nat, all: nat)
    requires s.vibrato == (l.vibrato + turns) % 32 && s.tremolo == (l.tremolo + turns) % 52 && all == turns + later
    requires l'.vibrato == (s.vibrato + later) % 32 && l'.tremolo == (s.tremolo + later) % 52
    ensures l'.vibrato == (l.vibrato + all) % 32 && l'.tremolo == (l.tremolo + all) % 52
  {
    WrapAdds(l.vibrato, turns, later, 32);
    WrapAdds(l.tremolo, turns, later, 52);
  }

  lemma StepIs(l: Lfo)
    requires LfoOk(l)
    ensures var s, turns := Step(l), (l.counter + l.add) / LFO_MAX;
            && s.counter == (l.counter + l.add) % LFO_MAX && s.add == l.add
            && s.vibrato == (l.vibrato + turns) % 32 && s.tremolo == (l.tremolo + turns) % 52
  {
    var x := l.counter + l.add;
    if x < LFO_MAX {
      DivModUnique(x, LFO_MAX, 0, x);
    } else {
      DivModUnique(x, LFO_MAX, 1, x - LFO_MAX);
    }
  }

  lemma RoundsNext(l: Lfo, s: Lfo, n: nat)
    requires n > 0 && s.counter == (l.counter + l.add) % LFO_MAX && s.add == l.add
    ensures Rounds(l, n) == (l.counter + l.add) / LFO_MAX + Rounds(s, n - 1)
    ensures (l.counter + n * l.add) % LFO_MAX == (s.counter + (n - 1) * s.add) % LFO_MAX
  {
    var x, m := l.counter + l.add, (n - 1) * l.add;
    assert l.counter + n * l.add == x + m;
    RoundsSplit(x, m);
  }

  lemma RoundsSplit(x: nat, m: nat)
    ensures (x + m) / LFO_MAX == x / LFO_MAX + (x % LFO_MAX + m) / LFO_MAX
    ensures (x + m) % LFO_MAX == (x % LFO_MAX + m) % LFO_MAX
  {
    DivMod(x, LFO_MAX);
    DivMod(x % LFO_MAX + m, LFO_MAX);
    DivModUnique(x + m, LFO_MAX, x / LFO_MAX + (x % LFO_MAX + m) / LFO_MAX, (x % LFO_MAX + m) % LFO_MAX);
  }

  lemma WrapAdds(v: nat, a: nat, b: nat, m: nat)
    requires m > 0
    ensures ((v + a) % m + b) % m == (v + (a + b)) % m
  {
    var x := v + a;
    DivMod(x, m);
    DivMod(x % m + b, m);
    var q := (x % m + b) / m;
    assert (x / m + q) * m == x / m * m + q * m;
    DivModUnique(x + b, m, x / m + q, (x % m + b) % m);
  }

  // ---------------------------------------------------------------- a block at a time

  /** The samples until the counter goes round. */
  function ToWrap(l: Lfo): (k: nat)
    requires LfoOk(l)
  {
    (LFO_MAX - l.counter + l.add - 1) / l.add
  }

  function Count(l: Lfo, samples: nat): (k: nat)
    requires LfoOk(l)
  {
    if ToWrap(l) > samples then samples else ToWrap(l)
  }

  /** The oscillator after a block. */
  function Forward(l: Lfo, samples: nat): (l': Lfo)
    requires LfoOk(l)
  {
    var counter := l.counter + Count(l, samples) * l.add;
    if ToWrap(l) > samples then Lfo(counter, l.add, l.vibrato, l.tremolo)
    else Lfo(counter % LFO_MAX, l.add, NextVibrato(l.vibrato), NextTremolo(l.tremolo))
  }

  lemma StepKeepsOk(l: Lfo)
    requires LfoOk(l)
    ensures LfoOk(Step(l))
  {
  }

  /** The computed block length is the number of steps to the first that reaches the end of the counter. */
  lemma ToWrapReaches(l: Lfo)
    requires LfoOk(l)
    ensures ToWrap(l) >= 1
    ensures l.counter + (ToWrap(l) - 1) * l.add < LFO_MAX <= l.counter + ToWrap(l) * l.add
    ensures l.counter + ToWrap(l) * l.add < 2 * LFO_MAX
  {
    var k, x := ToWrap(l), LFO_MAX - l.counter + l.add - 1;
    QuotientBounds(x, l.add);
    assert (k + 1) * l.add == k * l.add + l.add;
    assert (k - 1) * l.add == k * l.add - l.add;
    DivMonotone(l.add, x, l.add);
  }

  /** Steps that stay below the end of the counter change nothing but the counter. */
  lemma {:induction false} StepsWithin(l: Lfo, n: nat)
    requires LfoOk(l) && l.counter + n * l.add < LFO_MAX
    ensures After(l, n) == Lfo(l.counter + n * l.add, l.add, l.vibrato, l.tremolo)
    ensures forall i :: 0 <= i < n ==> Trace(l, n)[i] == ValueOf(l)
    decreases n
  {
    if n > 0 {
      assert (n - 1) * l.add == n * l.add - l.add;
      MulLeq(1, n, l.add);
      StepsWithin(Step(l), n - 1);
    }
  }

  lemma {:induction false} AfterAdds(l: Lfo, a: nat, b: nat)
    ensures After(l, a + b) == After(After(l, a), b)
    ensures Trace(l, a + b) == Trace(l, a) + Trace(After(l, a), b)
    decreases a
  {
    if a == 0 {
      assert Trace(l, 0) + Trace(l, b) == Trace(l, b);
    } else {
      AfterAdds(Step(l), a - 1, b);
      assert a + b - 1 == (a - 1) + b;
      assert [ValueOf(l)] + (Trace(Step(l), a - 1) + Trace(After(Step(l), a - 1), b))
          == ([ValueOf(l)] + Trace(Step(l), a - 1)) + Trace(After(Step(l), a - 1), b);
    }
  }

  lemma {:induction false} AfterKeepsOk(l: Lfo, n: nat)
    requires LfoOk(l)
    ensures LfoOk(After(l, n))
    decreases n
  {
    if n > 0 {
      StepKeepsOk(l);
      AfterKeepsOk(Step(l), n - 1);
    }
  }

  /**
   * A block is as many single samples: it ends in the same state, all its samples have the same values, it
   * is not empty, and it is never longer than asked for.
   */
  lemma BlockIsItsSamples(l: Lfo, samples: nat)
    requires LfoOk(l) && samples > 0
    ensures var k := Count(l, samples);
            && 1 <= k <= samples && Forward(l, samples) == After(l, k) && LfoOk(Forward(l, samples))
            && forall i :: 0 <= i < k ==> Trace(l, k)[i] == ValueOf(l)
  {
    var k := Count(l, samples);
    ToWrapReaches(l);
    AfterKeepsOk(l, k);
    if ToWrap(l) > samples {
      MulLeq(samples, ToWrap(l) - 1, l.add);
      StepsWithin(l, k);
    } else {
      StepsWithin(l, k - 1);
      AfterAdds(l, k - 1, 1);
      assert (k - 1) * l.add + l.add == k * l.add;
      var m := After(l, k - 1);
      assert After(m, 1) == After(Step(m), 0) == Step(m);
      assert Trace(m, 1) == [ValueOf(m)] + Trace(Step(m), 0);
      assert l.counter + k * l.add == m.counter + m.add;
    }
  }

  // ---------------------------------------------------------------- generating

  /**
   * The cells one generation clears: every block clears twice the cells that it fills, so the clearing of a
   * block may reach beyond the last cell that is filled at all.
   */
  function Reach(l: Lfo, total: nat): (r: nat)
    requires LfoOk(l)
    decreases total
  {
    if total == 0 then 0
    else
      BlockIsItsSamples(l, total);
      var k := Count(l, total);
      Max(2 * k, k + Reach(Forward(l, total), total - k))
  }

  /** A buffer of the size filled is never enough, twice that always is, and needed exactly if one block does it all. */
  lemma {:induction false} ReachBounds(l: Lfo, total: nat)
    requires LfoOk(l)
    ensures total <= Reach(l, total) <= 2 * total
    ensures total > 0 ==> total < Reach(l, total)
    ensures total > 0 ==> (Reach(l, total) == 2 * total <==> Count(l, total) == total)
    decreases total
  {
    if total > 0 {
      BlockIsItsSamples(l, total);
      ReachBounds(Forward(l, total), total - Count(l, total));
    }
  }

  /** The chip's channels as one machine: a sample's sum for an output lane, and the state after the sample. */
  datatype Machine<!S> = Machine(step: (S, Value) -> S, out: (S, Value, nat) -> int)

  /** The channels' state after `i` samples that see these values, one by one. */
  function Played<S>(m: Machine<S>, s: S, values: seq<Value>, i: nat): (s': S)
    requires i <= |values|
  {
    if i == 0 then s else m.step(Played(m, s, values, i - 1), values[i - 1])
  }

  /** Two machines side by side, their samples added; this makes a chip out of channels. */
  function Both<S, T>(a: Machine<S>, b: Machine<T>): (m: Machine<(S, T)>) {
    Machine((s: (S, T), v: Value) => (a.step(s.0, v), b.step(s.1, v)),
            (s: (S, T), v: Value, lane: nat) => a.out(s.0, v, lane) + b.out(s.1, v, lane))
  }

  /** Their samples are added. */
  lemma BothSound<S, T>(a: Machine<S>, b: Machine<T>, s: S, t: T, v: Value, lane: nat)
    ensures Both(a, b).out((s, t), v, lane) == a.out(s, v, lane) + b.out(t, v, lane)
  {
  }

  /** A sample's cell, or its left and its right one. */
  lemma CellsOfSample(voices: Voices, v: Value, i: nat)
    ensures CellOf(voices, v, i, false) == S16(voices(i, v, 0))
    ensures CellOf(voices, v, 2 * i, true) == S16(voices(i, v, 0))
    ensures CellOf(voices, v, 2 * i + 1, true) == S16(voices(i, v, 1))
  {
  }

  /** The machine sounds in the state it has been brought to. */
  lemma VoicesSound<S>(m: Machine<S>, s: S, values: seq<Value>, i: nat, lane: nat)
    requires i < |values|
    ensures VoicesOf(m, s, values)(i, values[i], lane) == m.out(Played(m, s, values, i), values[i], lane)
  {
  }

  /** Neither disturbs the other. */
  lemma {:induction false} BothPlay<S, T>(a: Machine<S>, b: Machine<T>, s: S, t: T, values: seq<Value>, i: nat)
    requires i <= |values|
    ensures Played(Both(a, b), (s, t), values, i) == (Played(a, s, values, i), Played(b, t, values, i))
  {
    if i > 0 {
      BothPlay(a, b, s, t, values, i - 1);
    }
  }

  /** What the channels add up to: for a sample number, its oscillator values, and an output lane. */
  type Voices = (nat, Value, nat) -> int

  function VoicesOf<S>(m: Machine<S>, s: S, values: seq<Value>): (voices: Voices) {
    (i: nat, v: Value, lane: nat) => if i <= |values| then m.out(Played(m, s, values, i), v, lane) else 0
  }

  /** Output cell `k`, with one lane (`stereo` off) or two of them for each sample. */
  function SampleOf(k: nat, stereo: bool): (i: nat) { if stereo then k / 2 else k }

  function LaneOf(k: nat, stereo: bool): (i: nat) { if stereo then k % 2 else 0 }

  function Cells(n: nat, stereo: bool): (k: nat) { if stereo then 2 * n else n }

  /** What cell `k` is to hold when its sample sees `v`. */
  function CellOf(voices: Voices, v: Value, k: nat, stereo: bool): (s: int) {
    S16(voices(SampleOf(k, stereo), v, LaneOf(k, stereo)))
  }

  /**
   * The output so far: `done` samples as a per-sample oscillator would give them, then cleared cells, then
   * what was there before.
   */
  ghost predicate Generated(output: seq<int>, was: seq<int>, voices: Voices, values: seq<Value>, stereo: bool,
      done: nat, cleared: nat) {
    && done <= |values| && done <= cleared && |output| == |was|
    && (forall k :: 0 <= k < |output| && k < Cells(done, stereo) ==>
          output[k] == CellOf(voices, values[SampleOf(k, stereo)], k, stereo))
    && (forall k :: 0 <= k < |output| && k >= Cells(done, stereo) ==>
          output[k] == if k < Cells(cleared, stereo) then 0 else was[k])
  }

  /** All samples of the block that starts after `done` samples see the oscillator's present values. */
  lemma TraceInBlock(l: Lfo, total: nat, done: nat)
    requires LfoOk(l) && done < total && LfoOk(After(l, done))
    ensures var m := After(l, done); var k := Count(m, total - done);
            && 1 <= k <= total - done && forall i :: done <= i < done + k ==> Trace(l, total)[i] == ValueOf(m)
  {
    hide After, Trace, Count, Forward;
    var m := After(l, done);
    BlockIsItsSamples(m, total - done);
    var k := Count(m, total - done);
    AfterAdds(l, done, total - done);
    AfterAdds(m, k, total - done - k);
    assert Trace(l, total) == Trace(l, done) + (Trace(m, k) + Trace(After(m, k), total - done - k));
    forall i | done <= i < done + k
      ensures Trace(l, total)[i] == ValueOf(m)
    {
      assert Trace(l, total)[i] == Trace(m, k)[i - done];
    }
  }

  lemma NextBlock(l: Lfo, total: nat, done: nat, cleared: nat)
    requires LfoOk(l) && done < total && LfoOk(After(l, done))
    ensures var m := After(l, done); var k := Count(m, total - done); var m' := Forward(m, total - done);
            && 1 <= k <= total - done && m' == After(l, done + k) && LfoOk(m')
            && 2 * k <= Reach(m, total - done)
            && Max(cleared, done + Reach(m, total - done))
                == Max(Max(cleared, done + 2 * k), done + k + Reach(m', total - done - k))
  {
    hide After, Trace, Forward, Count;
    BlockIsItsSamples(After(l, done), total - done);
    AfterAdds(l, done, Count(After(l, done), total - done));
  }

  /** The chip: its oscillator, its channels, and its generator. */
  class Chip<!S(!new)> {
    const m: Machine<S>
    var lfo: Lfo
    var channels: S

    constructor (m: Machine<S>, lfo: Lfo, channels: S)
      ensures this.m == m && this.lfo == lfo && this.channels == channels
    {
      this.m, this.lfo, this.channels := m, lfo, channels;
    }

    /** Moves the oscillator over as many samples as share one value, and returns how many these are. */
    method ForwardLfo(samples: nat) returns (count: nat)
      requires LfoOk(lfo) && samples > 0
      modifies this`lfo
      ensures count == Count(old(lfo), samples) && lfo == Forward(old(lfo), samples)
    {
      var todo := LFO_MAX - lfo.counter;
      count := (todo + lfo.add - 1) / lfo.add;
      if count > samples {
        count := samples;
        lfo := Lfo(lfo.counter + count * lfo.add, lfo.add, lfo.vibrato, lfo.tremolo);
      } else {
        var tremolo := 0;
        if lfo.tremolo + 1 < TREMOLO_TABLE {
          tremolo := lfo.tremolo + 1;
        }
        lfo := Lfo((lfo.counter + count * lfo.add) % LFO_MAX, lfo.add, (lfo.vibrato + 1) % 32, tremolo);
      }
    }

    /** Clears `cells` cells from `from` on. */
    method Clear(output: array<int>, from: nat, cells: nat)
      requires from + cells <= output.Length
      modifies output
      ensures forall k :: 0 <= k < output.Length ==> output[k] == if from <= k < from + cells then 0 else old(output[k])
    {
      var i := 0;
      while i < cells
        invariant i <= cells
        invariant forall k :: 0 <= k < output.Length ==> output[k] == if from <= k < from + i then 0 else old(output[k])
      {
        output[from + i] := 0;
        i := i + 1;
      }
    }

    /** Runs the channels over a block of samples and adds these to its cells. */
    method Fill(v: Value, stereo: bool, done: nat, count: nat, output: array<int>, ghost s: S, ghost values: seq<Value>)
      requires Cells(done + count, stereo) <= output.Length && done + count <= |values|
      requires forall i :: done <= i < done + count ==> values[i] == v
      requires forall k :: Cells(done, stereo) <= k < Cells(done + count, stereo) ==> output[k] == 0
      requires channels == Played(m, s, values, done)
      modifies this`channels, output
      ensures channels == Played(m, s, values, done + count)
      ensures forall k :: 0 <= k < output.Length ==>
        output[k] == if Cells(done, stereo) <= k < Cells(done + count, stereo)
                     then CellOf(VoicesOf(m, s, values), v, k, stereo) else old(output[k])
    {
      hide S16, CellOf, Played, VoicesOf;
      var i := done;
      while i < done + count
        invariant done <= i <= done + count && channels == Played(m, s, values, i)
        invariant forall k :: 0 <= k < output.Length ==>
          output[k] == if Cells(done, stereo) <= k < Cells(i, stereo)
                       then CellOf(VoicesOf(m, s, values), v, k, stereo) else old(output[k])
      {
        AddSample(v, stereo, i, output, s, values);
        PlayedNext(m, s, values, i);
        channels := m.step(channels, v);
        i := i + 1;
      }
    }

    /** Adds one sample to its one or two cells. */
    method AddSample(v: Value, stereo: bool, i: nat, output: array<int>, ghost s: S, ghost values: seq<Value>)
      requires Cells(i + 1, stereo) <= output.Length && i < |values| && channels == Played(m, s, values, i)
      requires forall k :: Cells(i, stereo) <= k < Cells(i + 1, stereo) ==> output[k] == 0
      modifies output
      ensures forall k :: 0 <= k < output.Length ==>
        output[k] == if Cells(i, stereo) <= k < Cells(i + 1, stereo)
                     then CellOf(VoicesOf(m, s, values), v, k, stereo) else old(output[k])
    {
      if stereo {
        output[2 * i] := S16(output[2 * i] + m.out(channels, v, 0));
        output[2 * i + 1] := S16(output[2 * i + 1] + m.out(channels, v, 1));
      } else {
        output[i] := S16(output[i] + m.out(channels, v, 0));
      }
    }

    /** One block: twice its cells are cleared, and its own filled. */
    method Block(v: Value, stereo: bool, done: nat, count: nat, output: array<int>,
        ghost was: seq<int>, ghost s: S, ghost values: seq<Value>, ghost cleared: nat)
      requires Cells(done + 2 * count, stereo) <= output.Length && done + count <= |values|
      requires forall i :: done <= i < done + count ==> values[i] == v
      requires channels == Played(m, s, values, done)
      requires Generated(output[..], was, VoicesOf(m, s, values), values, stereo, done, cleared)
      modifies this`channels, output
      ensures channels == Played(m, s, values, done + count)
      ensures Generated(output[..], was, VoicesOf(m, s, values), values, stereo, done + count,
              Max(cleared, done + 2 * count))
    {
      hide Played, VoicesOf, CellOf;
      Clear(output, Cells(done, stereo), Cells(2 * count, stereo));
      Fill(v, stereo, done, count, output, s, values);
    }

    /** The next block of a generation of which `done` samples are done. */
    method NextBlockOf(stereo: bool, total: nat, done: nat, output: array<int>,
        ghost l: Lfo, ghost was: seq<int>, ghost s: S, ghost cleared: nat) returns (count: nat)
      requires LfoOk(l) && LfoOk(lfo) && done < total && lfo == After(l, done)
      requires channels == Played(m, s, Trace(l, total), done)
      requires Cells(done + Reach(lfo, total - done), stereo) <= output.Length
      requires Generated(output[..], was, VoicesOf(m, s, Trace(l, total)), Trace(l, total), stereo, done, cleared)
      modifies this`lfo, this`channels, output
      ensures 1 <= count <= total - done && LfoOk(lfo) && lfo == After(l, done + count)
      ensures channels == Played(m, s, Trace(l, total), done + count)
      ensures Generated(output[..], was, VoicesOf(m, s, Trace(l, total)), Trace(l, total), stereo,
                        done + count, Max(cleared, done + 2 * count))
      ensures Max(cleared, done + Reach(old(lfo), total - done))
           == Max(Max(cleared, done + 2 * count), done + count + Reach(lfo, total - done - count))
    {
      hide Trace, After, Count, Forward, CellOf, Generated, Reach, Played, VoicesOf;
      TraceInBlock(l, total, done);
      NextBlock(l, total, done, cleared);
      var v := ValueOf(lfo);
      count := ForwardLfo(total - done);
      Block(v, stereo, done, count, output, was, s, Trace(l, total), cleared);
    }

    /**
     * Generates `total` samples block by block. The channels go through the states, and every output cell gets
     * the sample, that an oscillator stepped once a sample would give; the loop ends after exactly `total` samples.
     */
    method Generate(stereo: bool, total: nat, output: array<int>) returns (cells: nat)
      requires LfoOk(lfo) && Cells(Reach(lfo, total), stereo) <= output.Length
      modifies this`lfo, this`channels, output
      ensures LfoOk(lfo) && lfo == After(old(lfo), total) && cells == Cells(total, stereo)
      ensures channels == Played(m, old(channels), Trace(old(lfo), total), total)
      ensures var values := Trace(old(lfo), total);
              Generated(output[..], old(output[..]), VoicesOf(m, old(channels), values), values, stereo, total,
                  Reach(old(lfo), total))
    {
      hide Trace, After, Count, Forward, CellOf, VoicesOf;
      var done: nat := 0;
      ghost var cleared: nat := 0;
      ghost var l, s := lfo, channels;
      ghost var was := output[..];
      AfterZero(lfo);
      ReachBounds(lfo, total);
      assert Generated(output[..], was, VoicesOf(m, s, Trace(l, total)), Trace(l, total), stereo, 0, 0);
      hide *;
      while done < total
        modifies this`lfo, this`channels, output
        invariant done <= total && LfoOk(lfo) && lfo == After(l, done)
                  && channels == Played(m, s, Trace(l, total), done)
        invariant Generated(output[..], was, VoicesOf(m, s, Trace(l, total)), Trace(l, total), stereo, done, cleared)
        invariant Max(cleared, done + Reach(lfo, total - done)) == Reach(l, total)
        decreases total - done
      {
        var count := NextBlockOf(stereo, total, done, output, l, was, s, cleared);
        cleared := Max(cleared, done + 2 * count);
        done := done + count;
      }
      cells := Cells(done, stereo);
    }
  }

  lemma PlayedNext<S>(m: Machine<S>, s: S, values: seq<Value>, i: nat)
    requires i < |values|
    ensures Played(m, s, values, i + 1) == m.step(Played(m, s, values, i), values[i])
  {
  }

  lemma AfterZero(l: Lfo)
    ensures After(l, 0) == l
  {
  }
}
