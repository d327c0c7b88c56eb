/**
 * The X-Fi interval timer shared by all running streams. Starting or stopping a stream changes the running
 * list in one locked section and reprograms the timer in a second one; an interrupt callback reprograms it
 * as well, with the lock released between its passes, so all of these interleave.
 */
module XfiTimer {
  import opened CInt
  import opened Arith

  // ---------------------------------------------------------------- streams

  /** Sizes of the PCM stream: frames per period and frames per second. */
  datatype Runtime = Runtime(period: nat, rate: nat)

  datatype Stream = Stream(runtime: Runtime, position: nat, frag: nat, running: bool, needUpdate: bool)

  predicate StreamOk(s: Stream) { s.runtime.period > 0 && s.runtime.rate > 0 && s.frag < 0x1_0000_0000 }

  /** What the outside supplies to one reprogramming: the wall clock and every stream's hardware position. */
  datatype Outside = Outside(clock: nat, pos: seq<nat>)

  function Pointer(o: Outside, i: nat): (p: nat) { if i < |o.pos| then o.pos[i] else 0 }

  /** Whether the hardware has left the period the stream was last seen in. */
  predicate Crossed(s: Stream, pos: nat)
    requires StreamOk(s)
  {
    pos / s.runtime.period != s.position / s.runtime.period
  }

  /** Timer ticks (48 kHz) until the hardware reaches the end of its period, rounded up. */
  function TicksToPeriodEnd(s: Stream, pos: nat): (f: nat)
    requires StreamOk(s)
  {
    U32(((s.runtime.period - pos % s.runtime.period) * 48000 + s.runtime.rate - 1) / s.runtime.rate)
  }

  /** One stream's part of a reprogramming `diff` ticks after the last one. */
  function Advance(s: Stream, diff: nat, pos: nat): (s': Stream)
    requires StreamOk(s)
  {
    if s.frag > diff then Stream(s.runtime, s.position, s.frag - diff, s.running, s.needUpdate)
    else Stream(s.runtime, if Crossed(s, pos) then pos else s.position, TicksToPeriodEnd(s, pos), s.running,
                s.needUpdate || Crossed(s, pos))
  }

  /** Whether this reprogramming finds that the stream finished a period. */
  predicate Elapsed(s: Stream, diff: nat, pos: nat)
    requires StreamOk(s)
  {
    s.frag <= diff && Crossed(s, pos)
  }

  predicate StreamsOk(streams: seq<Stream>) { forall i :: 0 <= i < |streams| ==> StreamOk(streams[i]) }

  predicate ListOk(list: seq<nat>, n: nat) {
    && (forall k :: 0 <= k < |list| ==> list[k] < n)
    && forall j, k :: 0 <= j < k < |list| ==> list[j] != list[k]
  }

  /** The streams after the first `n` of the running list have been advanced. */
  function AdvanceList(streams: seq<Stream>, list: seq<nat>, n: nat, diff: nat, o: Outside): (r: seq<Stream>)
    requires StreamsOk(streams) && ListOk(list, |streams|) && n <= |list|
    ensures |r| == |streams| && StreamsOk(r)
  {
    if n == 0 then streams
    else
      var r, i := AdvanceList(streams, list, n - 1, diff, o), list[n - 1];
      r[i := Advance(r[i], diff, Pointer(o, i))]
  }

  /** Only and all listed streams are advanced, each exactly once. */
  lemma {:induction false} AdvancedOnce(streams: seq<Stream>, list: seq<nat>, n: nat, diff: nat, o: Outside, i: nat)
    requires StreamsOk(streams) && ListOk(list, |streams|) && n <= |list| && i < |streams|
    ensures AdvanceList(streams, list, n, diff, o)[i]
         == if i in list[..n] then Advance(streams[i], diff, Pointer(o, i)) else streams[i]
  {
    if n > 0 {
      AdvancedOnce(streams, list, n - 1, diff, o, i);
      assert list[..n] == list[..n - 1] + [list[n - 1]];
    }
  }

  /** The interval one stream asks for: none if it has an update the next interrupt is to deliver. */
  function Wanted(s: Stream, canUpdate: bool): (f: nat) { if s.needUpdate && !canUpdate then 0 else s.frag }

  /** The smallest interval asked for by the first `n` listed streams. */
  function MinInterval(streams: seq<Stream>, list: seq<nat>, n: nat, canUpdate: bool): (m: nat)
    requires ListOk(list, |streams|) && n <= |list|
  {
    if n == 0 then 0xFFFF_FFFF
    else Min(MinInterval(streams, list, n - 1, canUpdate), Wanted(streams[list[n - 1]], canUpdate))
  }

  function CountElapsed(streams: seq<Stream>, list: seq<nat>, n: nat, diff: nat, o: Outside): (c: nat)
    requires StreamsOk(streams) && ListOk(list, |streams|) && n <= |list|
  {
    if n == 0 then 0
    else
      var i := list[n - 1];
      CountElapsed(streams, list, n - 1, diff, o) + (if Elapsed(streams[i], diff, Pointer(o, i)) then 1 else 0)
  }

  /** The ticks written to the card for an interval: a fifth of it, at least 1 and at most 13 bits. */
  function TicksFor(interval: nat): (t: nat) { Min(Max(Max(interval, 1) / 5, 1), 8191) }

  // ---------------------------------------------------------------- the timer

  /** The timer's flags and the two card registers. */
  datatype Control = Control(irqHandling: bool, reprogram: bool, running: bool, hwTick: nat, hwIrq: bool)

  datatype Timer = Timer(streams: seq<Stream>, list: seq<nat>, wc: nat, ctl: Control)

  predicate TimerOk(t: Timer) {
    && StreamsOk(t.streams) && ListOk(t.list, |t.streams|)
    && (forall i :: 0 <= i < |t.streams| ==> (t.streams[i].running <==> i in t.list))
  }

  function Stopped(c: Control): (c': Control) {
    if c.running then Control(c.irqHandling, c.reprogram, false, 0, false) else c
  }

  function Armed(c: Control, ticks: nat): (c': Control) {
    Control(c.irqHandling, c.reprogram, true, ticks, c.running ==> c.hwIrq)
  }

  function Cleared(c: Control): (c': Control) { Control(c.irqHandling, false, c.running, c.hwTick, c.hwIrq) }

  function Diff(t: Timer, o: Outside): (d: nat) { U32(o.clock - t.wc) }

  function Reprogram(t: Timer, canUpdate: bool, o: Outside): (t': Timer)
    requires TimerOk(t)
  {
    if t.list == [] then Timer(t.streams, [], t.wc, Cleared(Stopped(t.ctl)))
    else
      var streams := AdvanceList(t.streams, t.list, |t.list|, Diff(t, o), o);
      var ticks := TicksFor(MinInterval(streams, t.list, |t.list|, canUpdate));
      Timer(streams, t.list, o.clock, Cleared(Armed(t.ctl, ticks)))
  }

  function Updates(t: Timer, o: Outside): (c: nat)
    requires TimerOk(t)
  {
    CountElapsed(t.streams, t.list, |t.list|, Diff(t, o), o)
  }

  // ---------------------------------------------------------------- the interval

  lemma {:induction false} MinIntervalBelow(streams: seq<Stream>, list: seq<nat>, n: nat, canUpdate: bool, k: nat)
    requires ListOk(list, |streams|) && k < n <= |list|
    ensures MinInterval(streams, list, n, canUpdate) <= Wanted(streams[list[k]], canUpdate)
  {
    if k < n - 1 {
      MinIntervalBelow(streams, list, n - 1, canUpdate, k);
    }
  }

  /**
   * The armed interval lies in the counter's range and never oversleeps a stream: no listed stream's
   * fragment is shorter, and it is one tick when an update is to be delivered at the next interrupt.
   */
  lemma IntervalIsSafe(t: Timer, canUpdate: bool, o: Outside, k: nat)
    requires TimerOk(t) && k < |t.list|
    ensures var t' := Reprogram(t, canUpdate, o);
            && t'.ctl.running && 1 <= t'.ctl.hwTick <= 8191
            && t'.ctl.hwTick <= Max(1, t'.streams[t.list[k]].frag / 5)
            && (t'.streams[t.list[k]].needUpdate && !canUpdate ==> t'.ctl.hwTick == 1)
  {
    var streams := AdvanceList(t.streams, t.list, |t.list|, Diff(t, o), o);
    MinIntervalBelow(streams, t.list, |t.list|, canUpdate, k);
  }

  /** Nor is the timer armed needlessly early: some listed stream asks for just these ticks. */
  lemma IntervalIsTight(t: Timer, canUpdate: bool, o: Outside) returns (k: nat)
    requires TimerOk(t) && t.list != []
    ensures k < |t.list|
    ensures var t' := Reprogram(t, canUpdate, o);
            var s, tick := t'.streams[t.list[k]], t'.ctl.hwTick;
            || (s.needUpdate && !canUpdate && tick == 1)
            || 5 * tick <= s.frag < 5 * tick + 5
            || (s.frag < 5 && tick == 1)
            || (s.frag >= 5 * 8191 && tick == 8191)
  {
    var streams := AdvanceList(t.streams, t.list, |t.list|, Diff(t, o), o);
    k := MinIntervalIsWanted(streams, t.list, |t.list|, canUpdate);
  }

  lemma {:induction false} MinIntervalIsWanted(streams: seq<Stream>, list: seq<nat>, n: nat, canUpdate: bool)
    returns (k: nat)
    requires StreamsOk(streams) && ListOk(list, |streams|) && 0 < n <= |list|
    ensures k < n && MinInterval(streams, list, n, canUpdate) == Wanted(streams[list[k]], canUpdate)
  {
    k := n - 1;
    if n > 1 {
      var j := MinIntervalIsWanted(streams, list, n - 1, canUpdate);
      if Wanted(streams[list[j]], canUpdate) < Wanted(streams[list[k]], canUpdate) {
        k := j;
      }
    }
  }

  // ---------------------------------------------------------------- periods

  /** The k-th period begins at `k` times its length. */
  predicate InPeriod(p: nat, k: nat, period: nat) { k * period <= p < k * period + period }

  /** Two positions in one period. */
  ghost predicate SamePeriod(p: nat, q: nat, period: nat) {
    exists k: nat :: InPeriod(p, k, period) && InPeriod(q, k, period)
  }

  lemma SamePeriodIff(p: nat, q: nat, period: nat)
    requires period > 0
    ensures SamePeriod(p, q, period) <==> p / period == q / period
  {
    InOwnPeriod(p, period);
    InOwnPeriod(q, period);
    hide InPeriod;
    if SamePeriod(p, q, period) {
      var k: nat :| InPeriod(p, k, period) && InPeriod(q, k, period);
      OnlyPeriod(p, k, period);
      OnlyPeriod(q, k, period);
    }
  }

  lemma InOwnPeriod(p: nat, period: nat)
    requires period > 0
    ensures InPeriod(p, p / period, period)
  {
    DivMod(p, period);
  }

  lemma OnlyPeriod(p: nat, k: nat, period: nat)
    requires period > 0 && InPeriod(p, k, period)
    ensures p / period == k
  {
    DivModUnique(p, period, k, p - k * period);
  }

  /**
   * A stream whose fragment has run out is looked at: it is due, and counted, exactly if the hardware has left the
   * period of the stored position, and afterwards the stored position is in the hardware's period.
   */
  lemma LookedAt(s: Stream, diff: nat, pos: nat)
    requires StreamOk(s) && s.frag <= diff
    ensures Elapsed(s, diff, pos) <==> !SamePeriod(s.position, pos, s.runtime.period)
    ensures var s' := Advance(s, diff, pos);
            && SamePeriod(s'.position, pos, s.runtime.period)
            && (s'.needUpdate <==> s.needUpdate || !SamePeriod(s.position, pos, s.runtime.period))
            && (SamePeriod(s.position, pos, s.runtime.period) ==> s'.position == s.position)
            && s'.runtime == s.runtime && s'.running == s.running
  {
    SamePeriodIff(s.position, pos, s.runtime.period);
    SamePeriodIff(Advance(s, diff, pos).position, pos, s.runtime.period);
  }

  /** A stream whose fragment has not run out only counts down. */
  lemma NotLookedAt(s: Stream, diff: nat, pos: nat)
    requires StreamOk(s) && diff < s.frag
    ensures !Elapsed(s, diff, pos)
    ensures Advance(s, diff, pos) == Stream(s.runtime, s.position, s.frag - diff, s.running, s.needUpdate)
  {
  }

  /**
   * The next fragment lasts until the hardware, playing `rate` frames in a second of 48000 ticks, reaches the
   * end of its period, and not a tick longer than needed.
   */
  lemma FragmentReachesEnd(s: Stream, pos: nat) returns (rest: nat)
    requires StreamOk(s) && s.runtime.period < 0x1_0000
    ensures 0 < rest <= s.runtime.period && SamePeriod(pos, pos + rest - 1, s.runtime.period)
    ensures !SamePeriod(pos, pos + rest, s.runtime.period)
    ensures rest * 48000 <= TicksToPeriodEnd(s, pos) * s.runtime.rate < rest * 48000 + s.runtime.rate
  {
    var period, rate := s.runtime.period, s.runtime.rate;
    rest := period - pos % period;
    RestOfPeriod(pos, period);
    SamePeriodIff(pos, pos + rest - 1, period);
    SamePeriodIff(pos, pos + rest, period);
    FragmentTicks(s, pos);
    hide *;
  }

  lemma FragmentTicks(s: Stream, pos: nat)
    requires StreamOk(s) && s.runtime.period < 0x1_0000
    ensures var rest := s.runtime.period - pos % s.runtime.period;
            && rest >= 0 && rest * 48000 <= TicksToPeriodEnd(s, pos) * s.runtime.rate < rest * 48000 + s.runtime.rate
  {
    DivMod(pos, s.runtime.period);
    var rest: nat := s.runtime.period - pos % s.runtime.period;
    RoundedUp(rest * 48000, s.runtime.rate);
    TicksUnwrapped(s, pos, rest * 48000, s.runtime.rate);
    hide *;
  }

  lemma TicksUnwrapped(s: Stream, pos: nat, x: nat, rate: nat)
    requires StreamOk(s) && rate == s.runtime.rate && x == (s.runtime.period - pos % s.runtime.period) * 48000
    requires (x + rate - 1) / rate < 0x1_0000_0000
    ensures TicksToPeriodEnd(s, pos) == (x + rate - 1) / rate
  {
  }

  lemma RestOfPeriod(pos: nat, period: nat)
    requires period > 0
    ensures var rest := period - pos % period;
            && 0 < rest <= period
            && (pos + rest - 1) / period == pos / period && (pos + rest) / period == pos / period + 1
  {
    DivMod(pos, period);
    var q, rest := pos / period, period - pos % period;
    assert (q + 1) * period == q * period + period;
    DivModUnique(pos + rest - 1, period, q, period - 1);
    DivModUnique(pos + rest, period, q + 1, 0);
  }

  lemma RoundedUp(x: nat, rate: nat)
    requires 0 < rate && x < 0x1_0000_0000
    ensures (x + rate - 1) / rate < 0x1_0000_0000
    ensures x <= (x + rate - 1) / rate * rate < x + rate
  {
    QuotientBounds(x + rate - 1, rate);
    var f := (x + rate - 1) / rate;
    assert (f + 1) * rate == f * rate + rate;
    assert (x + 1) * rate == x * rate + rate;
    MulLeq(1, rate, x);
    if f > x {
      MulLeq(x + 1, f, rate);
      assert false;
    }
  }

  // ---------------------------------------------------------------- one stream over many reprogrammings

  /** What a stream sees of a reprogramming: the ticks since the last one, and its hardware position. */
  datatype Reading = Reading(diff: nat, pos: nat)

  function Through(s: Stream, rs: seq<Reading>): (s': Stream)
    requires StreamOk(s)
    ensures StreamOk(s') && s'.runtime == s.runtime
    decreases |rs|
  {
    if rs == [] then s else Through(Advance(s, rs[0].diff, rs[0].pos), rs[1..])
  }

  /** The updates counted for it. */
  function Signals(s: Stream, rs: seq<Reading>): (n: nat)
    requires StreamOk(s)
    decreases |rs|
  {
    if rs == [] then 0
    else (if Elapsed(s, rs[0].diff, rs[0].pos) then 1 else 0) + Signals(Advance(s, rs[0].diff, rs[0].pos), rs[1..])
  }

  /** Positions that do not go back, from `pos` on. */
  predicate Onward(pos: nat, rs: seq<Reading>)
    decreases |rs|
  {
    rs == [] || (pos <= rs[0].pos && Onward(rs[0].pos, rs[1..]))
  }

  function LastPos(pos: nat, rs: seq<Reading>): (p: nat) { if rs == [] then pos else rs[|rs| - 1].pos }

  /** Over any reprogrammings no more updates are counted for a stream than its hardware has passed period ends. */
  lemma {:induction false} NoPeriodTwice(s: Stream, rs: seq<Reading>, pos: nat)
    requires StreamOk(s) && s.position <= pos && Onward(pos, rs)
    ensures Signals(s, rs) <= LastPos(pos, rs) / s.runtime.period - s.position / s.runtime.period
    decreases |rs|
  {
    var period := s.runtime.period;
    if rs == [] {
      DivMonotone(s.position, pos, period);
    } else {
      var r := rs[0];
      DivMonotone(s.position, r.pos, period);
      NoPeriodTwice(Advance(s, r.diff, r.pos), rs[1..], r.pos);
      assert LastPos(r.pos, rs[1..]) == LastPos(pos, rs);
    }
  }

  /** The readings find every fragment run out, and the hardware at most one period further. */
  predicate Timely(s: Stream, rs: seq<Reading>)
    requires StreamOk(s)
    decreases |rs|
  {
    rs == [] ||
    (&& s.frag <= rs[0].diff && s.position / s.runtime.period <= rs[0].pos / s.runtime.period
     && rs[0].pos / s.runtime.period <= s.position / s.runtime.period + 1
     && Timely(Advance(s, rs[0].diff, rs[0].pos), rs[1..]))
  }

  /** If the timer is in time for every period, every period end is counted exactly once. */
  lemma {:induction false} EveryPeriodOnce(s: Stream, rs: seq<Reading>)
    requires StreamOk(s) && Timely(s, rs)
    ensures Signals(s, rs) == LastPos(s.position, rs) / s.runtime.period - s.position / s.runtime.period
    decreases |rs|
  {
    if rs != [] {
      var s1 := Advance(s, rs[0].diff, rs[0].pos);
      EveryPeriodOnce(s1, rs[1..]);
      assert s1.position / s.runtime.period == rs[0].pos / s.runtime.period;
    }
  }

  // ---------------------------------------------------------------- the timer over many reprogrammings

  /** Reprogrammings with no change of the running list in between. */
  function Programmed(t: Timer, os: seq<Outside>): (t': Timer)
    requires TimerOk(t) && ControlOk(t.ctl)
    ensures TimerOk(t') && ControlOk(t'.ctl) && t'.list == t.list
    decreases |os|
  {
    if os == [] then t
    else
      ReprogramKeepsOk(t, true, os[0]);
      Programmed(Reprogram(t, true, os[0]), os[1..])
  }

  /** What they show of stream `j`, if the clock was last read at `wc`. */
  function Readings(wc: nat, os: seq<Outside>, j: nat): (rs: seq<Reading>)
    decreases |os|
  {
    if os == [] then []
    else [Reading((os[0].clock - wc) % 0x1_0000_0000, Pointer(os[0], j))] + Readings(os[0].clock, os[1..], j)
  }

  /** Every running stream goes through all of them, with the clock differences between one and the next. */
  lemma {:induction false} EachStreamGoesThrough(t: Timer, os: seq<Outside>, j: nat)
    requires TimerOk(t) && ControlOk(t.ctl) && j < |t.streams| && t.streams[j].running
    ensures |Programmed(t, os).streams| == |t.streams|
    ensures Programmed(t, os).streams[j] == Through(t.streams[j], Readings(t.wc, os, j))
    decreases |os|
  {
    if os != [] {
      var o := os[0];
      var t1 := Reprogram(t, true, o);
      ReprogramKeepsOk(t, true, o);
      AdvancedOnce(t.streams, t.list, |t.list|, Diff(t, o), o, j);
      assert t.list[..|t.list|] == t.list;
      hide Advance, Reprogram, TimerOk, ControlOk;
      assert t1.streams[j] == Advance(t.streams[j], (o.clock - t.wc) % 0x1_0000_0000, Pointer(o, j));
      EachStreamGoesThrough(t1, os[1..], j);
    }
  }

  /** A reprogramming counts each running stream that finished a period once. */
  lemma UpdatesAreElapsedStreams(t: Timer, o: Outside)
    requires TimerOk(t)
    ensures Updates(t, o) == |ElapsedOf(t.streams, t.list, |t.list|, Diff(t, o), o)|
  {
    CountIsCardinality(t.streams, t.list, |t.list|, Diff(t, o), o);
  }

  function ElapsedOf(streams: seq<Stream>, list: seq<nat>, n: nat, diff: nat, o: Outside): (js: set<nat>)
    requires StreamsOk(streams) && ListOk(list, |streams|) && n <= |list|
  {
    set k | 0 <= k < n && Elapsed(streams[list[k]], diff, Pointer(o, list[k])) :: list[k]
  }

  lemma {:induction false} CountIsCardinality(streams: seq<Stream>, list: seq<nat>, n: nat, diff: nat, o: Outside)
    requires StreamsOk(streams) && ListOk(list, |streams|) && n <= |list|
    ensures CountElapsed(streams, list, n, diff, o) == |ElapsedOf(streams, list, n, diff, o)|
  {
    if n > 0 {
      CountIsCardinality(streams, list, n - 1, diff, o);
      var before, i := ElapsedOf(streams, list, n - 1, diff, o), list[n - 1];
      OneMoreElapsed(streams, list, n, diff, o);
      hide Elapsed, ElapsedOf, ListOk, StreamsOk;
    }
  }

  lemma OneMoreElapsed(streams: seq<Stream>, list: seq<nat>, n: nat, diff: nat, o: Outside)
    requires StreamsOk(streams) && ListOk(list, |streams|) && 0 < n <= |list|
    ensures var before, i := ElapsedOf(streams, list, n - 1, diff, o), list[n - 1];
            && i !in before
            && ElapsedOf(streams, list, n, diff, o)
               == before + if Elapsed(streams[i], diff, Pointer(o, i)) then {i} else {}
  {
    hide Elapsed;
  }

  // ---------------------------------------------------------------- the locked sections

  /** Takes a stream off the running list. */
  function Without(list: seq<nat>, i: nat): (r: seq<nat>) {
    if list == [] then [] else if list[0] == i then list[1..] else [list[0]] + Without(list[1..], i)
  }

  /** The list section of starting a stream; the wall clock is read afresh. */
  function StartSection(t: Timer, i: nat, clock: nat): (t': Timer)
    requires i < |t.streams|
  {
    var s := t.streams[i];
    Timer(t.streams[i := Stream(s.runtime, s.position, s.frag, true, false)], [i] + t.list, clock, t.ctl)
  }

  function StopSection(t: Timer, i: nat): (t': Timer)
    requires i < |t.streams|
  {
    var s := t.streams[i];
    Timer(t.streams[i := Stream(s.runtime, s.position, s.frag, false, s.needUpdate)], Without(t.list, i), t.wc, t.ctl)
  }

  /** Preparing a stream that is not running, for a runtime of new sizes. */
  function Prepare(t: Timer, i: nat, runtime: Runtime): (t': Timer)
    requires i < |t.streams|
  {
    Timer(t.streams[i := Stream(runtime, 0, runtime.period, false, false)], t.list, t.wc, t.ctl)
  }

  function WithControl(t: Timer, ctl: Control): (t': Timer) { Timer(t.streams, t.list, t.wc, ctl) }

  function Handling(c: Control, irq: bool, reprogram: bool): (c': Control) {
    Control(irq, reprogram, c.running, c.hwTick, c.hwIrq)
  }

  /** The section that follows a start or stop: left to the callback if one is in progress. */
  function Update(t: Timer, o: Outside): (t': Timer)
    requires TimerOk(t)
  {
    if t.ctl.irqHandling then WithControl(t, Handling(t.ctl, true, true))
    else Reprogram(WithControl(t, Stopped(t.ctl)), false, o)
  }

  function Enter(t: Timer, o: Outside): (t': Timer)
    requires TimerOk(t)
  {
    Reprogram(WithControl(t, Handling(t.ctl, true, t.ctl.reprogram)), true, o)
  }

  function Leave(t: Timer): (t': Timer) { WithControl(t, Handling(t.ctl, false, t.ctl.reprogram)) }

  function Delivered(s: Stream): (s': Stream) {
    if s.running && s.needUpdate then Stream(s.runtime, s.position, s.frag, s.running, false) else s
  }

  /** Signals and clears every running stream's update, for the first `n` streams of the instance list. */
  function CheckPeriod(streams: seq<Stream>, n: nat): (r: seq<Stream>)
    requires n <= |streams|
    ensures |r| == |streams|
    ensures forall i :: 0 <= i < |r| ==> r[i] == if i < n then Delivered(streams[i]) else streams[i]
  {
    if n == 0 then streams else CheckPeriod(streams, n - 1)[n - 1 := Delivered(streams[n - 1])]
  }

  // ---------------------------------------------------------------- interleavings

  /** Where the callback is: not running, or unlocked after a pass that found some updates. */
  datatype Pc = Idle | Between(updates: nat)

  /**
   * The timer with the update sections still to come of starts and stops that did their first one.
   * `stale` records whether the running list changed since the timer was last programmed.
   */
  datatype Machine = Machine(t: Timer, pending: nat, pc: Pc, stale: bool)

  datatype Event =
    | Start(i: nat, clock: nat)
    | Stop(i: nat)
    | Prepared(i: nat, runtime: Runtime)
    | UpdateRuns(o: Outside)
    | Interrupt(o: Outside)
    | Check
    | Again(o: Outside)

  predicate Enabled(m: Machine, e: Event) {
    match e
    case Start(i, _) => i < |m.t.streams| && i !in m.t.list
    case Stop(i) => i < |m.t.streams|
    case Prepared(i, runtime) =>
      i < |m.t.streams| && i !in m.t.list && runtime.rate > 0 && 0 < runtime.period < 0x1_0000_0000
    case UpdateRuns(_) => m.pending > 0
    case Interrupt(_) => m.pc == Idle
    case Check => m.pc.Between? && m.pc.updates > 0
    case Again(_) => m.pc == Between(0)
  }

  function Step(m: Machine, e: Event): (m': Machine)
    requires Enabled(m, e) && TimerOk(m.t)
  {
    match e
    case Start(i, clock) => Machine(StartSection(m.t, i, clock), m.pending + 1, m.pc, true)
    case Stop(i) => Machine(StopSection(m.t, i), m.pending + 1, m.pc, true)
    case Prepared(i, runtime) => Machine(Prepare(m.t, i, runtime), m.pending, m.pc, m.stale)
    case UpdateRuns(o) => Machine(Update(m.t, o), m.pending - 1, m.pc, m.stale && m.t.ctl.irqHandling)
    case Interrupt(o) => Machine(Enter(m.t, o), m.pending, Between(Updates(m.t, o)), false)
    case Check => Machine(Timer(CheckPeriod(m.t.streams, |m.t.streams|), m.t.list, m.t.wc, m.t.ctl), m.pending,
        Between(0), m.stale)
    case Again(o) =>
      if m.t.ctl.reprogram then Machine(Reprogram(m.t, true, o), m.pending, Between(Updates(m.t, o)), false)
      else Machine(Leave(m.t), m.pending, Idle, m.stale)
  }

  /** The timer agrees with the running list: it runs for a stream, and no longer than the shortest fragment. */
  predicate InStep(t: Timer)
    requires TimerOk(t)
  {
    && (t.ctl.running <==> t.list != [])
    && (forall k :: 0 <= k < |t.list| ==> t.ctl.hwTick <= Max(1, t.streams[t.list[k]].frag / 5))
  }

  predicate ControlOk(c: Control) {
    && c.hwIrq == c.running && (if c.running then 1 <= c.hwTick <= 8191 else c.hwTick == 0)
  }

  /** A change not yet programmed has someone to program it: a pending update section, or the callback. */
  predicate Promised(m: Machine) {
    && (m.t.ctl.irqHandling <==> m.pc != Idle)
    && (m.t.ctl.reprogram ==> m.t.ctl.irqHandling)
    && (m.stale ==> m.pending > 0 || m.t.ctl.reprogram)
  }

  predicate Inv(m: Machine) {
    && TimerOk(m.t) && ControlOk(m.t.ctl) && Promised(m) && (!m.stale ==> InStep(m.t))
  }

  lemma PrependOk(i: nat, list: seq<nat>, n: nat)
    requires i < n && i !in list && ListOk(list, n)
    ensures ListOk([i] + list, n)
  {
  }

  lemma {:induction false} WithoutOk(list: seq<nat>, i: nat, n: nat)
    requires ListOk(list, n)
    ensures ListOk(Without(list, i), n)
    ensures forall j :: j in Without(list, i) <==> j in list && j != i
  {
    if list != [] {
      WithoutOk(list[1..], i, n);
      assert list == [list[0]] + list[1..];
      assert list[0] !in list[1..];
      if list[0] != i {
        PrependOk(list[0], Without(list[1..], i), n);
      }
    }
  }

  lemma ReprogramKeepsOk(t: Timer, canUpdate: bool, o: Outside)
    requires TimerOk(t) && ControlOk(t.ctl)
    ensures var t' := Reprogram(t, canUpdate, o);
            && TimerOk(t') && ControlOk(t'.ctl) && InStep(t')
            && t'.list == t.list && t'.ctl.irqHandling == t.ctl.irqHandling && !t'.ctl.reprogram
  {
    var t' := Reprogram(t, canUpdate, o);
    forall i | 0 <= i < |t.streams|
      ensures t'.streams[i].running == t.streams[i].running
    {
      AdvancedOnce(t.streams, t.list, |t.list|, Diff(t, o), o, i);
      assert t.list[..|t.list|] == t.list;
    }
    forall k | 0 <= k < |t.list|
      ensures t'.ctl.hwTick <= Max(1, t'.streams[t.list[k]].frag / 5)
    {
      IntervalIsSafe(t, canUpdate, o, k);
    }
  }

  lemma StartKeepsInv(m: Machine, i: nat, clock: nat)
    requires Inv(m) && Enabled(m, Start(i, clock))
    ensures Inv(Step(m, Start(i, clock)))
  {
    PrependOk(i, m.t.list, |m.t.streams|);
    hide ListOk, InStep;
    ListedAfterPrepend(i, m.t.list);
  }

  lemma ListedAfterPrepend(i: nat, list: seq<nat>)
    ensures forall j :: j in [i] + list <==> j == i || j in list
  {
  }

  lemma StopKeepsInv(m: Machine, i: nat)
    requires Inv(m) && Enabled(m, Stop(i))
    ensures Inv(Step(m, Stop(i)))
  {
    hide InStep, ListOk;
    WithoutOk(m.t.list, i, |m.t.streams|);
  }

  /** Every interleaving keeps the invariant. */
  lemma StepKeepsInv(m: Machine, e: Event)
    requires Inv(m) && Enabled(m, e)
    ensures Inv(Step(m, e))
  {
    hide Without, Reprogram;
    match e
    case Start(i, clock) => StartKeepsInv(m, i, clock);
    case Stop(i) => StopKeepsInv(m, i);
    case Prepared(i, runtime) =>
    case UpdateRuns(o) =>
      if !m.t.ctl.irqHandling {
        ReprogramKeepsOk(WithControl(m.t, Stopped(m.t.ctl)), false, o);
      }
    case Interrupt(o) => ReprogramKeepsOk(WithControl(m.t, Handling(m.t.ctl, true, m.t.ctl.reprogram)), true, o);
    case Check =>
    case Again(o) =>
      if m.t.ctl.reprogram {
        ReprogramKeepsOk(m.t, true, o);
      }
  }

  // ---------------------------------------------------------------- runs

  ghost predicate IsRun(ms: seq<Machine>, es: seq<Event>) {
    && |ms| == |es| + 1 && Inv(ms[0])
    && forall k :: 0 <= k < |es| ==> Enabled(ms[k], es[k]) && (TimerOk(ms[k].t) ==> ms[k + 1] == Step(ms[k], es[k]))
  }

  /** At rest nothing is pending and no callback is in progress. */
  predicate AtRest(m: Machine) { m.pending == 0 && m.pc == Idle }

  /**
   * Over every interleaving: whenever the timer comes to rest it is armed exactly if some stream runs, for
   * an interval within range and no longer than the shortest running fragment; no change is lost.
   */
  lemma {:induction false} AtRestTheTimerIsRight(ms: seq<Machine>, es: seq<Event>, k: nat)
    requires IsRun(ms, es) && k < |ms|
    ensures Inv(ms[k])
    ensures AtRest(ms[k]) ==>
      var t := ms[k].t;
      && !ms[k].stale && !t.ctl.reprogram
      && (t.ctl.running <==> exists i :: 0 <= i < |t.streams| && t.streams[i].running)
      && (t.ctl.running ==> 1 <= t.ctl.hwTick <= 8191)
      && forall i :: 0 <= i < |t.streams| && t.streams[i].running ==> t.ctl.hwTick <= Max(1, t.streams[i].frag / 5)
  {
    if k > 0 {
      AtRestTheTimerIsRight(ms, es, k - 1);
      StepKeepsInv(ms[k - 1], es[k - 1]);
      assert ms[k - 1 + 1] == Step(ms[k - 1], es[k - 1]);
    }
    if AtRest(ms[k]) {
      RestingIsRight(ms[k].t);
    }
  }

  lemma RestingIsRight(t: Timer)
    requires TimerOk(t) && InStep(t)
    ensures t.ctl.running <==> exists i :: 0 <= i < |t.streams| && t.streams[i].running
    ensures forall i :: 0 <= i < |t.streams| && t.streams[i].running ==> t.ctl.hwTick <= Max(1, t.streams[i].frag / 5)
  {
    if t.list != [] {
      assert t.list[0] in t.list;
      assert t.streams[t.list[0]].running;
    }
    forall i | 0 <= i < |t.streams| && t.streams[i].running
      ensures t.ctl.hwTick <= Max(1, t.streams[i].frag / 5)
    {
      var k :| 0 <= k < |t.list| && t.list[k] == i;
    }
  }

  /** Work left before the timer is at rest. */
  function Work(m: Machine): (w: nat) {
    m.pending * 4 + (if m.t.ctl.reprogram then 3 else 0)
    + match m.pc case Idle => 0 case Between(updates) => if updates > 0 then 2 else 1
  }

  predicate Internal(e: Event) { e.UpdateRuns? || e.Check? || e.Again? }

  /**
   * Left alone, the timer comes to rest: every internal step reduces the work, and one is possible while some
   * is left.
   */
  lemma ComesToRest(m: Machine, e: Event)
    requires Inv(m) && Enabled(m, e) && Internal(e)
    ensures Work(Step(m, e)) < Work(m)
  {
    hide StreamsOk, ListOk, InStep, AdvanceList, MinInterval, CountElapsed, CheckPeriod, TicksFor;
    match e
    case UpdateRuns(o) =>
    case Check =>
    case Again(o) =>
  }

  lemma RestIffNoInternalStep(m: Machine, o: Outside)
    requires Inv(m)
    ensures AtRest(m) <==> Work(m) == 0
    ensures Work(m) > 0 <==> Enabled(m, UpdateRuns(o)) || Enabled(m, Check) || Enabled(m, Again(o))
  {
  }

  // ---------------------------------------------------------------- what the callback delivers

  /** One undisturbed callback: a reprogramming and, if that found an update, the check of all streams. */
  function Callback(t: Timer, o: Outside): (t': Timer)
    requires TimerOk(t)
  {
    var t1 := Reprogram(t, true, o);
    if Updates(t, o) > 0 then Timer(CheckPeriod(t1.streams, |t1.streams|), t1.list, t1.wc, t1.ctl) else t1
  }

  /**
   * A stream that is prepared and then started is due as soon as its fragment of a period's length has run out
   * and the hardware has left the first period, whatever had been due before.
   */
  lemma PreparedStartsAfresh(t: Timer, i: nat, runtime: Runtime, clock: nat, o: Outside)
    requires TimerOk(t) && i < |t.streams| && i !in t.list && 0 < runtime.period < 0x1_0000_0000 && runtime.rate > 0
    requires clock <= o.clock < clock + 0x1_0000_0000
    ensures var t1 := StartSection(Prepare(t, i, runtime), i, clock);
            && TimerOk(Prepare(t, i, runtime)) && !Prepare(t, i, runtime).streams[i].running
            && TimerOk(t1) && t1.streams[i].running
            && (Reprogram(t1, true, o).streams[i].needUpdate
                <==> o.clock - clock >= runtime.period && Pointer(o, i) >= runtime.period)
  {
    var t1 := StartSection(Prepare(t, i, runtime), i, clock);
    PrependOk(i, t.list, |t.streams|);
    ListedAfterPrepend(i, t.list);
    assert t1.list[..|t1.list|] == t1.list;
    AdvancedOnce(t1.streams, t1.list, |t1.list|, Diff(t1, o), o, i);
    FirstPeriod(Pointer(o, i), runtime.period);
  }

  lemma FirstPeriod(pos: nat, period: nat)
    requires period > 0
    ensures pos / period != 0 / period <==> pos >= period
  {
    DivMod(pos, period);
    if pos < period {
      DivModUnique(pos, period, 0, pos);
    }
    DivModUnique(0, period, 0, 0);
  }

  /** A start forgets an update that was due before; one still due needs a new period end. */
  lemma StartForgets(t: Timer, i: nat, clock: nat, o: Outside)
    requires TimerOk(t) && i < |t.streams| && i !in t.list
    requires SamePeriod(t.streams[i].position, Pointer(o, i), t.streams[i].runtime.period)
    ensures TimerOk(StartSection(t, i, clock)) && !Reprogram(StartSection(t, i, clock), true, o).streams[i].needUpdate
  {
    var t1 := StartSection(t, i, clock);
    PrependOk(i, t.list, |t.streams|);
    ListedAfterPrepend(i, t.list);
    assert t1.list[..|t1.list|] == t1.list;
    AdvancedOnce(t1.streams, t1.list, |t1.list|, Diff(t1, o), o, i);
    SamePeriodIff(t.streams[i].position, Pointer(o, i), t.streams[i].runtime.period);
  }

  /** The check leaves streams that do not run, and everything but the flag, as they are. */
  lemma CheckOnlyClears(streams: seq<Stream>, i: nat)
    requires i < |streams|
    ensures var s, s' := streams[i], CheckPeriod(streams, |streams|)[i];
            && s'.runtime == s.runtime && s'.position == s.position && s'.frag == s.frag && s'.running == s.running
            && (s'.needUpdate <==> s.needUpdate && !s.running)
  {
  }

  /** The callback arms the timer by the fragments alone: an update that is due does not hurry it. */
  lemma CallbackIsNotHurried(t: Timer, o: Outside) returns (k: nat)
    requires TimerOk(t) && t.list != []
    ensures k < |t.list|
    ensures var t' := Callback(t, o);
            var frag, tick := t'.streams[t.list[k]].frag, t'.ctl.hwTick;
            5 * tick <= frag < 5 * tick + 5 || (frag < 5 && tick == 1) || (frag >= 5 * 8191 && tick == 8191)
  {
    k := IntervalIsTight(t, true, o);
    hide Reprogram, Updates;
  }

  /** An interrupt is taken exactly while no callback is in progress. */
  lemma InterruptsDoNotNest(m: Machine, o: Outside)
    requires Inv(m)
    ensures Enabled(m, Interrupt(o)) <==> !m.t.ctl.irqHandling
  {
    hide TimerOk, InStep;
  }

  predicate NothingDue(t: Timer) {
    forall i :: 0 <= i < |t.streams| && t.streams[i].running ==> !t.streams[i].needUpdate
  }

  lemma {:induction false} NoneElapsed(streams: seq<Stream>, list: seq<nat>, n: nat, diff: nat, o: Outside, k: nat)
    requires StreamsOk(streams) && ListOk(list, |streams|) && k < n <= |list|
    requires CountElapsed(streams, list, n, diff, o) == 0
    ensures !Elapsed(streams[list[k]], diff, Pointer(o, list[k]))
  {
    if k < n - 1 {
      NoneElapsed(streams, list, n - 1, diff, o, k);
    }
  }

  /** A pass that finds no update leaves every stream's flag as it was. */
  lemma QuietPassKeepsFlags(t: Timer, o: Outside, i: nat)
    requires TimerOk(t) && Updates(t, o) == 0 && i < |t.streams|
    ensures Callback(t, o).streams[i].needUpdate == t.streams[i].needUpdate
    ensures Callback(t, o).streams[i].running == t.streams[i].running
  {
    if t.list != [] {
      AdvancedOnce(t.streams, t.list, |t.list|, Diff(t, o), o, i);
      assert t.list[..|t.list|] == t.list;
      if i in t.list {
        var k :| 0 <= k < |t.list| && t.list[k] == i;
        NoneElapsed(t.streams, t.list, |t.list|, Diff(t, o), o, k);
      }
    }
  }

  /**
   * A callback clears every due update exactly if it finds a new one or none was due: an update found by an
   * update section is not signalled by the next interrupt unless some stream finishes a period in it.
   */
  lemma CallbackDeliversIff(t: Timer, o: Outside)
    requires TimerOk(t)
    ensures NothingDue(Callback(t, o)) <==> Updates(t, o) > 0 || NothingDue(t)
  {
    if Updates(t, o) == 0 {
      forall i | 0 <= i < |t.streams|
        ensures Callback(t, o).streams[i].needUpdate == t.streams[i].needUpdate
        ensures Callback(t, o).streams[i].running == t.streams[i].running
      {
        QuietPassKeepsFlags(t, o, i);
      }
      assert |Callback(t, o).streams| == |t.streams|;
    } else {
      forall i | 0 <= i < |t.streams|
        ensures !Callback(t, o).streams[i].running || !Callback(t, o).streams[i].needUpdate
      {
      }
    }
  }

  /**
   * Such a delay: stream 0 crosses its period in an update section, and the interrupt one tick later does not
   * signal it.
   */
  lemma DelayedUpdateExample()
    ensures var t := Timer([Stream(Runtime(100, 48000), 0, 1, true, false)], [0], 0,
            Control(false, false, true, 1, true));
            var t1 := Update(t, Outside(1, [100]));
            var t2 := Callback(t1, Outside(2, [101]));
            TimerOk(t) && t1.streams[0].needUpdate && t1.ctl.hwTick == 1 && TimerOk(t1) && t2.streams[0].needUpdate
  {
    var t := Timer([Stream(Runtime(100, 48000), 0, 1, true, false)], [0], 0, Control(false, false, true, 1, true));
    var t1 := Update(t, Outside(1, [100]));
    var s1 := Stream(Runtime(100, 48000), 100, 100, true, true);
    assert t1 == Timer([s1], [0], 1, Control(false, false, true, 1, true));
  }

  // ---------------------------------------------------------------- the wall clock

  /** What a fragment becomes `d` ticks after the last reading of the clock; `ticks` is its length when it restarts. */
  function Counted(frag: nat, d: nat, ticks: nat): (f: nat) { if frag > d then frag - d else ticks }

  /** A listed stream's fragment after a reprogramming. */
  lemma FragmentCounted(t: Timer, canUpdate: bool, o: Outside, j: nat)
    requires TimerOk(t) && j in t.list
    ensures Reprogram(t, canUpdate, o).streams[j].frag
         == Counted(t.streams[j].frag, Diff(t, o), TicksToPeriodEnd(t.streams[j], Pointer(o, j)))
  {
    hide MinInterval, TicksFor, Armed, Cleared;
    AdvancedOnce(t.streams, t.list, |t.list|, Diff(t, o), o, j);
    assert t.list[..|t.list|] == t.list;
  }

  lemma CountedAlikeIff(frag: nat, d: nat, less: nat, ticks: nat)
    requires less <= d
    ensures Counted(frag, less, ticks) == Counted(frag, d, ticks)
       <==> less == d || frag <= less || (frag <= d && frag - less == ticks)
  {
  }

  /**
   * A start reads the wall clock for all streams at once: the other streams' fragments are then counted from
   * the start on. The next reprogramming finds a fragment as without the start exactly if no time had passed
   * since the last reading, or the fragment runs out even after the start, or it runs out on the whole and the
   * rest it seems to have happens to be the length of the next one.
   */
  lemma StartDropsElapsedTime(t: Timer, i: nat, clock: nat, canUpdate: bool, o: Outside, j: nat)
    requires TimerOk(t) && i < |t.streams| && i !in t.list && j in t.list
    requires t.wc <= clock <= o.clock < t.wc + 0x1_0000_0000
    ensures TimerOk(StartSection(t, i, clock))
    ensures var s, since := t.streams[j], o.clock - t.wc;
            var dropped := clock - t.wc;
            Reprogram(StartSection(t, i, clock), canUpdate, o).streams[j].frag
            == Reprogram(t, canUpdate, o).streams[j].frag
            <==> dropped == 0 || s.frag <= since - dropped
                 || (s.frag <= since && s.frag - (since - dropped) == TicksToPeriodEnd(s, Pointer(o, j)))
  {
    hide Reprogram, TicksToPeriodEnd;
    PrependOk(i, t.list, |t.streams|);
    FragmentCounted(t, canUpdate, o, j);
    FragmentCounted(StartSection(t, i, clock), canUpdate, o, j);
    CountedAlikeIff(t.streams[j].frag, o.clock - t.wc, o.clock - clock,
                    TicksToPeriodEnd(t.streams[j], Pointer(o, j)));
  }

  /** One of two streams runs, with a hundred ticks to go. */
  function OneRunning(): (t: Timer) {
    Timer([Stream(Runtime(100, 48000), 0, 100, true, false), Stream(Runtime(100, 48000), 0, 100, false, false)],
          [0], 0, Control(false, false, true, 20, true))
  }

  lemma OneRunningOk()
    ensures TimerOk(OneRunning()) && TimerOk(StartSection(OneRunning(), 1, 10))
  {
    assert OneRunning().list[0] == 0;
    PrependOk(1, OneRunning().list, 2);
  }

  /** The other one starts ten ticks later: after fifty ticks the first is believed to have sixty to go. */
  lemma StartDropsExample()
    ensures var t, o := OneRunning(), Outside(50, [50, 0]);
            var later := StartSection(t, 1, 10);
            && TimerOk(t) && TimerOk(later)
            && Reprogram(t, true, o).streams[0].frag == 50 && Reprogram(later, true, o).streams[0].frag == 60
  {
    var t, o := OneRunning(), Outside(50, [50, 0]);
    OneRunningOk();
    OneRunningCounts();
    hide *;
    FragmentCounted(t, true, o, 0);
    FragmentCounted(StartSection(t, 1, 10), true, o, 0);
  }

  lemma OneRunningCounts()
    ensures var t, o := OneRunning(), Outside(50, [50, 0]);
            var later := StartSection(t, 1, 10);
            && |t.streams| == |later.streams| == 2 && 0 in t.list && 0 in later.list
            && (forall ticks: nat :: Counted(t.streams[0].frag, Diff(t, o), ticks) == 50)
            && (forall ticks: nat :: Counted(later.streams[0].frag, Diff(later, o), ticks) == 60)
  {
    assert OneRunning().list[0] == 0 && StartSection(OneRunning(), 1, 10).list[1] == 0;
  }

  // ---------------------------------------------------------------- the driver's object

  /** `struct ct_timer`, its streams, and the card registers behind it. */
  class Driver {
    var streams: seq<Stream>
    var list: seq<nat>
    var wc: nat
    var ctl: Control

    ghost function Abs(): (t: Timer)
      reads this
    {
      Timer(streams, list, wc, ctl)
    }

    method IrqRearm(ticks: nat)
      modifies this`ctl
      ensures ctl == Armed(old(ctl), Min(ticks, 8191))
    {
      var t := ticks;
      if t > 8191 {
        t := 8191;
      }
      var hwIrq := ctl.hwIrq;
      if !ctl.running {
        hwIrq := true;
      }
      ctl := Control(ctl.irqHandling, ctl.reprogram, true, t, hwIrq);
    }

    method IrqStop()
      modifies this`ctl
      ensures ctl == Stopped(old(ctl))
    {
      if ctl.running {
        ctl := Control(ctl.irqHandling, ctl.reprogram, false, 0, false);
      }
    }

    /** Brings one stream up to date; returns whether it finished a period. */
    method AdvanceOne(i: nat, diff: nat, o: Outside) returns (elapsed: bool)
      requires i < |streams| && StreamOk(streams[i])
      modifies this`streams
      ensures streams == old(streams)[i := Advance(old(streams)[i], diff, Pointer(o, i))]
      ensures elapsed == Elapsed(old(streams)[i], diff, Pointer(o, i))
    {
      var s := streams[i];
      elapsed := false;
      var position, frag, needUpdate := s.position, s.frag, s.needUpdate;
      if s.frag > diff {
        frag := s.frag - diff;
      } else {
        var pos := Pointer(o, i);
        var period, rate := s.runtime.period, s.runtime.rate;
        if pos / period != s.position / period {
          needUpdate, position, elapsed := true, pos, true;
        }
        pos := period - pos % period;
        frag := U32((pos * 48000 + rate - 1) / rate);
      }
      streams := streams[i := Stream(s.runtime, position, frag, s.running, needUpdate)];
    }

    /** Brings the running streams up to date; returns how many finished a period, and the shortest interval wanted. */
    method Scan(diff: nat, canUpdate: bool, o: Outside) returns (updates: nat, interval: nat)
      requires StreamsOk(streams) && ListOk(list, |streams|)
      modifies this`streams
      ensures streams == AdvanceList(old(streams), list, |list|, diff, o)
      ensures updates == CountElapsed(old(streams), list, |list|, diff, o)
      ensures interval == MinInterval(streams, list, |list|, canUpdate)
    {
      hide Advance, Elapsed;
      updates, interval := 0, 0xFFFF_FFFF;
      var k := 0;
      ghost var was := old(streams);
      while k < |list|
        modifies this`streams
        invariant k <= |list| && streams == AdvanceList(was, list, k, diff, o)
        invariant updates == CountElapsed(was, list, k, diff, o)
        invariant interval == MinInterval(AdvanceList(was, list, |list|, diff, o), list, k, canUpdate)
      {
        var i := list[k];
        ListedLater(was, list, k, diff, o);
        var elapsed := AdvanceOne(i, diff, o);
        if elapsed {
          updates := updates + 1;
        }
        if streams[i].needUpdate && !canUpdate {
          interval := 0;
        }
        if streams[i].frag < interval {
          interval := streams[i].frag;
        }
        k := k + 1;
      }
    }

    /** Brings the running streams up to date and arms the timer; returns how many finished a period. */
    method ReprogramNow(canUpdate: bool, o: Outside) returns (updates: nat)
      requires TimerOk(Abs())
      modifies this
      ensures Abs() == Reprogram(old(Abs()), canUpdate, o) && updates == Updates(old(Abs()), o)
    {
      updates := 0;
      if list == [] {
        IrqStop();
        ctl := Cleared(ctl);
        return;
      }
      var diff := U32(o.clock - wc);
      wc := o.clock;
      var interval;
      updates, interval := Scan(diff, canUpdate, o);
      if interval < 1 {
        interval := 1;
      }
      interval := interval / 5;
      if interval <= 0 {
        interval := 1;
      }
      IrqRearm(interval);
      ctl := Cleared(ctl);
    }

    /** Signals the streams whose period elapsed, newest instance first. */
    method CheckPeriods() returns (signalled: seq<nat>)
      modifies this`streams
      ensures streams == CheckPeriod(old(streams), |old(streams)|)
      ensures forall i: nat :: i in signalled <==>
              i < |old(streams)| && old(streams)[i].running && old(streams)[i].needUpdate
    {
      signalled := [];
      var k := |streams|;
      ghost var was := streams;
      while k > 0
        modifies this`streams
        invariant k <= |streams| == |was|
        invariant forall i :: 0 <= i < |was| ==> streams[i] == if i < k then was[i] else Delivered(was[i])
        invariant forall i: nat :: i in signalled <==> k <= i < |was| && was[i].running && was[i].needUpdate
      {
        k := k - 1;
        var s := streams[k];
        if s.running && s.needUpdate {
          streams := streams[k := Stream(s.runtime, s.position, s.frag, s.running, false)];
          signalled := signalled + [k];
        }
      }
    }

    method StartLocked(i: nat, clock: nat)
      requires i < |streams| && i !in list
      modifies this
      ensures Abs() == StartSection(old(Abs()), i, clock)
    {
      wc := clock;
      var s := streams[i];
      streams := streams[i := Stream(s.runtime, s.position, s.frag, true, false)];
      list := [i] + list;
    }

    method StopLocked(i: nat)
      requires i < |streams|
      modifies this
      ensures Abs() == StopSection(old(Abs()), i)
    {
      list := Without(list, i);
      var s := streams[i];
      streams := streams[i := Stream(s.runtime, s.position, s.frag, false, s.needUpdate)];
    }

    method UpdateLocked(o: Outside)
      requires TimerOk(Abs())
      modifies this
      ensures Abs() == Update(old(Abs()), o)
    {
      if ctl.irqHandling {
        ctl := Handling(ctl, true, true);
        return;
      }
      IrqStop();
      var _ := ReprogramNow(false, o);
    }

    /** The callback with nothing in between its sections: it makes one pass and leaves. */
    method Interrupted(o: Outside)
      requires TimerOk(Abs())
      modifies this
      ensures Abs() == Leave(Callback(WithControl(old(Abs()), Handling(old(ctl), true, old(ctl).reprogram)), o))
    {
      ctl := Handling(ctl, true, ctl.reprogram);
      ghost var was := Abs();
      var again := true;
      while again
        invariant if again then Abs() == was else Abs() == Callback(was, o) && !ctl.reprogram
        decreases again
      {
        var updates := ReprogramNow(true, o);
        if updates > 0 {
          var _ := CheckPeriods();
        }
        again := ctl.reprogram;
      }
      ctl := Handling(ctl, false, ctl.reprogram);
    }
  }

  /** When stream `list[k]`'s turn comes it is still untouched, and later turns do not touch it again. */
  lemma ListedLater(streams: seq<Stream>, list: seq<nat>, k: nat, diff: nat, o: Outside)
    requires StreamsOk(streams) && ListOk(list, |streams|) && k < |list|
    ensures AdvanceList(streams, list, k, diff, o)[list[k]] == streams[list[k]]
    ensures AdvanceList(streams, list, |list|, diff, o)[list[k]] == Advance(streams[list[k]], diff, Pointer(o, list[k]))
  {
    AdvancedOnce(streams, list, k, diff, o, list[k]);
    AdvancedOnce(streams, list, |list|, diff, o, list[k]);
    assert list[..|list|] == list;
  }
}
