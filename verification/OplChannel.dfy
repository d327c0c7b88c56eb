/**
 * A block of samples of one OPL channel. Two or four operators modulate each other or are added, and a
 * shortcut skips the whole block when the operators that are heard are silent.
 */
module OplChannel {
  import opened CInt
  import opened Arith
  import opened OplOperator
  import OplLfo

  /** An operator with what it needs to sound: its level with tremolo, its phase and the phase increment. */
  datatype Voice = Voice(op: Oper, current: nat, waveIndex: nat, waveCurrent: nat)

  /** A channel: its operators, those of the next channel in four-operator modes, and the delayed samples. */
  datatype Chan = Chan(v0: Voice, v1: Voice, v2: Voice, v3: Voice, old0: int, old1: int)

  /** The modes, by the number of outputs and by how the operators are combined. */
  datatype Mode = Mono(two: TwoOp) | Stereo(two: TwoOp) | Four(four: FourOp)
  datatype TwoOp = AM | FM
  datatype FourOp = FMFM | AMFM | FMAM | AMAM

  /** The waveforms: a sample for an operator, a phase and an attenuation. */
  type Wave = (nat, int, int) -> int

  /** What the chip supplies for a block: the tremolo attenuation and each operator's phase increment. */
  datatype Lfo = Lfo(tremolo: nat, add0: nat, add1: nat, add2: nat, add3: nat)

  // ---------------------------------------------------------------- one operator

  function Prepare(v: Voice, tremolo: nat, add: nat): (v': Voice) {
    Voice(v.op, v.op.totalLevel + if TremoloBit(v.op.regs.r20) then tremolo else 0, v.waveIndex, add)
  }

  function Next(v: Voice): (v': Voice) {
    Voice(Sample(v.op), v.current, U32(v.waveIndex + v.waveCurrent), v.waveCurrent)
  }

  /** The sample of operator `slot`, zero if it is attenuated below what can be heard. */
  function Out(w: Wave, slot: nat, v: Voice, modulation: int): (s: int) {
    var vol := v.current + Sample(v.op).env.volume;
    if vol >= LIMIT then 0 else w(slot, Next(v).waveIndex / 0x40_0000 + modulation, vol)
  }

  predicate HushedVoice(v: Voice) { OperOk(v.op) && Hushed(v.op) && v.current >= v.op.totalLevel }

  lemma HushedVoiceIsSilent(w: Wave, slot: nat, v: Voice, modulation: int)
    requires HushedVoice(v)
    ensures Out(w, slot, v, modulation) == 0 && HushedVoice(Next(v))
  {
    ForwardKeepsHush(v.op);
    ForwardKeepsOk(v.op.env, v.op.rates, SustainBit(v.op.regs.r20));
  }

  // ---------------------------------------------------------------- one sample of a channel

  /** The feedback into operator 0: the two delayed samples, shifted right as an unsigned number. */
  function Feedback(c: Chan, feedback: nat): (m: int) { U32(c.old0 + c.old1) / Pow2(feedback) }

  function Pow2(n: nat): (p: nat)
    ensures p > 0
  {
    if n == 0 then 1 else 2 * Pow2(n - 1)
  }

  function Mixed2(mode: TwoOp, w: Wave, c: Chan): (s: int) {
    match mode
    case AM => c.old1 + Out(w, 1, c.v1, 0)
    case FM => Out(w, 1, c.v1, c.old1)
  }

  function Mixed4(mode: FourOp, w: Wave, c: Chan): (s: int) {
    match mode
    case FMFM => Out(w, 3, c.v3, Out(w, 2, c.v2, Out(w, 1, c.v1, c.old1)))
    case AMFM => c.old1 + Out(w, 3, c.v3, Out(w, 2, c.v2, Out(w, 1, c.v1, 0)))
    case FMAM => Out(w, 1, c.v1, c.old1) + Out(w, 3, c.v3, Out(w, 2, c.v2, 0))
    case AMAM => c.old1 + Out(w, 2, c.v2, Out(w, 1, c.v1, 0)) + Out(w, 3, c.v3, 0)
  }

  /** The channel's next sample. */
  function Mixed(mode: Mode, w: Wave, c: Chan): (s: int) {
    if mode.Four? then Mixed4(mode.four, w, c) else Mixed2(mode.two, w, c)
  }

  /** The channel after that sample. */
  function Step(mode: Mode, w: Wave, feedback: nat, c: Chan): (c': Chan) {
    Chan(Next(c.v0), Next(c.v1), if mode.Four? then Next(c.v2) else c.v2, if mode.Four? then Next(c.v3) else c.v3,
         c.old1, Out(w, 0, c.v0, Feedback(c, feedback)))
  }

  function StateAt(mode: Mode, w: Wave, feedback: nat, c: Chan, i: nat): (c': Chan) {
    if i == 0 then c else Step(mode, w, feedback, StateAt(mode, w, feedback, c, i - 1))
  }

  /** The channel with this block's tremolo and increments. */
  function Prepared(mode: Mode, c: Chan, l: Lfo): (c': Chan) {
    Chan(Prepare(c.v0, l.tremolo, l.add0), Prepare(c.v1, l.tremolo, l.add1),
         if mode.Four? then Prepare(c.v2, l.tremolo, l.add2) else c.v2,
         if mode.Four? then Prepare(c.v3, l.tremolo, l.add3) else c.v3, c.old0, c.old1)
  }

  // ---------------------------------------------------------------- what a block sounds like

  /** The i-th sample of a voice: no sound below what can be heard, else the waveform at the phase reached by then. */
  function ToneAt(w: Wave, slot: nat, op: Oper, start: nat, add: nat, tremolo: nat, i: nat, modulation: int): (s: int) {
    var level := op.totalLevel + (if op.regs.r20 % 0x100 >= 0x80 then tremolo else 0) + After(op, i + 1).env.volume;
    if level >= 384 then 0 else w(slot, (start + (i + 1) * add) % 0x1_0000_0000 / 0x40_0000 + modulation, level)
  }

  /** Operator 0's samples, which modulate it: the last two together, shifted right; two are left from before. */
  function Tone0(w: Wave, feedback: nat, c: Chan, l: Lfo, i: int): (s: int)
    requires i >= -2
    decreases i + 2
  {
    if i == -2 then c.old0
    else if i == -1 then c.old1
    else
      var both := (Tone0(w, feedback, c, l, i - 2) + Tone0(w, feedback, c, l, i - 1)) % 0x1_0000_0000;
      ToneAt(w, 0, c.v0.op, c.v0.waveIndex, l.add0, l.tremolo, i, both / Pow2(feedback))
  }

  function Tone1(w: Wave, c: Chan, l: Lfo, i: nat, modulation: int): (s: int) {
    ToneAt(w, 1, c.v1.op, c.v1.waveIndex, l.add1, l.tremolo, i, modulation)
  }

  function Tone2(w: Wave, c: Chan, l: Lfo, i: nat, modulation: int): (s: int) {
    ToneAt(w, 2, c.v2.op, c.v2.waveIndex, l.add2, l.tremolo, i, modulation)
  }

  function Tone3(w: Wave, c: Chan, l: Lfo, i: nat, modulation: int): (s: int) {
    ToneAt(w, 3, c.v3.op, c.v3.waveIndex, l.add3, l.tremolo, i, modulation)
  }

  /** A voice after `i` samples of a block: its operator older, its phase `i` increments on. */
  predicate VoiceOn(v: Voice, op: Oper, start: nat, add: nat, tremolo: nat, i: nat) {
    && v.op == After(op, i) && v.waveCurrent == add
    && v.current == op.totalLevel + (if op.regs.r20 % 0x100 >= 0x80 then tremolo else 0)
    && (i > 0 ==> v.waveIndex == (start + i * add) % 0x1_0000_0000) && (i == 0 ==> v.waveIndex == start)
  }

  lemma TremoloIsTopBit(r20: nat)
    ensures TremoloBit(r20) <==> r20 % 0x100 >= 0x80
  {
    var q, b := r20 / 0x100, r20 % 0x100;
    DivModUnique(r20, 0x80, 2 * q + b / 0x80, b % 0x80);
  }

  lemma PreparedVoiceOn(v: Voice, tremolo: nat, add: nat)
    ensures VoiceOn(Prepare(v, tremolo, add), v.op, v.waveIndex, add, tremolo, 0)
  {
    TremoloIsTopBit(v.op.regs.r20);
    hide TremoloBit;
  }

  /** The next sample of such a voice, and the voice after it. */
  lemma VoiceNext(w: Wave, slot: nat, v: Voice, op: Oper, start: nat, add: nat, tremolo: nat, i: nat, modulation: int)
    requires VoiceOn(v, op, start, add, tremolo, i)
    ensures Out(w, slot, v, modulation) == ToneAt(w, slot, op, start, add, tremolo, i, modulation)
    ensures VoiceOn(Next(v), op, start, add, tremolo, i + 1)
  {
    AfterNext(op, i);
    PhaseNext(start, add, i, v.waveIndex);
    hide Sample, After;
  }

  lemma PhaseNext(start: nat, add: nat, i: nat, index: nat)
    requires index == start + i * add || index == (start + i * add) % 0x1_0000_0000
    ensures U32(index + add) == (start + (i + 1) * add) % 0x1_0000_0000
  {
    var x, m := start + i * add, 0x1_0000_0000;
    assert start + (i + 1) * add == x + add;
    DivMod(x, m);
    DivMod(x % m + add, m);
    DivModUnique(x + add, m, x / m + (x % m + add) / m, (x % m + add) % m);
  }

  /** A channel after `i` samples of a block. */
  predicate ChanOn(mode: Mode, w: Wave, feedback: nat, c: Chan, l: Lfo, s: Chan, i: nat) {
    && VoiceOn(s.v0, c.v0.op, c.v0.waveIndex, l.add0, l.tremolo, i)
    && VoiceOn(s.v1, c.v1.op, c.v1.waveIndex, l.add1, l.tremolo, i)
    && (if mode.Four? then
          && VoiceOn(s.v2, c.v2.op, c.v2.waveIndex, l.add2, l.tremolo, i)
          && VoiceOn(s.v3, c.v3.op, c.v3.waveIndex, l.add3, l.tremolo, i)
        else s.v2 == c.v2 && s.v3 == c.v3)
    && s.old0 == Tone0(w, feedback, c, l, i - 2) && s.old1 == Tone0(w, feedback, c, l, i - 1)
  }

  /** Every operator in use goes through its phases and its envelope, and operator 0 feeds back into itself. */
  lemma {:induction false} BlockGoesOn(mode: Mode, w: Wave, feedback: nat, c: Chan, l: Lfo, i: nat)
    ensures ChanOn(mode, w, feedback, c, l, StateAt(mode, w, feedback, Prepared(mode, c, l), i), i)
  {
    hide VoiceOn, ToneAt, Out, Next, Prepare;
    if i == 0 {
      PreparedVoiceOn(c.v0, l.tremolo, l.add0);
      PreparedVoiceOn(c.v1, l.tremolo, l.add1);
      PreparedVoiceOn(c.v2, l.tremolo, l.add2);
      PreparedVoiceOn(c.v3, l.tremolo, l.add3);
    } else {
      BlockGoesOn(mode, w, feedback, c, l, i - 1);
      var s := StateAt(mode, w, feedback, Prepared(mode, c, l), i - 1);
      VoiceNext(w, 0, s.v0, c.v0.op, c.v0.waveIndex, l.add0, l.tremolo, i - 1, Feedback(s, feedback));
      VoiceNext(w, 1, s.v1, c.v1.op, c.v1.waveIndex, l.add1, l.tremolo, i - 1, 0);
      if mode.Four? {
        VoiceNext(w, 2, s.v2, c.v2.op, c.v2.waveIndex, l.add2, l.tremolo, i - 1, 0);
        VoiceNext(w, 3, s.v3, c.v3.op, c.v3.waveIndex, l.add3, l.tremolo, i - 1, 0);
      }
    }
  }

  /** The i-th sample of a block, for the modes of two operators: their tones added, or the first into the second. */
  lemma BlockSample2(mode: Mode, w: Wave, feedback: nat, c: Chan, l: Lfo, i: nat)
    requires !mode.Four?
    ensures var s := Mixed(mode, w, StateAt(mode, w, feedback, Prepared(mode, c, l), i));
            var t := Tone0(w, feedback, c, l, i - 1);
            && (mode.two == AM ==> s == t + Tone1(w, c, l, i, 0))
            && (mode.two == FM ==> s == Tone1(w, c, l, i, t))
  {
    BlockGoesOn(mode, w, feedback, c, l, i);
    hide VoiceOn, ToneAt, Out, StateAt, Prepared;
    var s := StateAt(mode, w, feedback, Prepared(mode, c, l), i);
    VoiceNext(w, 1, s.v1, c.v1.op, c.v1.waveIndex, l.add1, l.tremolo, i, 0);
    VoiceNext(w, 1, s.v1, c.v1.op, c.v1.waveIndex, l.add1, l.tremolo, i, s.old1);
  }

  /** The same for the modes of four: a chain, one and a chain of three, two chains of two, or one, a chain, and one. */
  lemma BlockSample4(four: FourOp, w: Wave, feedback: nat, c: Chan, l: Lfo, i: nat)
    ensures var s := Mixed4(four, w, StateAt(Four(four), w, feedback, Prepared(Four(four), c, l), i));
            var t := Tone0(w, feedback, c, l, i - 1);
            && (four == FMFM ==> s == Tone3(w, c, l, i, Tone2(w, c, l, i, Tone1(w, c, l, i, t))))
            && (four == AMFM ==> s == t + Tone3(w, c, l, i, Tone2(w, c, l, i, Tone1(w, c, l, i, 0))))
            && (four == FMAM ==> s == Tone1(w, c, l, i, t) + Tone3(w, c, l, i, Tone2(w, c, l, i, 0)))
            && (four == AMAM ==> s == t + Tone2(w, c, l, i, Tone1(w, c, l, i, 0)) + Tone3(w, c, l, i, 0))
  {
    BlockGoesOn(Four(four), w, feedback, c, l, i);
    hide VoiceOn, ToneAt, Out, StateAt, Prepared;
    var s := StateAt(Four(four), w, feedback, Prepared(Four(four), c, l), i);
    forall m: int ensures Out(w, 1, s.v1, m) == Tone1(w, c, l, i, m) {
      VoiceNext(w, 1, s.v1, c.v1.op, c.v1.waveIndex, l.add1, l.tremolo, i, m);
    }
    forall m: int ensures Out(w, 2, s.v2, m) == Tone2(w, c, l, i, m) {
      VoiceNext(w, 2, s.v2, c.v2.op, c.v2.waveIndex, l.add2, l.tremolo, i, m);
    }
    forall m: int ensures Out(w, 3, s.v3, m) == Tone3(w, c, l, i, m) {
      VoiceNext(w, 3, s.v3, c.v3.op, c.v3.waveIndex, l.add3, l.tremolo, i, m);
    }
  }

  /** The feedback shift. */
  lemma Pow2Is(n: nat)
    ensures Pow2(0) == 1 && Pow2(n + 1) == 2 * Pow2(n) && Pow2(1) == 2
  {
  }

  // ---------------------------------------------------------------- the shortcut

  /** The modes that add operator 0 to the output, and with it a sample delayed from the block before. */
  predicate Additive(mode: Mode) {
    match mode
    case Mono(two) => two.AM?
    case Stereo(two) => two.AM?
    case Four(four) => four.AMFM? || four.AMAM?
  }

  /** The operators that are heard. */
  predicate Heard(mode: Mode, slot: nat) {
    match mode
    case Four(FMFM) => slot == 3
    case Four(AMFM) => slot == 0 || slot == 3
    case Four(FMAM) => slot == 1 || slot == 3
    case Four(AMAM) => slot == 0 || slot == 2 || slot == 3
    case _ => slot == 1 || (slot == 0 && mode.two.AM?)
  }

  /** The test of the shortcut: every operator that is heard is silent. */
  predicate Skips(mode: Mode, c: Chan) {
    && (Heard(mode, 0) ==> Silent(c.v0.op)) && (Heard(mode, 1) ==> Silent(c.v1.op))
    && (Heard(mode, 2) ==> Silent(c.v2.op)) && (Heard(mode, 3) ==> Silent(c.v3.op))
  }

  /** Mode by mode: the operators added to the output are tested, and those that only modulate are not. */
  lemma SkipTests(c: Chan)
    ensures Skips(Mono(AM), c) == Skips(Stereo(AM), c) == (Silent(c.v0.op) && Silent(c.v1.op))
    ensures Skips(Mono(FM), c) == Skips(Stereo(FM), c) == Silent(c.v1.op)
    ensures Skips(Four(FMFM), c) == Silent(c.v3.op)
    ensures Skips(Four(AMFM), c) == (Silent(c.v0.op) && Silent(c.v3.op))
    ensures Skips(Four(FMAM), c) == (Silent(c.v1.op) && Silent(c.v3.op))
    ensures Skips(Four(AMAM), c) == (Silent(c.v0.op) && Silent(c.v2.op) && Silent(c.v3.op))
  {
    hide Silent;
  }

  predicate Quiet(mode: Mode, c: Chan) {
    && (Heard(mode, 0) ==> HushedVoice(c.v0)) && (Heard(mode, 1) ==> HushedVoice(c.v1))
    && (Heard(mode, 2) ==> HushedVoice(c.v2)) && (Heard(mode, 3) ==> HushedVoice(c.v3))
  }

  predicate ChanOk(c: Chan) { OperOk(c.v0.op) && OperOk(c.v1.op) && OperOk(c.v2.op) && OperOk(c.v3.op) }

  lemma SkippedIsQuiet(mode: Mode, c: Chan, l: Lfo)
    requires ChanOk(c) && Skips(mode, c)
    ensures Quiet(mode, Prepared(mode, c, l))
  {
    hide OperOk, Silent, HushedVoice, Prepare;
    if Silent(c.v0.op) { PreparedIsHushed(c.v0, l.tremolo, l.add0); }
    if Silent(c.v1.op) { PreparedIsHushed(c.v1, l.tremolo, l.add1); }
    if Silent(c.v2.op) { PreparedIsHushed(c.v2, l.tremolo, l.add2); }
    if Silent(c.v3.op) { PreparedIsHushed(c.v3, l.tremolo, l.add3); }
  }

  lemma PreparedIsHushed(v: Voice, tremolo: nat, add: nat)
    requires OperOk(v.op) && Silent(v.op)
    ensures HushedVoice(Prepare(v, tremolo, add))
  {
  }

  lemma QuietMixes(mode: Mode, w: Wave, c: Chan)
    requires Quiet(mode, c)
    ensures Mixed(mode, w, c) == if Additive(mode) then c.old1 else 0
  {
    hide HushedVoice, Out, Mixed2, Mixed4, Heard;
    if mode.Four? {
      QuietMixes4(mode.four, w, c);
    } else {
      QuietMixes2(mode, w, c);
    }
  }

  lemma QuietMixes2(mode: Mode, w: Wave, c: Chan)
    requires !mode.Four? && Quiet(mode, c)
    ensures Mixed(mode, w, c) == Mixed2(mode.two, w, c) == if mode.two.AM? then c.old1 else 0
  {
    hide HushedVoice, Out;
    HushedVoiceIsSilent(w, 1, c.v1, if mode.two.AM? then 0 else c.old1);
  }

  lemma QuietMixes4(mode: FourOp, w: Wave, c: Chan)
    requires Quiet(Four(mode), c)
    ensures Mixed4(mode, w, c) == if mode.AMFM? || mode.AMAM? then c.old1 else 0
  {
    hide HushedVoice, Out;
    match mode {
      case FMFM => HushedVoiceIsSilent(w, 3, c.v3, Out(w, 2, c.v2, Out(w, 1, c.v1, c.old1)));
      case AMFM => HushedVoiceIsSilent(w, 3, c.v3, Out(w, 2, c.v2, Out(w, 1, c.v1, 0)));
      case FMAM =>
        HushedVoiceIsSilent(w, 1, c.v1, c.old1);
        HushedVoiceIsSilent(w, 3, c.v3, Out(w, 2, c.v2, 0));
      case AMAM =>
        HushedVoiceIsSilent(w, 2, c.v2, Out(w, 1, c.v1, 0));
        HushedVoiceIsSilent(w, 3, c.v3, 0);
    }
  }

  lemma QuietSteps(mode: Mode, w: Wave, feedback: nat, c: Chan)
    requires Quiet(mode, c)
    ensures Quiet(mode, Step(mode, w, feedback, c))
    ensures Additive(mode) ==> Step(mode, w, feedback, c).old1 == 0
  {
    hide HushedVoice, Out, Next, Feedback;
    if Heard(mode, 0) { HushedVoiceIsSilent(w, 0, c.v0, Feedback(c, feedback)); }
    if Heard(mode, 1) { HushedVoiceIsSilent(w, 1, c.v1, 0); }
    if Heard(mode, 2) { HushedVoiceIsSilent(w, 2, c.v2, 0); }
    if Heard(mode, 3) { HushedVoiceIsSilent(w, 3, c.v3, 0); }
  }

  /** The i-th sample of a block. */
  function SampleAt(mode: Mode, w: Wave, feedback: nat, c: Chan, i: nat): (s: int) {
    Mixed(mode, w, StateAt(mode, w, feedback, c, i))
  }

  lemma {:induction false} QuietBlock(mode: Mode, w: Wave, feedback: nat, p: Chan, i: nat)
    requires Quiet(mode, p)
    ensures Quiet(mode, StateAt(mode, w, feedback, p, i))
    ensures SampleAt(mode, w, feedback, p, i) == if Additive(mode) && i == 0 then p.old1 else 0
    ensures Additive(mode) && i > 0 ==> StateAt(mode, w, feedback, p, i).old1 == 0
  {
    hide Quiet, Step, Mixed;
    if i > 0 {
      QuietBlock(mode, w, feedback, p, i - 1);
      QuietSteps(mode, w, feedback, StateAt(mode, w, feedback, p, i - 1));
    }
    QuietMixes(mode, w, StateAt(mode, w, feedback, p, i));
  }

  /**
   * What a skipped block would have sounded like: nothing, but for the delayed sample of operator 0 that
   * the additive modes play first.
   */
  lemma SkippedBlock(mode: Mode, w: Wave, feedback: nat, c: Chan, l: Lfo, i: nat)
    requires ChanOk(c) && Skips(mode, c)
    ensures Quiet(mode, StateAt(mode, w, feedback, Prepared(mode, c, l), i))
    ensures SampleAt(mode, w, feedback, Prepared(mode, c, l), i) == if Additive(mode) && i == 0 then c.old1 else 0
    ensures Additive(mode) && i > 0 ==> StateAt(mode, w, feedback, Prepared(mode, c, l), i).old1 == 0
  {
    SkippedIsQuiet(mode, c, l);
    QuietBlock(mode, w, feedback, Prepared(mode, c, l), i);
  }

  // ---------------------------------------------------------------- the output

  /** Which outputs a channel is mixed into. */
  datatype Pan = Pan(left: bool, right: bool)

  /** Output cell `k` of a block of `n` samples: one cell a sample, or two of them panned. */
  function CellAt(mode: Mode, w: Wave, feedback: nat, c: Chan, pan: Pan, k: nat): (s: int) {
    if mode.Mono? then SampleAt(mode, w, feedback, c, k)
    else if (if k % 2 == 0 then pan.left else pan.right) then SampleAt(mode, w, feedback, c, k / 2) else 0
  }

  function Width(mode: Mode): (n: nat) { if mode.Mono? then 1 else 2 }

  /** The output after `k` cells of the block have been added to it. */
  predicate Added(mode: Mode, w: Wave, feedback: nat, c: Chan, pan: Pan, was: seq<int>, output: seq<int>, cells: nat) {
    && |output| == |was|
    && forall k :: 0 <= k < |output| ==>
         output[k] == if k < cells then S16(was[k] + CellAt(mode, w, feedback, c, pan, k)) else was[k]
  }

  /** Sample `i` goes into one cell, or into those of the two cells it is panned to. */
  lemma PannedCells(mode: Mode, w: Wave, feedback: nat, c: Chan, pan: Pan, was: seq<int>, output: seq<int>, n: nat,
      i: nat)
    requires Added(mode, w, feedback, c, pan, was, output, n * Width(mode)) && i < n && |was| >= n * Width(mode)
    ensures var s := SampleAt(mode, w, feedback, c, i);
            && (mode.Mono? ==> output[i] == S16(was[i] + s))
            && (!mode.Mono? ==>
                 && output[2 * i] == S16(was[2 * i] + if pan.left then s else 0)
                 && output[2 * i + 1] == S16(was[2 * i + 1] + if pan.right then s else 0))
  {
    hide SampleAt;
  }

  predicate IsPcm(output: seq<int>) { forall k :: 0 <= k < |output| ==> -0x8000 <= output[k] < 0x8000 }

  lemma AddingIsIdentityIff(x: int, s: int)
    requires -0x8000 <= x < 0x8000
    ensures S16(x + s) == x <==> s % 0x1_0000 == 0
  {
  }

  /**
   * Skipping a block leaves the output as running it would, exactly if the mode is not additive, or the
   * block is empty, or the channel is panned to neither side, or the delayed sample vanishes in 16 bits.
   */
  lemma SkipIsExactIff(mode: Mode, w: Wave, feedback: nat, c: Chan, l: Lfo, pan: Pan, was: seq<int>, n: nat)
    requires ChanOk(c) && Skips(mode, c) && IsPcm(was) && |was| >= n * Width(mode)
    ensures Added(mode, w, feedback, Prepared(mode, c, l), pan, was, was, n * Width(mode)) <==>
      !Additive(mode) || n == 0 || (!mode.Mono? && !pan.left && !pan.right) || c.old1 % 0x1_0000 == 0
  {
    hide SampleAt, ChanOk, Skips, Additive;
    var p := Prepared(mode, c, l);
    var dropped := Additive(mode) && c.old1 % 0x1_0000 != 0;
    forall k | 0 <= k < n * Width(mode)
      ensures S16(was[k] + CellAt(mode, w, feedback, p, pan, k)) == was[k]
         <==> !(dropped && k < Width(mode) && (mode.Mono? || if k == 0 then pan.left else pan.right))
    {
      CellIsKeptIff(mode, w, feedback, c, l, pan, was[k], k);
    }
    if n > 0 {
      assert n * Width(mode) >= Width(mode);
      if dropped {
        assert mode.Mono? || pan.left ==> S16(was[0] + CellAt(mode, w, feedback, p, pan, 0)) != was[0];
        assert !mode.Mono? && pan.right ==> S16(was[1] + CellAt(mode, w, feedback, p, pan, 1)) != was[1];
      }
    }
  }

  lemma CellIsKeptIff(mode: Mode, w: Wave, feedback: nat, c: Chan, l: Lfo, pan: Pan, x: int, k: nat)
    requires ChanOk(c) && Skips(mode, c) && -0x8000 <= x < 0x8000
    ensures S16(x + CellAt(mode, w, feedback, Prepared(mode, c, l), pan, k)) == x <==>
      !(Additive(mode) && c.old1 % 0x1_0000 != 0 && k < Width(mode)
          && (mode.Mono? || if k == 0 then pan.left else pan.right))
  {
    hide SampleAt, Prepared, ChanOk, Skips, S16, Additive;
    var p := Prepared(mode, c, l);
    SkippedBlock(mode, w, feedback, c, l, if mode.Mono? then k else k / 2);
    AddingIsIdentityIff(x, CellAt(mode, w, feedback, p, pan, k));
  }

  // ---------------------------------------------------------------- blocks as single samples

  /** A channel that is never skipped, prepared anew for every sample, as a part of the chip. */
  function SingleStepped(mode: Mode, w: Wave, feedback: nat, pan: Pan, supply: OplLfo.Value -> Lfo)
    : (m: OplLfo.Machine<Chan>)
  {
    OplLfo.Machine((c: Chan, v: OplLfo.Value) => Step(mode, w, feedback, Prepared(mode, c, supply(v))),
                   (c: Chan, v: OplLfo.Value, lane: nat) =>
                     if mode.Mono? || (if lane == 0 then pan.left else pan.right)
                     then Mixed(mode, w, Prepared(mode, c, supply(v))) else 0)
  }

  lemma PrepareIsSteady(v: Voice, tremolo: nat, add: nat)
    ensures Prepare(Next(Prepare(v, tremolo, add)), tremolo, add) == Next(Prepare(v, tremolo, add))
  {
  }

  /** Preparing a channel again for the values it was prepared for changes nothing. */
  lemma {:induction false} PreparedIsSteady(mode: Mode, w: Wave, feedback: nat, c: Chan, l: Lfo, i: nat)
    ensures Prepared(mode, StateAt(mode, w, feedback, Prepared(mode, c, l), i), l)
            == StateAt(mode, w, feedback, Prepared(mode, c, l), i)
  {
    if i > 0 {
      PreparedIsSteady(mode, w, feedback, c, l, i - 1);
      StepIsSteady(mode, w, feedback, StateAt(mode, w, feedback, Prepared(mode, c, l), i - 1), l);
    }
  }

  lemma StepIsSteady(mode: Mode, w: Wave, feedback: nat, p: Chan, l: Lfo)
    requires Prepared(mode, p, l) == p
    ensures Prepared(mode, Step(mode, w, feedback, p), l) == Step(mode, w, feedback, p)
  {
    hide Prepare, Next, Out, Feedback;
    PrepareIsSteady(p.v0, l.tremolo, l.add0);
    PrepareIsSteady(p.v1, l.tremolo, l.add1);
    PrepareIsSteady(p.v2, l.tremolo, l.add2);
    PrepareIsSteady(p.v3, l.tremolo, l.add3);
  }

  /**
   * A block prepared once is as many samples prepared one by one: same states, and the sample of every output
   * cell. So a chip of channels generates what `OplLfo.Chip.Generate` says of its single-stepped machine.
   */
  lemma {:induction false} BlockIsSingleStepped(mode: Mode, w: Wave, feedback: nat, pan: Pan,
                                                supply: OplLfo.Value -> Lfo,
                                                c: Chan, values: seq<OplLfo.Value>, v: OplLfo.Value, i: nat)
    requires i <= |values| && forall k :: 0 <= k < |values| ==> values[k] == v
    ensures var m, p := SingleStepped(mode, w, feedback, pan, supply), Prepared(mode, c, supply(v));
            var s := OplLfo.Played(m, c, values, i);
            && Prepared(mode, s, supply(v)) == StateAt(mode, w, feedback, p, i)
            && (i > 0 ==> s == StateAt(mode, w, feedback, p, i))
            && m.out(s, v, 0) == CellAt(mode, w, feedback, p, pan, i * Width(mode))
            && (!mode.Mono? ==> m.out(s, v, 1) == CellAt(mode, w, feedback, p, pan, i * 2 + 1))
  {
    hide Prepared, Step, Mixed;
    if i > 0 {
      BlockIsSingleStepped(mode, w, feedback, pan, supply, c, values, v, i - 1);
      PreparedIsSteady(mode, w, feedback, c, supply(v), i);
    }
  }

  // ---------------------------------------------------------------- many blocks

  /** A block: what the oscillator supplies, its samples, and whether the channel's key is released before it. */
  datatype Block = Block(lfo: Lfo, n: nat, release: bool)

  function ReleaseVoice(v: Voice): (v': Voice) {
    Voice(v.op.(env := KeyOff(v.op.env, 1)), v.current, v.waveIndex, v.waveCurrent)
  }

  function Begun(mode: Mode, c: Chan, release: bool): (c': Chan) {
    if !release then c
    else Chan(ReleaseVoice(c.v0), ReleaseVoice(c.v1), if mode.Four? then ReleaseVoice(c.v2) else c.v2,
              if mode.Four? then ReleaseVoice(c.v3) else c.v3, c.old0, c.old1)
  }

  function Samples(mode: Mode, w: Wave, feedback: nat, p: Chan, n: nat): (ss: seq<int>) {
    seq(n, i requires 0 <= i < n => SampleAt(mode, w, feedback, p, i))
  }

  function Zeros(n: nat): (ss: seq<int>) { seq(n, _ => 0) }

  /** The channel's samples over many blocks if every block were run. */
  function Always(mode: Mode, w: Wave, feedback: nat, c: Chan, bs: seq<Block>): (ss: seq<int>)
    decreases |bs|
  {
    if bs == [] then []
    else
      var p := Prepared(mode, Begun(mode, c, bs[0].release), bs[0].lfo);
      Samples(mode, w, feedback, p, bs[0].n) + Always(mode, w, feedback, StateAt(mode, w, feedback, p, bs[0].n),
          bs[1..])
  }

  /** Its samples with the shortcut. */
  function WithShortcut(mode: Mode, w: Wave, feedback: nat, c: Chan, bs: seq<Block>): (ss: seq<int>)
    decreases |bs|
  {
    if bs == [] then []
    else
      var s := Begun(mode, c, bs[0].release);
      if Skips(mode, s) then Zeros(bs[0].n) + WithShortcut(mode, w, feedback, Chan(s.v0, s.v1, s.v2, s.v3, 0, 0),
          bs[1..])
      else
        var p := Prepared(mode, s, bs[0].lfo);
        Samples(mode, w, feedback, p, bs[0].n)
            + WithShortcut(mode, w, feedback, StateAt(mode, w, feedback, p, bs[0].n), bs[1..])
  }

  /** How many samples come before the first skipped block, and the delayed sample it drops. */
  function FirstSkip(mode: Mode, w: Wave, feedback: nat, c: Chan, bs: seq<Block>): (skip: (nat, int))
    decreases |bs|
  {
    if bs == [] then (0, 0)
    else
      var s := Begun(mode, c, bs[0].release);
      if Skips(mode, s) then (0, s.old1)
      else
        var p := Prepared(mode, s, bs[0].lfo);
        var skip := FirstSkip(mode, w, feedback, StateAt(mode, w, feedback, p, bs[0].n), bs[1..]);
        (bs[0].n + skip.0, skip.1)
  }

  /** A release before a block lets every operator in use that only this key holds go into its release phase. */
  lemma ReleaseReachesOperators(mode: Mode, c: Chan, v: Voice, v': Voice)
    requires v.op.env.keyOn == 1
    requires var c' := Begun(mode, c, true);
             || (v, v') == (c.v0, c'.v0) || (v, v') == (c.v1, c'.v1)
             || (mode.Four? && ((v, v') == (c.v2, c'.v2) || (v, v') == (c.v3, c'.v3)))
    ensures v'.op.env == Env(if v.op.env.phase == Off then Off else Release, v.op.env.volume, v.op.env.rateIndex, 0)
    ensures v' == v.(op := v.op.(env := v'.op.env)) && Begun(mode, c, false) == c
  {
  }

  predicate HushedOps(mode: Mode, c: Chan) {
    && (Heard(mode, 0) ==> HushedOp(c.v0)) && (Heard(mode, 1) ==> HushedOp(c.v1))
    && (Heard(mode, 2) ==> HushedOp(c.v2)) && (Heard(mode, 3) ==> HushedOp(c.v3))
  }

  predicate HushedOp(v: Voice) { OperOk(v.op) && Hushed(v.op) }

  lemma ReleaseKeepsHush(v: Voice)
    requires OperOk(v.op)
    ensures OperOk(ReleaseVoice(v).op) && (Hushed(v.op) ==> Hushed(ReleaseVoice(v).op))
  {
    KeysKeepOk(v.op.env, 1);
  }

  lemma BegunKeepsHush(mode: Mode, c: Chan, release: bool)
    requires HushedOps(mode, c)
    ensures HushedOps(mode, Begun(mode, c, release)) && Begun(mode, c, release).old1 == c.old1
  {
    hide OperOk, Hushed, ReleaseVoice;
    if Heard(mode, 0) { ReleaseKeepsHush(c.v0); }
    if Heard(mode, 1) { ReleaseKeepsHush(c.v1); }
    if Heard(mode, 2) { ReleaseKeepsHush(c.v2); }
    if Heard(mode, 3) { ReleaseKeepsHush(c.v3); }
  }

  lemma HushedIsQuiet(mode: Mode, c: Chan, l: Lfo)
    requires HushedOps(mode, c)
    ensures Quiet(mode, Prepared(mode, c, l)) && Prepared(mode, c, l).old1 == c.old1
  {
    hide OperOk;
  }

  lemma QuietIsHushed(mode: Mode, c: Chan)
    requires Quiet(mode, c)
    ensures HushedOps(mode, c)
  {
    hide OperOk, Hushed;
  }

  lemma SkippedIsHushed(mode: Mode, c: Chan)
    requires ChanOk(c) && Skips(mode, c)
    ensures HushedOps(mode, c)
  {
    hide OperOk, Silent, Hushed;
    if Heard(mode, 0) { SilentIsHushed(c.v0.op); }
    if Heard(mode, 1) { SilentIsHushed(c.v1.op); }
    if Heard(mode, 2) { SilentIsHushed(c.v2.op); }
    if Heard(mode, 3) { SilentIsHushed(c.v3.op); }
  }

  lemma SilentIsHushed(o: Oper)
    requires OperOk(o) && Silent(o)
    ensures Hushed(o)
  {
  }

  /** The samples of a run that plays nothing but, in an additive mode, a first delayed sample. */
  function OneThenZeros(n: nat, first: int): (ss: seq<int>) {
    seq(n, i requires 0 <= i < n => if i == 0 then first else 0)
  }

  lemma OneThenZerosAppend(n: nat, m: nat, first: int)
    ensures OneThenZeros(n + m, first) == OneThenZeros(n, first) + OneThenZeros(m, if n == 0 then first else 0)
    ensures OneThenZeros(n, 0) == Zeros(n)
  {
  }

  function Total(bs: seq<Block>): (n: nat) { if bs == [] then 0 else bs[0].n + Total(bs[1..]) }

  /** One quiet block, run. */
  lemma QuietBlockSamples(mode: Mode, w: Wave, feedback: nat, c: Chan, b: Block)
    requires HushedOps(mode, c)
    ensures var p := Prepared(mode, Begun(mode, c, b.release), b.lfo); var c' := StateAt(mode, w, feedback, p, b.n);
            && Samples(mode, w, feedback, p, b.n) == OneThenZeros(b.n, if Additive(mode) then c.old1 else 0)
            && HushedOps(mode, c') && (Additive(mode) ==> c'.old1 == if b.n == 0 then c.old1 else 0)
  {
    BegunKeepsHush(mode, c, b.release);
    var s := Begun(mode, c, b.release);
    HushedIsQuiet(mode, s, b.lfo);
    var p := Prepared(mode, s, b.lfo);
    hide HushedOps, Quiet, Prepared, Begun, Additive, SampleAt;
    forall i | 0 <= i <= b.n
      ensures SampleAt(mode, w, feedback, p, i) == if Additive(mode) && i == 0 then c.old1 else 0
    {
      QuietBlock(mode, w, feedback, p, i);
    }
    QuietBlock(mode, w, feedback, p, b.n);
    QuietIsHushed(mode, StateAt(mode, w, feedback, p, b.n));
  }

  /** A channel whose heard operators are hushed stays so over any blocks. */
  lemma {:induction false} QuietAlways(mode: Mode, w: Wave, feedback: nat, c: Chan, bs: seq<Block>)
    requires HushedOps(mode, c)
    ensures Always(mode, w, feedback, c, bs) == OneThenZeros(Total(bs), if Additive(mode) then c.old1 else 0)
    decreases |bs|
  {
    hide HushedOps, Prepared, Begun, Additive, Samples;
    if bs != [] {
      var first := if Additive(mode) then c.old1 else 0;
      QuietBlockSamples(mode, w, feedback, c, bs[0]);
      var p := Prepared(mode, Begun(mode, c, bs[0].release), bs[0].lfo);
      QuietAlways(mode, w, feedback, StateAt(mode, w, feedback, p, bs[0].n), bs[1..]);
      OneThenZerosAppend(bs[0].n, Total(bs[1..]), first);
    }
  }

  lemma {:induction false} QuietShortcut(mode: Mode, w: Wave, feedback: nat, c: Chan, bs: seq<Block>)
    requires HushedOps(mode, c) && (Additive(mode) ==> c.old1 == 0)
    ensures WithShortcut(mode, w, feedback, c, bs) == Zeros(Total(bs))
    decreases |bs|
  {
    hide HushedOps, Prepared, Begun, Additive, Samples, Skips;
    if bs != [] {
      var s := Begun(mode, c, bs[0].release);
      OneThenZerosAppend(bs[0].n, Total(bs[1..]), 0);
      if Skips(mode, s) {
        BegunKeepsHush(mode, c, bs[0].release);
        var t := Chan(s.v0, s.v1, s.v2, s.v3, 0, 0);
        SameVoices(mode, s, t);
        QuietShortcut(mode, w, feedback, t, bs[1..]);
      } else {
        QuietBlockSamples(mode, w, feedback, c, bs[0]);
        QuietShortcut(mode, w, feedback, StateAt(mode, w, feedback, Prepared(mode, s, bs[0].lfo), bs[0].n), bs[1..]);
      }
    }
  }

  lemma SameVoices(mode: Mode, s: Chan, t: Chan)
    requires s.v0 == t.v0 && s.v1 == t.v1 && s.v2 == t.v2 && s.v3 == t.v3
    ensures HushedOps(mode, s) == HushedOps(mode, t)
  {
  }

  lemma VoiceKeepsOk(v: Voice)
    requires OperOk(v.op)
    ensures OperOk(Next(v).op) && OperOk(ReleaseVoice(v).op)
  {
    ForwardKeepsOk(v.op.env, v.op.rates, SustainBit(v.op.regs.r20));
    ReleaseKeepsHush(v);
  }

  lemma BegunKeepsOk(mode: Mode, c: Chan, release: bool, l: Lfo)
    requires ChanOk(c)
    ensures ChanOk(Begun(mode, c, release)) && ChanOk(Prepared(mode, Begun(mode, c, release), l))
  {
    hide OperOk, ReleaseVoice;
    VoiceKeepsOk(c.v0);
    VoiceKeepsOk(c.v1);
    VoiceKeepsOk(c.v2);
    VoiceKeepsOk(c.v3);
  }

  lemma {:induction false} StateAtKeepsOk(mode: Mode, w: Wave, feedback: nat, c: Chan, i: nat)
    requires ChanOk(c)
    ensures ChanOk(StateAt(mode, w, feedback, c, i))
  {
    hide OperOk, Next, Out, Feedback;
    if i > 0 {
      StateAtKeepsOk(mode, w, feedback, c, i - 1);
      var m := StateAt(mode, w, feedback, c, i - 1);
      VoiceKeepsOk(m.v0);
      VoiceKeepsOk(m.v1);
      VoiceKeepsOk(m.v2);
      VoiceKeepsOk(m.v3);
    }
  }

  /** Two traces that agree on `k` samples, after which one is silent and the other plays at most one more. */
  predicate DifferAt(always: seq<int>, shortcut: seq<int>, k: nat, first: int) {
    && k <= |always| == |shortcut| && always[..k] == shortcut[..k]
    && always[k..] == OneThenZeros(|always| - k, first) && shortcut[k..] == Zeros(|always| - k)
  }

  lemma DifferLater(x: seq<int>, always: seq<int>, shortcut: seq<int>, k: nat, first: int)
    requires DifferAt(always, shortcut, k, first)
    ensures DifferAt(x + always, x + shortcut, |x| + k, first)
  {
    assert (x + always)[..|x| + k] == x + always[..k] && (x + shortcut)[..|x| + k] == x + shortcut[..k];
    assert (x + always)[|x| + k..] == always[k..] && (x + shortcut)[|x| + k..] == shortcut[k..];
  }

  /** The first block that is skipped, and all that follow it. */
  lemma ShortcutFromSkip(mode: Mode, w: Wave, feedback: nat, c: Chan, bs: seq<Block>)
    requires ChanOk(c) && bs != [] && Skips(mode, Begun(mode, c, bs[0].release))
    ensures DifferAt(Always(mode, w, feedback, c, bs), WithShortcut(mode, w, feedback, c, bs), 0,
            if Additive(mode) then c.old1 else 0)
  {
    var b := bs[0];
    var s := Begun(mode, c, b.release);
    BegunKeepsOk(mode, c, b.release, b.lfo);
    SkippedIsHushed(mode, s);
    hide ChanOk, HushedOps, Prepared, Begun, Additive, Samples, Skips;
    AlwaysFrom(mode, w, feedback, c, s, bs);
    ShortcutIsSilent(mode, w, feedback, c, s, bs);
  }

  lemma ShortcutIsSilent(mode: Mode, w: Wave, feedback: nat, c: Chan, s: Chan, bs: seq<Block>)
    requires bs != [] && s == Begun(mode, c, bs[0].release) && Skips(mode, s) && HushedOps(mode, s)
    ensures WithShortcut(mode, w, feedback, c, bs) == Zeros(Total(bs))
  {
    var t := Chan(s.v0, s.v1, s.v2, s.v3, 0, 0);
    SameVoices(mode, s, t);
    hide HushedOps, Prepared, Begun, Additive, Samples, Skips;
    QuietShortcut(mode, w, feedback, t, bs[1..]);
    OneThenZerosAppend(bs[0].n, Total(bs[1..]), 0);
  }

  /** Releasing the key first does not change what is run after it. */
  lemma AlwaysFrom(mode: Mode, w: Wave, feedback: nat, c: Chan, s: Chan, bs: seq<Block>)
    requires bs != [] && s == Begun(mode, c, bs[0].release) && HushedOps(mode, s)
    ensures Always(mode, w, feedback, c, bs) == OneThenZeros(Total(bs), if Additive(mode) then c.old1 else 0)
  {
    var b := Block(bs[0].lfo, bs[0].n, false);
    QuietAlways(mode, w, feedback, s, [b] + bs[1..]);
    assert ([b] + bs[1..])[1..] == bs[1..];
  }

  /**
   * Over any blocks, with any oscillator values and key releases between them, the shortcut changes nothing
   * before the first skipped block; from there on the channel is silent either way, but for one sample, the
   * delayed one that the additive modes would have played first.
   */
  lemma {:induction false} ShortcutOverRun(mode: Mode, w: Wave, feedback: nat, c: Chan, bs: seq<Block>)
    requires ChanOk(c)
    ensures var skip := FirstSkip(mode, w, feedback, c, bs);
            DifferAt(Always(mode, w, feedback, c, bs), WithShortcut(mode, w, feedback, c, bs), skip.0,
                if Additive(mode) then skip.1 else 0)
    decreases |bs|
  {
    hide ChanOk, Prepared, Begun, Additive, Samples, Skips, DifferAt;
    if bs == [] {
      NoneDiffer();
    } else {
      var b := bs[0];
      var s := Begun(mode, c, b.release);
      if Skips(mode, s) {
        ShortcutFromSkip(mode, w, feedback, c, bs);
        BegunKeepsOld(mode, c, b.release);
      } else {
        BegunKeepsOk(mode, c, b.release, b.lfo);
        var p := Prepared(mode, s, b.lfo);
        var m := StateAt(mode, w, feedback, p, b.n);
        StateAtKeepsOk(mode, w, feedback, p, b.n);
        ShortcutOverRun(mode, w, feedback, m, bs[1..]);
        var skip := FirstSkip(mode, w, feedback, m, bs[1..]);
        SamplesSize(mode, w, feedback, p, b.n);
        DifferLater(Samples(mode, w, feedback, p, b.n), Always(mode, w, feedback, m, bs[1..]),
                    WithShortcut(mode, w, feedback, m, bs[1..]), skip.0, if Additive(mode) then skip.1 else 0);
      }
    }
  }

  lemma NoneDiffer()
    ensures forall first :: DifferAt([], [], 0, first)
  {
  }

  lemma BegunKeepsOld(mode: Mode, c: Chan, release: bool)
    ensures Begun(mode, c, release).old1 == c.old1
  {
  }

  lemma SamplesSize(mode: Mode, w: Wave, feedback: nat, p: Chan, n: nat)
    ensures |Samples(mode, w, feedback, p, n)| == n
  {
  }

  /**
   * So all samples are the same exactly if the mode is not additive, nothing is skipped, or the delayed sample
   * is 0.
   */
  lemma ShortcutIsExactIff(mode: Mode, w: Wave, feedback: nat, c: Chan, bs: seq<Block>)
    requires ChanOk(c)
    ensures var skip, always := FirstSkip(mode, w, feedback, c, bs), Always(mode, w, feedback, c, bs);
            WithShortcut(mode, w, feedback, c, bs) == always <==> !Additive(mode) || skip.0 == |always| || skip.1 == 0
  {
    hide Additive, ChanOk, FirstSkip, Always, WithShortcut;
    ShortcutOverRun(mode, w, feedback, c, bs);
    var skip := FirstSkip(mode, w, feedback, c, bs);
    var always, shortcut := Always(mode, w, feedback, c, bs), WithShortcut(mode, w, feedback, c, bs);
    if skip.0 < |always| {
      assert always[skip.0] == always[skip.0..][0] && shortcut[skip.0] == shortcut[skip.0..][0];
    }
    assert always == always[..skip.0] + always[skip.0..] && shortcut == shortcut[..skip.0] + shortcut[skip.0..];
    if !Additive(mode) || skip.1 == 0 {
      OneThenZerosAppend(|always| - skip.0, 0, 0);
    }
  }

  /** A sounding additive channel is muted by its level register: the sample of operator 0 still to come is lost. */
  lemma DelayedSampleExample()
    ensures var sounding := Created().(env := Env(Sustain, 132, 0, 1), zero := Zero(false, true, false, false),
                                       regs := Regs(0x20, 0, 0, 0, 0), totalLevel := 0);
            var v, off := Voice(sounding, 0, 0, 0), Voice(Created(), 511, 0, 0);
            var w: Wave := (_, _, _) => 100;
            var mode, l := Mono(AM), Lfo(0, 0, 0, 0, 0);
            var c := Chan(v, off, off, off, 0, 0);
            var d := StateAt(mode, w, 0, Prepared(mode, c, l), 1);
            var muted := Chan(d.v0.(op := Write40(d.v0.op, 63)), d.v1, d.v2, d.v3, d.old0, d.old1);
            && ChanOk(c) && !Skips(mode, c) && ChanOk(muted) && Skips(mode, muted)
            && SampleAt(mode, w, 0, Prepared(mode, muted, l), 0) == 100
            && !Added(mode, w, 0, Prepared(mode, muted, l), Pan(true, true), [0], [0], 1)
  {
    var sounding := Created().(env := Env(Sustain, 132, 0, 1), zero := Zero(false, true, false, false),
                               regs := Regs(0x20, 0, 0, 0, 0), totalLevel := 0);
    var v, off := Voice(sounding, 0, 0, 0), Voice(Created(), 511, 0, 0);
    var w: Wave := (_, _, _) => 100;
    var mode, l := Mono(AM), Lfo(0, 0, 0, 0, 0);
    var c := Chan(v, off, off, off, 0, 0);
    var p := Prepared(mode, c, l);
    assert StateAt(mode, w, 0, p, 0) == p;
    var d := StateAt(mode, w, 0, p, 1);
    assert d == Step(mode, w, 0, p) && d.old1 == 100 && d.v0.op == sounding;
    var muted := Chan(d.v0.(op := Write40(d.v0.op, 63)), d.v1, d.v2, d.v3, d.old0, d.old1);
    SkippedBlock(mode, w, 0, muted, l, 0);
    SkipIsExactIff(mode, w, 0, muted, l, Pan(true, true), [0], 1);
  }

  // ---------------------------------------------------------------- key presses

  /** The phases at which the operators' waveforms start. */
  datatype Starts = Starts(w0: nat, w1: nat, w2: nat, w3: nat)

  /** A key press restarts an operator whose key is up: phase and attack begin anew, the attenuation does not. */
  function PressVoice(v: Voice, start: nat): (v': Voice) {
    var restarts := v.op.env.keyOn == 0;
    Voice(v.op.(env := KeyOn(v.op.env, 1)), v.current, if restarts then start else v.waveIndex, v.waveCurrent)
  }

  function Pressed(mode: Mode, c: Chan, at: Starts): (c': Chan) {
    Chan(PressVoice(c.v0, at.w0), PressVoice(c.v1, at.w1), if mode.Four? then PressVoice(c.v2, at.w2) else c.v2,
         if mode.Four? then PressVoice(c.v3, at.w3) else c.v3, c.old0, c.old1)
  }

  /** The channel after many blocks, all run. */
  function AlwaysEnd(mode: Mode, w: Wave, feedback: nat, c: Chan, bs: seq<Block>): (c': Chan)
    decreases |bs|
  {
    if bs == [] then c
    else
      var p := Prepared(mode, Begun(mode, c, bs[0].release), bs[0].lfo);
      AlwaysEnd(mode, w, feedback, StateAt(mode, w, feedback, p, bs[0].n), bs[1..])
  }

  /** The channel after many blocks with the shortcut. */
  function ShortcutEnd(mode: Mode, w: Wave, feedback: nat, c: Chan, bs: seq<Block>): (c': Chan)
    decreases |bs|
  {
    if bs == [] then c
    else
      var s := Begun(mode, c, bs[0].release);
      if Skips(mode, s) then ShortcutEnd(mode, w, feedback, Chan(s.v0, s.v1, s.v2, s.v3, 0, 0), bs[1..])
      else ShortcutEnd(mode, w, feedback, StateAt(mode, w, feedback, Prepared(mode, s, bs[0].lfo), bs[0].n), bs[1..])
  }

  predicate KeyUp(v: Voice) { v.op.env.keyOn == 0 }

  predicate KeysUp(mode: Mode, c: Chan) { KeyUp(c.v0) && KeyUp(c.v1) && (mode.Four? ==> KeyUp(c.v2) && KeyUp(c.v3)) }

  /** `n` samples leave the attenuation of every operator that is not heard as it is. */
  predicate StillUnheard(mode: Mode, c: Chan, n: nat) {
    && (!Heard(mode, 0) ==> Still(c.v0.op, n)) && (!Heard(mode, 1) ==> Still(c.v1.op, n))
    && (mode.Four? && !Heard(mode, 2) ==> Still(c.v2.op, n)) && (mode.Four? && !Heard(mode, 3) ==> Still(c.v3.op, n))
  }

  /** Voices that differ in nothing that the next block does not set. */
  predicate Alike(v: Voice, v': Voice) { v.op == v'.op && v.waveIndex == v'.waveIndex }

  predicate AlikeVoices(mode: Mode, a: Chan, b: Chan) {
    && Alike(a.v0, b.v0) && Alike(a.v1, b.v1)
    && (if mode.Four? then Alike(a.v2, b.v2) && Alike(a.v3, b.v3) else a.v2 == b.v2 && a.v3 == b.v3)
  }

  /** What `n` samples, taken or not, do to a voice whose key is up. */
  predicate Aged(v: Voice, v': Voice, n: nat) { v'.op == After(v.op, n) }

  predicate AgedVoices(mode: Mode, c: Chan, c': Chan, n: nat) {
    && Aged(c.v0, c'.v0, n) && Aged(c.v1, c'.v1, n)
    && (if mode.Four? then Aged(c.v2, c'.v2, n) && Aged(c.v3, c'.v3, n) else c'.v2 == c.v2 && c'.v3 == c.v3)
  }

  lemma AgedNext(v: Voice, v': Voice, n: nat)
    requires Aged(v, v', n)
    ensures Aged(v, Next(v'), n + 1)
  {
    AfterNext(v.op, n);
  }

  lemma {:induction false} BlockAges(mode: Mode, w: Wave, feedback: nat, p: Chan, n: nat)
    ensures AgedVoices(mode, p, StateAt(mode, w, feedback, p, n), n)
  {
    hide Aged, Next, Out, Feedback;
    if n == 0 {
      AgedNone(p);
    } else {
      BlockAges(mode, w, feedback, p, n - 1);
      var s := StateAt(mode, w, feedback, p, n - 1);
      AgedNext(p.v0, s.v0, n - 1);
      AgedNext(p.v1, s.v1, n - 1);
      if mode.Four? {
        AgedNext(p.v2, s.v2, n - 1);
        AgedNext(p.v3, s.v3, n - 1);
      }
    }
  }

  lemma AgedNone(p: Chan)
    ensures Aged(p.v0, p.v0, 0) && Aged(p.v1, p.v1, 0) && Aged(p.v2, p.v2, 0) && Aged(p.v3, p.v3, 0)
  {
  }

  /** Releasing a key that is up does nothing. */
  lemma BegunIsSame(mode: Mode, c: Chan, release: bool)
    requires ChanOk(c) && KeysUp(mode, c)
    ensures Begun(mode, c, release) == c
  {
    assert 0 as bv8 & !1 == 0;
  }

  lemma AgedKeepsUp(mode: Mode, c: Chan, m: Chan, n: nat)
    requires ChanOk(c) && KeysUp(mode, c) && AgedVoices(mode, c, m, n)
    ensures ChanOk(m) && KeysUp(mode, m)
  {
    hide OperOk, Aged, KeyUp;
    AgedVoiceUp(c.v0, m.v0, n);
    AgedVoiceUp(c.v1, m.v1, n);
    if mode.Four? {
      AgedVoiceUp(c.v2, m.v2, n);
      AgedVoiceUp(c.v3, m.v3, n);
    }
  }

  lemma AgedVoiceUp(v: Voice, m: Voice, n: nat)
    requires OperOk(v.op) && KeyUp(v) && Aged(v, m, n)
    ensures OperOk(m.op) && KeyUp(m)
  {
    ReleasedVolume(v.op.env, v.op.rates, SustainBit(v.op.regs.r20), n);
  }

  lemma AgedTwice(mode: Mode, c: Chan, m: Chan, e: Chan, n: nat, k: nat)
    requires AgedVoices(mode, c, m, n) && AgedVoices(mode, m, e, k)
    ensures AgedVoices(mode, c, e, n + k)
  {
    hide Aged;
    AgedVoiceTwice(c.v0, m.v0, e.v0, n, k);
    AgedVoiceTwice(c.v1, m.v1, e.v1, n, k);
    if mode.Four? {
      AgedVoiceTwice(c.v2, m.v2, e.v2, n, k);
      AgedVoiceTwice(c.v3, m.v3, e.v3, n, k);
    }
  }

  lemma AgedVoiceTwice(v: Voice, m: Voice, e: Voice, n: nat, k: nat)
    requires Aged(v, m, n) && Aged(m, e, k)
    ensures Aged(v, e, n + k)
  {
    SamplesAdd(v.op.env, v.op.rates, SustainBit(v.op.regs.r20), n, k);
  }

  /** Blocks that are run age the operators by all their samples, whatever the oscillators supply. */
  lemma {:induction false} AlwaysAges(mode: Mode, w: Wave, feedback: nat, c: Chan, bs: seq<Block>)
    requires ChanOk(c) && KeysUp(mode, c)
    ensures AgedVoices(mode, c, AlwaysEnd(mode, w, feedback, c, bs), Total(bs))
    decreases |bs|
  {
    hide ChanOk, KeysUp, Aged;
    if bs == [] {
      AgedNone(c);
    } else {
      var b := bs[0];
      BegunIsSame(mode, c, b.release);
      var p := Prepared(mode, c, b.lfo);
      var m := StateAt(mode, w, feedback, p, b.n);
      BlockAges(mode, w, feedback, p, b.n);
      PreparedAges(mode, c, b.lfo, m, b.n);
      AgedKeepsUp(mode, c, m, b.n);
      AlwaysAges(mode, w, feedback, m, bs[1..]);
      AgedTwice(mode, c, m, AlwaysEnd(mode, w, feedback, m, bs[1..]), b.n, Total(bs[1..]));
    }
  }

  lemma PreparedAges(mode: Mode, c: Chan, l: Lfo, m: Chan, n: nat)
    requires AgedVoices(mode, Prepared(mode, c, l), m, n)
    ensures AgedVoices(mode, c, m, n)
  {
    hide After;
  }

  /** The shortcut, once taken with the keys up, is taken until a key is pressed. */
  lemma {:induction false} ShortcutStays(mode: Mode, w: Wave, feedback: nat, c: Chan, bs: seq<Block>)
    requires ChanOk(c) && Skips(mode, c) && KeysUp(mode, c)
    ensures ShortcutEnd(mode, w, feedback, c, bs) == if bs == [] then c else Chan(c.v0, c.v1, c.v2, c.v3, 0, 0)
    decreases |bs|
  {
    if bs != [] {
      BegunIsSame(mode, c, bs[0].release);
      hide OperOk, Silent, Heard;
      ShortcutStays(mode, w, feedback, Chan(c.v0, c.v1, c.v2, c.v3, 0, 0), bs[1..]);
    }
  }

  lemma PressedAlikeIff(v: Voice, m: Voice, n: nat, start: nat)
    requires OperOk(v.op) && KeyUp(v) && Aged(v, m, n)
    ensures Alike(PressVoice(m, start), PressVoice(v, start)) <==> Still(v.op, n)
  {
    PressForgetsIff(v.op, n, 1);
    hide OperOk, KeyOn;
  }

  lemma SilentIsStill(v: Voice, n: nat)
    requires OperOk(v.op) && KeyUp(v) && Silent(v.op)
    ensures Still(v.op, n)
  {
  }

  /**
   * A stretch that begins with a skipped block and the keys up, and ends with a key press: the press finds the
   * operators as if every block had been run, exactly if the attenuation of none that is not heard has moved.
   */
  lemma SkippedUntilPressIff(mode: Mode, w: Wave, feedback: nat, c: Chan, bs: seq<Block>, at: Starts)
    requires ChanOk(c) && Skips(mode, c) && KeysUp(mode, c)
    ensures AlikeVoices(mode, Pressed(mode, AlwaysEnd(mode, w, feedback, c, bs), at),
                              Pressed(mode, ShortcutEnd(mode, w, feedback, c, bs), at))
       <==> StillUnheard(mode, c, Total(bs))
  {
    var n, m := Total(bs), AlwaysEnd(mode, w, feedback, c, bs);
    AlwaysAges(mode, w, feedback, c, bs);
    ShortcutStays(mode, w, feedback, c, bs);
    AgedAlikeIff(mode, c, m, n, at);
    AlikeByVoices(mode, Pressed(mode, m, at), Pressed(mode, c, at),
                  Pressed(mode, ShortcutEnd(mode, w, feedback, c, bs), at));
  }

  lemma AlikeByVoices(mode: Mode, a: Chan, b: Chan, b': Chan)
    requires b.v0 == b'.v0 && b.v1 == b'.v1 && b.v2 == b'.v2 && b.v3 == b'.v3
    ensures AlikeVoices(mode, a, b) == AlikeVoices(mode, a, b')
  {
  }

  lemma AgedAlikeIff(mode: Mode, c: Chan, m: Chan, n: nat, at: Starts)
    requires ChanOk(c) && Skips(mode, c) && KeysUp(mode, c) && AgedVoices(mode, c, m, n)
    ensures AlikeVoices(mode, Pressed(mode, m, at), Pressed(mode, c, at)) <==> StillUnheard(mode, c, n)
  {
    hide OperOk, KeyUp, Aged, Alike, Still, PressVoice, Silent;
    PressedAlikeIff(c.v0, m.v0, n, at.w0);
    PressedAlikeIff(c.v1, m.v1, n, at.w1);
    if mode.Four? {
      PressedAlikeIff(c.v2, m.v2, n, at.w2);
      PressedAlikeIff(c.v3, m.v3, n, at.w3);
    }
    if Heard(mode, 0) { SilentIsStill(c.v0, n); }
    if Heard(mode, 1) { SilentIsStill(c.v1, n); }
    if Heard(mode, 2) { SilentIsStill(c.v2, n); }
    if Heard(mode, 3) { SilentIsStill(c.v3, n); }
  }

  /** The carrier is off and the modulator, at full volume, is released at full speed. */
  function ReleasedPair(): (c: Chan) {
    var modulator := Created().(env := Env(Release, 0, 0, 0), rates := Rates(0, 0, FULL, 511), totalLevel := 0);
    var carrier := Created().(rates := Rates(0x800_0000, 0, 0, 511), totalLevel := 0);
    Chan(Voice(modulator, 0, 0, 0), Voice(carrier, 0, 0, 0), Voice(carrier, 0, 0, 0), Voice(carrier, 0, 0, 0), 0, 0)
  }

  /** A waveform that shows the modulator's attenuation in the carrier's sample. */
  function Showing(): (w: Wave) { (slot, phase, vol) => if slot == 0 then vol else phase }

  /**
   * Its block of one sample is skipped, in a mode that is not additive. The key pressed next finds the modulator
   * louder than it would be, and the second sample of the note is another one.
   */
  lemma KeyPressAfterSkipExample()
    ensures var c, mode, w, at := ReleasedPair(), Mono(FM), Showing(), Starts(0, 0, 0, 0);
            var l := Lfo(0, 0, 0, 0, 0);
            var silence, note := [Block(l, 1, false)], [Block(l, 2, false)];
            var a := Pressed(mode, AlwaysEnd(mode, w, 0, c, silence), at);
            var b := Pressed(mode, ShortcutEnd(mode, w, 0, c, silence), at);
            && ChanOk(c) && Skips(mode, c) && KeysUp(mode, c) && !StillUnheard(mode, c, 1)
            && Always(mode, w, 0, a, note)[1] == 1 && Always(mode, w, 0, b, note)[1] == 0
  {
    var c, mode, w, at := ReleasedPair(), Mono(FM), Showing(), Starts(0, 0, 0, 0);
    var l := Lfo(0, 0, 0, 0, 0);
    var silence := [Block(l, 1, false)];
    OneSampleOfPair(c, l, silence);
    var a := Pressed(mode, AlwaysEnd(mode, w, 0, c, silence), at);
    ShortcutStays(mode, w, 0, c, silence);
    var b := Pressed(mode, ShortcutEnd(mode, w, 0, c, silence), at);
    SecondSample(a, l, 1);
    SecondSample(b, l, 0);
  }

  lemma OneSampleOfPair(c: Chan, l: Lfo, silence: seq<Block>)
    requires c == ReleasedPair() && l == Lfo(0, 0, 0, 0, 0) && silence == [Block(l, 1, false)]
    ensures ChanOk(c) && Skips(Mono(FM), c) && KeysUp(Mono(FM), c) && !StillUnheard(Mono(FM), c, 1)
    ensures var e := AlwaysEnd(Mono(FM), Showing(), 0, c, silence);
            && e.v0 == c.v0.(op := c.v0.op.(env := Env(Release, 1, 0, 0))) && e.v1 == c.v1
  {
    var p := Prepared(Mono(FM), c, l);
    assert p == c && StateAt(Mono(FM), Showing(), 0, p, 0) == c;
    assert StateAt(Mono(FM), Showing(), 0, p, 1) == Step(Mono(FM), Showing(), 0, c);
    assert silence[1..] == [];
  }

  /** The pair with the key just pressed. */
  predicate PairPressed(a: Chan, vol: nat) {
    && a.v0.op == ReleasedPair().v0.op.(env := Env(Attack, vol, 0, 1)) && a.v0.waveIndex == 0
    && a.v1.op == ReleasedPair().v1.op.(env := Env(Attack, 511, 0, 1)) && a.v1.waveIndex == 0
  }

  lemma PairAfterOne(a: Chan, l: Lfo, vol: nat)
    requires l == Lfo(0, 0, 0, 0, 0) && vol <= 1 && PairPressed(a, vol)
    ensures var s := Step(Mono(FM), Showing(), 0, Prepared(Mono(FM), a, l));
            && s.old1 == vol && s.v1.current == 0 && s.v1.waveIndex == 0 && s.v1.waveCurrent == 0
            && s.v1.op == ReleasedPair().v1.op.(env := Env(Decay, 0, 0, 1))
  {
  }

  /** The carrier's second sample is the modulator's attenuation at the first. */
  lemma SecondSample(a: Chan, l: Lfo, vol: nat)
    requires l == Lfo(0, 0, 0, 0, 0) && vol <= 1 && PairPressed(a, vol)
    ensures Always(Mono(FM), Showing(), 0, a, [Block(l, 2, false)])[1] == vol
  {
    var mode, w := Mono(FM), Showing();
    var p := Prepared(mode, a, l);
    PairAfterOne(a, l, vol);
    hide PairPressed, Step, Prepared, Feedback;
    assert StateAt(mode, w, 0, p, 0) == p;
    var s := StateAt(mode, w, 0, p, 1);
    assert s == Step(mode, w, 0, p);
    assert SampleAt(mode, w, 0, p, 1) == Mixed2(FM, w, s) == vol;
    var note := [Block(l, 2, false)];
    var after := Always(mode, w, 0, StateAt(mode, w, 0, p, 2), note[1..]);
    assert Always(mode, w, 0, a, note) == Samples(mode, w, 0, p, 2) + after;
  }

  /** Channels alike in everything that a block does not set. */
  predicate AlikeChans(mode: Mode, a: Chan, b: Chan) { AlikeVoices(mode, a, b) && a.old0 == b.old0 && a.old1 == b.old1 }

  lemma AlikePrepare(mode: Mode, a: Chan, b: Chan, release: bool, l: Lfo)
    requires AlikeChans(mode, a, b)
    ensures AlikeChans(mode, Begun(mode, a, release), Begun(mode, b, release))
    ensures Skips(mode, Begun(mode, a, release)) == Skips(mode, Begun(mode, b, release))
    ensures Prepared(mode, Begun(mode, a, release), l) == Prepared(mode, Begun(mode, b, release), l)
  {
    hide Silent, KeyOff;
  }

  /** They sound alike, and stay alike, over all blocks that follow. */
  lemma {:induction false} AlikePlay(mode: Mode, w: Wave, feedback: nat, a: Chan, b: Chan, bs: seq<Block>)
    requires AlikeChans(mode, a, b)
    ensures Always(mode, w, feedback, a, bs) == Always(mode, w, feedback, b, bs)
    ensures WithShortcut(mode, w, feedback, a, bs) == WithShortcut(mode, w, feedback, b, bs)
    ensures AlikeChans(mode, AlwaysEnd(mode, w, feedback, a, bs), AlwaysEnd(mode, w, feedback, b, bs))
    ensures AlikeChans(mode, ShortcutEnd(mode, w, feedback, a, bs), ShortcutEnd(mode, w, feedback, b, bs))
    decreases |bs|
  {
    hide Skips, Prepared, Begun;
    if bs != [] {
      AlikePrepare(mode, a, b, bs[0].release, bs[0].lfo);
      var s, t := Begun(mode, a, bs[0].release), Begun(mode, b, bs[0].release);
      if Skips(mode, s) {
        AlikePlay(mode, w, feedback, Chan(s.v0, s.v1, s.v2, s.v3, 0, 0), Chan(t.v0, t.v1, t.v2, t.v3, 0, 0), bs[1..]);
      }
    }
  }

  /**
   * When a note leaves no trace of the shortcut: from the first skipped block on the keys are up, no unheard
   * attenuation moves, and no delayed sample is left over at either end.
   */
  ghost predicate NoTrace(mode: Mode, w: Wave, feedback: nat, c: Chan, bs: seq<Block>)
    decreases |bs|
  {
    bs == [] ||
    var s := Begun(mode, c, bs[0].release);
    if Skips(mode, s) then
      var e := AlwaysEnd(mode, w, feedback, c, bs);
      KeysUp(mode, s) && StillUnheard(mode, s, Total(bs)) && (Additive(mode) ==> s.old1 == 0) && e.old0 == e.old1 == 0
    else NoTrace(mode, w, feedback, StateAt(mode, w, feedback, Prepared(mode, s, bs[0].lfo), bs[0].n), bs[1..])
  }

  /** Such a note sounds the same with the shortcut, and the next key press finds the channels alike. */
  lemma {:induction false} NoteIsExact(mode: Mode, w: Wave, feedback: nat, c: Chan, bs: seq<Block>, at: Starts)
    requires ChanOk(c) && NoTrace(mode, w, feedback, c, bs)
    ensures WithShortcut(mode, w, feedback, c, bs) == Always(mode, w, feedback, c, bs)
    ensures AlikeChans(mode, Pressed(mode, AlwaysEnd(mode, w, feedback, c, bs), at),
                             Pressed(mode, ShortcutEnd(mode, w, feedback, c, bs), at))
    decreases |bs|
  {
    hide ChanOk, Skips, Begun, Prepared, KeysUp, StillUnheard, AlikeVoices, Pressed, Additive;
    if bs == [] {
      SameIsAlike(mode, Pressed(mode, c, at));
    } else {
      var b := bs[0];
      var s := Begun(mode, c, b.release);
      BegunKeepsOk(mode, c, b.release, b.lfo);
      if Skips(mode, s) {
        SkippedNote(mode, w, feedback, c, bs, at);
      } else {
        var p := Prepared(mode, s, b.lfo);
        StateAtKeepsOk(mode, w, feedback, p, b.n);
        NoteIsExact(mode, w, feedback, StateAt(mode, w, feedback, p, b.n), bs[1..], at);
      }
    }
  }

  lemma SameIsAlike(mode: Mode, c: Chan)
    ensures AlikeChans(mode, c, c)
  {
  }

  lemma SkippedNote(mode: Mode, w: Wave, feedback: nat, c: Chan, bs: seq<Block>, at: Starts)
    requires ChanOk(c) && bs != [] && Skips(mode, Begun(mode, c, bs[0].release)) && NoTrace(mode, w, feedback, c, bs)
    ensures WithShortcut(mode, w, feedback, c, bs) == Always(mode, w, feedback, c, bs)
    ensures AlikeChans(mode, Pressed(mode, AlwaysEnd(mode, w, feedback, c, bs), at),
                             Pressed(mode, ShortcutEnd(mode, w, feedback, c, bs), at))
  {
    SkippedNoteSounds(mode, w, feedback, c, bs);
    SkippedNoteEnds(mode, w, feedback, c, bs, at);
    hide *;
  }

  lemma SkippedNoteSounds(mode: Mode, w: Wave, feedback: nat, c: Chan, bs: seq<Block>)
    requires ChanOk(c) && bs != [] && Skips(mode, Begun(mode, c, bs[0].release)) && NoTrace(mode, w, feedback, c, bs)
    ensures WithShortcut(mode, w, feedback, c, bs) == Always(mode, w, feedback, c, bs)
  {
    BegunKeepsOld(mode, c, bs[0].release);
    ShortcutFromSkip(mode, w, feedback, c, bs);
    hide ChanOk, Skips, Prepared, KeysUp, StillUnheard, Additive, Samples, Always, WithShortcut, DifferAt;
    NothingDiffers(Always(mode, w, feedback, c, bs), WithShortcut(mode, w, feedback, c, bs));
  }

  lemma SkippedNoteEnds(mode: Mode, w: Wave, feedback: nat, c: Chan, bs: seq<Block>, at: Starts)
    requires ChanOk(c) && bs != [] && Skips(mode, Begun(mode, c, bs[0].release)) && NoTrace(mode, w, feedback, c, bs)
    ensures AlikeChans(mode, Pressed(mode, AlwaysEnd(mode, w, feedback, c, bs), at),
                             Pressed(mode, ShortcutEnd(mode, w, feedback, c, bs), at))
  {
    var b := bs[0];
    var s := Begun(mode, c, b.release);
    var same := [Block(b.lfo, b.n, false)] + bs[1..];
    assert same[1..] == bs[1..];
    BegunKeepsOk(mode, c, b.release, b.lfo);
    hide ChanOk, Skips, Prepared, KeysUp, StillUnheard, AlikeVoices, Additive, StateAt;
    SkippedUntilPressIff(mode, w, feedback, s, same, at);
    ShortcutStays(mode, w, feedback, s, same);
    PressKeepsOld(mode, AlwaysEnd(mode, w, feedback, c, bs), at);
    PressKeepsOld(mode, ShortcutEnd(mode, w, feedback, c, bs), at);
  }

  lemma PressKeepsOld(mode: Mode, c: Chan, at: Starts)
    ensures Pressed(mode, c, at).old0 == c.old0 && Pressed(mode, c, at).old1 == c.old1
  {
  }

  lemma NothingDiffers(always: seq<int>, shortcut: seq<int>)
    requires DifferAt(always, shortcut, 0, 0)
    ensures always == shortcut
  {
    OneThenZerosAppend(|always|, 0, 0);
    assert always == always[0..] && shortcut == shortcut[0..];
  }

  /** Notes, each begun by a key press; every block run. */
  function AlwaysNotes(mode: Mode, w: Wave, feedback: nat, c: Chan, notes: seq<seq<Block>>, at: Starts)
    : (ss: seq<int>)
    decreases |notes|
  {
    if notes == [] then []
    else
      var p := Pressed(mode, c, at);
      Always(mode, w, feedback, p, notes[0])
        + AlwaysNotes(mode, w, feedback, AlwaysEnd(mode, w, feedback, p, notes[0]), notes[1..], at)
  }

  /** The same notes with the shortcut. */
  function ShortcutNotes(mode: Mode, w: Wave, feedback: nat, c: Chan, notes: seq<seq<Block>>, at: Starts)
    : (ss: seq<int>)
    decreases |notes|
  {
    if notes == [] then []
    else
      var p := Pressed(mode, c, at);
      WithShortcut(mode, w, feedback, p, notes[0])
        + ShortcutNotes(mode, w, feedback, ShortcutEnd(mode, w, feedback, p, notes[0]), notes[1..], at)
  }

  ghost predicate NoTraces(mode: Mode, w: Wave, feedback: nat, c: Chan, notes: seq<seq<Block>>, at: Starts)
    decreases |notes|
  {
    notes == [] ||
    var p := Pressed(mode, c, at);
    && NoTrace(mode, w, feedback, p, notes[0])
    && NoTraces(mode, w, feedback, AlwaysEnd(mode, w, feedback, p, notes[0]), notes[1..], at)
  }

  lemma PressKeepsOk(mode: Mode, c: Chan, at: Starts)
    requires ChanOk(c)
    ensures ChanOk(Pressed(mode, c, at))
  {
    KeysKeepOk(c.v0.op.env, 1);
    KeysKeepOk(c.v1.op.env, 1);
    KeysKeepOk(c.v2.op.env, 1);
    KeysKeepOk(c.v3.op.env, 1);
    hide EnvOk, RatesOk, ZeroOk, RegsOk, KeyOn;
  }

  lemma {:induction false} AlwaysKeepsOk(mode: Mode, w: Wave, feedback: nat, c: Chan, bs: seq<Block>)
    requires ChanOk(c)
    ensures ChanOk(AlwaysEnd(mode, w, feedback, c, bs))
    decreases |bs|
  {
    hide ChanOk, Begun, Prepared;
    if bs != [] {
      BegunKeepsOk(mode, c, bs[0].release, bs[0].lfo);
      var p := Prepared(mode, Begun(mode, c, bs[0].release), bs[0].lfo);
      StateAtKeepsOk(mode, w, feedback, p, bs[0].n);
      AlwaysKeepsOk(mode, w, feedback, StateAt(mode, w, feedback, p, bs[0].n), bs[1..]);
    }
  }

  /** Over any notes that leave no trace of it, the shortcut changes no sample. */
  lemma {:induction false} NotesAreExact(mode: Mode, w: Wave, feedback: nat, c: Chan, notes: seq<seq<Block>>,
                                         at: Starts)
    requires ChanOk(c) && NoTraces(mode, w, feedback, c, notes, at)
    ensures ShortcutNotes(mode, w, feedback, c, notes, at) == AlwaysNotes(mode, w, feedback, c, notes, at)
    decreases |notes|
  {
    hide ChanOk, Pressed, NoTrace, AlikeChans;
    if notes != [] {
      var p := Pressed(mode, c, at);
      PressKeepsOk(mode, c, at);
      NoteIsExact(mode, w, feedback, p, notes[0], at);
      AlwaysKeepsOk(mode, w, feedback, p, notes[0]);
      var a, b := AlwaysEnd(mode, w, feedback, p, notes[0]), ShortcutEnd(mode, w, feedback, p, notes[0]);
      NotesAreExact(mode, w, feedback, a, notes[1..], at);
      AlikeNotes(mode, w, feedback, a, b, notes[1..], at);
    }
  }

  /** Channels that the next key press makes alike play the same notes alike. */
  lemma {:induction false} AlikeNotes(mode: Mode, w: Wave, feedback: nat, a: Chan, b: Chan, notes: seq<seq<Block>>,
                                      at: Starts)
    requires AlikeChans(mode, Pressed(mode, a, at), Pressed(mode, b, at))
    ensures ShortcutNotes(mode, w, feedback, a, notes, at) == ShortcutNotes(mode, w, feedback, b, notes, at)
    decreases |notes|
  {
    hide Pressed, AlikeChans;
    if notes != [] {
      var p, q := Pressed(mode, a, at), Pressed(mode, b, at);
      AlikePlay(mode, w, feedback, p, q, notes[0]);
      var e, f := ShortcutEnd(mode, w, feedback, p, notes[0]), ShortcutEnd(mode, w, feedback, q, notes[0]);
      PressKeepsAlike(mode, e, f, at);
      AlikeNotes(mode, w, feedback, e, f, notes[1..], at);
    }
  }

  lemma PressKeepsAlike(mode: Mode, a: Chan, b: Chan, at: Starts)
    requires AlikeChans(mode, a, b)
    ensures AlikeChans(mode, Pressed(mode, a, at), Pressed(mode, b, at))
  {
    hide KeyOn;
  }

  // ---------------------------------------------------------------- the emulator's object

  /** A channel, with the operators of the next one as its third and fourth. */
  class Channel {
    var v0: Voice
    var v1: Voice
    var v2: Voice
    var v3: Voice
    var old0: int
    var old1: int

    ghost function Abs(): (c: Chan)
      reads this
    {
      Chan(v0, v1, v2, v3, old0, old1)
    }

    /** The next sample; every operator in use moves on by one. */
    method GetSample(mode: Mode, w: Wave, feedback: nat) returns (sample: int)
      modifies this
      ensures sample == Mixed(mode, w, old(Abs())) && Abs() == Step(mode, w, feedback, old(Abs()))
    {
      hide Next, Pow2, Out, Mixed2, Mixed4;
      var mod := U32(old0 + old1) / Pow2(feedback);
      var out0 := old1;
      var fresh0 := Out(w, 0, v0, mod);
      match mode {
        case Four(four) =>
          sample := Combine4(four, w, out0);
          v2, v3 := Next(v2), Next(v3);
        case Mono(two) => sample := Combine2(two, w, out0);
        case Stereo(two) => sample := Combine2(two, w, out0);
      }
      old0, old1 := out0, fresh0;
      v0, v1 := Next(v0), Next(v1);
    }

    method Combine2(mode: TwoOp, w: Wave, out0: int) returns (sample: int)
      requires out0 == old1
      ensures sample == Mixed2(mode, w, Abs())
    {
      match mode {
        case AM =>
          var next := Out(w, 1, v1, 0);
          sample := out0 + next;
        case FM => sample := Out(w, 1, v1, out0);
      }
    }

    method Combine4(mode: FourOp, w: Wave, out0: int) returns (sample: int)
      requires out0 == old1
      ensures sample == Mixed4(mode, w, Abs())
    {
      hide Out;
      var next: int;
      match mode {
        case FMFM =>
          next := Out(w, 1, v1, out0);
          next := Out(w, 2, v2, next);
          sample := Out(w, 3, v3, next);
        case AMFM =>
          sample := out0;
          next := Out(w, 1, v1, 0);
          next := Out(w, 2, v2, next);
          next := Out(w, 3, v3, next);
          sample := sample + next;
        case FMAM =>
          sample := Out(w, 1, v1, out0);
          next := Out(w, 2, v2, 0);
          next := Out(w, 3, v3, next);
          sample := sample + next;
        case AMAM =>
          sample := out0;
          next := Out(w, 1, v1, 0);
          next := Out(w, 2, v2, next);
          sample := sample + next;
          next := Out(w, 3, v3, 0);
          sample := sample + next;
      }
    }

    /** Adds a block of samples to the output, or skips it if no operator that is heard would sound. */
    method Block(mode: Mode, w: Wave, feedback: nat, pan: Pan, l: Lfo, samples: nat, output: array<int>)
        returns (skipped: bool)
      requires output.Length >= samples * Width(mode)
      modifies this, output
      ensures skipped == Skips(mode, old(Abs()))
      ensures skipped ==> output[..] == old(output[..]) && Abs() == Chan(old(v0), old(v1), old(v2), old(v3), 0, 0)
      ensures !skipped ==>
        var p := Prepared(mode, old(Abs()), l);
        && Added(mode, w, feedback, p, pan, old(output[..]), output[..], samples * Width(mode))
        && Abs() == StateAt(mode, w, feedback, p, samples)
    {
      hide Skips, Step, Mixed, CellAt;
      skipped := Skips(mode, Chan(v0, v1, v2, v3, old0, old1));
      if skipped {
        old0, old1 := 0, 0;
        return;
      }
      v0, v1 := Prepare(v0, l.tremolo, l.add0), Prepare(v1, l.tremolo, l.add1);
      if mode.Four? {
        v2, v3 := Prepare(v2, l.tremolo, l.add2), Prepare(v3, l.tremolo, l.add3);
      }
      ghost var p := Abs();
      ghost var was := output[..];
      var i := 0;
      while i < samples
        modifies this, output
        invariant i <= samples && output.Length >= samples * Width(mode)
        invariant Abs() == StateAt(mode, w, feedback, p, i)
        invariant Added(mode, w, feedback, p, pan, was, output[..], i * Width(mode))
      {
        var sample := GetSample(mode, w, feedback);
        Put(mode, w, feedback, pan, p, was, i, sample, output);
        i := i + 1;
      }
    }

    /** Adds sample `i` to its one or two output cells. */
    method Put(mode: Mode, w: Wave, feedback: nat, pan: Pan, ghost p: Chan, ghost was: seq<int>, i: nat, sample: int,
        output: array<int>)
      requires output.Length >= (i + 1) * Width(mode)
      requires Added(mode, w, feedback, p, pan, was, output[..], i * Width(mode))
      requires sample == SampleAt(mode, w, feedback, p, i)
      modifies output
      ensures Added(mode, w, feedback, p, pan, was, output[..], (i + 1) * Width(mode))
    {
      hide SampleAt, S16;
      if mode.Mono? {
        output[i] := S16(output[i] + sample);
      } else {
        output[2 * i] := S16(output[2 * i] + if pan.left then sample else 0);
        output[2 * i + 1] := S16(output[2 * i + 1] + if pan.right then sample else 0);
      }
    }
  }
}
