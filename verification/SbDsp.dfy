/**
 * The Sound Blaster DSP: a command interpreter fed byte by byte, the block position
 * of the running transfer, and the ADPCM state its commands share with the decoder.
 */
module SbDsp {
  import opened CInt
  import Adpcm

  const IDLE := -1     // no command byte is waiting for arguments
  const DIRECT := -4   // direct output, kept apart from mode byte 0x10

  /** The transfer: its kind, sample width, block length less one, and bytes of the block already moved. */
  datatype Play = Play(started: bool, auto: bool, highSpeed: bool, stereo: bool, bits: int, samples: nat, pos: int)

  /** Interrupt causes: software trigger, and the two status bits of the mixer. */
  datatype Irq = Irq(trigger: bool, int8: bool, int16: bool)

  /** `cmd` awaits arguments, of which `sub` have been taken. */
  datatype Dsp = Dsp(cmd: int, sub: nat, play: Play, irq: Irq, adpcm: Adpcm.State)

  function SampleBytes(p: Play): (n: nat) { (p.samples + 1) * Max(8, p.bits) / 8 }

  function Reset(s: Dsp): (s': Dsp) {
    Dsp(IDLE, 0, Play(false, false, false, false, 8, 0, 0), s.irq.(trigger := false), s.adpcm)
  }

  function Stop(s: Dsp): (s': Dsp) { s.(play := s.play.(started := false, highSpeed := false, pos := 0)) }

  function SetPos(s: Dsp, pos: int): (s': Dsp) {
    var done := pos >= SampleBytes(s.play);
    s.(play := s.play.(pos := pos),
       irq := s.irq.(int8 := s.irq.int8 || (done && s.play.bits <= 8),
                     int16 := s.irq.int16 || (done && s.play.bits > 8)))
  }

  // ---------------------------------------------------------------- command bytes

  predicate IsAdpcm(cmd: int) { cmd == 0x16 || cmd == 0x17 || cmd == 0x74 || cmd == 0x75 || cmd == 0x76 || cmd == 0x77 }

  predicate IsAutoAdpcm(cmd: int) { cmd == 0x1f || cmd == 0x7d || cmd == 0x7f }

  predicate IsMode(cmd: int) { cmd == 0x00 || cmd == 0x10 || cmd == 0x20 || cmd == 0x30 }

  predicate IsBlock(cmd: int) { cmd == 0xc0 || cmd == 0xc4 || cmd == 0xc6 || cmd == 0xb0 || cmd == 0xb4 || cmd == 0xb6 }

  /** Commands that take a 16-bit block length and then start or size a transfer. */
  predicate TakesLength(cmd: int) { cmd == 0x48 || cmd == 0x14 || IsAdpcm(cmd) || IsMode(cmd) }

  predicate TakesTwo(cmd: int) { TakesLength(cmd) || cmd == 0x41 || cmd == 0x42 }

  predicate TakesOne(cmd: int) { cmd == 0x40 || cmd == DIRECT || cmd == 0xe4 || cmd == 0xe2 }

  /** Commands carried out at once. */
  predicate IsImmediate(cmd: int) {
    || cmd == 0xf2 || cmd == 0xf3 || cmd == 0xd1 || cmd == 0xd3 || cmd == 0x2a
    || StartsNow(cmd) || cmd == 0xd0 || cmd == 0xd5 || cmd == 0xd9 || cmd == 0xda
  }

  /** Immediate commands that leave the transfer running. */
  predicate StartsNow(cmd: int) {
    IsEightBitNow(cmd) || IsAutoAdpcm(cmd) || cmd == 0xd4 || cmd == 0x45 || cmd == 0xd6
  }

  predicate IsEightBitNow(cmd: int) { cmd == 0x90 || cmd == 0x91 || cmd == 0x1c }

  /** The width selected by an ADPCM command: three bands, not one value per command. */
  function AdpcmWidth(cmd: int): (bits: int)
    ensures Adpcm.Width(bits)
  {
    if cmd <= 0x16 then 2 else if cmd >= 0x76 then 3 else 4
  }

  /** The transfer after a byte received while no command waits. */
  function PlayAfterCommand(v: nat, p: Play): (p': Play) {
    if IsEightBitNow(v) then Play(true, v != 0x91, v != 0x1c, p.stereo, 8, p.samples, 0)
    else if IsAutoAdpcm(v) then Play(true, true, p.highSpeed, false, AdpcmWidth(v), p.samples, 0)
    else if StartsNow(v) then p.(started := true)
    else if v == 0xd0 || v == 0xd5 then p.(started := false)
    else if (v == 0xd9 || v == 0xda) && p.auto then p.(auto := false, started := false)
    else p
  }

  function Command(s: Dsp, v: nat): (s': Dsp) {
    Dsp(if IsImmediate(v) then IDLE else if v == 0x10 then DIRECT else v, 0,
        PlayAfterCommand(v, s.play),
        Irq(s.irq.trigger || v == 0xf2 || v == 0xf3, s.irq.int8 || v == 0xf2, s.irq.int16 || v == 0xf3),
        if IsAutoAdpcm(v) then Adpcm.State(0, s.adpcm.ref, true) else s.adpcm)
  }

  /** The transfer once the length of command `cmd` is complete. */
  function PlayAfterLength(cmd: int, p: Play): (p': Play) {
    if cmd == 0x48 then p.(started := false, highSpeed := false, auto := false)
    else if cmd == 0x14 then Play(true, false, false, p.stereo, 8, p.samples, 0)
    else if IsAdpcm(cmd) then Play(true, false, p.highSpeed, false, AdpcmWidth(cmd), p.samples, 0)
    else Play(true, p.auto, p.highSpeed, cmd == 0x20 || cmd == 0x30, if cmd == 0x00 || cmd == 0x20 then 8 else 16,
              p.samples, 0)
  }

  function PlayAfterArgument(s: Dsp, v: nat): (p': Play) {
    if IsBlock(s.cmd) then s.play.(auto := s.cmd == 0xc6 || s.cmd == 0xb6 || s.cmd == 0xc4)
    else if !TakesLength(s.cmd) then s.play
    else if s.sub == 0 then s.play.(samples := v)
    else PlayAfterLength(s.cmd, s.play.(samples := s.play.samples + 0x100 * v))
  }

  /** Arguments taken after one more. */
  function SubAfterArgument(s: Dsp): (n: nat) {
    if IsBlock(s.cmd) then 0 else if TakesOne(s.cmd) then 2 else if TakesTwo(s.cmd) then s.sub + 1 else s.sub
  }

  /** A byte received as argument of the waiting command. */
  function Argument(s: Dsp, v: nat): (s': Dsp) {
    Dsp(if IsBlock(s.cmd) then v else if SubAfterArgument(s) >= 2 then IDLE else s.cmd,
        SubAfterArgument(s),
        PlayAfterArgument(s, v),
        s.irq,
        if IsAdpcm(s.cmd) && s.sub != 0 then Adpcm.State(0, s.adpcm.ref, s.cmd % 2 == 1) else s.adpcm)
  }

  /** A write to the DSP's command port; in high-speed mode writes are ignored. */
  function Write(s: Dsp, v: nat): (s': Dsp) {
    if s.play.highSpeed then s else if s.cmd == IDLE then Command(s, v) else Argument(s, v)
  }

  // ---------------------------------------------------------------- what every run keeps

  predicate PlayOk(p: Play) { (Adpcm.Width(p.bits) || p.bits == 8 || p.bits == 16) && p.samples < 0x1_0000 }

  /** Between writes a waiting command still lacks arguments, and a first length byte stands alone. */
  predicate InterpreterOk(s: Dsp) {
    && (s.cmd == IDLE || s.cmd == DIRECT || 0 <= s.cmd < 0x100)
    && (s.play.highSpeed ==> s.cmd == IDLE)
    && (s.cmd != IDLE ==> s.sub == 0 || (s.sub == 1 && TakesTwo(s.cmd)))
    && (s.sub == 1 && TakesLength(s.cmd) ==> s.play.samples < 0x100)
  }

  /** The decoder's step belongs to the selected width, and its reference is a byte. */
  predicate DecoderOk(bits: int, a: Adpcm.State) {
    0 <= a.ref <= 0xff && (Adpcm.Width(bits) ==> Adpcm.LegalState(bits, a))
  }

  predicate Ok(s: Dsp) { PlayOk(s.play) && InterpreterOk(s) && DecoderOk(s.play.bits, s.adpcm) }

  datatype Event =
    | GuestWrite(v: nat)
    | GuestReset
    | Answered                  // a pending query was read out by the guest
    | Moved(pos: int)
    | Stopped
    | Decoded(data: seq<nat>)   // a chunk of ADPCM data was played

  predicate IsQuery(cmd: int) { cmd == 0xe0 || cmd == 0xe1 || cmd == 0xe3 || cmd == 0xe8 }

  predicate Enabled(s: Dsp, e: Event) {
    match e
    case GuestWrite(v) => v < 0x100
    case Answered => IsQuery(s.cmd)
    case Decoded(data) => Adpcm.Width(s.play.bits) && data != [] && Adpcm.Bytes(data)
    case _ => true
  }

  function Apply(s: Dsp, e: Event): (s': Dsp)
    requires Enabled(s, e)
  {
    match e
    case GuestWrite(v) => Write(s, v)
    case GuestReset => Reset(s)
    case Answered => s.(cmd := IDLE)
    case Moved(pos) => SetPos(s, pos)
    case Stopped => Stop(s)
    case Decoded(data) => s.(adpcm := Adpcm.Decode(s.play.bits, s.adpcm, data).1)
  }

  lemma FirstRowIsLegal(bits: int, ref: int, useRef: bool)
    requires Adpcm.Width(bits) && 0 <= ref <= 0xff
    ensures Adpcm.LegalState(bits, Adpcm.State(0, ref, useRef))
  {
    Adpcm.RowStartIsLegal(bits, 0);
  }

  lemma CommandKeepsOk(s: Dsp, v: nat)
    requires Ok(s) && !s.play.highSpeed && v < 0x100
    ensures Ok(Command(s, v))
  {
    FirstRowIsLegal(AdpcmWidth(v), s.adpcm.ref, true);
  }

  lemma ArgumentKeepsOk(s: Dsp, v: nat)
    requires Ok(s) && s.cmd != IDLE && v < 0x100
    ensures Ok(Argument(s, v))
  {
    FirstRowIsLegal(AdpcmWidth(s.cmd), s.adpcm.ref, s.cmd % 2 == 1);
  }

  lemma ApplyKeepsOk(s: Dsp, e: Event)
    requires Ok(s) && Enabled(s, e)
    ensures Ok(Apply(s, e))
  {
    match e
    case GuestWrite(v) =>
      if !s.play.highSpeed {
        if s.cmd == IDLE {
          CommandKeepsOk(s, v);
        } else {
          ArgumentKeepsOk(s, v);
        }
      }
    case Decoded(data) => Adpcm.DecodeIsLegal(s.play.bits, s.adpcm, data);
    case _ =>
  }

  /** A run of the device: states joined by enabled events. */
  ghost predicate IsRun(states: seq<Dsp>, es: seq<Event>) {
    && |states| == |es| + 1
    && forall i :: 0 <= i < |es| ==> Enabled(states[i], es[i]) && states[i + 1] == Apply(states[i], es[i])
  }

  /**
   * In every state of every run, whatever commands, resets and chunks came before: while an ADPCM
   * width is selected, no code makes the decoder's table index leave its table, and the reference
   * stays a byte.
   */
  lemma {:induction false} RunKeepsDecoderInTables(states: seq<Dsp>, es: seq<Event>, i: nat, code: nat)
    requires IsRun(states, es) && Ok(states[0]) && i < |states|
    ensures Ok(states[i])
    ensures var s := states[i];
            Adpcm.Width(s.play.bits) && code < Adpcm.Codes(s.play.bits) ==>
              Adpcm.Index(s.play.bits, code, s.adpcm.step) == code + s.adpcm.step
    ensures 0 <= states[i].adpcm.ref <= 0xff
  {
    if i > 0 {
      RunKeepsDecoderInTables(states, es, i - 1, code);
      assert states[i - 1 + 1] == Apply(states[i - 1], es[i - 1]);
      ApplyKeepsOk(states[i - 1], es[i - 1]);
    }
    if Adpcm.Width(states[i].play.bits) && code < Adpcm.Codes(states[i].play.bits) {
      Adpcm.SampleIsLegal(states[i].play.bits, code, states[i].adpcm);
    }
  }

  // ---------------------------------------------------------------- which bytes wedge the interpreter

  function Writes(s: Dsp, vs: seq<nat>): (s': Dsp)
    decreases |vs|
  {
    if vs == [] then s else Writes(Write(s, vs[0]), vs[1..])
  }

  /** Commands whose arguments never end: queries, and every byte the interpreter does not know. */
  predicate Endless(cmd: int) { cmd != IDLE && !TakesOne(cmd) && !TakesTwo(cmd) && !IsBlock(cmd) }

  lemma {:induction false} EndlessIgnoresWrites(s: Dsp, vs: seq<nat>)
    requires Ok(s) && Endless(s.cmd)
    ensures Writes(s, vs) == s
    decreases |vs|
  {
    if vs != [] {
      assert Write(s, vs[0]) == s;
      EndlessIgnoresWrites(s, vs[1..]);
    }
  }

  /** In high-speed mode every byte is ignored, whether or not a command waits. */
  lemma {:induction false} HighSpeedIgnoresWrites(s: Dsp, vs: seq<nat>)
    requires s.play.highSpeed
    ensures Writes(s, vs) == s
    decreases |vs|
  {
    if vs != [] {
      HighSpeedIgnoresWrites(s, vs[1..]);
    }
  }

  /** The next byte is taken as a command. */
  predicate Accepting(s: Dsp) { s.cmd == IDLE && !s.play.highSpeed }

  predicate BringsBack(s: Dsp, vs: seq<nat>) { Accepting(Writes(s, vs)) }

  /**
   * Bytes written to the interpreter can bring it to accept a command exactly when the waiting command is not
   * an endless one and high-speed mode is off. Otherwise it takes a reset; a query is also ended by reading its
   * answer, and high-speed mode by the end of a transfer that stops.
   */
  lemma RecoverableIff(s: Dsp)
    requires Ok(s)
    ensures (exists vs :: BringsBack(s, vs)) <==> !Endless(s.cmd) && !s.play.highSpeed
  {
    if Endless(s.cmd) || s.play.highSpeed {
      forall vs: seq<nat>
        ensures !BringsBack(s, vs)
      {
        if s.play.highSpeed {
          HighSpeedIgnoresWrites(s, vs);
        } else {
          EndlessIgnoresWrites(s, vs);
        }
      }
    } else {
      var vs := Recovery(s);
      assert BringsBack(s, vs);
    }
  }

  /**
   * The two commands that enter high-speed mode leave no command waiting, and yet no byte brings the
   * interpreter back.
   */
  lemma HighSpeedIsNotRecoverable(s: Dsp, v: nat, vs: seq<nat>)
    requires Ok(s) && Accepting(s) && (v == 0x90 || v == 0x91)
    ensures var t := Write(s, v);
            Ok(t) && t.cmd == IDLE && t.play.started && Writes(t, vs) == t && !Accepting(t)
  {
    ApplyKeepsOk(s, GuestWrite(v));
    HighSpeedIgnoresWrites(Write(s, v), vs);
  }

  /** At most three bytes, all zero, finish a command that is not endless. */
  lemma Recovery(s: Dsp) returns (vs: seq<nat>)
    requires Ok(s) && !Endless(s.cmd) && !s.play.highSpeed
    ensures Accepting(Writes(s, vs))
  {
    if s.cmd == IDLE {
      vs := [];
    } else if IsBlock(s.cmd) {
      vs := RecoveryOfArguments(Write(s, 0));
      WritesCons(s, 0, vs);
      vs := [0] + vs;
    } else {
      vs := RecoveryOfArguments(s);
    }
  }

  lemma RecoveryOfArguments(s: Dsp) returns (vs: seq<nat>)
    requires !s.play.highSpeed && s.sub < 2 && (TakesOne(s.cmd) || TakesTwo(s.cmd))
    ensures Accepting(Writes(s, vs))
  {
    var t := Write(s, 0);
    if t.cmd == IDLE {
      vs := [0];
      WritesCons(s, 0, []);
    } else {
      assert t.cmd == s.cmd && t.sub == 1 && !t.play.highSpeed;
      WritesCons(t, 0, []);
      WritesCons(s, 0, [0]);
      vs := [0, 0];
    }
  }

  lemma WritesCons(s: Dsp, v: nat, vs: seq<nat>)
    ensures Writes(s, [v] + vs) == Writes(Write(s, v), vs)
    ensures [v] + [] == [v] && [v] + [0] == [v, 0]
  {
    assert ([v] + vs)[1..] == vs;
  }

  // ---------------------------------------------------------------- programming a transfer

  /** A block command, its mode byte and the length, low byte first, start exactly that transfer. */
  lemma BlockProgrammed(s: Dsp, cmd: nat, mode: nat, length: nat)
    requires Ok(s) && s.cmd == IDLE && !s.play.highSpeed && 1 <= length <= 0x1_0000
    requires cmd in {0xb0, 0xb4, 0xb6, 0xc0, 0xc4, 0xc6} && mode in {0x00, 0x10, 0x20, 0x30}
    ensures var t := Write(Write(Write(Write(s, cmd), mode), (length - 1) % 0x100), (length - 1) / 0x100);
            && t.cmd == IDLE && t.play.started && t.play.pos == 0
            && t.play.bits == (if mode == 0x00 || mode == 0x20 then 8 else 16)
            && SampleBytes(t.play) == length * t.play.bits / 8
            && t.play.stereo == (mode == 0x20 || mode == 0x30)
            && t.play.auto == (cmd == 0xc6 || cmd == 0xb6 || cmd == 0xc4)
  {
    var a := Write(s, cmd);
    var b := Write(a, mode);
    assert b.cmd == mode && b.sub == 0 && !b.play.highSpeed;
    var c := Write(b, (length - 1) % 0x100);
    assert c.cmd == mode && c.sub == 1 && c.play.samples == (length - 1) % 0x100;
  }

  /** The 16-bit auto-initialised command without FIFO is taken as single-cycle; its 8-bit twin is not. */
  lemma NoFifo16IsNotAuto(s: Dsp, length: nat)
    requires Ok(s) && s.cmd == IDLE && !s.play.highSpeed && 1 <= length <= 0x1_0000
    ensures !Write(Write(Write(Write(s, 0xb4), 0x10), (length - 1) % 0x100), (length - 1) / 0x100).play.auto
    ensures Write(Write(Write(Write(s, 0xc4), 0x00), (length - 1) % 0x100), (length - 1) / 0x100).play.auto
  {
    BlockProgrammed(s, 0xb4, 0x10, length);
    BlockProgrammed(s, 0xc4, 0x00, length);
  }

  /** Programming a single-cycle 8-bit transfer: the block has exactly the programmed length. */
  lemma SingleCycleProgrammed(s: Dsp, length: nat)
    requires Ok(s) && s.cmd == IDLE && !s.play.highSpeed && 1 <= length <= 0x1_0000
    ensures var t := Write(Write(Write(s, 0x14), (length - 1) % 0x100), (length - 1) / 0x100);
            && t.cmd == IDLE && t.play.started && !t.play.auto && t.play.bits == 8 && t.play.pos == 0
            && SampleBytes(t.play) == length
  {
    var b := Write(s, 0x14);
    assert b.cmd == 0x14 && b.sub == 0 && !b.play.highSpeed;
    var c := Write(b, (length - 1) % 0x100);
    assert c.cmd == 0x14 && c.sub == 1 && c.play.samples == (length - 1) % 0x100;
  }

  // ---------------------------------------------------------------- command by command

  /** The interpreter idle again, with this transfer. */
  predicate Leaves(s: Dsp, t: Dsp, p: Play) { t.cmd == IDLE && t.play == p && t.irq == s.irq && t.adpcm == s.adpcm }

  /** The halting and the continuing commands, of both widths, do nothing else. */
  lemma HaltAndContinue(s: Dsp)
    requires Accepting(s)
    ensures Leaves(s, Write(s, 0xd0), s.play.(started := false)) && Leaves(s, Write(s, 0xd5), s.play.(started := false))
    ensures Leaves(s, Write(s, 0xd4), s.play.(started := true)) && Leaves(s, Write(s, 0xd6), s.play.(started := true))
    ensures Leaves(s, Write(s, 0x45), s.play.(started := true))
    ensures s.play.started ==> Leaves(s, Write(Write(s, 0xd0), 0xd4), s.play)
    ensures s.play.started ==> Leaves(s, Write(Write(s, 0xd5), 0xd6), s.play)
  {
  }

  /** The speaker commands and one unknown one are over at once. */
  lemma WithoutEffect(s: Dsp)
    requires Accepting(s)
    ensures Leaves(s, Write(s, 0xd1), s.play) && Leaves(s, Write(s, 0xd3), s.play) && Leaves(s, Write(s, 0x2a), s.play)
  {
  }

  /** The two test interrupts set their own status bit. */
  lemma TriggersInterrupt(s: Dsp)
    requires Accepting(s)
    ensures var t := Write(s, 0xf2);
            t.cmd == IDLE && t.play == s.play && t.adpcm == s.adpcm && t.irq == Irq(true, true, s.irq.int16)
    ensures var t := Write(s, 0xf3);
            t.cmd == IDLE && t.play == s.play && t.adpcm == s.adpcm && t.irq == Irq(true, s.irq.int8, true)
  {
  }

  /** The 8-bit commands without a length of their own: automatic, automatic at high speed, single at high speed. */
  lemma StartsEightBit(s: Dsp)
    requires Accepting(s)
    ensures Leaves(s, Write(s, 0x1c), Play(true, true, false, s.play.stereo, 8, s.play.samples, 0))
    ensures Leaves(s, Write(s, 0x90), Play(true, true, true, s.play.stereo, 8, s.play.samples, 0))
    ensures Leaves(s, Write(s, 0x91), Play(true, false, true, s.play.stereo, 8, s.play.samples, 0))
  {
  }

  /** Leaving the automatic mode stops an automatic transfer and no other. */
  lemma LeavesAutomaticMode(s: Dsp)
    requires Accepting(s)
    ensures Leaves(s, Write(s, 0xda), if s.play.auto then s.play.(auto := false, started := false) else s.play)
    ensures Leaves(s, Write(s, 0xd9), if s.play.auto then s.play.(auto := false, started := false) else s.play)
  {
  }

  /** The sample width an ADPCM command stands for. */
  function Documented(cmd: nat): (bits: nat) {
    match cmd
    case 0x16 => 2
    case 0x17 => 2
    case 0x1f => 2
    case 0x76 => 3
    case 0x77 => 3
    case 0x7f => 3
    case _ => 4
  }

  predicate AdpcmCommand(cmd: nat) { cmd in {0x16, 0x17, 0x1f, 0x74, 0x75, 0x7d, 0x76, 0x77, 0x7f} }

  /** Three of the nine get another width than theirs: 4 bits instead of 2 twice, and 3 instead of 4 once. */
  lemma WidthIsDocumentedIff(cmd: nat)
    requires AdpcmCommand(cmd)
    ensures AdpcmWidth(cmd) == Documented(cmd) <==> cmd != 0x17 && cmd != 0x1f && cmd != 0x7d
    ensures AdpcmWidth(0x17) == AdpcmWidth(0x1f) == 4 && AdpcmWidth(0x7d) == 3
  {
  }

  /** An automatic ADPCM command starts at once, with a reference byte to come. */
  lemma StartsAutomaticAdpcm(s: Dsp, cmd: nat)
    requires Accepting(s) && (cmd == 0x1f || cmd == 0x7d || cmd == 0x7f)
    ensures var t := Write(s, cmd);
            && t.cmd == IDLE && t.irq == s.irq && t.adpcm == Adpcm.State(0, s.adpcm.ref, true)
            && t.play == Play(true, true, false, false, if cmd == 0x1f then 4 else 3, s.play.samples, 0)
  {
  }

  /** A single ADPCM command starts with its length; the odd ones begin with a reference byte. */
  lemma SingleAdpcmProgrammed(s: Dsp, cmd: nat, length: nat)
    requires Accepting(s) && cmd in {0x16, 0x17, 0x74, 0x75, 0x76, 0x77} && 1 <= length <= 0x1_0000
    ensures var t := Write(Write(Write(s, cmd), (length - 1) % 0x100), (length - 1) / 0x100);
            && t.cmd == IDLE && t.irq == s.irq
            && t.adpcm == Adpcm.State(0, s.adpcm.ref, cmd in {0x17, 0x75, 0x77})
            && t.play.started && !t.play.auto && !t.play.stereo && !t.play.highSpeed && t.play.pos == 0
            && t.play.bits == (if cmd == 0x16 then 2 else if cmd == 0x76 || cmd == 0x77 then 3 else 4)
            && SampleBytes(t.play) == length
  {
    var b := Write(s, cmd);
    assert b.cmd == cmd && b.sub == 0 && b.play == s.play && b.adpcm == s.adpcm && b.irq == s.irq;
    var c := Write(b, (length - 1) % 0x100);
    assert c.cmd == cmd && c.sub == 1 && c.play == s.play.(samples := (length - 1) % 0x100) && c.adpcm == s.adpcm;
  }

  /** Setting the block length stops the transfer and sets nothing else. */
  lemma LengthProgrammed(s: Dsp, length: nat)
    requires Accepting(s) && 1 <= length <= 0x1_0000
    ensures var t := Write(Write(Write(s, 0x48), (length - 1) % 0x100), (length - 1) / 0x100);
            Leaves(s, t, s.play.(samples := length - 1, started := false, auto := false))
  {
    var b := Write(s, 0x48);
    assert b.cmd == 0x48 && b.sub == 0 && b.play == s.play && b.adpcm == s.adpcm;
    var c := Write(b, (length - 1) % 0x100);
    assert c.cmd == 0x48 && c.sub == 1 && c.play == s.play.(samples := (length - 1) % 0x100);
  }

  /** Commands that take one argument, or two, and leave the transfer alone. */
  lemma ArgumentsAreTaken(s: Dsp, cmd: nat, v: nat, w: nat)
    requires Accepting(s)
    ensures cmd in {0x10, 0x40, 0xe2, 0xe4} ==> Write(s, cmd).cmd != IDLE && Leaves(s, Write(Write(s, cmd), v), s.play)
    ensures cmd in {0x41, 0x42} ==>
      Write(Write(s, cmd), v).cmd == cmd && Leaves(s, Write(Write(Write(s, cmd), v), w), s.play)
  {
  }

  /** A query waits, whatever is written, until its answer has been read, and changes nothing. */
  lemma QueryIsAnswered(s: Dsp, cmd: nat, vs: seq<nat>)
    requires Ok(s) && Accepting(s) && cmd in {0xe0, 0xe1, 0xe3, 0xe8}
    ensures var t := Writes(Write(s, cmd), vs);
            && t.cmd == cmd && Enabled(t, Answered)
            && Leaves(s, Apply(t, Answered), s.play) && Accepting(Apply(t, Answered))
  {
    ApplyKeepsOk(s, GuestWrite(cmd));
    EndlessIgnoresWrites(Write(s, cmd), vs);
  }

  /** A reset works in every state: the transfer is off, and status bits, reference and step are as they were. */
  lemma ResetWorksAlways(s: Dsp)
    ensures var t := Apply(s, GuestReset);
            && Accepting(t) && t.play == Play(false, false, false, false, 8, 0, 0)
            && !t.irq.trigger && t.irq.int8 == s.irq.int8 && t.irq.int16 == s.irq.int16 && t.adpcm == s.adpcm
  {
  }

  /** The end of a block sets the status bit of the transfer's width and no other; before it none is set. */
  lemma BlockEndStatus(s: Dsp, pos: nat)
    requires Ok(s)
    ensures var t := Apply(s, Moved(pos)); var ended := pos >= SampleBytes(s.play);
            && t.play == s.play.(pos := pos) && t.cmd == s.cmd && t.sub == s.sub && t.adpcm == s.adpcm
            && t.irq.trigger == s.irq.trigger
            && (!ended ==> t.irq == s.irq)
            && (ended && s.play.bits == 16 ==> t.irq.int16 && t.irq.int8 == s.irq.int8)
            && (ended && s.play.bits != 16 ==> t.irq.int8 && t.irq.int16 == s.irq.int16)
  {
  }

  /** A stopped transfer can be continued from the start of its block, not at high speed. */
  lemma StoppedThenContinued(s: Dsp)
    requires s.cmd == IDLE
    ensures var t := Apply(s, Stopped);
            && Accepting(t) && Leaves(s, t, s.play.(started := false, highSpeed := false, pos := 0))
            && Leaves(s, Write(t, 0xd4), s.play.(started := true, highSpeed := false, pos := 0))
  {
  }

  // ---------------------------------------------------------------- the device

  /** The DSP's static variables, those of the transfer, of the interrupts and of the decoder grouped. */
  class Device {
    var dspCmd: int
    var subIndex: nat
    var play: Play
    var irq: Irq
    var adpcm: Adpcm.State

    ghost function Abs(): (s: Dsp)
      reads this
    {
      Dsp(dspCmd, subIndex, play, irq, adpcm)
    }

    constructor ()
      ensures Ok(Abs()) && Abs().cmd == IDLE && !Abs().play.started && !Abs().play.highSpeed
    {
      dspCmd, subIndex := IDLE, 0;
      play := Play(false, false, false, false, 8, 0, 0);
      irq := Irq(false, false, false);
      adpcm := Adpcm.State(0, 0, false);
    }

    method DspReset(value: nat)
      modifies this
      ensures Abs() == if value == 1 then Reset(old(Abs())) else old(Abs())
    {
      if value == 1 {
        dspCmd := IDLE;
        subIndex := 0;
        play := play.(started := false, samples := 0, auto := false, bits := 8, pos := 0, highSpeed := false,
                      stereo := false);
        irq := irq.(trigger := false);
      }
    }

    method DspWrite(value: nat)
      requires Ok(Abs()) && value < 0x100
      modifies this
      ensures Abs() == Write(old(Abs()), value) && Ok(Abs())
    {
      if play.highSpeed {
        return;
      }
      ApplyKeepsOk(Abs(), GuestWrite(value));
      if dspCmd == IDLE {
        dspCmd := value;
        subIndex := 0;
        StartCommand();
      } else {
        TakeArgument(value);
      }
    }

    /** The switch over a fresh command byte, already stored as the waiting command. */
    method StartCommand()
      requires !play.highSpeed && subIndex == 0 && dspCmd >= 0
      modifies this
      ensures Abs() == Command(old(Abs()), old(dspCmd))
    {
      var p := play;
      if dspCmd == 0xf2 || dspCmd == 0xf3 {
        irq := Irq(true, irq.int8 || dspCmd == 0xf2, irq.int16 || dspCmd == 0xf3);
        dspCmd := IDLE;
      } else if dspCmd == 0xd1 || dspCmd == 0xd3 || dspCmd == 0x2a {
        dspCmd := IDLE;
      } else if dspCmd == 0xd0 || dspCmd == 0xd4 || dspCmd == 0x45 {
        play := p.(started := dspCmd == 0xd4 || dspCmd == 0x45);
        dspCmd := IDLE;
      } else if dspCmd == 0xd6 || dspCmd == 0xd5 {
        play := p.(started := dspCmd == 0xd6);
        dspCmd := IDLE;
      } else if dspCmd == 0x90 || dspCmd == 0x1c || dspCmd == 0x91 {
        play := p.(auto := dspCmd == 0x90 || dspCmd == 0x1c, bits := 8,
                   highSpeed := dspCmd == 0x90 || dspCmd == 0x91, started := true, pos := 0);
        dspCmd := IDLE;
      } else if dspCmd == 0x1f || dspCmd == 0x7f || dspCmd == 0x7d {
        adpcm := adpcm.(useRef := true, step := 0);
        var bits := if dspCmd <= 0x16 then 2 else if dspCmd >= 0x76 then 3 else 4;
        play := p.(auto := true, bits := bits, stereo := false, started := true, pos := 0);
        dspCmd := IDLE;
      } else if dspCmd == 0xd9 || dspCmd == 0xda {
        if p.auto {
          play := p.(auto := false, started := false);
        }
        dspCmd := IDLE;
      } else if dspCmd == 0x10 {
        dspCmd := DIRECT;
      }
    }

    /** The switch over the waiting command. */
    method TakeArgument(value: nat)
      requires value < 0x100 && subIndex < 2
      requires dspCmd != IDLE && (subIndex != 0 && TakesLength(dspCmd) ==> play.samples < 0x100)
      modifies this
      ensures Abs() == Argument(old(Abs()), value)
    {
      if dspCmd == 0x40 || dspCmd == 0xe4 || dspCmd == 0xe2 || dspCmd == DIRECT {
        subIndex := 2;
      } else if TakesLength(dspCmd) {
        if subIndex == 0 {
          play := play.(samples := value);
        } else {
          play := play.(samples := play.samples + 0x100 * value);
          Launch();
        }
        subIndex := subIndex + 1;
      } else if dspCmd == 0x41 || dspCmd == 0x42 {
        subIndex := subIndex + 1;
      } else if dspCmd == 0xc0 || dspCmd == 0xc6 || dspCmd == 0xc4 || dspCmd == 0xb0 || dspCmd == 0xb6
          || dspCmd == 0xb4 {
        play := play.(auto := dspCmd == 0xc6 || dspCmd == 0xb6 || dspCmd == 0xc4);
        dspCmd := value;
        subIndex := 0;
      }
      if subIndex >= 2 {
        dspCmd := IDLE;
      }
    }

    /** What the transfer commands do with a complete length. */
    method Launch()
      requires TakesLength(dspCmd)
      modifies this`play, this`adpcm
      ensures play == PlayAfterLength(dspCmd, old(play))
      ensures adpcm == if IsAdpcm(dspCmd) then Adpcm.State(0, old(adpcm.ref), dspCmd % 2 == 1) else old(adpcm)
    {
      if dspCmd == 0x48 || dspCmd == 0x14 {
        play := play.(started := dspCmd == 0x14, highSpeed := false, auto := false);
        if play.started {
          play := play.(bits := 8, pos := 0);
        }
      } else if IsAdpcm(dspCmd) {
        adpcm := adpcm.(useRef := dspCmd == 0x17 || dspCmd == 0x77 || dspCmd == 0x75, step := 0);
        var bits := if dspCmd <= 0x16 then 2 else if dspCmd >= 0x76 then 3 else 4;
        play := play.(auto := false, bits := bits, stereo := false, started := true, pos := 0);
      } else {
        var bits := if dspCmd == 0x00 || dspCmd == 0x20 then 8 else 16;
        play := play.(bits := bits, stereo := dspCmd == 0x20 || dspCmd == 0x30, started := true, pos := 0);
      }
    }

    method SetPosition(newPos: int)
      modifies this`play, this`irq
      ensures Abs() == SetPos(old(Abs()), newPos)
    {
      if newPos >= (play.samples + 1) * Max(8, play.bits) / 8 {
        if play.bits <= 8 {
          irq := irq.(int8 := true);
        } else {
          irq := irq.(int16 := true);
        }
      }
      play := play.(pos := newPos);
    }

    method StopTransfer()
      modifies this`play
      ensures Abs() == Stop(old(Abs()))
    {
      play := play.(started := false, highSpeed := false, pos := 0);
    }

    /** One sample decoded through the reference and step. */
    method DecodeSample(code: nat) returns (sample: int)
      requires Adpcm.Width(play.bits)
      modifies this`adpcm
      ensures adpcm == Adpcm.Sample(play.bits, code, old(adpcm)) && sample == adpcm.ref
    {
      hide Adpcm.ScaleAt, Adpcm.AdjustAt;
      var last := Adpcm.LastIndex(play.bits);
      var samp := code + adpcm.step;
      if samp < 0 || samp > last {
        if samp < 0 { samp := 0; }
        if samp > last { samp := last; }
      }
      var ref := adpcm.ref + Adpcm.ScaleAt(play.bits, samp);
      if ref > 0xff {
        ref := 0xff;
      } else if ref < 0 {
        ref := 0;
      }
      adpcm := adpcm.(ref := ref, step := U8(adpcm.step + Adpcm.AdjustAt(play.bits, samp)));
      sample := ref;
    }

    /** The samples packed in one byte. */
    method DecodeByte(byte: nat) returns (pcm: seq<int>)
      requires Adpcm.Width(play.bits)
      modifies this`adpcm
      ensures (pcm, adpcm) == Adpcm.DecodeCodes(play.bits, old(adpcm), Adpcm.CodesOf(play.bits, byte))
    {
      ghost var s := adpcm;
      if play.bits == 2 {
        var a := DecodeSample(byte / 64 % 4);
        var b := DecodeSample(byte / 16 % 4);
        var c := DecodeSample(byte / 4 % 4);
        var d := DecodeSample(byte % 4);
        pcm := [a, b, c, d];
        DecodeFour(2, s, byte / 64 % 4, byte / 16 % 4, byte / 4 % 4, byte % 4);
      } else if play.bits == 3 {
        var a := DecodeSample(byte / 32 % 8);
        var b := DecodeSample(byte / 4 % 8);
        var c := DecodeSample(byte % 4 * 2);
        pcm := [a, b, c];
        DecodeThree(3, s, byte / 32 % 8, byte / 4 % 8, byte % 4 * 2);
      } else {
        var a := DecodeSample(byte / 16);
        var b := DecodeSample(byte % 16);
        pcm := [a, b];
        DecodeTwo(4, s, byte / 16, byte % 16);
      }
    }

    /** Decodes `bytes` bytes of ADPCM data in place; the buffer must hold the expanded samples. */
    method DecodeInPlace(buffer: array<nat>, bytes: nat) returns (count: nat)
      requires Ok(Abs()) && Adpcm.Width(play.bits) && 1 <= bytes <= buffer.Length
      requires bytes * (9 / play.bits) <= buffer.Length && Adpcm.Bytes(buffer[..bytes])
      modifies buffer, this`adpcm
      ensures Abs() == Apply(old(Abs()), Decoded(old(buffer[..bytes]))) && Ok(Abs())
      ensures count == (bytes - if old(adpcm.useRef) then 1 else 0) * (9 / play.bits)
      ensures count <= buffer.Length && buffer[..count] == Adpcm.Decode(play.bits, old(adpcm), old(buffer[..bytes])).0
      ensures buffer[count..] == old(buffer[..])[count..]
    {
      ghost var data := buffer[..bytes];
      DecodedOnly(Abs(), data);
      Adpcm.DecodeIsLegal(play.bits, adpcm, data);
      CountFits(bytes, if adpcm.useRef then 1 else 0, 9 / play.bits);
      hide Apply, Ok, Adpcm.LegalState, Adpcm.Decode, Adpcm.Bytes;
      var pcm := Samples(buffer, bytes);
      count := |pcm|;
      CopyBack(buffer, pcm);
    }

    /** The samples of a chunk; a byte taken as the reference gives none. */
    method Samples(buffer: array<nat>, bytes: nat) returns (pcm: seq<int>)
      requires Adpcm.Width(play.bits) && 1 <= bytes <= buffer.Length
      modifies this`adpcm
      ensures (pcm, adpcm) == Adpcm.Decode(play.bits, old(adpcm), buffer[..bytes])
    {
      var start := 0;
      if adpcm.useRef {
        adpcm := Adpcm.State(0, buffer[0], false);
        start := 1;
      }
      assert buffer[start..bytes] == buffer[..bytes][start..];
      hide Adpcm.DecodeCodes, Adpcm.CodesOfBytes;
      pcm := ExpandBytes(buffer, start, bytes);
    }

    /** Decodes the bytes from `start` on into a fresh sample list. */
    method ExpandBytes(buffer: array<nat>, start: nat, bytes: nat) returns (pcm: seq<int>)
      requires Adpcm.Width(play.bits) && start <= bytes <= buffer.Length
      modifies this`adpcm
      ensures (pcm, adpcm)
           == Adpcm.DecodeCodes(play.bits, old(adpcm), Adpcm.CodesOfBytes(play.bits, buffer[start..bytes]))
    {
      pcm := [];
      ghost var s0 := adpcm;
      for i := start to bytes
        invariant (pcm, adpcm) == Adpcm.DecodeCodes(play.bits, s0, Adpcm.CodesOfBytes(play.bits, buffer[start..i]))
      {
        ghost var done := buffer[start..i];
        var more := DecodeByte(buffer[i]);
        OneMoreByte(play.bits, s0, done, buffer[i]);
        assert buffer[start..i + 1] == done + [buffer[i]];
        pcm := pcm + more;
      }
    }
  }

  /** Playing a chunk changes nothing but the decoder, and keeps it legal. */
  lemma DecodedOnly(s: Dsp, data: seq<nat>)
    requires Ok(s) && Adpcm.Width(s.play.bits) && data != [] && Adpcm.Bytes(data)
    ensures Apply(s, Decoded(data)) == s.(adpcm := Adpcm.Decode(s.play.bits, s.adpcm, data).1)
    ensures Ok(Apply(s, Decoded(data))) && Adpcm.LegalState(s.play.bits, s.adpcm)
  {
    hide Adpcm.Decode;
    ApplyKeepsOk(s, Decoded(data));
  }

  method CopyBack(buffer: array<nat>, pcm: seq<int>)
    requires |pcm| <= buffer.Length && forall i :: 0 <= i < |pcm| ==> pcm[i] >= 0
    modifies buffer
    ensures buffer[..] == pcm + old(buffer[..])[|pcm|..]
  {
    for i := 0 to |pcm|
      invariant buffer[..i] == pcm[..i]
      invariant buffer[i..] == old(buffer[..])[i..]
    {
      buffer[i] := pcm[i];
    }
  }

  lemma CountFits(bytes: nat, start: nat, ratio: nat)
    requires start <= bytes
    ensures (bytes - start) * ratio <= bytes * ratio
  {
  }

  lemma DecodeCons(bits: int, s: Adpcm.State, c: nat, cs: seq<nat>)
    requires Adpcm.Width(bits)
    ensures var s1 := Adpcm.Sample(bits, c, s);
            var rest := Adpcm.DecodeCodes(bits, s1, cs);
            Adpcm.DecodeCodes(bits, s, [c] + cs) == ([s1.ref] + rest.0, rest.1)
  {
    hide Adpcm.Sample;
    assert ([c] + cs)[1..] == cs;
  }

  lemma DecodeTwo(bits: int, s: Adpcm.State, a: nat, b: nat)
    requires Adpcm.Width(bits)
    ensures var s1 := Adpcm.Sample(bits, a, s);
            var s2 := Adpcm.Sample(bits, b, s1);
            Adpcm.DecodeCodes(bits, s, [a, b]) == ([s1.ref, s2.ref], s2)
  {
    hide Adpcm.Sample;
    DecodeCons(bits, s, a, [b]);
    DecodeCons(bits, Adpcm.Sample(bits, a, s), b, []);
    assert [a] + [b] == [a, b] && [b] + [] == [b];
    var s1 := Adpcm.Sample(bits, a, s);
    var s2 := Adpcm.Sample(bits, b, s1);
    assert [s1.ref] + ([s2.ref] + []) == [s1.ref, s2.ref];
  }

  lemma DecodeThree(bits: int, s: Adpcm.State, a: nat, b: nat, c: nat)
    requires Adpcm.Width(bits)
    ensures var s1 := Adpcm.Sample(bits, a, s);
            var s2 := Adpcm.Sample(bits, b, s1);
            var s3 := Adpcm.Sample(bits, c, s2);
            Adpcm.DecodeCodes(bits, s, [a, b, c]) == ([s1.ref, s2.ref, s3.ref], s3)
  {
    hide Adpcm.Sample;
    DecodeCons(bits, s, a, [b, c]);
    DecodeTwo(bits, Adpcm.Sample(bits, a, s), b, c);
    assert [a] + [b, c] == [a, b, c];
    var s1 := Adpcm.Sample(bits, a, s);
    var r := Adpcm.DecodeCodes(bits, s1, [b, c]).0;
    assert [s1.ref] + r == [s1.ref, r[0], r[1]];
  }

  lemma DecodeFour(bits: int, s: Adpcm.State, a: nat, b: nat, c: nat, d: nat)
    requires Adpcm.Width(bits)
    ensures var s1 := Adpcm.Sample(bits, a, s);
            var s2 := Adpcm.Sample(bits, b, s1);
            var s3 := Adpcm.Sample(bits, c, s2);
            var s4 := Adpcm.Sample(bits, d, s3);
            Adpcm.DecodeCodes(bits, s, [a, b, c, d]) == ([s1.ref, s2.ref, s3.ref, s4.ref], s4)
  {
    hide Adpcm.Sample;
    DecodeCons(bits, s, a, [b, c, d]);
    DecodeThree(bits, Adpcm.Sample(bits, a, s), b, c, d);
    assert [a] + [b, c, d] == [a, b, c, d];
    var s1 := Adpcm.Sample(bits, a, s);
    var r := Adpcm.DecodeCodes(bits, s1, [b, c, d]).0;
    assert [s1.ref] + r == [s1.ref, r[0], r[1], r[2]];
  }

  lemma OneMoreByte(bits: int, s: Adpcm.State, data: seq<nat>, b: nat)
    requires Adpcm.Width(bits)
    ensures var r := Adpcm.DecodeCodes(bits, s, Adpcm.CodesOfBytes(bits, data));
            var q := Adpcm.DecodeCodes(bits, r.1, Adpcm.CodesOf(bits, b));
            Adpcm.DecodeCodes(bits, s, Adpcm.CodesOfBytes(bits, data + [b])) == (r.0 + q.0, q.1)
  {
    hide Adpcm.CodesOf, Adpcm.Sample;
    Adpcm.CodesOfBytesAppend(bits, data, [b]);
    assert [b][1..] == [];
    assert Adpcm.CodesOf(bits, b) + Adpcm.CodesOfBytes(bits, []) == Adpcm.CodesOf(bits, b);
    Adpcm.DecodeCodesAppend(bits, s, Adpcm.CodesOfBytes(bits, data), Adpcm.CodesOf(bits, b));
  }
}
