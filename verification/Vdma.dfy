/**
 * The virtual DMA controller pair. A guest sees byte-wide ports in front of 16-bit
 * registers, paired by a flip-flop per controller; the emulator reports transfer
 * progress at any moment, also between the two accesses of a pair.
 */
module Vdma {
  import opened CInt
  import opened Arith

  // ---------------------------------------------------------------- channels

  /** One channel as the guest and the transfer engine see it. */
  datatype Channel = Channel(
    addrReg: nat,     // visible address register
    countReg: nat,    // visible counter register
    page: nat,        // visible page register
    mode: nat,
    virt: bool,       // emulated for this guest
    addr: nat,        // programmed start address, page in bits 16..23
    index: int,       // progress since the start address, in transfer units
    counter: int,     // programmed length, in transfer units
    cur: int,         // remaining length, in transfer units
    inIO: bool,       // a register pair is open
    delay: bool,      // progress was made while the pair was open
    complete: bool)

  /** Every register holds a value of its width. */
  predicate ChannelOk(c: Channel) {
    && c.addrReg < 0x1_0000 && c.countReg < 0x1_0000 && c.page < 0x100 && c.mode < 0x100 && c.addr < 0x100_0000
  }

  datatype Register = Address | Count

  function RegisterOf(c: Channel, r: Register): (v: nat) {
    if r.Address? then c.addrReg else c.countReg
  }

  function WithRegister(c: Channel, r: Register, v: nat): (c': Channel) {
    if r.Address? then c.(addrReg := v) else c.(countReg := v)
  }

  predicate Auto(c: Channel) { c.mode / 16 % 2 == 1 }

  /** Start address in bytes: the page or-ed with the low half, which a 16-bit channel holds in words. */
  function ByteAddress(addr: nat, size: nat): (a: nat) {
    var page, low := addr / 0x1_0000 % 0x100, addr % 0x1_0000 * size;
    page * 0x1_0000 + if page % 2 == 1 && low >= 0x1_0000 then low - 0x1_0000 else low
  }

  /** Makes the engine's progress visible in the registers. */
  function Publish(c: Channel): (c': Channel)
    ensures ChannelOk(c) ==> ChannelOk(c')
  {
    c.(countReg := U16(c.cur - 1), addrReg := U16(c.addr + c.index), page := U8((c.addr + c.index) / 0x1_0000))
  }

  function Unit(ch: nat): (size: nat) { if ch <= 3 then 1 else 2 }

  /** The engine's position after progress reported in bytes, `size` being the transfer unit. */
  function Moved(c: Channel, size: nat, index: int, counter: int): (c': Channel)
    requires size > 0
  {
    var index' := if counter <= 0 && Auto(c) then 0 else index;
    var counter' := if counter > 0 then counter else if Auto(c) then c.counter * size else 0x1_0000 * size;
    c.(cur := TDiv(counter', size), index := TDiv(index', size), complete := c.complete || counter <= 0)
  }

  /** Progress is made visible at once unless a register pair is open. */
  function Progress(c: Channel, size: nat, index: int, counter: int): (c': Channel)
    requires size > 0
    ensures ChannelOk(c) ==> ChannelOk(c')
  {
    var c1 := Moved(c, size, index, counter);
    if c.inIO then c1.(delay := true) else Publish(c1)
  }

  /** One guest read of a register byte; `odd` tells which half the flip-flop selects. */
  function ReadByte(c: Channel, r: Register, odd: bool): (res: (Channel, nat))
    ensures ChannelOk(c) ==> ChannelOk(res.0)
  {
    var v := RegisterOf(c, r);
    if !odd then (c.(inIO := true), U8(v))
    else ((if c.delay then Publish(c) else c).(inIO := false, delay := false), U8(v / 0x100))
  }

  /** A register value with one of its bytes replaced. */
  function HalfWritten(v: nat, odd: bool, byte: nat): (v': nat)
    ensures v < 0x1_0000 && byte < 0x100 ==> v' < 0x1_0000
  {
    if odd then v % 0x100 + byte * 0x100 else v - v % 0x100 + byte
  }

  /** One guest write of a register byte. */
  function WriteByte(c: Channel, r: Register, odd: bool, byte: nat): (c': Channel)
    ensures ChannelOk(c) && byte < 0x100 ==> ChannelOk(c')
  {
    var v' := HalfWritten(RegisterOf(c, r), odd, byte);
    var c1 := WithRegister(c, r, v').(inIO := !odd, delay := c.delay && !odd);
    if r.Address? then c1.(index := 0, addr := c.addr - c.addr % 0x1_0000 + v')
    else c1.(cur := v' + 1, counter := v' + 1)
  }

  function WritePage(c: Channel, byte: nat): (c': Channel)
    ensures ChannelOk(c) && byte < 0x100 ==> ChannelOk(c')
  {
    c.(page := byte, index := 0, addr := c.addr % 0x1_0000 + byte * 0x1_0000)
  }

  /** Completion of an emulated channel is cleared when it is read. */
  function StatusRead(c: Channel): (c': Channel) { if c.virt then c.(complete := false) else c }

  // ---------------------------------------------------------------- both controllers

  /** All eight channels and, per controller, whether its flip-flop is odd. */
  datatype View = View(ch: seq<Channel>, odd: seq<bool>)

  predicate Ok(v: View) { |v.ch| == 8 && |v.odd| == 2 && forall i :: 0 <= i < 8 ==> ChannelOk(v.ch[i]) }

  function Ctrl(ch: nat): (k: nat) { if ch <= 3 then 0 else 1 }

  datatype Event =
    | Tick(ch: nat, index: int, counter: int)
    | ReadReg(ch: nat, r: Register)
    | WriteReg(ch: nat, r: Register, byte: nat)
    | ClearFlipFlop(ctrl: nat)
    | SetMode(ch: nat, byte: nat)
    | SetPage(ch: nat, byte: nat)
    | ReadStatus
    | Other                            // page reads, command and mask ports: nothing visible here changes

  predicate EventOk(e: Event) {
    match e
    case Tick(ch, _, _) => ch < 8
    case ReadReg(ch, _) => ch < 8
    case WriteReg(ch, _, byte) => ch < 8 && byte < 0x100
    case ClearFlipFlop(k) => k < 2
    case SetMode(ch, byte) => ch < 8 && byte < 0x100
    case SetPage(ch, byte) => ch < 8 && byte < 0x100
    case ReadStatus => true
    case Other => true
  }

  /** The effect of one event. Reads of channels that are not emulated go to the real controller. */
  function Apply(v: View, e: Event): (v': View)
    requires Ok(v) && EventOk(e)
    ensures Ok(v')
  {
    match e
    case Tick(ch, index, counter) => v.(ch := v.ch[ch := Progress(v.ch[ch], Unit(ch), index, counter)])
    case ReadReg(ch, r) =>
      if !v.ch[ch].virt then v
      else View(v.ch[ch := ReadByte(v.ch[ch], r, v.odd[Ctrl(ch)]).0], v.odd[Ctrl(ch) := !v.odd[Ctrl(ch)]])
    case WriteReg(ch, r, byte) =>
      View(v.ch[ch := WriteByte(v.ch[ch], r, v.odd[Ctrl(ch)], byte)], v.odd[Ctrl(ch) := !v.odd[Ctrl(ch)]])
    case ClearFlipFlop(k) => v.(odd := v.odd[k := false])
    case SetMode(ch, byte) => v.(ch := v.ch[ch := v.ch[ch].(mode := byte - byte % 4)])
    case SetPage(ch, byte) => v.(ch := v.ch[ch := WritePage(v.ch[ch], byte)])
    case ReadStatus => v.(ch := seq(8, i requires 0 <= i < 8 => StatusRead(v.ch[i])))
    case Other => v
  }

  /** The byte a guest gets from reading a register of an emulated channel. */
  function ByteRead(v: View, ch: nat, r: Register): (b: nat)
    requires Ok(v) && ch < 8
  {
    ReadByte(v.ch[ch], r, v.odd[Ctrl(ch)]).1
  }

  predicate EventsOk(es: seq<Event>) { forall i :: 0 <= i < |es| ==> EventOk(es[i]) }

  ghost function Run(v: View, es: seq<Event>): (v': View)
    requires Ok(v) && EventsOk(es)
    ensures Ok(v')
    decreases |es|
  {
    if es == [] then v else Run(Apply(v, es[0]), es[1..])
  }

  // ---------------------------------------------------------------- a pair of reads is never torn

  /**
   * Events that may come between the two reads of a pair: progress on any channel, and any guest
   * access that does not go through the same controller's register pairs, clear its flip-flop or set the
   * channel's page.
   */
  predicate Between(e: Event, ch: nat) {
    match e
    case Tick(_, _, _) => true
    case ReadReg(d, _) => Ctrl(d) != Ctrl(ch)
    case WriteReg(d, _, _) => Ctrl(d) != Ctrl(ch)
    case ClearFlipFlop(k) => k != Ctrl(ch)
    case SetMode(_, _) => true
    case SetPage(d, _) => d != ch
    case ReadStatus => true
    case Other => true
  }

  predicate AllBetween(es: seq<Event>, ch: nat) { forall i :: 0 <= i < |es| ==> Between(es[i], ch) }

  ghost predicate Ticked(es: seq<Event>, ch: nat) { exists i :: 0 <= i < |es| && es[i].Tick? && es[i].ch == ch }

  /** What an open pair keeps: registers and programming are frozen, progress is only noted. */
  predicate Frozen(a: Channel, b: Channel) {
    && b.addrReg == a.addrReg && b.countReg == a.countReg && b.page == a.page && b.virt == a.virt
    && b.addr == a.addr && b.counter == a.counter && b.inIO
    && (b.delay || (b.index == a.index && b.cur == a.cur))
    && (a.delay ==> b.delay)
  }

  lemma {:induction false} OpenPairFrozen(v: View, es: seq<Event>, ch: nat)
    requires Ok(v) && EventsOk(es) && ch < 8 && v.ch[ch].inIO && AllBetween(es, ch)
    ensures Frozen(v.ch[ch], Run(v, es).ch[ch])
    ensures Run(v, es).odd[Ctrl(ch)] == v.odd[Ctrl(ch)]
    ensures Ticked(es, ch) ==> Run(v, es).ch[ch].delay
    decreases |es|
  {
    if es != [] {
      var w := Apply(v, es[0]);
      assert Between(es[0], ch);
      assert Frozen(v.ch[ch], w.ch[ch]) && w.odd[Ctrl(ch)] == v.odd[Ctrl(ch)];
      OpenPairFrozen(w, es[1..], ch);
      if Ticked(es, ch) && !(es[0].Tick? && es[0].ch == ch) {
        var i :| 0 <= i < |es| && es[i].Tick? && es[i].ch == ch;
        assert es[1..][i - 1] == es[i];
      }
    }
  }

  /** The visible registers show the engine's position. */
  predicate Current(c: Channel) { c.countReg == U16(c.cur - 1) && c.addrReg == U16(c.addr + c.index) }

  /** `a` before a pair of reads, `b` just before its second half, `c` after it. */
  predicate PairClosed(a: Channel, b: Channel, c: Channel) {
    && !c.inIO && !c.delay && c.index == b.index && c.cur == b.cur
    && (if b.delay then Current(c)
        else c.countReg == a.countReg && c.addrReg == a.addrReg && c.index == a.index && c.cur == a.cur)
  }

  lemma ReadPairOnChannel(a: Channel, r: Register, b: Channel)
    requires ChannelOk(a) && Frozen(ReadByte(a, r, false).0, b)
    ensures ReadByte(a, r, false).1 + 0x100 * ReadByte(b, r, true).1 == RegisterOf(a, r)
    ensures PairClosed(a, b, ReadByte(b, r, true).0)
  {
    SplitBytes(RegisterOf(a, r));
  }

  lemma SplitBytes(value: nat)
    requires value < 0x1_0000
    ensures U8(value) + 0x100 * U8(value / 0x100) == value
    ensures value / 0x100 < 0x100
  {
  }

  /**
   * A two-byte read that starts with the flip-flop even yields both halves of the register as it
   * was at the first read, whatever comes between; closing the pair restores the even flip-flop and
   * publishes all progress made meanwhile.
   */
  lemma PairReadIsAtomic(v: View, ch: nat, r: Register, es: seq<Event>)
    requires Ok(v) && ch < 8 && v.ch[ch].virt && !v.odd[Ctrl(ch)]
    requires EventsOk(es) && AllBetween(es, ch)
    ensures var w := Run(Apply(v, ReadReg(ch, r)), es);
            var z := Apply(w, ReadReg(ch, r));
            && ByteRead(v, ch, r) + 0x100 * ByteRead(w, ch, r) == RegisterOf(v.ch[ch], r)
            && PairClosed(v.ch[ch], w.ch[ch], z.ch[ch]) && !z.odd[Ctrl(ch)]
            && (Ticked(es, ch) ==> Current(z.ch[ch]))
  {
    var v1 := Apply(v, ReadReg(ch, r));
    assert v1.ch[ch] == ReadByte(v.ch[ch], r, false).0 && v1.odd[Ctrl(ch)];
    OpenPairFrozen(v1, es, ch);
    var w := Run(v1, es);
    ReadPairOnChannel(v.ch[ch], r, w.ch[ch]);
    assert Apply(w, ReadReg(ch, r)).ch[ch] == ReadByte(w.ch[ch], r, true).0;
  }

  // ---------------------------------------------------------------- a pair of writes programs exactly its value

  /** `c` is channel `a` after one register has been programmed with `value`. */
  predicate Programmed(a: Channel, c: Channel, r: Register, value: nat) {
    && RegisterOf(c, r) == value && !c.inIO && !c.delay
    && (r.Address? ==> c.index == 0 && c.addr == a.addr - a.addr % 0x1_0000 + value && c.countReg == a.countReg)
    && (r.Count? ==> c.counter == value + 1 && c.cur == value + 1 && c.addr == a.addr && c.addrReg == a.addrReg)
  }

  lemma WritePairOnChannel(a: Channel, r: Register, value: nat, b: Channel)
    requires ChannelOk(a) && value < 0x1_0000 && Frozen(WriteByte(a, r, false, value % 0x100), b)
    ensures Programmed(a, WriteByte(b, r, true, value / 0x100), r, value)
  {
    var v1 := HalfWritten(RegisterOf(a, r), false, value % 0x100);
    HalvesMakeValue(RegisterOf(a, r), value);
    AddrLow(a.addr, v1);
    hide HalfWritten, ChannelOk;
    assert RegisterOf(b, r) == v1;
  }

  lemma HalvesMakeValue(v: nat, value: nat)
    requires v < 0x1_0000 && value < 0x1_0000
    ensures value / 0x100 < 0x100 && HalfWritten(v, false, value % 0x100) < 0x1_0000
    ensures HalfWritten(HalfWritten(v, false, value % 0x100), true, value / 0x100) == value
  {
    DivMod(v, 0x100);
    DivMod(value, 0x100);
    DivModUnique(v - v % 0x100 + value % 0x100, 0x100, v / 0x100, value % 0x100);
  }

  /**
   * A two-byte write that starts with the flip-flop even ends with exactly the programmed value and
   * a fresh transfer position, whatever progress is reported between its halves.
   */
  lemma PairWriteProgramsValue(v: View, ch: nat, r: Register, value: nat, es: seq<Event>)
    requires Ok(v) && ch < 8 && !v.odd[Ctrl(ch)] && value < 0x1_0000
    requires EventsOk(es) && AllBetween(es, ch) && EventOk(WriteReg(ch, r, value / 0x100))
    ensures var w := Run(Apply(v, WriteReg(ch, r, value % 0x100)), es);
            var z := Apply(w, WriteReg(ch, r, value / 0x100));
            !z.odd[Ctrl(ch)] && Programmed(v.ch[ch], z.ch[ch], r, value)
  {
    var v1 := Apply(v, WriteReg(ch, r, value % 0x100));
    assert v1.ch[ch] == WriteByte(v.ch[ch], r, false, value % 0x100) && v1.odd[Ctrl(ch)];
    OpenPairFrozen(v1, es, ch);
    var w := Run(v1, es);
    WritePairOnChannel(v.ch[ch], r, value, w.ch[ch]);
    assert Apply(w, WriteReg(ch, r, value / 0x100)).ch[ch] == WriteByte(w.ch[ch], r, true, value / 0x100);
  }

  // ---------------------------------------------------------------- auto-initialised runs

  /** The engine's position and the visible registers agree; an open pair may lag by delayed progress. */
  predicate InStep(c: Channel) {
    && c.counter >= 1 && 0 <= c.index < c.counter && c.index + c.cur == c.counter
    && (c.delay || Current(c))
    && (c.delay ==> c.inIO)
  }

  /** A tick moving `n` whole units, no more than remain. */
  predicate MovesUnits(e: Event, c: Channel, ch: nat, n: nat) {
    && e == Tick(ch, (c.index + n) * Unit(ch), (c.cur - n) * Unit(ch))
    && n <= c.cur
  }

  /** What leaves the programming of `ch` alone: any read, and anything addressed to other channels. */
  predicate Unprogrammed(e: Event, ch: nat) {
    match e
    case Tick(d, _, _) => d != ch
    case ReadReg(_, _) => true
    case WriteReg(d, _, _) => d != ch
    case ClearFlipFlop(_) => true
    case SetMode(d, _) => d != ch
    case SetPage(d, _) => d != ch
    case ReadStatus => true
    case Other => true
  }

  /** A run that never reprograms `ch` and whose ticks on it move whole remaining units. */
  ghost predicate TickingRun(v: View, es: seq<Event>, ch: nat)
    requires Ok(v) && EventsOk(es) && ch < 8
    decreases |es|
  {
    es == [] ||
    (&& (Unprogrammed(es[0], ch) || exists n: nat :: MovesUnits(es[0], v.ch[ch], ch, n))
     && TickingRun(Apply(v, es[0]), es[1..], ch))
  }

  lemma UnitDivision(k: int, size: nat)
    requires k >= 0 && 1 <= size <= 2
    ensures TDiv(k * size, size) == k
  {
  }

  lemma TickKeepsInStep(c: Channel, ch: nat, n: nat)
    requires InStep(c) && Auto(c) && n <= c.cur
    ensures var c' := Progress(c, Unit(ch), (c.index + n) * Unit(ch), (c.cur - n) * Unit(ch));
            && InStep(c') && Auto(c') && c'.counter == c.counter && c'.addr == c.addr
            && c'.index == (if n == c.cur then 0 else c.index + n)
            && (c'.complete <==> c.complete || n == c.cur)
  {
    UnitDivision(c.index + n, Unit(ch));
    UnitDivision(c.cur - n, Unit(ch));
    UnitDivision(c.counter, Unit(ch));
  }

  lemma UnprogrammedKeepsInStep(v: View, e: Event, ch: nat)
    requires Ok(v) && EventOk(e) && ch < 8 && InStep(v.ch[ch]) && Auto(v.ch[ch]) && Unprogrammed(e, ch)
    ensures var c := Apply(v, e).ch[ch];
            InStep(c) && Auto(c) && c.counter == v.ch[ch].counter
  {
    if e.ReadReg? && e.ch == ch {
      var c := ReadByte(v.ch[ch], e.r, v.odd[Ctrl(ch)]).0;
      assert InStep(c) && Auto(c);
    }
  }

  /** Over any run without reprogramming an auto-initialised channel stays in step. */
  lemma {:induction false} AutoRunStaysInStep(v: View, es: seq<Event>, ch: nat)
    requires Ok(v) && EventsOk(es) && ch < 8 && InStep(v.ch[ch]) && Auto(v.ch[ch])
    requires TickingRun(v, es, ch)
    ensures var c := Run(v, es).ch[ch];
            && c.index + c.cur == c.counter == v.ch[ch].counter && 0 <= c.index < c.counter
            && (!c.inIO ==> Current(c))
    decreases |es|
  {
    if es != [] {
      if Unprogrammed(es[0], ch) {
        UnprogrammedKeepsInStep(v, es[0], ch);
      } else {
        var n: nat :| MovesUnits(es[0], v.ch[ch], ch, n);
        TickKeepsInStep(v.ch[ch], ch, n);
      }
      AutoRunStaysInStep(Apply(v, es[0]), es[1..], ch);
    }
  }

  /** A channel after both halves of a register have been written with nothing in between. */
  function Program(c: Channel, r: Register, value: nat): (c': Channel) {
    WriteByte(WriteByte(c, r, false, value % 0x100), r, true, value / 0x100)
  }

  /** Programming address and counter puts a channel in step with exactly the programmed values. */
  lemma ProgrammingStartsInStep(c: Channel, start: nat, length: nat)
    requires ChannelOk(c) && start < 0x1_0000 && 1 <= length <= 0x1_0000
    ensures var c' := Program(Program(c, Address, start), Count, length - 1);
            InStep(c') && c'.index == 0 && c'.cur == c'.counter == length && c'.addr % 0x1_0000 == start
  {
    WritePairOnChannel(c, Address, start, WriteByte(c, Address, false, start % 0x100));
    var c2 := Program(c, Address, start);
    WritePairOnChannel(c2, Count, length - 1, WriteByte(c2, Count, false, (length - 1) % 0x100));
    ProgramKeepsIndex(c2, Count, length - 1);
    BothProgrammed(c, c2, Program(c2, Count, length - 1), start, length);
  }

  lemma BothProgrammed(c: Channel, c2: Channel, c3: Channel, start: nat, length: nat)
    requires ChannelOk(c) && start < 0x1_0000 && 1 <= length <= 0x1_0000
    requires Programmed(c, c2, Address, start) && Programmed(c2, c3, Count, length - 1) && c3.index == c2.index
    ensures InStep(c3) && c3.index == 0 && c3.cur == c3.counter == length && c3.addr % 0x1_0000 == start
  {
    AddrLow(c.addr, start);
  }

  lemma AddrLow(addr: nat, start: nat)
    requires start < 0x1_0000
    ensures (addr - addr % 0x1_0000 + start) % 0x1_0000 == start
  {
  }

  lemma ProgramKeepsIndex(c: Channel, r: Register, value: nat)
    requires r.Count?
    ensures Program(c, r, value).index == c.index
  {
  }

  // ---------------------------------------------------------------- ports

  /** The ports the emulator traps. */
  predicate Trapped(port: nat) {
    || port <= 0x0f
    || port in {0x81, 0x82, 0x83, 0x87, 0x89, 0x8a, 0x8b, 0x8f}
    || (0xc0 <= port <= 0xde && port % 2 == 0)
  }

  function PageChannel(port: nat): (ch: nat)
    ensures ch < 8
  {
    match port
    case 0x81 => 2
    case 0x82 => 3
    case 0x83 => 1
    case 0x89 => 6
    case 0x8a => 7
    case 0x8b => 5
    case 0x8f => 4
    case _ => 0
  }

  function PortRegister(odd: bool): (r: Register) { if odd then Count else Address }

  /** The meaning of a write to one of a controller's byte-wide registers 8 to 15. */
  function ControlEvent(k: nat, reg: nat, byte: nat): (e: Event) {
    if reg == 0x0b then SetMode(4 * k + byte % 4, byte)
    else if reg == 0x0c then ClearFlipFlop(k)
    else Other
  }

  /** The meaning of a guest write. */
  function WriteEvent(port: nat, byte: nat): (e: Event)
    requires Trapped(port)
  {
    if port <= 0x07 then WriteReg(port / 2, PortRegister(port % 2 == 1), byte)
    else if port <= 0x0f then ControlEvent(0, port, byte)
    else if 0x80 <= port <= 0x8f then SetPage(PageChannel(port), byte)
    else if 0xc0 <= port <= 0xce then WriteReg(4 + (port - 0xc0) / 4, PortRegister((port - 0xc0) % 4 == 2), byte)
    else ControlEvent(1, (port - 0xd0) / 2 + 8, byte)
  }

  /** The meaning of a guest read of a port other than the status port. */
  function ReadEvent(port: nat): (e: Event)
    requires Trapped(port)
  {
    if port <= 0x07 then ReadReg(port / 2, PortRegister(port % 2 == 1))
    else if 0xc0 <= port <= 0xce then ReadReg(4 + (port - 0xc0) / 4, PortRegister((port - 0xc0) % 4 == 2))
    else Other
  }

  /** The byte a read returns, `hw` being what the real controller answers. */
  function PortByte(v: View, port: nat, hw: nat): (b: nat)
    requires Ok(v) && Trapped(port)
  {
    var e := ReadEvent(port);
    if e.ReadReg? && v.ch[e.ch].virt then ByteRead(v, e.ch, e.r)
    else if 0x80 <= port <= 0x8f && v.ch[PageChannel(port)].virt then v.ch[PageChannel(port)].page
    else hw
  }

  // ---------------------------------------------------------------- ports, channel by channel

  /** The ports of a channel as the PC assigns them: page, address and counter. */
  function PagePort(ch: nat): (port: nat) {
    match ch
    case 0 => 0x87
    case 1 => 0x83
    case 2 => 0x81
    case 3 => 0x82
    case 4 => 0x8f
    case 5 => 0x8b
    case 6 => 0x89
    case _ => 0x8a
  }

  function AddressPort(ch: nat): (port: nat) {
    match ch
    case 0 => 0x00
    case 1 => 0x02
    case 2 => 0x04
    case 3 => 0x06
    case 4 => 0xc0
    case 5 => 0xc4
    case 6 => 0xc8
    case _ => 0xcc
  }

  function CounterPort(ch: nat): (port: nat) {
    match ch
    case 0 => 0x01
    case 1 => 0x03
    case 2 => 0x05
    case 3 => 0x07
    case 4 => 0xc2
    case 5 => 0xc6
    case 6 => 0xca
    case _ => 0xce
  }

  function FlipFlopPort(ch: nat): (port: nat) { if ch <= 3 then 0x0c else 0xd8 }

  function ModePort(ch: nat): (port: nat) { if ch <= 3 then 0x0b else 0xd6 }

  lemma PortsAreTrapped(ch: nat)
    requires ch < 8
    ensures Trapped(PagePort(ch)) && Trapped(AddressPort(ch)) && Trapped(CounterPort(ch))
    ensures Trapped(FlipFlopPort(ch)) && Trapped(ModePort(ch))
  {
  }

  /** An access to a channel's port is an access to that channel's register. */
  lemma PortsOfChannel(ch: nat, byte: nat)
    requires ch < 8 && byte < 0x100
    ensures Trapped(PagePort(ch)) && Trapped(AddressPort(ch)) && Trapped(CounterPort(ch))
    ensures Trapped(FlipFlopPort(ch)) && Trapped(ModePort(ch))
    ensures WriteEvent(PagePort(ch), byte) == SetPage(ch, byte)
    ensures WriteEvent(AddressPort(ch), byte) == WriteReg(ch, Address, byte)
    ensures WriteEvent(CounterPort(ch), byte) == WriteReg(ch, Count, byte)
    ensures WriteEvent(FlipFlopPort(ch), byte) == ClearFlipFlop(Ctrl(ch))
    ensures WriteEvent(ModePort(ch), byte) == SetMode((if ch <= 3 then 0 else 4) + byte % 4, byte)
    ensures ReadEvent(AddressPort(ch)) == ReadReg(ch, Address) && ReadEvent(CounterPort(ch)) == ReadReg(ch, Count)
  {
  }

  /** All trapped ports: those of the channels, and the byte-wide ones of both controllers. */
  lemma TrappedPorts(port: nat)
    ensures Trapped(port) <==>
      || (exists ch :: 0 <= ch < 8 && (port == PagePort(ch) || port == AddressPort(ch) || port == CounterPort(ch)))
      || port in {0x08, 0x09, 0x0a, 0x0b, 0x0c, 0x0d, 0x0e, 0x0f}
      || port in {0xd0, 0xd2, 0xd4, 0xd6, 0xd8, 0xda, 0xdc, 0xde}
  {
    forall ch | 0 <= ch < 8 ensures Trapped(PagePort(ch)) && Trapped(AddressPort(ch)) && Trapped(CounterPort(ch)) {
      PortsAreTrapped(ch);
    }
    assert PagePort(0) == 0x87 && PagePort(1) == 0x83 && PagePort(2) == 0x81 && PagePort(3) == 0x82;
    assert PagePort(4) == 0x8f && PagePort(5) == 0x8b && PagePort(6) == 0x89 && PagePort(7) == 0x8a;
    assert AddressPort(0) == 0 && AddressPort(1) == 2 && AddressPort(2) == 4 && AddressPort(3) == 6;
    assert AddressPort(4) == 0xc0 && AddressPort(5) == 0xc4 && AddressPort(6) == 0xc8 && AddressPort(7) == 0xcc;
    assert CounterPort(0) == 1 && CounterPort(1) == 3 && CounterPort(2) == 5 && CounterPort(3) == 7;
    assert CounterPort(4) == 0xc2 && CounterPort(5) == 0xc6 && CounterPort(6) == 0xca && CounterPort(7) == 0xce;
  }

  /** A guest write. */
  function Out(v: View, port: nat, byte: nat): (v': View)
    requires Ok(v) && Trapped(port) && byte < 0x100
    ensures Ok(v')
  {
    Apply(v, WriteEvent(port, byte))
  }

  /** What a guest writes to program a channel: flip-flop, page, both address bytes, both length bytes. */
  function ProgramPorts(v: View, ch: nat, page: nat, address: nat, length: nat): (v': View)
    requires Ok(v) && ch < 8 && page < 0x100 && address < 0x1_0000 && 1 <= length <= 0x1_0000
    ensures Ok(v')
  {
    PortsAreTrapped(ch);
    var a := Out(Out(v, FlipFlopPort(ch), 0), PagePort(ch), page);
    var b := Out(Out(a, AddressPort(ch), address % 0x100), AddressPort(ch), address / 0x100);
    Out(Out(b, CounterPort(ch), (length - 1) % 0x100), CounterPort(ch), (length - 1) / 0x100)
  }

  /** The channel that the ports belong to, and no other, gets the values. */
  lemma PortsProgramChannel(v: View, ch: nat, page: nat, address: nat, length: nat)
    requires Ok(v) && ch < 8 && page < 0x100 && address < 0x1_0000 && 1 <= length <= 0x1_0000
    ensures var z := ProgramPorts(v, ch, page, address, length);
            && (forall i :: 0 <= i < 8 && i != ch ==> z.ch[i] == v.ch[i])
            && InStep(z.ch[ch]) && z.ch[ch].addr == page * 0x1_0000 + address && z.ch[ch].page == page
            && z.ch[ch].index == 0 && z.ch[ch].cur == length && !z.odd[Ctrl(ch)]
            && z.ch[ch].mode == v.ch[ch].mode && z.ch[ch].virt == v.ch[ch].virt
  {
    WritesAreEvents(v, ch, page, address, length);
    EventsProgram(v, ch, page, address, length);
    hide *;
  }

  /** Those writes as events. */
  function Events(v: View, ch: nat, page: nat, address: nat, length: nat): (v': View)
    requires Ok(v) && ch < 8 && page < 0x100 && address < 0x1_0000 && 1 <= length <= 0x1_0000
    ensures Ok(v')
  {
    var a := Apply(Apply(v, ClearFlipFlop(Ctrl(ch))), SetPage(ch, page));
    var b := Apply(Apply(a, WriteReg(ch, Address, address % 0x100)), WriteReg(ch, Address, address / 0x100));
    Apply(Apply(b, WriteReg(ch, Count, (length - 1) % 0x100)), WriteReg(ch, Count, (length - 1) / 0x100))
  }

  lemma SmallBytes(value: nat)
    requires value < 0x1_0000
    ensures value % 0x100 < 0x100 && value / 0x100 < 0x100
  {
  }

  lemma OutToChannel(v: View, ch: nat, byte: nat)
    requires Ok(v) && ch < 8 && byte < 0x100
    ensures Trapped(PagePort(ch)) && Out(v, PagePort(ch), byte) == Apply(v, SetPage(ch, byte))
    ensures Trapped(AddressPort(ch)) && Out(v, AddressPort(ch), byte) == Apply(v, WriteReg(ch, Address, byte))
    ensures Trapped(CounterPort(ch)) && Out(v, CounterPort(ch), byte) == Apply(v, WriteReg(ch, Count, byte))
    ensures Trapped(FlipFlopPort(ch)) && Out(v, FlipFlopPort(ch), byte) == Apply(v, ClearFlipFlop(Ctrl(ch)))
  {
    PortsOfChannel(ch, byte);
    hide Trapped, WriteEvent, Apply, AddressPort, CounterPort, PagePort, FlipFlopPort, ModePort, Ctrl, ReadEvent, Ok;
  }

  lemma WritesAreEvents(v: View, ch: nat, page: nat, address: nat, length: nat)
    requires Ok(v) && ch < 8 && page < 0x100 && address < 0x1_0000 && 1 <= length <= 0x1_0000
    ensures ProgramPorts(v, ch, page, address, length) == Events(v, ch, page, address, length)
  {
    SmallBytes(address);
    SmallBytes(length - 1);
    hide Trapped, Out, Apply, AddressPort, CounterPort, PagePort, FlipFlopPort, Ctrl, Ok;
    OutToChannel(v, ch, 0);
    var v1 := Apply(v, ClearFlipFlop(Ctrl(ch)));
    OutToChannel(v1, ch, page);
    var v2 := Apply(v1, SetPage(ch, page));
    OutToChannel(v2, ch, address % 0x100);
    var v3 := Apply(v2, WriteReg(ch, Address, address % 0x100));
    OutToChannel(v3, ch, address / 0x100);
    var v4 := Apply(v3, WriteReg(ch, Address, address / 0x100));
    OutToChannel(v4, ch, (length - 1) % 0x100);
    OutToChannel(Apply(v4, WriteReg(ch, Count, (length - 1) % 0x100)), ch, (length - 1) / 0x100);
  }

  lemma EventsProgram(v: View, ch: nat, page: nat, address: nat, length: nat)
    requires Ok(v) && ch < 8 && page < 0x100 && address < 0x1_0000 && 1 <= length <= 0x1_0000
    ensures var z := Events(v, ch, page, address, length);
            && (forall i :: 0 <= i < 8 && i != ch ==> z.ch[i] == v.ch[i])
            && InStep(z.ch[ch]) && z.ch[ch].addr == page * 0x1_0000 + address && z.ch[ch].page == page
            && z.ch[ch].index == 0 && z.ch[ch].cur == length && !z.odd[Ctrl(ch)]
            && z.ch[ch].mode == v.ch[ch].mode && z.ch[ch].virt == v.ch[ch].virt
  {
    var c := WritePage(v.ch[ch], page);
    ProgrammingStartsInStep(c, address, length);
    EventsChannel(v, ch, page, address, length);
    ProgramKeepsRest(c, Address, address);
    ProgramKeepsRest(Program(c, Address, address), Count, length - 1);
    hide Program, Events, InStep;
    AddrHigh(page * 0x1_0000 + c.addr % 0x1_0000, page, Program(Program(c, Address, address), Count, length - 1).addr);
  }

  lemma EventsChannel(v: View, ch: nat, page: nat, address: nat, length: nat)
    requires Ok(v) && ch < 8 && page < 0x100 && address < 0x1_0000 && 1 <= length <= 0x1_0000
    ensures var z := Events(v, ch, page, address, length);
            && (forall i :: 0 <= i < 8 && i != ch ==> z.ch[i] == v.ch[i])
            && z.ch[ch] == Program(Program(WritePage(v.ch[ch], page), Address, address), Count, length - 1)
            && !z.odd[Ctrl(ch)]
  {
    hide WriteByte, WritePage;
  }

  lemma ProgramKeepsRest(c: Channel, r: Register, value: nat)
    requires ChannelOk(c) && value < 0x1_0000
    ensures var c' := Program(c, r, value);
            c'.addr / 0x1_0000 == c.addr / 0x1_0000 && c'.page == c.page && c'.mode == c.mode && c'.virt == c.virt
  {
    WritePairOnChannel(c, r, value, WriteByte(c, r, false, value % 0x100));
    hide WriteByte;
    if r.Address? {
      SameHigh(c.addr, value);
    }
    PairKeepsRest(c, r, value);
  }

  lemma SameHigh(addr: nat, value: nat)
    requires value < 0x1_0000
    ensures (addr - addr % 0x1_0000 + value) / 0x1_0000 == addr / 0x1_0000
  {
  }

  lemma PairKeepsRest(c: Channel, r: Register, value: nat)
    ensures var c' := Program(c, r, value);
            c'.page == c.page && c'.mode == c.mode && c'.virt == c.virt
  {
  }

  lemma AddrHigh(with: nat, page: nat, addr: nat)
    requires with / 0x1_0000 == page && addr / 0x1_0000 == page
    ensures addr == page * 0x1_0000 + addr % 0x1_0000
  {
  }

  /**
   * So the transfer engine sees the bytes the guest asked for: on the 8-bit channels the page in front of the
   * address, on the 16-bit ones twice the address, its carry or-ed into the page; and the length in bytes.
   */
  lemma EngineSeesProgramming(v: View, ch: nat, page: nat, address: nat, length: nat)
    requires Ok(v) && ch < 8 && page < 0x100 && address < 0x1_0000 && 1 <= length <= 0x1_0000
    ensures var c := ProgramPorts(v, ch, page, address, length).ch[ch]; var a := ByteAddress(c.addr, Unit(ch));
            && (ch <= 3 ==> a == page * 0x1_0000 + address && c.cur * Unit(ch) == length)
            && (ch >= 4 ==>
              && a % 0x1_0000 == 2 * address % 0x1_0000 && c.cur * Unit(ch) == 2 * length
              && a / 0x1_0000 == if address >= 0x8000 && page % 2 == 0 then page + 1 else page)
  {
    PortsProgramChannel(v, ch, page, address, length);
    var c := ProgramPorts(v, ch, page, address, length).ch[ch];
    AddressSeen(ch, page, address, c.addr, c.cur, length);
    hide *;
  }

  lemma AddressSeen(ch: nat, page: nat, address: nat, addr: nat, cur: int, length: nat)
    requires page < 0x100 && address < 0x1_0000 && addr == page * 0x1_0000 + address && cur == length
    ensures var a := ByteAddress(addr, Unit(ch));
            && (ch <= 3 ==> a == page * 0x1_0000 + address && cur * Unit(ch) == length)
            && (ch >= 4 ==>
              && a % 0x1_0000 == 2 * address % 0x1_0000 && cur * Unit(ch) == 2 * length
              && a / 0x1_0000 == if address >= 0x8000 && page % 2 == 0 then page + 1 else page)
  {
    EightBitAddress(page, address);
    SixteenBitAddress(page, address);
    hide ByteAddress;
  }

  lemma EightBitAddress(page: nat, address: nat)
    requires page < 0x100 && address < 0x1_0000
    ensures ByteAddress(page * 0x1_0000 + address, 1) == page * 0x1_0000 + address
  {
  }

  lemma SixteenBitAddress(page: nat, address: nat)
    requires page < 0x100 && address < 0x1_0000
    ensures var a := ByteAddress(page * 0x1_0000 + address, 2);
            && a % 0x1_0000 == 2 * address % 0x1_0000
            && a / 0x1_0000 == if address >= 0x8000 && page % 2 == 0 then page + 1 else page
  {
  }

  /** A page written by itself moves the start to that page, keeps the address in it, and restarts the position. */
  lemma PageRestarts(v: View, ch: nat, page: nat)
    requires Ok(v) && ch < 8 && page < 0x100
    ensures Trapped(PagePort(ch))
    ensures var z := Out(v, PagePort(ch), page); var c := z.ch[ch];
            && c == v.ch[ch].(page := page, index := 0, addr := c.addr)
            && c.addr == page * 0x1_0000 + v.ch[ch].addr % 0x1_0000
            && z.odd == v.odd && forall i :: 0 <= i < 8 && i != ch ==> z.ch[i] == v.ch[i]
  {
    PortsOfChannel(ch, page);
  }

  /** A page is read back from the port it was written to, if the channel is emulated. */
  lemma PageIsReadBack(v: View, ch: nat, page: nat, hw: nat)
    requires Ok(v) && ch < 8 && page < 0x100
    ensures Trapped(PagePort(ch)) && EventOk(WriteEvent(PagePort(ch), page))
    ensures PortByte(Apply(v, WriteEvent(PagePort(ch), page)), PagePort(ch), hw) == if v.ch[ch].virt then page else hw
  {
    PortsOfChannel(ch, page);
  }

  /** The emulator's entries for one channel besides its two visible registers. */
  datatype Slot = Slot(page: nat, mode: nat, virt: bool, addr: nat, index: int, counter: int, cur: int,
                       inIO: bool, delay: bool, complete: bool)

  /** The emulator's layout: one flat register file for both controllers, and the per-channel entries. */
  datatype Tables = Tables(regs: seq<nat>, slots: seq<Slot>)

  ghost predicate TablesOk(t: Tables) {
    && |t.regs| == 32 && |t.slots| == 8
    && (forall i :: 0 <= i < 32 ==> t.regs[i] < 0x1_0000)
    && (forall i :: 0 <= i < 8 ==> SlotOk(t.slots[i]))
  }

  predicate SlotOk(s: Slot) { s.page < 0x100 && s.mode < 0x100 && s.addr < 0x100_0000 }

  function Join(addrReg: nat, countReg: nat, s: Slot): (c: Channel) {
    Channel(addrReg, countReg, s.page, s.mode, s.virt, s.addr, s.index, s.counter, s.cur, s.inIO, s.delay, s.complete)
  }

  ghost function ChannelAt(t: Tables, i: nat): (c: Channel)
    requires TablesOk(t) && i < 8
    ensures ChannelOk(c)
  {
    Join(t.regs[Base(i)], t.regs[Base(i) + 1], t.slots[i])
  }

  ghost function ViewOf(t: Tables): (v: View)
    requires TablesOk(t)
    ensures Ok(v)
  {
    View(seq(8, i requires 0 <= i < 8 => ChannelAt(t, i)), [t.regs[FLIPFLOP] % 2 == 1, t.regs[16 + FLIPFLOP] % 2 == 1])
  }

  /** Outside channel `ch`'s entries and controller `k`'s flip-flop, `u` is `t`. */
  ghost predicate SameExcept(t: Tables, u: Tables, ch: nat, k: nat)
    requires TablesOk(t) && TablesOk(u) && ch < 8 && k < 2
  {
    && (forall i :: 0 <= i < 32 && i != Base(ch) && i != Base(ch) + 1 && i % 16 < 8 ==> u.regs[i] == t.regs[i])
    && u.regs[16 * (1 - k) + FLIPFLOP] == t.regs[16 * (1 - k) + FLIPFLOP]
    && u.slots == t.slots[ch := u.slots[ch]]
  }

  lemma OneChannelChanged(t: Tables, u: Tables, ch: nat, k: nat)
    requires TablesOk(t) && TablesOk(u) && ch < 8 && k < 2 && SameExcept(t, u, ch, k)
    ensures ViewOf(u) == View(ViewOf(t).ch[ch := ChannelAt(u, ch)],
                              ViewOf(t).odd[k := u.regs[16 * k + FLIPFLOP] % 2 == 1])
  {
    forall i | 0 <= i < 8 && i != ch
      ensures ChannelAt(u, i) == ChannelAt(t, i)
    {
      assert Base(i) % 16 < 8 && (Base(i) + 1) % 16 < 8;
    }
    assert ViewOf(u).ch == ViewOf(t).ch[ch := ChannelAt(u, ch)];
    assert ViewOf(u).odd == ViewOf(t).odd[k := u.regs[16 * k + FLIPFLOP] % 2 == 1];
  }

  lemma ViewAt(t: Tables, ch: nat)
    requires TablesOk(t) && ch < 8
    ensures ViewOf(t).ch[ch] == ChannelAt(t, ch)
    ensures ViewOf(t).odd[Ctrl(ch)] == (t.regs[16 * Ctrl(ch) + FLIPFLOP] % 2 == 1)
  {
  }

  /** The tables after an access to channel `ch` that also sets flip-flop `k` to `flip`. */
  ghost function Accessed(t: Tables, ch: nat, k: nat, flip: nat, addrReg: nat, countReg: nat, s: Slot): (u: Tables)
    requires TablesOk(t) && ch < 8 && k < 2
  {
    Tables(t.regs[16 * k + FLIPFLOP := flip][Base(ch) := addrReg][Base(ch) + 1 := countReg], t.slots[ch := s])
  }

  lemma AccessedView(t: Tables, ch: nat, k: nat, flip: nat, addrReg: nat, countReg: nat, s: Slot)
    requires TablesOk(t) && ch < 8 && k < 2
    requires flip < 0x1_0000 && addrReg < 0x1_0000 && countReg < 0x1_0000 && SlotOk(s)
    ensures var u := Accessed(t, ch, k, flip, addrReg, countReg, s);
            TablesOk(u) && ViewOf(u) == View(ViewOf(t).ch[ch := Join(addrReg, countReg, s)],
                ViewOf(t).odd[k := flip % 2 == 1])
  {
    OneChannelChanged(t, Accessed(t, ch, k, flip, addrReg, countReg, s), ch, k);
  }

  ghost function Flip(t: Tables, k: nat): (f: nat)
    requires TablesOk(t) && k < 2
  {
    U16(t.regs[16 * k + FLIPFLOP] + 1)
  }

  lemma WriteEffect(t: Tables, ch: nat, r: Register, byte: nat, value: nat, s: Slot)
    requires TablesOk(t) && ch < 8 && byte < 0x100
    requires var odd := t.regs[16 * Ctrl(ch) + FLIPFLOP] % 2 == 1;
             var a := t.slots[ch];
             var b := a.(inIO := !odd, delay := a.delay && !odd);
             && value == HalfWritten(RegisterOf(ChannelAt(t, ch), r), odd, byte)
             && s == if r.Address? then b.(index := 0, addr := a.addr - a.addr % 0x1_0000 + value)
                     else b.(counter := value + 1, cur := value + 1)
    ensures var u := Accessed(t, ch, Ctrl(ch), Flip(t, Ctrl(ch)),
                              if r.Address? then value else t.regs[Base(ch)],
                              if r.Count? then value else t.regs[Base(ch) + 1], s);
            TablesOk(u) && ViewOf(u) == Apply(ViewOf(t), WriteReg(ch, r, byte))
  {
    ViewAt(t, ch);
    AccessedView(t, ch, Ctrl(ch), Flip(t, Ctrl(ch)), if r.Address? then value else t.regs[Base(ch)],
                 if r.Count? then value else t.regs[Base(ch) + 1], s);
  }

  lemma ReadEffect(t: Tables, ch: nat, r: Register)
    requires TablesOk(t) && ch < 8 && t.slots[ch].virt
    ensures var odd := t.regs[16 * Ctrl(ch) + FLIPFLOP] % 2 == 1;
            var a := t.slots[ch];
            var published := odd && a.delay;
            var u := Accessed(t, ch, Ctrl(ch), Flip(t, Ctrl(ch)),
                              if published then U16(a.addr + a.index) else t.regs[Base(ch)],
                              if published then U16(a.cur - 1) else t.regs[Base(ch) + 1],
                              a.(page := if published then U8((a.addr + a.index) / 0x1_0000) else a.page,
                                 inIO := !odd, delay := a.delay && !odd));
            TablesOk(u) && ViewOf(u) == Apply(ViewOf(t), ReadReg(ch, r))
  {
    ViewAt(t, ch);
    var c := ReadByte(ChannelAt(t, ch), r, t.regs[16 * Ctrl(ch) + FLIPFLOP] % 2 == 1).0;
    AccessedView(t, ch, Ctrl(ch), Flip(t, Ctrl(ch)), c.addrReg, c.countReg, SlotOf(c));
  }

  function SlotOf(c: Channel): (s: Slot) {
    Slot(c.page, c.mode, c.virt, c.addr, c.index, c.counter, c.cur, c.inIO, c.delay, c.complete)
  }

  lemma TickEffect(t: Tables, ch: nat, index: int, counter: int)
    requires TablesOk(t) && ch < 8
    ensures var c := Progress(ChannelAt(t, ch), Unit(ch), index, counter);
            var u := Tables(t.regs[Base(ch) := c.addrReg][Base(ch) + 1 := c.countReg], t.slots[ch := SlotOf(c)]);
            TablesOk(u) && ViewOf(u) == Apply(ViewOf(t), Tick(ch, index, counter))
  {
    ViewAt(t, ch);
    var c := Progress(ChannelAt(t, ch), Unit(ch), index, counter);
    AccessedView(t, ch, 0, t.regs[FLIPFLOP], c.addrReg, c.countReg, SlotOf(c));
    assert t.regs[FLIPFLOP := t.regs[FLIPFLOP]] == t.regs;
    assert ViewOf(t).odd[0 := ViewOf(t).odd[0]] == ViewOf(t).odd;
  }

  lemma FlipFlopCleared(t: Tables, k: nat)
    requires TablesOk(t) && k < 2
    ensures var u := Tables(t.regs[16 * k + FLIPFLOP := 0], t.slots);
            TablesOk(u) && ViewOf(u) == Apply(ViewOf(t), ClearFlipFlop(k))
  {
    var u := Tables(t.regs[16 * k + FLIPFLOP := 0], t.slots);
    OneChannelChanged(t, u, 4 * k, k);
    assert ViewOf(t).ch[4 * k := ViewOf(t).ch[4 * k]] == ViewOf(t).ch;
  }

  lemma ModeSet(t: Tables, ch: nat, byte: nat)
    requires TablesOk(t) && ch < 8 && byte < 0x100
    ensures var u := Tables(t.regs, t.slots[ch := t.slots[ch].(mode := byte - byte % 4)]);
            TablesOk(u) && ViewOf(u) == Apply(ViewOf(t), SetMode(ch, byte))
  {
    var u := Tables(t.regs, t.slots[ch := t.slots[ch].(mode := byte - byte % 4)]);
    OneChannelChanged(t, u, ch, 0);
    assert ViewOf(t).odd[0 := ViewOf(t).odd[0]] == ViewOf(t).odd;
  }

  lemma OtherRegisterWritten(t: Tables, k: nat, reg: nat, byte: nat)
    requires TablesOk(t) && k < 2 && 8 <= reg < 16 && reg != FLIPFLOP && byte < 0x100
    ensures var u := Tables(t.regs[16 * k + reg := byte], t.slots);
            TablesOk(u) && ViewOf(u) == ViewOf(t)
  {
    var u := Tables(t.regs[16 * k + reg := byte], t.slots);
    OneChannelChanged(t, u, 4 * k, k);
    assert ViewOf(t).ch[4 * k := ViewOf(t).ch[4 * k]] == ViewOf(t).ch;
    assert ViewOf(t).odd[k := ViewOf(t).odd[k]] == ViewOf(t).odd;
  }

  /** Position of a channel's first register in the flat register file. */
  function Base(ch: nat): (b: nat) { if ch <= 3 then 2 * ch else 16 + 2 * (ch - 4) }

  const FLIPFLOP := 0x0c

  class Controller {
    var regs: seq<nat>
    var slots: seq<Slot>

    ghost predicate Valid()
      reads this
    {
      TablesOk(Tables(regs, slots))
    }

    ghost function Abs(): (v: View)
      reads this
      requires Valid()
    {
      ViewOf(Tables(regs, slots))
    }

    constructor ()
      ensures Valid()
      ensures Abs() == View(seq(8, i requires 0 <= i < 8 =>
                                  Channel(0, 0, 0, 0, false, 0, 0, 0, 0, false, false, false)),
                            [false, false])
    {
      regs := seq(32, _ => 0);
      slots := seq(8, _ => Slot(0, 0, false, 0, 0, 0, 0, false, false, false));
    }

    /** The channel's progress, remaining length and start address, in bytes. */
    function GetIndex(channel: nat): (n: int)
      reads this
      requires Valid() && channel < 8
      ensures n == Abs().ch[channel].index * Unit(channel)
    {
      slots[channel].index * Unit(channel)
    }

    function GetCounter(channel: nat): (n: int)
      reads this
      requires Valid() && channel < 8
      ensures n == Abs().ch[channel].cur * Unit(channel)
    {
      slots[channel].cur * Unit(channel)
    }

    function GetAddress(channel: nat): (a: nat)
      reads this
      requires Valid() && channel < 8
      ensures a == ByteAddress(Abs().ch[channel].addr, Unit(channel))
    {
      ByteAddress(slots[channel].addr, Unit(channel))
    }

    predicate GetAuto(channel: nat)
      reads this
      requires Valid() && channel < 8
      ensures GetAuto(channel) == Auto(Abs().ch[channel])
    {
      slots[channel].mode / 16 % 2 == 1
    }

    method Virtualize(channel: int, enable: bool)
      requires Valid()
      modifies this`slots
      ensures Valid()
      ensures Abs() == if 0 <= channel <= 7
                       then old(Abs()).(ch := old(Abs()).ch[channel := old(Abs()).ch[channel].(virt := enable)])
                       else old(Abs())
    {
      if channel >= 0 && channel <= 7 {
        slots := slots[channel := slots[channel].(virt := enable)];
        OneChannelChanged(old(Tables(regs, slots)), Tables(regs, slots), channel, 0);
      }
    }

    method Write(port: nat, byte: nat)
      requires Valid() && Trapped(port) && byte < 0x100
      modifies this
      ensures Valid() && EventOk(WriteEvent(port, byte))
      ensures Abs() == Apply(old(Abs()), WriteEvent(port, byte))
    {
      if (port >= 0x08 && port <= 0x0f) || (port >= 0xd0 && port <= 0xde) {
        if port >= 0xd0 {
          assert WriteEvent(port, byte) == ControlEvent(1, (port - 0xd0) / 2 + 8, byte);
          WriteControl(16, (port - 0xd0) / 2 + 8, 4, byte);
        } else {
          assert WriteEvent(port, byte) == ControlEvent(0, port, byte);
          WriteControl(0, port, 0, byte);
        }
      } else if port <= 0x07 {
        WriteRegister(port, FLIPFLOP, port / 2, PortRegister(port % 2 == 1), byte);
      } else if port >= 0xc0 && port <= 0xce {
        var port' := (port - 0xc0) / 2;
        assert WriteEvent(port, byte) == WriteReg(port' / 2 + 4, PortRegister(port' % 2 == 1), byte);
        WriteRegister(16 + port', 16 + FLIPFLOP, port' / 2 + 4, PortRegister(port' % 2 == 1), byte);
      } else {
        WritePageRegister(PageChannel(port), byte);
      }
    }

    /** Byte-wide registers of one controller: only the flip-flop and the modes matter to the emulator. */
    method WriteControl(base: nat, port: nat, channelbase: nat, byte: nat)
      requires Valid() && byte < 0x100 && 8 <= port <= 15
      requires (base == 0 && channelbase == 0) || (base == 16 && channelbase == 4)
      modifies this
      ensures Valid()
      ensures Abs() == Apply(old(Abs()), ControlEvent(base / 16, port, byte))
    {
      ghost var t := Tables(regs, slots);
      if port == FLIPFLOP {
        FlipFlopCleared(t, base / 16);
        regs := regs[base + port := 0];
      } else if port == 0x0b {
        var channel := channelbase + byte % 4;
        ModeSet(t, channel, byte);
        slots := slots[channel := slots[channel].(mode := byte - byte % 4)];
      } else {
        OtherRegisterWritten(t, base / 16, port, byte);
        regs := regs[base + port := byte];
      }
    }

    method WritePageRegister(channel: nat, byte: nat)
      requires Valid() && byte < 0x100 && channel < 8
      modifies this`slots
      ensures Valid()
      ensures Abs() == Apply(old(Abs()), SetPage(channel, byte))
    {
      var s := slots[channel];
      slots := slots[channel := s.(page := byte, index := 0, addr := s.addr % 0x1_0000 + byte * 0x1_0000)];
      OneChannelChanged(old(Tables(regs, slots)), Tables(regs, slots), channel, 0);
    }

    /** The byte-pair part of a register write; `at` is the register's place in the file. */
    method WriteRegister(at: nat, flip: nat, channel: nat, r: Register, byte: nat)
      requires Valid() && byte < 0x100 && channel < 8
      requires flip == 16 * Ctrl(channel) + FLIPFLOP && at == Base(channel) + (if r.Count? then 1 else 0)
      modifies this
      ensures Valid()
      ensures Abs() == Apply(old(Abs()), WriteReg(channel, r, byte))
    {
      hide Apply, ViewOf;
      ghost var t := Tables(regs, slots);
      var value, s := regs[at], slots[channel];
      var odd := regs[flip] % 2 == 1;
      if !odd {
        s := s.(inIO := true);
        value := value - value % 0x100 + byte;
      } else {
        value := value % 0x100 + byte * 0x100;
        s := s.(inIO := false, delay := false);
      }
      assert value == HalfWritten(regs[at], odd, byte);
      if r.Address? {
        s := s.(index := 0, addr := s.addr - s.addr % 0x1_0000 + value);
      } else {
        s := s.(counter := value + 1, cur := value + 1);
      }
      regs := regs[flip := U16(regs[flip] + 1)][at := value];
      slots := slots[channel := s];
      WriteEffect(t, channel, r, byte, value, s);
      assert regs == Accessed(t, channel, Ctrl(channel), U16(t.regs[flip] + 1),
                              if r.Address? then value else t.regs[Base(channel)],
                              if r.Count? then value else t.regs[Base(channel) + 1], s).regs;
    }

    /** `hw` is what an untrapped read of the port would return. */
    method Read(port: nat, hw: nat) returns (byte: nat)
      requires Valid() && Trapped(port) && port != 0x08
      modifies this
      ensures Valid() && EventOk(ReadEvent(port))
      ensures Abs() == Apply(old(Abs()), ReadEvent(port))
      ensures byte == PortByte(old(Abs()), port, hw)
    {
      var channel := -1;
      if port <= 0x07 {
        channel := port / 2;
      } else if port >= 0xc0 && port <= 0xce {
        channel := (port - 0xc0) / 4 + 4;
      } else if port >= 0x80 && port <= 0x8f {
        channel := PageChannel(port);
      }
      if channel == -1 || !slots[channel].virt {
        return hw;
      }
      if port >= 0x80 && port <= 0x8f {
        return slots[channel].page;
      }
      if port >= 0xc0 {
        var port' := (port - 0xc0) / 2;
        byte := ReadRegister(16 + port', 16 + FLIPFLOP, channel, PortRegister(port' % 2 == 1));
      } else {
        byte := ReadRegister(port, FLIPFLOP, channel, PortRegister(port % 2 == 1));
      }
    }

    method ReadRegister(at: nat, flip: nat, channel: nat, r: Register) returns (byte: nat)
      requires Valid() && channel < 8 && slots[channel].virt
      requires flip == 16 * Ctrl(channel) + FLIPFLOP && at == Base(channel) + (if r.Count? then 1 else 0)
      modifies this
      ensures Valid()
      ensures Abs() == Apply(old(Abs()), ReadReg(channel, r))
      ensures byte == ByteRead(old(Abs()), channel, r)
    {
      hide Apply, ViewOf;
      ghost var t := Tables(regs, slots);
      ReadEffect(t, channel, r);
      ViewAt(t, channel);
      var base2 := Base(channel);
      var value, s, addrReg, countReg := regs[at], slots[channel], regs[base2], regs[base2 + 1];
      assert value == RegisterOf(ChannelAt(t, channel), r);
      var odd := regs[flip] % 2 == 1;
      if !odd {
        s := s.(inIO := true);
        byte := U8(value);
      } else {
        byte := U8(value / 0x100);
        if s.delay {
          addrReg, countReg, s := UpdateRegisters(s);
        }
        s := s.(inIO := false, delay := false);
      }
      regs := regs[flip := U16(regs[flip] + 1)][base2 := addrReg][base2 + 1 := countReg];
      slots := slots[channel := s];
    }

    /** The registers that show the position of a channel's entry; its page is updated as well. */
    method UpdateRegisters(s: Slot) returns (addrReg: nat, countReg: nat, s': Slot)
      ensures addrReg == U16(s.addr + s.index) && countReg == U16(s.cur - 1)
      ensures s' == s.(page := U8((s.addr + s.index) / 0x1_0000))
    {
      countReg := U16(s.cur - 1);
      addrReg := U16(s.addr + s.index);
      s' := s.(page := U8((s.addr + s.index) / 0x1_0000));
    }

    /**
     * Status port. A status byte is given by the set of its bits; `hw` is the real controller's.
     * Bits of an emulated channel come from the emulator, and reading them clears completion.
     */
    method ReadStatusPort(hw: set<nat>) returns (status: set<nat>)
      requires Valid() && (forall b :: b in hw ==> b < 8)
      modifies this`slots
      ensures Valid()
      ensures Abs() == Apply(old(Abs()), ReadStatus)
      ensures status == StatusBits(old(Abs()), hw)
    {
      status := hw;
      ghost var was := slots;
      for i := 0 to 8
        invariant |slots| == 8 && |was| == 8
        invariant forall j :: 0 <= j < 8 ==>
                    slots[j] == if j < i && was[j].virt then was[j].(complete := false) else was[j]
        invariant forall b :: b in status ==> b < 8
        invariant forall b: nat :: b < 8 ==> (b in status <==> StatusBit(b, i, was, hw))
      {
        if slots[i].virt {
          status := status - {i, i + 4};
          if slots[i].complete {
            status := status + {i};
          }
          slots := slots[i := slots[i].(complete := false)];
        }
      }
      assert Abs().ch == Apply(old(Abs()), ReadStatus).ch;
      forall b: nat | b < 8
        ensures b in status <==> b in StatusBits(old(Abs()), hw)
      {
        assert StatusBit(b, 8, was, hw) <==> b in status;
        assert forall i :: 0 <= i < 8 ==>
          old(Abs()).ch[i].virt == was[i].virt && old(Abs()).ch[i].complete == was[i].complete;
      }
    }

    /** The entry after progress, before it is made visible. */
    method MoveSlot(s: Slot, size: nat, index: int, counter: int, ghost c: Channel) returns (s': Slot)
      requires size > 0 && s == SlotOf(c)
      ensures s' == SlotOf(Moved(c, size, index, counter))
    {
      s' := s;
      var index', counter' := index, counter;
      if counter <= 0 {
        counter' := 0x1_0000 * size;
        s' := s'.(complete := true);
        if s.mode / 16 % 2 == 1 {
          index' := 0;
          counter' := s.counter * size;
        }
      }
      s' := s'.(cur := TDiv(counter', size), index := TDiv(index', size));
    }

    /** Reports progress of a transfer in bytes; returns the new position in bytes. */
    method SetIndexCounter(channel: nat, index: int, counter: int) returns (position: int)
      requires Valid() && channel < 8
      modifies this
      ensures Valid()
      ensures Abs() == Apply(old(Abs()), Tick(channel, index, counter))
      ensures position == Progress(old(Abs()).ch[channel], Unit(channel), index, counter).index * Unit(channel)
    {
      ghost var t := Tables(regs, slots);
      TickEffect(t, channel, index, counter);
      ViewAt(t, channel);
      var size := if channel <= 3 then 1 else 2;
      ghost var c := ChannelAt(t, channel);
      var s := MoveSlot(slots[channel], size, index, counter, c);
      var base := Base(channel);
      var addrReg, countReg := regs[base], regs[base + 1];
      position := s.index * size;
      if !s.inIO {
        addrReg, countReg, s := UpdateRegisters(s);
      } else {
        s := s.(delay := true);
      }
      assert Join(addrReg, countReg, s) == Progress(c, size, index, counter);
      regs := regs[base := addrReg][base + 1 := countReg];
      slots := slots[channel := s];
    }
  }

  /** Bit `b` of the status byte once the first `i` channels have been looked at. */
  ghost predicate StatusBit(b: nat, i: nat, slots: seq<Slot>, hw: set<nat>)
    requires b < 8 && |slots| == 8
  {
    if b < i && slots[b].virt then slots[b].complete else b in hw && !(4 <= b < i + 4 && slots[b - 4].virt)
  }

  /** Bits of the status byte: bit i is channel i's completion; bit i + 4 its request, never pending. */
  function StatusBits(v: View, hw: set<nat>): (s: set<nat>)
    requires Ok(v)
  {
    set b: nat | b < 8 && (if v.ch[b].virt then v.ch[b].complete else b in hw && !(b >= 4 && v.ch[b - 4].virt)) :: b
  }

  /**
   * Completion of an emulated channel is seen by the next read of the status and not by the one after it; bits of
   * other channels come from the real controller, but for the requests of emulated ones.
   */
  lemma CompletionIsSeenOnce(v: View, hw: set<nat>, ch: nat)
    requires Ok(v) && ch < 8
    ensures var z := Apply(v, ReadStatus);
            && (v.ch[ch].virt ==> (ch in StatusBits(v, hw) <==> v.ch[ch].complete) && ch !in StatusBits(z, hw))
            && (!v.ch[ch].virt ==> z.ch[ch] == v.ch[ch])
            && z.ch[ch] == v.ch[ch].(complete := z.ch[ch].complete) && z.odd == v.odd
    ensures ch < 4 && v.ch[ch].virt && !v.ch[ch + 4].virt ==> ch + 4 !in StatusBits(v, hw)
    ensures !v.ch[ch].virt && (ch < 4 || !v.ch[ch - 4].virt) ==> (ch in StatusBits(v, hw) <==> ch in hw)
  {
  }
}
