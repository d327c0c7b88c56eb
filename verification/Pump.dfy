/**
 * The playback pump: on each sound-card interrupt, bytes move from the guest's DMA ring into the
 * PCM buffer. Two cursors with different periods, the ring position and the block position, advance
 * together; a virtual interrupt is raised at the end of every block.
 */
module Pump {
  import opened CInt
  import opened Arith
  import Vdma
  import SbDsp
  import Adpcm

  // ---------------------------------------------------------------- cyclic reads

  /** `total` bytes read from a ring of memory, starting `start` bytes into it and wrapping at its end. */
  function CyclicRead(mem: nat -> nat, addr: nat, ring: nat, start: nat, total: nat): (bs: seq<nat>)
    requires ring > 0
  {
    seq(total, j requires 0 <= j < total => mem(addr + (start + j) % ring))
  }

  function Chunk(mem: nat -> nat, from: nat, bytes: nat): (bs: seq<nat>) {
    seq(bytes, j requires 0 <= j < bytes => mem(from + j))
  }

  // ---------------------------------------------------------------- the mapped window

  function AlignPage(n: nat): (m: nat)
    ensures m >= n && m % 0x1000 == 0
  {
    (n + 0xfff) / 0x1000 * 0x1000
  }

  function PageOf(addr: nat): (p: nat)
    ensures p <= addr
  {
    addr - addr % 0x1000
  }

  /**
   * A mapped window: where it is in linear memory, 0 if nowhere, and which physical memory it is to show. An
   * identity window is not mapped at all: linear memory is taken as it is.
   */
  datatype Window = Window(at: nat, addr: nat, size: nat, identity: bool)

  predicate WindowOk(w: Window) { w.at != 0 && w.identity ==> w.at == w.addr }

  /** The window is taken to show a whole ring. */
  predicate Covers(w: Window, addr: nat, ring: nat) { w.at != 0 && w.addr <= addr && addr + ring <= w.addr + w.size }

  function WindowSize(addr: nat, ring: nat): (n: nat) { AlignPage(Max(addr - PageOf(addr) + ring, 64 * 1024 * 2)) }

  /** A fresh window: below 1 MB memory is where it is, above it has to be mapped, which can fail. */
  function FreshWindow(addr: nat, ring: nat, mapper: (nat, nat) -> nat): (w: Window)
    ensures WindowOk(w) && w.addr <= addr
    ensures w.at != 0 ==> Covers(w, addr, ring)
  {
    var low := addr + ring <= 0x10_0000;
    Window(if low then PageOf(addr) else mapper(PageOf(addr), WindowSize(addr, ring)),
           PageOf(addr), WindowSize(addr, ring), low)
  }

  /** A fresh window is whole pages around the ring, 128 KB at least, and no page longer than it has to be. */
  lemma FreshWindowIs(addr: nat, ring: nat, mapper: (nat, nat) -> nat)
    ensures var w := FreshWindow(addr, ring, mapper);
            && w.addr % 0x1000 == 0 && w.addr <= addr < w.addr + 0x1000
            && w.size % 0x1000 == 0 && w.size >= 0x2_0000 && w.addr + w.size >= addr + ring
            && (w.size == 0x2_0000 || w.addr + w.size < addr + ring + 0x1000)
            && (w.identity <==> addr + ring <= 0x10_0000)
            && w.at == if w.identity then w.addr else mapper(w.addr, w.size)
  {
    PageIs(addr);
  }

  lemma PageIs(addr: nat)
    ensures PageOf(addr) % 0x1000 == 0 && PageOf(addr) <= addr < PageOf(addr) + 0x1000
  {
    DivModUnique(addr - addr % 0x1000, 0x1000, addr / 0x1000, 0);
  }

  /** The window a ring is read through: the one there is if it will do, else a fresh one. */
  function InForce(w: Window, addr: nat, ring: nat, mapper: (nat, nat) -> nat): (w': Window)
    ensures w'.addr <= addr && (WindowOk(w) ==> WindowOk(w'))
    ensures w'.at != 0 ==> Covers(w', addr, ring)
  {
    if Covers(w, addr, ring) then w else FreshWindow(addr, ring, mapper)
  }

  /** Physical memory, and linear memory where no window is mapped. */
  datatype Memory = Memory(physical: nat -> nat, linear: nat -> nat)

  /** The first megabyte is where it is. */
  ghost predicate Agree(m: Memory) { forall a :: 0 <= a < 0x10_0000 ==> m.linear(a) == m.physical(a) }

  ghost predicate MemoryOk(m: Memory) {
    Agree(m) && (forall a :: 0 <= m.physical(a) < 0x100) && (forall a :: 0 <= m.linear(a) < 0x100)
  }

  /** The byte at a linear address while a window is mapped. */
  function LinearByte(m: Memory, w: Window, a: nat): (b: nat) {
    if !w.identity && w.at <= a < w.at + w.size then m.physical(w.addr + (a - w.at)) else m.linear(a)
  }

  function LinearBytes(m: Memory, w: Window, from: nat, bytes: nat): (bs: seq<nat>) {
    seq<nat>(bytes, j requires 0 <= j < bytes => LinearByte(m, w, from + j))
  }

  /** `bytes` bytes from `index` on of what starts at `addr`, through a window; zero bytes if there is none. */
  function Fetched(m: Memory, w: Window, addr: nat, index: nat, bytes: nat): (bs: seq<nat>)
    requires w.addr <= addr
    ensures |bs| == bytes
  {
    if w.at == 0 then seq(bytes, _ => 0) else LinearBytes(m, w, w.at + (addr - w.addr) + index, bytes)
  }

  /** Where the bytes of a ring come from. */
  datatype Source = Unreadable | LinearMemory | PhysicalMemory

  function SourceOf(w: Window): (s: Source) {
    if w.at == 0 then Unreadable else if w.identity then LinearMemory else PhysicalMemory
  }

  /** What is heard of a ring: its bytes as they are in linear or in physical memory, or zero bytes. */
  function Heard(m: Memory, addr: nat, ring: nat, start: nat, total: nat, s: Source): (bs: seq<nat>)
    requires ring > 0
  {
    match s
    case Unreadable => seq(total, _ => 0)
    case LinearMemory => CyclicRead(m.linear, addr, ring, start, total)
    case PhysicalMemory => CyclicRead(m.physical, addr, ring, start, total)
  }

  function RingSource(w: Window, addr: nat, ring: nat, mapper: (nat, nat) -> nat): (s: Source) {
    SourceOf(InForce(w, addr, ring, mapper))
  }

  /** Only the first page, whose window would be at linear address 0, and a failing mapper leave a ring unreadable. */
  lemma ReachableIff(w: Window, addr: nat, ring: nat, mapper: (nat, nat) -> nat)
    requires !Covers(w, addr, ring)
    ensures RingSource(w, addr, ring, mapper) != Unreadable
       <==> if addr + ring <= 0x10_0000 then addr >= 0x1000 else mapper(PageOf(addr), WindowSize(addr, ring)) != 0
  {
  }

  lemma FetchedAreBytes(m: Memory, w: Window, addr: nat, index: nat, bytes: nat)
    requires MemoryOk(m) && w.addr <= addr
    ensures Adpcm.Bytes(Fetched(m, w, addr, index, bytes))
  {
    var from := w.at + (addr - w.addr) + index;
    forall j | 0 <= j < bytes ensures 0 <= LinearBytes(m, w, from, bytes)[j] < 0x100 {
      assert LinearBytes(m, w, from, bytes)[j] == LinearByte(m, w, from + j);
    }
  }

  lemma IdentityShows(m: Memory, w: Window, from: nat, bytes: nat)
    requires w.identity
    ensures LinearBytes(m, w, from, bytes) == Chunk(m.linear, from, bytes)
  {
    forall j | 0 <= j < bytes ensures LinearBytes(m, w, from, bytes)[j] == Chunk(m.linear, from, bytes)[j] {
      assert LinearByte(m, w, from + j) == m.linear(from + j);
    }
  }

  lemma MappingShows(m: Memory, w: Window, offset: nat, bytes: nat)
    requires !w.identity && offset + bytes <= w.size
    ensures LinearBytes(m, w, w.at + offset, bytes) == Chunk(m.physical, w.addr + offset, bytes)
  {
    var shown, there := LinearBytes(m, w, w.at + offset, bytes), Chunk(m.physical, w.addr + offset, bytes);
    forall j | 0 <= j < bytes ensures shown[j] == there[j] {
      var a := w.at + offset + j;
      assert w.addr + (a - w.at) == w.addr + offset + j;
      assert LinearByte(m, w, a) == m.physical(w.addr + offset + j);
    }
  }

  /** A part of a ring that the window covers, up to the ring's end, is heard from the window's source. */
  lemma WindowShowsRing(m: Memory, w: Window, addr: nat, ring: nat, index: nat, bytes: nat)
    requires WindowOk(w) && w.addr <= addr && (w.at != 0 ==> Covers(w, addr, ring))
    requires index < ring && index + bytes <= ring
    ensures Fetched(m, w, addr, index, bytes) == Heard(m, addr, ring, index, bytes, SourceOf(w))
  {
    hide LinearBytes, CyclicRead, Chunk;
    if w.at != 0 {
      ChunkIsCyclicRead(m.linear, addr, ring, index, bytes);
      ChunkIsCyclicRead(m.physical, addr, ring, index, bytes);
      if w.identity {
        IdentityShows(m, w, addr + index, bytes);
      } else {
        MappingShows(m, w, addr - w.addr + index, bytes);
      }
    }
  }

  /** Whether, whatever linear memory holds above the first megabyte, the ring's own bytes are heard. */
  ghost predicate HearsRing(physical: nat -> nat, addr: nat, ring: nat, s: Source)
    requires ring > 0
  {
    forall linear :: Agree(Memory(physical, linear)) ==>
      Heard(Memory(physical, linear), addr, ring, 0, ring, s) == CyclicRead(physical, addr, ring, 0, ring)
  }

  /**
   * A ring that can be read is read right exactly if a window was mapped for it or it ends within the
   * first megabyte.
   */
  lemma HearsRingIff(physical: nat -> nat, addr: nat, ring: nat, s: Source)
    requires ring > 0 && s != Unreadable
    ensures HearsRing(physical, addr, ring, s) <==> s == PhysicalMemory || addr + ring <= 0x10_0000
  {
    if s == LinearMemory {
      if addr + ring <= 0x10_0000 {
        forall linear: nat -> nat | Agree(Memory(physical, linear))
          ensures Heard(Memory(physical, linear), addr, ring, 0, ring, s) == CyclicRead(physical, addr, ring, 0, ring)
        {
          SameBelow(physical, linear, addr, ring);
        }
      } else {
        var other: nat -> nat := a => if a < 0x10_0000 then physical(a) else physical(a) + 1;
        assert Agree(Memory(physical, other));
        LastByte(physical, addr, ring);
        LastByte(other, addr, ring);
      }
    }
  }

  lemma SameBelow(physical: nat -> nat, linear: nat -> nat, addr: nat, ring: nat)
    requires ring > 0 && addr + ring <= 0x10_0000 && Agree(Memory(physical, linear))
    ensures CyclicRead(linear, addr, ring, 0, ring) == CyclicRead(physical, addr, ring, 0, ring)
  {
    ChunkIsCyclicRead(linear, addr, ring, 0, ring);
    ChunkIsCyclicRead(physical, addr, ring, 0, ring);
    assert forall a :: 0 <= a < 0x10_0000 ==> linear(a) == physical(a);
  }

  lemma LastByte(mem: nat -> nat, addr: nat, ring: nat)
    requires ring > 0
    ensures CyclicRead(mem, addr, ring, 0, ring)[ring - 1] == mem(addr + ring - 1)
  {
    ChunkIsCyclicRead(mem, addr, ring, 0, ring);
  }

  /**
   * An identity window is at least 128 KB long and kept for a later ring inside it: such a ring is read from
   * linear memory also where it lies above the first megabyte.
   */
  lemma StaleWindowExample(physical: nat -> nat, mapper: (nat, nat) -> nat)
    ensures var w := FreshWindow(0xF_0000, 0x1_0000, mapper);
            && RingSource(w, 0x10_0000, 0x1000, mapper) == LinearMemory
            && !HearsRing(physical, 0x10_0000, 0x1000, LinearMemory)
  {
    HearsRingIff(physical, 0x10_0000, 0x1000, LinearMemory);
  }

  // ---------------------------------------------------------------- chunk size

  /** Frames wanted for the rest of the PCM buffer, before the ring and the block limit them. */
  function Wanted(left: nat, rate: nat, freq: nat): (count: nat)
    requires freq > 50
  {
    if rate < freq - 50 then Max(Min(2, left), U32(left * rate) / freq)
    else if rate > freq + 50 then U32(left * rate) / freq
    else left
  }

  /** For a PCM buffer's worth of frames the 32-bit product does not wrap, and something is always wanted. */
  lemma WantsSomething(left: nat, rate: nat, freq: nat)
    requires 0 < left <= 8192 && rate <= 65535 && freq > 50
    ensures left * rate < 0x1_0000_0000 && Wanted(left, rate, freq) >= 1
    ensures rate > freq + 50 ==> Wanted(left, rate, freq) >= left
  {
    MulLeq(left, 8192, rate);
    if rate > freq + 50 {
      ScaledUp(left, rate, freq);
    }
  }

  lemma ScaledUp(left: nat, rate: nat, freq: nat)
    requires left <= 8192 && 0 < freq <= rate <= 65535
    ensures U32(left * rate) / freq >= left
  {
    MulLeq(left, 8192, rate);
    MulLeq(freq, rate, left);
    QuotientBounds(left * rate, freq);
    MulCancelLess(left, left * rate / freq + 1, freq);
  }

  /** Frames moved in one pass. */
  function ChunkFrames(wanted: nat, dmaCount: nat, blockLeft: nat, size: nat, channels: nat, bits: nat): (count: nat)
    requires size > 0 && channels > 0 && bits > 0
  {
    var c := Min(Min(wanted, Max(1, dmaCount / size / channels)), Max(1, blockLeft / size / channels));
    if bits < 8 then Max(1, c / (9 / bits)) else c
  }

  /** Sizes that are whole numbers of frames, at most 16-bit stereo. */
  predicate FrameShape(size: nat, channels: nat) { 1 <= size <= 2 && 1 <= channels <= 2 }

  /**
   * A chunk is at least one frame. It passes the end of the ring, or of the block, exactly if less than a frame
   * is left of it, and then it is one frame.
   */
  lemma ChunkFits(wanted: nat, dmaCount: nat, blockLeft: nat, size: nat, channels: nat, bits: nat)
    requires FrameShape(size, channels) && 2 <= bits && wanted >= 1
    ensures var frame := size * channels;
            var bytes := ChunkFrames(wanted, dmaCount, blockLeft, size, channels, bits) * size * channels;
            && frame <= bytes && bytes % frame == 0
            && (bytes <= dmaCount <==> frame <= dmaCount) && (bytes <= blockLeft <==> frame <= blockLeft)
            && (dmaCount < frame || blockLeft < frame ==> bytes == frame)
  {
    var c := Min(Min(wanted, Max(1, dmaCount / size / channels)), Max(1, blockLeft / size / channels));
    var k := ChunkFrames(wanted, dmaCount, blockLeft, size, channels, bits);
    assert 1 <= k <= c by {
      if bits < 8 {
        assert 9 / bits >= 1;
        SmallerQuotient(c, 9 / bits);
      }
    }
    hide ChunkFrames;
    ChunkWithin(k, dmaCount, size, channels);
    ChunkWithin(k, blockLeft, size, channels);
  }

  /** A count of at least 1, and not more than the frames left, stays inside what is left if that is a frame. */
  lemma ChunkWithin(k: nat, left: nat, size: nat, channels: nat)
    requires FrameShape(size, channels) && 1 <= k <= Max(1, left / size / channels)
    ensures var frame := size * channels;
            && frame <= k * size * channels && k * size * channels % frame == 0
            && (k * size * channels <= left <==> frame <= left)
            && (left < frame ==> k * size * channels == frame)
  {
    if size == 1 && channels == 1 {
    } else if size == 2 && channels == 2 {
      ChunkOfQuads(k, left);
    } else {
      ChunkOfPairs(k, left, size, channels);
    }
  }

  lemma ChunkOfPairs(k: nat, left: nat, size: nat, channels: nat)
    requires (size == 1 && channels == 2) || (size == 2 && channels == 1)
    requires 1 <= k <= Max(1, left / size / channels)
    ensures size * channels == 2 && 2 <= k * size * channels && k * size * channels % 2 == 0
    ensures (k * size * channels <= left <==> 2 <= left) && (left < 2 ==> k * size * channels == 2)
  {
    assert k * size * channels == k * 2;
    assert left / size / channels == left / 2;
  }

  lemma ChunkOfQuads(k: nat, left: nat)
    requires 1 <= k <= Max(1, left / 2 / 2)
    ensures 4 <= k * 2 * 2 && k * 2 * 2 % 4 == 0
    ensures (k * 2 * 2 <= left <==> 4 <= left) && (left < 4 ==> k * 2 * 2 == 4)
  {
    assert left / 2 / 2 == left / 4;
  }

  lemma SmallerQuotient(c: nat, d: nat)
    requires d >= 1
    ensures c / d <= c
  {
  }

  // ---------------------------------------------------------------- the pump

  /** The channel's position is inside its programmed length. */
  predicate Positioned(c: Vdma.Channel) { c.counter >= 1 && 0 <= c.index < c.counter && c.index + c.cur == c.counter }

  /** A tick of whole units on an auto-initialised channel moves the position around the ring. */
  lemma TickMoves(c: Vdma.Channel, unit: nat, bytes: nat)
    requires Positioned(c) && Vdma.Auto(c) && 1 <= unit <= 2 && bytes % unit == 0 && 0 < bytes <= c.cur * unit
    ensures var c' := Vdma.Progress(c, unit, c.index * unit + bytes, c.cur * unit - bytes);
            && Positioned(c') && Vdma.Auto(c') && c'.counter == c.counter && c'.addr == c.addr
            && c'.index * unit == (if bytes == c.cur * unit then 0 else c.index * unit + bytes)
  {
    hide Vdma.Progress, Vdma.Auto;
    if unit == 1 {
      TickOfBytes(c, bytes);
    } else {
      var n := bytes / 2;
      assert bytes == n * 2 && unit == 2;
      TickOfWords(c, n);
    }
  }

  lemma TickOfBytes(c: Vdma.Channel, n: nat)
    requires Positioned(c) && Vdma.Auto(c) && 0 < n <= c.cur
    ensures var c' := Vdma.Progress(c, 1, c.index + n, c.cur - n);
            && Positioned(c') && Vdma.Auto(c') && c'.counter == c.counter && c'.addr == c.addr
            && c'.index == (if n == c.cur then 0 else c.index + n)
  {
  }

  lemma TickOfWords(c: Vdma.Channel, n: nat)
    requires Positioned(c) && Vdma.Auto(c) && 0 < n <= c.cur
    ensures var c' := Vdma.Progress(c, 2, c.index * 2 + n * 2, c.cur * 2 - n * 2);
            && Positioned(c') && Vdma.Auto(c') && c'.counter == c.counter && c'.addr == c.addr
            && c'.index == (if n == c.cur then 0 else c.index + n)
  {
  }

  // ---------------------------------------------------------------- both cursors together

  function SampleSize(bits: int): (n: nat) { Max(1, bits / 8) }

  function Channels(stereo: bool): (n: nat) { if stereo then 2 else 1 }

  function FrameBytes(p: SbDsp.Play): (n: nat)
    ensures SbDsp.PlayOk(p) ==> n > 0
  {
    SampleSize(p.bits) * Channels(p.stereo)
  }

  /** The ring position of a channel in bytes, and the length of its ring. */
  function RingIndex(c: Vdma.Channel, unit: nat): (n: int)
    ensures c.index >= 0 ==> n >= 0
  {
    c.index * unit
  }

  function RingBytes(c: Vdma.Channel, unit: nat): (n: int) { c.counter * unit }

  /** Sizes and positions are whole frames, which are whole transfer units, and the positions inside ring and block. */
  predicate Whole(c: Vdma.Channel, unit: nat, p: SbDsp.Play) {
    var frame := FrameBytes(p);
    && 1 <= unit <= 2 && frame > 0 && frame % unit == 0
    && Positioned(c)
    && RingBytes(c, unit) > 0 && RingBytes(c, unit) % frame == 0 && RingIndex(c, unit) % frame == 0
    && SbDsp.SampleBytes(p) % frame == 0 && 0 <= p.pos < SbDsp.SampleBytes(p) && p.pos % frame == 0
  }

  /** The transfer runs as intended for continuous sound: also, the channel is auto-initialised. */
  predicate Aligned(c: Vdma.Channel, unit: nat, p: SbDsp.Play) { Whole(c, unit, p) && Vdma.Auto(c) }

  /** The kind and block of a transfer, which a pass does not change. */
  predicate SameBlock(p: SbDsp.Play, p': SbDsp.Play) {
    p'.bits == p.bits && p'.stereo == p.stereo && p'.samples == p.samples && p'.auto == p.auto
  }

  /** Where `total` bytes after an aligned state lead: both cursors, and the interrupts raised. */
  ghost predicate Moved(c: Vdma.Channel, p: SbDsp.Play, c': Vdma.Channel, p': SbDsp.Play, unit: nat, total: nat,
      irqs: int)
    requires Aligned(c, unit, p)
  {
    && SameBlock(p, p') && c'.counter == c.counter && c'.addr == c.addr
    && Aligned(c', unit, p')
    && RingIndex(c', unit) == (RingIndex(c, unit) + total) % RingBytes(c, unit)
    && p'.pos == (p.pos + total) % SbDsp.SampleBytes(p)
    && irqs == (p.pos + total) / SbDsp.SampleBytes(p)
  }

  lemma SplitPeriod(x: nat, a: nat, b: nat, period: nat)
    requires period > 0
    ensures ((x + a) % period + b) % period == (x + a + b) % period
    ensures (x + a) / period + ((x + a) % period + b) / period == (x + a + b) / period
  {
    var y := x + a;
    DivMod(y, period);
    SplitRemainder(y, y / period, y % period, b, period);
  }

  lemma SplitRemainder(y: nat, q: nat, r: nat, b: nat, period: nat)
    requires r < period && y == q * period + r
    ensures (r + b) % period == (y + b) % period
    ensures q + (r + b) / period == (y + b) / period
  {
    DivMod(r + b, period);
    JoinQuotients(y + b, q, (r + b) / period, (r + b) % period, period);
  }

  lemma JoinQuotients(z: nat, q: nat, q2: nat, r: nat, period: nat)
    requires r < period && z == q * period + (q2 * period + r)
    ensures z % period == r && z / period == q + q2
  {
    assert (q + q2) * period == q * period + q2 * period;
    DivModUnique(z, period, q + q2, r);
  }

  /** Passes compose: their bytes and their interrupts add up. */
  lemma MovedCompose(c: Vdma.Channel, p: SbDsp.Play, c1: Vdma.Channel, p1: SbDsp.Play, c2: Vdma.Channel, p2: SbDsp.Play,
                     unit: nat, t1: nat, i1: int, t2: nat, i2: int)
    requires Aligned(c, unit, p) && Moved(c, p, c1, p1, unit, t1, i1) && Moved(c1, p1, c2, p2, unit, t2, i2)
    ensures Moved(c, p, c2, p2, unit, t1 + t2, i1 + i2)
  {
    MovedFacts(c, p, c1, p1, unit, t1, i1);
    MovedFacts(c1, p1, c2, p2, unit, t2, i2);
    hide Aligned, RingIndex, RingBytes, SbDsp.SampleBytes;
    SplitPeriod(RingIndex(c, unit), t1, t2, RingBytes(c, unit));
    SplitPeriod(p.pos, t1, t2, SbDsp.SampleBytes(p));
  }

  function Sum(xs: seq<int>): (n: int) { if xs == [] then 0 else Sum(xs[..|xs| - 1]) + xs[|xs| - 1] }

  /**
   * Any number of passes or whole interrupts: the bytes moved in all determine both cursors and the number
   * of interrupts raised since the first, however the bytes were split.
   */
  lemma {:induction false} ManyMoved(cs: seq<Vdma.Channel>, ps: seq<SbDsp.Play>, unit: nat, ts: seq<nat>,
      irqs: seq<int>)
    requires |cs| == |ps| == |ts| + 1 == |irqs| + 1 && Aligned(cs[0], unit, ps[0])
    requires forall i :: 0 <= i < |ts| ==> Aligned(cs[i], unit, ps[i])
    requires forall i :: 0 <= i < |ts| ==> Moved(cs[i], ps[i], cs[i + 1], ps[i + 1], unit, ts[i], irqs[i])
    ensures Sum(ts) >= 0 && Moved(cs[0], ps[0], cs[|ts|], ps[|ts|], unit, Sum(ts), Sum(irqs))
    decreases |ts|
  {
    hide Moved, Aligned;
    if ts == [] {
      MovedNowhere(cs[0], ps[0], unit);
    } else {
      var k := |ts| - 1;
      ManyMoved(cs[..k + 1], ps[..k + 1], unit, ts[..k], irqs[..k]);
      MovedCompose(cs[0], ps[0], cs[k], ps[k], cs[k + 1], ps[k + 1], unit, Sum(ts[..k]), Sum(irqs[..k]), ts[k],
          irqs[k]);
    }
  }

  /** Reads compose the same way: the second continues where the first stopped. */
  lemma CyclicReadCompose(mem: nat -> nat, addr: nat, ring: nat, start: nat, t1: nat, t2: nat)
    requires ring > 0
    ensures CyclicRead(mem, addr, ring, start, t1 + t2)
         == CyclicRead(mem, addr, ring, start, t1) + CyclicRead(mem, addr, ring, (start + t1) % ring, t2)
  {
    var longer := CyclicRead(mem, addr, ring, start, t1 + t2);
    var whole := CyclicRead(mem, addr, ring, start, t1) + CyclicRead(mem, addr, ring, (start + t1) % ring, t2);
    forall i | 0 <= i < t1 + t2
      ensures longer[i] == whole[i]
    {
      if i >= t1 {
        SplitPeriod(start, t1, i - t1, ring);
      }
    }
  }

  lemma HeardCompose(m: Memory, addr: nat, ring: nat, start: nat, t1: nat, t2: nat, s: Source)
    requires ring > 0
    ensures Heard(m, addr, ring, start, t1 + t2, s)
         == Heard(m, addr, ring, start, t1, s) + Heard(m, addr, ring, (start + t1) % ring, t2, s)
  {
    CyclicReadCompose(m.linear, addr, ring, start, t1, t2);
    CyclicReadCompose(m.physical, addr, ring, start, t1, t2);
  }

  lemma HeardNone(m: Memory, addr: nat, ring: nat, start: nat, s: Source)
    requires ring > 0
    ensures Heard(m, addr, ring, start, 0, s) == []
  {
  }

  /** A chunk that passes neither end is a cyclic read. */
  lemma ChunkIsCyclicRead(mem: nat -> nat, addr: nat, ring: nat, start: nat, bytes: nat)
    requires ring > 0 && start < ring && start + bytes <= ring
    ensures CyclicRead(mem, addr, ring, start, bytes) == Chunk(mem, addr + start, bytes)
  {
    forall i | 0 <= i < bytes
      ensures CyclicRead(mem, addr, ring, start, bytes)[i] == Chunk(mem, addr + start, bytes)[i]
    {
      DivModUnique(start + i, ring, 0, start + i);
    }
  }

  /** One pass over `bytes` bytes: the channel ticks, the block position moves and restarts at its end. */
  lemma PassMoves(c: Vdma.Channel, unit: nat, p: SbDsp.Play, p': SbDsp.Play, bytes: nat)
    requires Aligned(c, unit, p) && SbDsp.PlayOk(p)
    requires 0 < bytes <= c.cur * unit && p.pos + bytes <= SbDsp.SampleBytes(p) && bytes % FrameBytes(p) == 0
    requires SameBlock(p, p') && p'.pos == if p.pos + bytes == SbDsp.SampleBytes(p) then 0 else p.pos + bytes
    ensures var c' := Vdma.Progress(c, unit, c.index * unit + bytes, c.cur * unit - bytes);
            Moved(c, p, c', p', unit, bytes, if p.pos + bytes == SbDsp.SampleBytes(p) then 1 else 0)
  {
    hide Vdma.Progress;
    Linear(c, unit);
    FrameIsSmall(p);
    MultipleOfDivisor(bytes, FrameBytes(p), unit);
    TickMoves(c, unit, bytes);
    BothCursorsMove(c, unit, p, bytes);
    hide FrameBytes, SbDsp.SampleBytes, SbDsp.PlayOk, Vdma.Auto;
  }

  lemma BothCursorsMove(c: Vdma.Channel, unit: nat, p: SbDsp.Play, bytes: nat)
    requires Aligned(c, unit, p) && SbDsp.PlayOk(p)
    requires 0 < bytes <= c.cur * unit && p.pos + bytes <= SbDsp.SampleBytes(p) && bytes % FrameBytes(p) == 0
    ensures var frame, ring, block := FrameBytes(p), RingBytes(c, unit), SbDsp.SampleBytes(p);
            var at, pos := c.index * unit + bytes, p.pos + bytes;
            && at % ring == (if at == ring then 0 else at) && at % frame == 0
            && pos % block == (if pos == block then 0 else pos) && pos % frame == 0
            && pos / block == if pos == block then 1 else 0
  {
    Linear(c, unit);
    FrameIsSmall(p);
    hide SbDsp.SampleBytes, SbDsp.PlayOk, Vdma.Auto, FrameBytes;
    CursorMoves(c.index * unit, bytes, RingBytes(c, unit), FrameBytes(p));
    CursorMoves(p.pos, bytes, SbDsp.SampleBytes(p), FrameBytes(p));
  }

  lemma Linear(c: Vdma.Channel, unit: nat)
    requires Positioned(c) && 1 <= unit <= 2
    ensures c.index * unit + c.cur * unit == c.counter * unit && 0 <= c.index * unit < c.counter * unit
  {
  }

  lemma FrameIsSmall(p: SbDsp.Play)
    requires SbDsp.PlayOk(p)
    ensures FrameBytes(p) == 1 || FrameBytes(p) == 2 || FrameBytes(p) == 4
  {
  }

  lemma FourIsEven(bytes: nat)
    requires bytes % 4 == 0
    ensures bytes % 2 == 0
  {
    DivModUnique(bytes, 2, 2 * (bytes / 4), 0);
  }

  lemma MultipleOfDivisor(bytes: nat, frame: nat, unit: nat)
    requires frame == 1 || frame == 2 || frame == 4
    requires 1 <= unit <= 2 && frame % unit == 0 && bytes % frame == 0
    ensures bytes % unit == 0
  {
    if unit == 2 && frame == 4 {
      FourIsEven(bytes);
    }
  }

  /** One cursor moving by whole frames within its period, restarting when it reaches the end. */
  lemma CursorMoves(x: nat, bytes: nat, period: nat, frame: nat)
    requires 0 < bytes && x < period && x + bytes <= period
    requires (frame == 1 || frame == 2 || frame == 4) && x % frame == 0 && bytes % frame == 0 && period % frame == 0
    ensures (x + bytes) % period == if x + bytes == period then 0 else x + bytes
    ensures (x + bytes) / period == if x + bytes == period then 1 else 0
    ensures (x + bytes) % frame == 0
  {
    if x + bytes == period {
      DivModUnique(x + bytes, period, 1, 0);
    } else {
      DivModUnique(x + bytes, period, 0, x + bytes);
    }
  }

  // ---------------------------------------------------------------- the interrupt

  /** Everything the pump reads besides the two devices. */
  datatype Setup = Setup(
    channel: nat,               // DMA channel of the running transfer
    samples: nat,               // frames the card wants
    rate: nat,                  // sample rate of the guest's transfer
    freq: nat,                  // sample rate of the card
    mem: Memory,                // guest memory, one byte per address
    resampled: nat -> nat,      // frames the resampler makes of a number of frames
    mapper: (nat, nat) -> nat)  // linear address of a mapped region, or 0

  /** The PCM buffer bounds the frames, the rate is 16 bits wide; the resampler makes something of something. */
  ghost predicate SetupOk(u: Setup) {
    && u.channel < 8 && 0 < u.samples <= 8192 && u.rate <= 65535 && u.freq > 50
    && MemoryOk(u.mem)
    && (forall n: nat :: n >= 1 ==> u.resampled(n) >= 1)
  }

  // ---------------------------------------------------------------- passes

  /** What a pass moves: the channel, the block position, the window, the interrupts, the bytes copied, the decoder. */
  datatype State = State(chan: Vdma.Channel, pos: int, window: Window, irqs: int, bytes: seq<nat>, adpcm: Adpcm.State)

  /** Positions and lengths are not negative. */
  predicate Sane(s: State) {
    s.chan.index >= 0 && s.chan.cur >= 0 && s.chan.counter >= 0 && s.pos >= 0 && WindowOk(s.window)
  }

  /** Start, position and rest of the channel in bytes. */
  function Start(s: State, unit: nat): (addr: nat) { Vdma.ByteAddress(s.chan.addr, unit) }

  function Rest(c: Vdma.Channel, unit: nat): (n: int)
    ensures c.cur >= 0 ==> n >= 0
  {
    c.cur * unit
  }

  /** One pass that moves `b` bytes for the block and decoder of `p`. */
  function PassOn(u: Setup, p: SbDsp.Play, s: State, b: nat): (s': State)
    requires Sane(s) && u.channel < 8
    ensures Sane(s')
  {
    var unit := Vdma.Unit(u.channel);
    var addr, index, count := Start(s, unit), RingIndex(s.chan, unit), Rest(s.chan, unit);
    var w := InForce(s.window, addr, index + count, u.mapper);
    var chunk := Fetched(u.mem, w, addr, index, b);
    var ended := s.pos + b >= SbDsp.SampleBytes(p);
    ProgressIsSane(s.chan, unit, index + b, count - b);
    State(Vdma.Progress(s.chan, unit, index + b, count - b), if ended then 0 else s.pos + b, w,
          s.irqs + if ended then 1 else 0, s.bytes + chunk,
          if Adpcm.Width(p.bits) && b > 0 then Adpcm.Decode(p.bits, s.adpcm, chunk).1 else s.adpcm)
  }

  lemma ProgressIsSane(c: Vdma.Channel, unit: nat, index: int, counter: int)
    requires 1 <= unit <= 2 && index >= 0 && c.counter >= 0
    ensures var c' := Vdma.Progress(c, unit, index, counter);
            c'.index >= 0 && c'.cur >= 0 && c'.counter == c.counter && c'.addr == c.addr && c'.mode == c.mode
  {
  }

  /** Passes in turn, by the bytes each of them moves. */
  function PassesOn(u: Setup, p: SbDsp.Play, s: State, chunks: seq<nat>): (s': State)
    requires Sane(s) && u.channel < 8
    ensures Sane(s')
    decreases |chunks|
  {
    if chunks == [] then s
    else PassOn(u, p, PassesOn(u, p, s, chunks[..|chunks| - 1]), chunks[|chunks| - 1])
  }

  /** A chunk is whole frames, and passes the end of ring or block only as a single frame. */
  predicate SizeOk(u: Setup, p: SbDsp.Play, s: State, b: nat)
    requires Sane(s) && u.channel < 8
  {
    var frame := FrameBytes(p);
    && 0 < frame <= b && b % frame == 0
    && (b <= Rest(s.chan, Vdma.Unit(u.channel)) || b == frame)
    && (s.pos < SbDsp.SampleBytes(p) ==> s.pos + b <= SbDsp.SampleBytes(p) || b == frame)
  }

  predicate SizesOk(u: Setup, p: SbDsp.Play, s: State, chunks: seq<nat>)
    requires Sane(s) && u.channel < 8
    decreases |chunks|
  {
    chunks == [] ||
    var front := chunks[..|chunks| - 1];
    SizesOk(u, p, s, front) && SizeOk(u, p, PassesOn(u, p, s, front), chunks[|chunks| - 1])
  }

  /** Passes do not look at what of a transfer they change. */
  lemma SameBlockSamePass(u: Setup, p: SbDsp.Play, p': SbDsp.Play, s: State, b: nat)
    requires Sane(s) && u.channel < 8 && SameBlock(p, p')
    ensures PassOn(u, p, s, b) == PassOn(u, p', s, b) && SizeOk(u, p, s, b) == SizeOk(u, p', s, b)
    ensures b > 0 ==> FramesOut(u, p, s, b) == FramesOut(u, p', s, b)
    ensures forall left: nat :: SbDsp.PlayOk(p) && u.freq > 50 ==>
              ChunkBytes(u, p, s, left) == ChunkBytes(u, p', s, left)
  {
    hide InForce, Fetched, Vdma.Progress, Adpcm.Decode, ChunkFrames, Wanted;
  }

  // ---------------------------------------------------------------- how many frames, and how many passes

  /** Rates further apart than 50 Hz are converted. */
  predicate Resamples(u: Setup) { u.rate - u.freq > 50 || u.freq - u.rate > 50 }

  /** The bytes of the pass that is to give the next of `left` frames. */
  function ChunkBytes(u: Setup, p: SbDsp.Play, s: State, left: nat): (b: nat)
    requires Sane(s) && u.channel < 8 && u.freq > 50 && SbDsp.PlayOk(p)
  {
    FrameIsSmall(p);
    var size, channels := SampleSize(p.bits), Channels(p.stereo);
    ChunkFrames(Wanted(left, u.rate, u.freq), Rest(s.chan, Vdma.Unit(u.channel)), U32(SbDsp.SampleBytes(p) - s.pos),
                size, channels, p.bits) * size * channels
  }

  /** The frames of `b` bytes: as many as there are frames of PCM, or samples packed in ADPCM data. */
  function FramesIn(p: SbDsp.Play, s: State, b: nat): (n: nat)
    requires b > 0
  {
    if Adpcm.Width(p.bits) then (b - if s.adpcm.useRef then 1 else 0) * (9 / p.bits)
    else if FrameBytes(p) == 0 then 0 else b / FrameBytes(p)
  }

  /** The frames a pass gives the PCM buffer, at the card's rate. */
  function FramesOut(u: Setup, p: SbDsp.Play, s: State, b: nat): (n: nat)
    requires b > 0
  {
    if Resamples(u) then u.resampled(FramesIn(p, s, b)) else FramesIn(p, s, b)
  }

  /** The frames of all passes. */
  function FramesOutAll(u: Setup, p: SbDsp.Play, s: State, chunks: seq<nat>): (n: nat)
    requires Sane(s) && u.channel < 8
    decreases |chunks|
  {
    if chunks == [] || chunks[|chunks| - 1] == 0 then 0
    else
      var front := chunks[..|chunks| - 1];
      FramesOutAll(u, p, s, front) + FramesOut(u, p, PassesOn(u, p, s, front), chunks[|chunks| - 1])
  }

  /** Whether another pass follows these: always a first one, else as long as sound is wanted and can go on. */
  predicate GoesOn(u: Setup, p: SbDsp.Play, s: State, chunks: seq<nat>)
    requires Sane(s) && u.channel < 8
  {
    || chunks == []
    || (&& Vdma.Auto(s.chan) && FramesOutAll(u, p, s, chunks) < u.samples
        && (PassesOn(u, p, s, chunks).irqs == s.irqs || (p.auto && SbDsp.SampleBytes(p) > 32)))
  }

  /** Each pass follows because it must, and moves just the bytes for what is still wanted. */
  predicate Planned(u: Setup, p: SbDsp.Play, s: State, chunks: seq<nat>)
    requires Sane(s) && u.channel < 8 && u.freq > 50 && SbDsp.PlayOk(p)
    decreases |chunks|
  {
    chunks == [] ||
    var front, b := chunks[..|chunks| - 1], chunks[|chunks| - 1];
    && Planned(u, p, s, front) && GoesOn(u, p, s, front) && FramesOutAll(u, p, s, front) <= u.samples
    && b > 0 && b == ChunkBytes(u, p, PassesOn(u, p, s, front), u.samples - FramesOutAll(u, p, s, front))
  }

  lemma PlannedNext(u: Setup, p: SbDsp.Play, s: State, chunks: seq<nat>, b: nat)
    requires Sane(s) && u.channel < 8 && u.freq > 50 && SbDsp.PlayOk(p)
    requires Planned(u, p, s, chunks) && GoesOn(u, p, s, chunks) && FramesOutAll(u, p, s, chunks) < u.samples
    requires b > 0 && b == ChunkBytes(u, p, PassesOn(u, p, s, chunks), u.samples - FramesOutAll(u, p, s, chunks))
    ensures Planned(u, p, s, chunks + [b])
    ensures FramesOutAll(u, p, s, chunks + [b])
         == FramesOutAll(u, p, s, chunks) + FramesOut(u, p, PassesOn(u, p, s, chunks), b)
  {
    hide PassOn, ChunkBytes, GoesOn, FramesOut;
    assert (chunks + [b])[..|chunks|] == chunks;
  }

  /** The plan leaves no choice: there is one way for an interrupt to go. */
  lemma {:induction false} PlanIsUnique(u: Setup, p: SbDsp.Play, s: State, xs: seq<nat>, ys: seq<nat>)
    requires Sane(s) && u.channel < 8 && u.freq > 50 && SbDsp.PlayOk(p)
    requires Planned(u, p, s, xs) && Planned(u, p, s, ys) && !GoesOn(u, p, s, xs) && !GoesOn(u, p, s, ys)
    ensures xs == ys
  {
    hide Planned, GoesOn;
    if |xs| <= |ys| {
      PlanPrefix(u, p, s, xs, ys, |xs|);
    } else {
      PlanPrefix(u, p, s, ys, xs, |ys|);
    }
  }

  /** Two plans agree as far as both go, and a plan goes on at each of its proper prefixes. */
  lemma {:induction false} PlanPrefix(u: Setup, p: SbDsp.Play, s: State, xs: seq<nat>, ys: seq<nat>, n: nat)
    requires Sane(s) && u.channel < 8 && u.freq > 50 && SbDsp.PlayOk(p) && n <= |xs| && n <= |ys|
    requires Planned(u, p, s, xs) && Planned(u, p, s, ys)
    ensures xs[..n] == ys[..n] && (n < |ys| ==> GoesOn(u, p, s, ys[..n]))
    ensures n == |xs| ==> xs[..n] == xs
    ensures n == |ys| ==> ys[..n] == ys
  {
    hide GoesOn, ChunkBytes, PassesOn, FramesOutAll;
    if n > 0 {
      PlanPrefix(u, p, s, xs, ys, n - 1);
      PlannedUpTo(u, p, s, xs, n);
      PlannedUpTo(u, p, s, ys, n);
      assert xs[..n][..n - 1] == xs[..n - 1] && ys[..n][..n - 1] == ys[..n - 1];
      assert xs[..n] == xs[..n - 1] + [xs[n - 1]] && ys[..n] == ys[..n - 1] + [ys[n - 1]];
    }
    if n < |ys| {
      PlannedUpTo(u, p, s, ys, n + 1);
      assert ys[..n + 1][..n] == ys[..n];
    }
  }

  lemma {:induction false} PlannedUpTo(u: Setup, p: SbDsp.Play, s: State, chunks: seq<nat>, n: nat)
    requires Sane(s) && u.channel < 8 && u.freq > 50 && SbDsp.PlayOk(p) && n <= |chunks| && Planned(u, p, s, chunks)
    ensures Planned(u, p, s, chunks[..n])
    decreases |chunks|
  {
    hide GoesOn, ChunkBytes, PassesOn, FramesOutAll;
    if n < |chunks| {
      PlannedUpTo(u, p, s, chunks[..|chunks| - 1], n);
      assert chunks[..|chunks| - 1][..n] == chunks[..n];
    } else {
      assert chunks[..n] == chunks;
    }
  }

  /** Every chunk of a plan has an admissible size. */
  lemma {:induction false} PlanSizesOk(u: Setup, p: SbDsp.Play, s: State, chunks: seq<nat>)
    requires Sane(s) && SetupOk(u) && SbDsp.PlayOk(p) && Planned(u, p, s, chunks)
    ensures SizesOk(u, p, s, chunks)
    decreases |chunks|
  {
    hide GoesOn, SizeOk, PassOn, ChunkBytes, FramesOutAll, SbDsp.PlayOk;
    if chunks != [] {
      var front := chunks[..|chunks| - 1];
      PlanSizesOk(u, p, s, front);
      GoesOnWants(u, p, s, front);
      ChunkSizeOk(u, p, PassesOn(u, p, s, front), u.samples - FramesOutAll(u, p, s, front));
    }
  }

  lemma GoesOnWants(u: Setup, p: SbDsp.Play, s: State, chunks: seq<nat>)
    requires Sane(s) && SetupOk(u) && GoesOn(u, p, s, chunks)
    ensures FramesOutAll(u, p, s, chunks) < u.samples <= 8192
  {
  }

  lemma ChunkSizeOk(u: Setup, p: SbDsp.Play, s: State, left: nat)
    requires Sane(s) && SetupOk(u) && SbDsp.PlayOk(p) && 0 < left <= 8192
    ensures var b := ChunkBytes(u, p, s, left); b > 0 && SizeOk(u, p, s, b)
  {
    var size, channels := SampleSize(p.bits), Channels(p.stereo);
    FrameIsSmall(p);
    BlockIsSmall(p);
    WantsSomething(left, u.rate, u.freq);
    ChunkFits(Wanted(left, u.rate, u.freq), Rest(s.chan, Vdma.Unit(u.channel)), U32(SbDsp.SampleBytes(p) - s.pos), size,
              channels, p.bits);
    LeftIsRest(SbDsp.SampleBytes(p), s.pos);
    hide ChunkFrames, Wanted, SbDsp.SampleBytes;
  }

  /**
   * What is wanted: the frames at the guest's rate that make `left` at the card's, rounded down, and at a lower
   * rate not fewer than two, for interpolation, if as many are left.
   */
  lemma WantedIs(left: nat, rate: nat, freq: nat)
    requires 0 < left <= 8192 && rate <= 65535 && freq > 50
    ensures var w := Wanted(left, rate, freq);
            && (-50 <= rate - freq <= 50 ==> w == left)
            && (rate - freq > 50 ==> w * freq <= left * rate < (w + 1) * freq)
            && (freq - rate > 50 ==>
                 w >= Min(2, left) && left * rate < (w + 1) * freq && (w * freq <= left * rate || w == Min(2, left)))
  {
    MulLeq(left, 8192, rate);
    QuotientBounds(left * rate, freq);
    var q := left * rate / freq;
    if freq - rate > 50 {
      assert Wanted(left, rate, freq) == Max(Min(2, left), q);
      if q < Min(2, left) {
        MulLeq(q + 1, Min(2, left), freq);
        assert (Min(2, left) + 1) * freq == Min(2, left) * freq + freq;
      }
    }
  }

  /** What is not converted is wanted just as it is: rates no further apart than 50 Hz. */
  lemma ConvertedIff(u: Setup, left: nat)
    requires SetupOk(u) && 0 < left <= 8192
    ensures if u.freq - 50 <= u.rate <= u.freq + 50 then !Resamples(u) && Wanted(left, u.rate, u.freq) == left
            else Resamples(u)
  {
  }

  /** The frames counted for a pass are the frames there are: whole ones of PCM, or the decoder's samples. */
  lemma FramesAreThere(p: SbDsp.Play, s: State, chunk: seq<nat>)
    requires SbDsp.PlayOk(p) && chunk != [] && Adpcm.Bytes(chunk)
    requires s.adpcm.useRef || (Adpcm.Width(p.bits) ==> Adpcm.LegalState(p.bits, s.adpcm))
    ensures Adpcm.Width(p.bits) ==> FramesIn(p, s, |chunk|) == |Adpcm.Decode(p.bits, s.adpcm, chunk).0|
    ensures !Adpcm.Width(p.bits) && |chunk| % FrameBytes(p) == 0 ==> FramesIn(p, s, |chunk|) * FrameBytes(p) == |chunk|
  {
    FrameIsSmall(p);
    if Adpcm.Width(p.bits) {
      Adpcm.DecodeIsLegal(p.bits, s.adpcm, chunk);
    } else {
      DivMod(|chunk|, FrameBytes(p));
    }
  }

  /**
   * An aligned transfer goes on, once begun, while sound is wanted and the bytes moved have not reached the end
   * of a block, or reach the ends of blocks that are automatic and longer than 32 bytes.
   */
  lemma AlignedGoesOnIff(u: Setup, p: SbDsp.Play, s: State, chunks: seq<nat>)
    requires u.channel < 8 && Sane(s) && Playing(p, s) && Aligned(s.chan, Vdma.Unit(u.channel), p)
    requires SizesOk(u, p, s, chunks) && chunks != []
    ensures Sum(chunks) >= 0
    ensures GoesOn(u, p, s, chunks) <==>
      && FramesOutAll(u, p, s, chunks) < u.samples
      && (p.pos + Sum(chunks) < SbDsp.SampleBytes(p) || (p.auto && SbDsp.SampleBytes(p) > 32))
  {
    PassesPlay(u, p, s, chunks);
    PlayedEnds(u, p, s, PassesOn(u, p, s, chunks), Sum(chunks));
    AlignedIsAuto(s.chan, Vdma.Unit(u.channel), p);
    hide Played, Aligned, PassesOn, SizesOk, Sum, FramesOutAll, SbDsp.SampleBytes, Vdma.Auto, Playing, Sane;
  }

  lemma AlignedIsAuto(c: Vdma.Channel, unit: nat, p: SbDsp.Play)
    requires Aligned(c, unit, p)
    ensures Vdma.Auto(c) && p.pos >= 0 && SbDsp.SampleBytes(p) > 0
  {
    hide SbDsp.SampleBytes, FrameBytes, Vdma.Auto;
  }

  lemma PlayedEnds(u: Setup, p: SbDsp.Play, s: State, s': State, total: nat)
    requires u.channel < 8 && Aligned(s.chan, Vdma.Unit(u.channel), p) && Played(u, p, s, s', total)
    ensures s'.irqs == s.irqs <==> p.pos + total < SbDsp.SampleBytes(p)
  {
    AlignedIsAuto(s.chan, Vdma.Unit(u.channel), p);
    hide Aligned, SbDsp.SampleBytes, Heard, RingSource;
    EndedIff(p.pos + total, SbDsp.SampleBytes(p));
  }

  lemma EndedIff(at: nat, block: nat)
    requires block > 0
    ensures at / block == 0 <==> at < block
  {
    DivMod(at, block);
    if at < block {
      DivModUnique(at, block, 0, at);
    }
  }

  /** PCM: as many frames as wanted, unless not even one more fits into the ring, or into the block. */
  lemma ChunkIsLargest(wanted: nat, dmaCount: nat, blockLeft: nat, size: nat, channels: nat, bits: nat)
    requires FrameShape(size, channels) && bits >= 8 && wanted >= 1
    ensures var k, frame := ChunkFrames(wanted, dmaCount, blockLeft, size, channels, bits), size * channels;
            && 1 <= k <= wanted
            && (k == wanted || (k + 1) * frame > dmaCount || (k + 1) * frame > blockLeft)
  {
    QuotientOfFrame(dmaCount, size, channels);
    QuotientOfFrame(blockLeft, size, channels);
  }

  lemma QuotientOfFrame(x: nat, size: nat, channels: nat)
    requires FrameShape(size, channels)
    ensures (Max(1, x / size / channels) + 1) * (size * channels) > x
  {
    if size == 2 && channels == 2 {
      assert x / 2 / 2 == x / 4;
    }
  }

  /** ADPCM: the bytes that, unpacked, are at most that many samples, and at least one. */
  lemma AdpcmChunk(wanted: nat, dmaCount: nat, blockLeft: nat, channels: nat, bits: nat)
    requires FrameShape(1, channels) && Adpcm.Width(bits) && wanted >= 1
    ensures var k := ChunkFrames(wanted, dmaCount, blockLeft, 1, channels, bits);
            var whole, ratio := ChunkFrames(wanted, dmaCount, blockLeft, 1, channels, 8), 9 / bits;
            (ratio == if bits == 2 then 4 else if bits == 3 then 3 else 2)
            && (k * ratio <= whole || k == 1) && (k + 1) * ratio > whole && k >= 1
  {
  }

  /** One frame of each format in bytes. */
  lemma FrameSizes(p: SbDsp.Play)
    requires SbDsp.PlayOk(p)
    ensures FrameBytes(p) == (if p.bits == 16 then 2 else 1) * (if p.stereo then 2 else 1)
  {
  }

  /** Sound at a quarter of the card's rate: an eighth of the block fills the buffer in a single pass. */
  lemma QuarterRateExample(u: Setup, p: SbDsp.Play, s: State)
    requires u.channel == 1 && u.samples == 1024 && u.rate == 11025 && u.freq == 44100
    requires u.resampled == ((n: nat) => 4 * n)
    requires Sane(s) && s.chan.cur == 4096 && s.pos == 0
    requires SbDsp.PlayOk(p) && p.bits == 8 && !p.stereo && p.samples == 2047
    ensures ChunkBytes(u, p, s, 1024) == 256 && FramesOut(u, p, s, 256) == 1024
    ensures Planned(u, p, s, [256]) && !GoesOn(u, p, s, [256])
  {
    assert [256][..0] == [];
    hide PassOn;
  }

  // ---------------------------------------------------------------- continuous sound

  /** A state `s` in which the block of `p` is being played. */
  predicate Playing(p: SbDsp.Play, s: State) { s.pos == p.pos && SbDsp.PlayOk(p) && WindowOk(s.window) }

  /** What passes over `total` bytes have done to an aligned state: both cursors, the interrupts, the bytes heard. */
  ghost predicate Played(u: Setup, p: SbDsp.Play, s: State, s': State, total: nat)
    requires u.channel < 8 && Aligned(s.chan, Vdma.Unit(u.channel), p)
  {
    var unit := Vdma.Unit(u.channel);
    var addr, ring, start := Start(s, unit), RingBytes(s.chan, unit), RingIndex(s.chan, unit);
    var source := RingSource(s.window, addr, ring, u.mapper);
    && Moved(s.chan, p, s'.chan, p.(pos := s'.pos), unit, total, s'.irqs - s.irqs)
    && s'.bytes == s.bytes + Heard(u.mem, addr, ring, start, total, source)
    && RingSource(s'.window, addr, ring, u.mapper) == source
  }

  lemma AlignedIsSane(c: Vdma.Channel, unit: nat, p: SbDsp.Play)
    requires Whole(c, unit, p)
    ensures c.index >= 0 && c.cur >= 0 && c.counter >= 1 && p.pos >= 0
    ensures RingIndex(c, unit) + Rest(c, unit) == RingBytes(c, unit) && RingIndex(c, unit) < RingBytes(c, unit)
    ensures Rest(c, unit) > 0
  {
    Linear(c, unit);
  }

  /** A pass through the window: what is copied is heard of the ring, and the next pass hears the same source. */
  lemma PassHears(u: Setup, p: SbDsp.Play, s: State, b: nat)
    requires u.channel < 8 && Sane(s) && Whole(s.chan, Vdma.Unit(u.channel), p)
    requires b <= Rest(s.chan, Vdma.Unit(u.channel))
    ensures var unit := Vdma.Unit(u.channel); var addr, ring := Start(s, unit), RingBytes(s.chan, unit);
            var source := RingSource(s.window, addr, ring, u.mapper); var s' := PassOn(u, p, s, b);
            && s'.bytes == s.bytes + Heard(u.mem, addr, ring, RingIndex(s.chan, unit), b, source)
            && RingSource(s'.window, addr, ring, u.mapper) == source
  {
    var unit := Vdma.Unit(u.channel);
    var addr, ring, index := Start(s, unit), RingBytes(s.chan, unit), RingIndex(s.chan, unit);
    AlignedIsSane(s.chan, unit, p);
    var w := InForce(s.window, addr, ring, u.mapper);
    hide FreshWindow, Fetched, Heard, Vdma.Progress, Adpcm.Decode;
    WindowShowsRing(u.mem, w, addr, ring, index, b);
  }

  /** What is left of ring and block is whole frames, so that a chunk passes neither end. */
  lemma ChunkStaysInside(u: Setup, p: SbDsp.Play, s: State, b: nat)
    requires u.channel < 8 && Sane(s) && Playing(p, s) && Whole(s.chan, Vdma.Unit(u.channel), p) && SizeOk(u, p, s, b)
    ensures 0 < b <= Rest(s.chan, Vdma.Unit(u.channel)) && s.pos + b <= SbDsp.SampleBytes(p) && b % FrameBytes(p) == 0
  {
    RestIsWhole(s.chan, Vdma.Unit(u.channel), p);
    hide Whole, SbDsp.SampleBytes, RingBytes, RingIndex;
    AtLeastOne(s.chan.cur * Vdma.Unit(u.channel), FrameBytes(p));
    AtLeastOne(SbDsp.SampleBytes(p) - p.pos, FrameBytes(p));
  }

  lemma AtLeastOne(x: nat, frame: nat)
    requires x > 0 && frame > 0 && x % frame == 0
    ensures frame <= x
  {
    DivMod(x, frame);
  }

  /** A pass's effect on the cursors. */
  lemma PassMovesCursors(u: Setup, p: SbDsp.Play, s: State, b: nat)
    requires u.channel < 8 && Sane(s)
    ensures var unit, s' := Vdma.Unit(u.channel), PassOn(u, p, s, b); var ended := s.pos + b >= SbDsp.SampleBytes(p);
            && s'.chan == Vdma.Progress(s.chan, unit, s.chan.index * unit + b, s.chan.cur * unit - b)
            && s'.pos == (if ended then 0 else s.pos + b) && s'.irqs == s.irqs + if ended then 1 else 0
  {
    hide Fetched, InForce, Vdma.Progress, Adpcm.Decode;
  }

  lemma PassMovesTo(c: Vdma.Channel, unit: nat, p: SbDsp.Play, c': Vdma.Channel, pos: int, bytes: nat, irqs: int)
    requires Aligned(c, unit, p) && SbDsp.PlayOk(p)
    requires 0 < bytes <= c.cur * unit && p.pos + bytes <= SbDsp.SampleBytes(p) && bytes % FrameBytes(p) == 0
    requires c' == Vdma.Progress(c, unit, c.index * unit + bytes, c.cur * unit - bytes)
    requires pos == if p.pos + bytes >= SbDsp.SampleBytes(p) then 0 else p.pos + bytes
    requires irqs == if p.pos + bytes >= SbDsp.SampleBytes(p) then 1 else 0
    ensures Moved(c, p, c', p.(pos := pos), unit, bytes, irqs)
  {
    hide Moved, Whole, Vdma.Progress, SbDsp.SampleBytes, FrameBytes;
    PassMoves(c, unit, p, p.(pos := pos), bytes);
  }

  lemma PassMoved(u: Setup, p: SbDsp.Play, s: State, b: nat)
    requires u.channel < 8 && Sane(s) && Playing(p, s) && Aligned(s.chan, Vdma.Unit(u.channel), p) && SizeOk(u, p, s, b)
    ensures var unit, s' := Vdma.Unit(u.channel), PassOn(u, p, s, b);
            Moved(s.chan, p, s'.chan, p.(pos := s'.pos), unit, b, s'.irqs - s.irqs)
  {
    var unit, s' := Vdma.Unit(u.channel), PassOn(u, p, s, b);
    ChunkStaysInside(u, p, s, b);
    PassMovesCursors(u, p, s, b);
    hide PassOn, Moved, SizeOk, Whole, Vdma.Progress, SbDsp.SampleBytes, FrameBytes, Sane, SbDsp.PlayOk, Vdma.Auto;
    PassMovesTo(s.chan, unit, p, s'.chan, s'.pos, b, s'.irqs - s.irqs);
  }

  /** One pass in an aligned state. */
  lemma PassPlays(u: Setup, p: SbDsp.Play, s: State, b: nat)
    requires u.channel < 8 && Sane(s) && Playing(p, s) && Aligned(s.chan, Vdma.Unit(u.channel), p) && SizeOk(u, p, s, b)
    ensures Played(u, p, s, PassOn(u, p, s, b), b)
  {
    AlignedIsSane(s.chan, Vdma.Unit(u.channel), p);
    ChunkStaysInside(u, p, s, b);
    PassMoved(u, p, s, b);
    PassHears(u, p, s, b);
    hide PassOn, Moved, Heard, RingSource, SizeOk, Whole, Vdma.Progress, SbDsp.SampleBytes, Start, FrameBytes;
  }

  lemma PlayedFacts(u: Setup, p: SbDsp.Play, s: State, s': State, total: nat)
    requires u.channel < 8 && Sane(s) && Playing(p, s) && Aligned(s.chan, Vdma.Unit(u.channel), p)
    requires Played(u, p, s, s', total)
    ensures var unit, p' := Vdma.Unit(u.channel), p.(pos := s'.pos);
            && Aligned(s'.chan, unit, p') && Start(s', unit) == Start(s, unit) && RingBytes(s.chan, unit) > 0
            && RingBytes(s'.chan, unit) == RingBytes(s.chan, unit) && RingIndex(s.chan, unit) >= 0
            && RingIndex(s'.chan, unit) == (RingIndex(s.chan, unit) + total) % RingBytes(s.chan, unit)
  {
    hide Heard, RingSource;
    MovedFacts(s.chan, p, s'.chan, p.(pos := s'.pos), Vdma.Unit(u.channel), total, s'.irqs - s.irqs);
  }

  /** Plays compose. */
  lemma PlayedCompose(u: Setup, p: SbDsp.Play, s: State, s1: State, s2: State, t1: nat, t2: nat)
    requires u.channel < 8 && Sane(s) && Playing(p, s) && Aligned(s.chan, Vdma.Unit(u.channel), p)
    requires Played(u, p, s, s1, t1) && Aligned(s1.chan, Vdma.Unit(u.channel), p.(pos := s1.pos))
    requires Played(u, p.(pos := s1.pos), s1, s2, t2)
    ensures Played(u, p, s, s2, t1 + t2)
  {
    var unit := Vdma.Unit(u.channel);
    var addr, ring, start := Start(s, unit), RingBytes(s.chan, unit), RingIndex(s.chan, unit);
    PlayedFacts(u, p, s, s1, t1);
    hide Heard, RingSource, Moved, Aligned, RingBytes, RingIndex;
    MovedCompose(s.chan, p, s1.chan, p.(pos := s1.pos), s2.chan, p.(pos := s2.pos), unit,
                 t1, s1.irqs - s.irqs, t2, s2.irqs - s1.irqs);
    HeardCompose(u.mem, addr, ring, start, t1, t2, RingSource(s.window, addr, ring, u.mapper));
  }

  /**
   * For an aligned transfer any passes move both cursors and the interrupts as their bytes in all say, and what
   * they copy is one gapless cyclic read of the ring from one source.
   */
  lemma {:induction false} PassesPlay(u: Setup, p: SbDsp.Play, s: State, chunks: seq<nat>)
    requires u.channel < 8 && Sane(s) && Playing(p, s) && Aligned(s.chan, Vdma.Unit(u.channel), p)
    requires SizesOk(u, p, s, chunks)
    ensures Sum(chunks) >= 0 && Played(u, p, s, PassesOn(u, p, s, chunks), Sum(chunks))
    decreases |chunks|
  {
    hide Played, Aligned, PassOn, SizeOk;
    if chunks == [] {
      NothingPlayed(u, p, s);
    } else {
      var front, b := chunks[..|chunks| - 1], chunks[|chunks| - 1];
      PassesPlay(u, p, s, front);
      var s1 := PassesOn(u, p, s, front);
      PlayedFacts(u, p, s, s1, Sum(front));
      SameBlockSamePass(u, p, p.(pos := s1.pos), s1, b);
      PassPlays(u, p.(pos := s1.pos), s1, b);
      PlayedCompose(u, p, s, s1, PassOn(u, p, s1, b), Sum(front), b);
    }
  }

  lemma NothingPlayed(u: Setup, p: SbDsp.Play, s: State)
    requires u.channel < 8 && Sane(s) && Playing(p, s) && Aligned(s.chan, Vdma.Unit(u.channel), p)
    ensures Played(u, p, s, s, 0)
  {
    var unit := Vdma.Unit(u.channel);
    MovedNowhere(s.chan, p, unit);
    MovedFacts(s.chan, p, s.chan, p, unit, 0, 0);
    var addr, ring, start := Start(s, unit), RingBytes(s.chan, unit), RingIndex(s.chan, unit);
    HeardNone(u.mem, addr, ring, start, RingSource(s.window, addr, ring, u.mapper));
    hide Moved, Heard, RingSource;
  }

  /**
   * On a channel that is not auto-initialised a pass reads on to at most the end of the buffer; at the end the
   * transfer is complete, and the counter starts over from 64K.
   */
  lemma SingleCyclePass(u: Setup, p: SbDsp.Play, s: State, b: nat)
    requires u.channel < 8 && Sane(s) && Playing(p, s) && Whole(s.chan, Vdma.Unit(u.channel), p)
    requires !Vdma.Auto(s.chan) && SizeOk(u, p, s, b)
    ensures var unit := Vdma.Unit(u.channel); var addr, ring := Start(s, unit), RingBytes(s.chan, unit);
            var start, s' := RingIndex(s.chan, unit), PassOn(u, p, s, b);
            && start + b <= ring
            && s'.bytes == s.bytes + Heard(u.mem, addr, ring, start, b, RingSource(s.window, addr, ring, u.mapper))
            && RingIndex(s'.chan, unit) == start + b
            && (start + b < ring ==> Positioned(s'.chan))
            && (start + b == ring ==> s'.chan.complete && s'.chan.cur == 0x1_0000)
  {
    ChunkStaysInside(u, p, s, b);
    AlignedIsSane(s.chan, Vdma.Unit(u.channel), p);
    PassHears(u, p, s, b);
    SingleCycleMoves(u, p, s, b);
    hide *;
  }

  lemma SingleCycleMoves(u: Setup, p: SbDsp.Play, s: State, b: nat)
    requires u.channel < 8 && Sane(s) && Playing(p, s) && Whole(s.chan, Vdma.Unit(u.channel), p)
    requires !Vdma.Auto(s.chan) && SizeOk(u, p, s, b)
    ensures var unit, s' := Vdma.Unit(u.channel), PassOn(u, p, s, b);
            var start, ring := RingIndex(s.chan, unit), RingBytes(s.chan, unit);
            && RingIndex(s'.chan, unit) == start + b
            && (start + b < ring ==> Positioned(s'.chan))
            && (start + b == ring ==> s'.chan.complete && s'.chan.cur == 0x1_0000)
  {
    var unit, s' := Vdma.Unit(u.channel), PassOn(u, p, s, b);
    ChunkStaysInside(u, p, s, b);
    PassMovesCursors(u, p, s, b);
    UnitsInChunk(s.chan, unit, p, b);
    hide *;
    SingleTick(s.chan, unit, s'.chan, b);
  }

  lemma UnitsInChunk(c: Vdma.Channel, unit: nat, p: SbDsp.Play, b: nat)
    requires Whole(c, unit, p) && SbDsp.PlayOk(p) && b % FrameBytes(p) == 0
    ensures b % unit == 0 && 1 <= unit <= 2 && Positioned(c)
  {
    FrameIsSmall(p);
    MultipleOfDivisor(b, FrameBytes(p), unit);
  }

  lemma SingleTick(c: Vdma.Channel, unit: nat, c': Vdma.Channel, bytes: nat)
    requires Positioned(c) && !Vdma.Auto(c) && 1 <= unit <= 2 && bytes % unit == 0 && 0 < bytes <= Rest(c, unit)
    requires c' == Vdma.Progress(c, unit, c.index * unit + bytes, c.cur * unit - bytes)
    ensures RingIndex(c', unit) == RingIndex(c, unit) + bytes
    ensures RingIndex(c, unit) + bytes < RingBytes(c, unit) ==> Positioned(c')
    ensures RingIndex(c, unit) + bytes == RingBytes(c, unit) ==> c'.complete && c'.cur == 0x1_0000
  {
    hide Vdma.Progress, Vdma.Auto;
    if unit == 1 {
      SingleOfBytes(c, bytes);
    } else {
      var n := bytes / 2;
      assert bytes == n * 2 && unit == 2;
      SingleOfWords(c, n);
    }
  }

  lemma SingleOfBytes(c: Vdma.Channel, n: nat)
    requires Positioned(c) && !Vdma.Auto(c) && 0 < n <= c.cur
    ensures var c' := Vdma.Progress(c, 1, c.index * 1 + n, c.cur * 1 - n);
            && c'.index == c.index + n && c'.counter == c.counter
            && if n < c.cur then c'.cur == c.cur - n else c'.complete && c'.cur == 0x1_0000
  {
  }

  lemma SingleOfWords(c: Vdma.Channel, n: nat)
    requires Positioned(c) && !Vdma.Auto(c) && 0 < n <= c.cur
    ensures var c' := Vdma.Progress(c, 2, c.index * 2 + n * 2, c.cur * 2 - n * 2);
            && c'.index == c.index + n && c'.counter == c.counter
            && if n < c.cur then c'.cur == c.cur - n else c'.complete && c'.cur == 0x1_0000
  {
  }

  /** The decoder has been fed with all bytes since `s`. */
  predicate OneStream(p: SbDsp.Play, s: State, s': State)
    requires Adpcm.Width(p.bits)
  {
    && |s'.bytes| > |s.bytes| && s'.bytes[..|s.bytes|] == s.bytes
    && s'.adpcm == Adpcm.Decode(p.bits, s.adpcm, s'.bytes[|s.bytes|..]).1
  }

  lemma StreamBegins(p: SbDsp.Play, s: State, s1: State, chunk: seq<nat>)
    requires Adpcm.Width(p.bits) && chunk != [] && s1.bytes == s.bytes + chunk
    requires s1.adpcm == Adpcm.Decode(p.bits, s.adpcm, chunk).1
    ensures OneStream(p, s, s1)
  {
    hide Adpcm.Decode;
    assert s1.bytes[|s.bytes|..] == chunk;
  }

  lemma StreamContinues(p: SbDsp.Play, s: State, s1: State, s2: State, chunk: seq<nat>)
    requires Adpcm.Width(p.bits) && OneStream(p, s, s1) && chunk != [] && s2.bytes == s1.bytes + chunk
    requires s2.adpcm == Adpcm.Decode(p.bits, s1.adpcm, chunk).1
    ensures OneStream(p, s, s2)
  {
    hide Adpcm.Decode;
    var heard := s1.bytes[|s.bytes|..];
    Adpcm.DecodeAppend(p.bits, s.adpcm, heard, chunk);
    assert s2.bytes[|s.bytes|..] == heard + chunk;
  }

  /** However the bytes were split into passes, the ADPCM decoder ends as if it had decoded them all at once. */
  lemma {:induction false} PassesAreOneStream(u: Setup, p: SbDsp.Play, s: State, chunks: seq<nat>)
    requires u.channel < 8 && Sane(s) && Adpcm.Width(p.bits) && SizesOk(u, p, s, chunks) && chunks != []
    ensures OneStream(p, s, PassesOn(u, p, s, chunks))
    decreases |chunks|
  {
    hide OneStream, PassOn, SizeOk, Adpcm.Decode;
    var front, b := chunks[..|chunks| - 1], chunks[|chunks| - 1];
    var s1 := PassesOn(u, p, s, front);
    var chunk := PassCopies(u, p, s1, b);
    if front == [] {
      StreamBegins(p, s, PassOn(u, p, s1, b), chunk);
    } else {
      PassesAreOneStream(u, p, s, front);
      StreamContinues(p, s, s1, PassOn(u, p, s1, b), chunk);
    }
  }

  lemma PassCopies(u: Setup, p: SbDsp.Play, s: State, b: nat) returns (chunk: seq<nat>)
    requires u.channel < 8 && Sane(s) && Adpcm.Width(p.bits) && SizeOk(u, p, s, b)
    ensures var s' := PassOn(u, p, s, b);
            chunk != [] && s'.bytes == s.bytes + chunk && s'.adpcm == Adpcm.Decode(p.bits, s.adpcm, chunk).1
  {
    hide Adpcm.Decode;
    var unit := Vdma.Unit(u.channel);
    var addr, index, count := Start(s, unit), RingIndex(s.chan, unit), Rest(s.chan, unit);
    chunk := Fetched(u.mem, InForce(s.window, addr, index + count, u.mapper), addr, index, b);
  }

  // ---------------------------------------------------------------- the pump's object

  class Engine {
    const dma: Vdma.Controller
    const sb: SbDsp.Device
    var irqs: nat          // virtual interrupts raised
    var detections: nat    // very short blocks played, probably by a detection routine
    var window: Window
    ghost var copied: seq<nat>

    constructor (dma: Vdma.Controller, sb: SbDsp.Device)
      ensures this.dma == dma && this.sb == sb && irqs == 0 && copied == [] && window.at == 0
    {
      this.dma := dma;
      this.sb := sb;
      irqs, detections, window := 0, 0, Window(0, 0, 0, false);
      copied := [];
    }

    ghost predicate Valid()
      reads this, dma, sb
    {
      dma.Valid() && SbDsp.Ok(sb.Abs()) && WindowOk(window)
    }

    /** The channel in use. */
    ghost function Chan(u: Setup): (c: Vdma.Channel)
      reads dma
      requires dma.Valid() && u.channel < 8
    {
      dma.Abs().ch[u.channel]
    }

    /** What the passes move, as it is now. */
    ghost function Now(u: Setup): (s: State)
      reads this, dma, sb
      requires dma.Valid() && u.channel < 8
    {
      State(Chan(u), sb.play.pos, window, irqs, copied, sb.adpcm)
    }

    /** Keeps the mapped window if it covers the ring, and else renews it. */
    method EnsureMapped(addr: nat, index: nat, count: nat, mapper: (nat, nat) -> nat)
      modifies this`window
      ensures window == InForce(old(window), addr, index + count, mapper)
    {
      var w := window;
      if w.at != 0 && !(addr >= w.addr && addr + index + count <= w.addr + w.size) {
        w := Window(0, w.addr, w.size, false);
      }
      if w.at == 0 {
        var start := addr - addr % 0x1000;
        var size := AlignPage(Max(addr - start + index + count, 64 * 1024 * 2));
        if addr + index + count <= 0x10_0000 {
          w := Window(start, start, size, true);
        } else {
          var at := mapper(start, size);
          w := Window(at, start, size, false);
        }
      }
      window := w;
    }

    /** Frames and bytes of the next pass, and whether they will be resampled. */
    method ChunkSize(u: Setup, left: nat, dmaCount: nat, blockLeft: nat, size: nat, channels: nat, bits: nat)
      returns (count: nat, resample: bool)
      requires size > 0 && channels > 0 && bits > 0 && u.freq > 50
      ensures count == ChunkFrames(Wanted(left, u.rate, u.freq), dmaCount, blockLeft, size, channels, bits)
      ensures resample <==> u.rate < u.freq - 50 || u.rate > u.freq + 50
    {
      count := left;
      resample := true;
      if u.rate < u.freq - 50 {
        count := Max(Min(2, count), U32(count * u.rate) / u.freq);
      } else if u.rate > u.freq + 50 {
        count := U32(count * u.rate) / u.freq;
      } else {
        resample := false;
      }
      count := Min(count, Max(1, dmaCount / size / channels));
      count := Min(count, Max(1, blockLeft / size / channels));
      if bits < 8 {
        count := Max(1, count / (9 / bits));
      }
    }

    /** The size of the next chunk, at least a frame; it passes an end only if less than a frame is left. */
    method NextChunk(u: Setup, left: nat, dmaCount: nat, blockLeft: nat, size: nat, channels: nat, bits: nat)
      returns (count: nat, resample: bool)
      requires SetupOk(u) && 0 < left <= 8192 && FrameShape(size, channels) && bits >= 2
      ensures var frame, bytes := size * channels, count * size * channels;
              && count >= 1 && 0 < frame <= bytes
              && count == ChunkFrames(Wanted(left, u.rate, u.freq), dmaCount, blockLeft, size, channels, bits)
      ensures resample <==> Resamples(u)
    {
      WantsSomething(left, u.rate, u.freq);
      ChunkFits(Wanted(left, u.rate, u.freq), dmaCount, blockLeft, size, channels, bits);
      hide ChunkFrames, Wanted;
      count, resample := ChunkSize(u, left, dmaCount, blockLeft, size, channels, bits);
    }

    /** A buffer of `size` bytes that starts with a chunk. */
    method CopyOf(chunk: seq<nat>, size: nat) returns (buffer: array<nat>)
      requires |chunk| <= size
      ensures fresh(buffer) && buffer.Length == size && buffer[..|chunk|] == chunk
    {
      buffer := new nat[size](_ => 0);
      for i := 0 to |chunk|
        invariant buffer[..i] == chunk[..i]
        modifies buffer
      {
        buffer[i] := chunk[i];
      }
    }

    /** Frames in a chunk; ADPCM data is decoded through the DSP's decoder state first. */
    method FramesOf(chunk: seq<nat>, count: nat) returns (frames: nat)
      requires Valid() && chunk != [] && Adpcm.Bytes(chunk) && count >= 1
      modifies sb`adpcm
      ensures Valid() && sb.play == old(sb.play)
      ensures frames >= 1 || (old(sb.adpcm.useRef) && !sb.adpcm.useRef)
      ensures sb.play.bits >= 8 ==> frames == count && sb.adpcm == old(sb.adpcm)
      ensures sb.play.bits < 8 ==>
        && sb.adpcm == Adpcm.Decode(sb.play.bits, old(sb.adpcm), chunk).1 && !sb.adpcm.useRef
        && frames == (|chunk| - if old(sb.adpcm.useRef) then 1 else 0) * (9 / sb.play.bits)
    {
      hide Adpcm.Decode, Adpcm.Bytes;
      frames := count;
      if sb.play.bits < 8 {
        frames := Expand(chunk);
      }
    }

    /** Decodes a chunk of ADPCM data; returns the number of samples. */
    method Expand(chunk: seq<nat>) returns (frames: nat)
      requires Valid() && chunk != [] && Adpcm.Bytes(chunk) && sb.play.bits < 8
      modifies sb`adpcm
      ensures Valid() && sb.play == old(sb.play) && !sb.adpcm.useRef
      ensures frames >= 1 || old(sb.adpcm.useRef)
      ensures sb.adpcm == Adpcm.Decode(sb.play.bits, old(sb.adpcm), chunk).1
      ensures frames == (|chunk| - if old(sb.adpcm.useRef) then 1 else 0) * (9 / sb.play.bits)
    {
      Expansion(|chunk|, sb.play.bits);
      var ratio := 9 / sb.play.bits;
      SbDsp.DecodedOnly(sb.Abs(), chunk);
      Adpcm.DecodeIsLegal(sb.play.bits, sb.adpcm, chunk);
      hide SbDsp.Apply, SbDsp.Ok, Adpcm.Decode, Adpcm.Bytes;
      var buffer := CopyOf(chunk, |chunk| * ratio);
      frames := sb.DecodeInPlace(buffer, |chunk|);
      if !old(sb.adpcm.useRef) {
        MulLeq(1, |chunk|, ratio);
      }
    }

    /**
     * The end of a pass: the channel ticks, the block position moves; at the block's end a transfer that is
     * not automatic stops, the position restarts and the guest is interrupted.
     */
    method Finish(u: Setup, index: int, count: int, sbPos: int, sbBytes: nat, bytes: nat) returns (ended: bool)
      requires Valid() && u.channel < 8 && sbBytes == SbDsp.SampleBytes(sb.play)
      modifies this`irqs, dma, sb
      ensures Valid() && sb.adpcm == old(sb.adpcm) && SameBlock(old(sb.play), sb.play)
      ensures Chan(u) == Vdma.Progress(old(Chan(u)), Vdma.Unit(u.channel), index + bytes, count - bytes)
      ensures ended <==> sbPos + bytes >= sbBytes
      ensures sb.play.pos == if ended then 0 else sbPos + bytes
      ensures irqs == old(irqs) + if ended then 1 else 0
      ensures sb.play.started == (old(sb.play.started) && (!ended || sb.play.auto))
    {
      var position := dma.SetIndexCounter(u.channel, index + bytes, count - bytes);
      ended := MoveBlock(sbPos + bytes, sbBytes);
      if ended {
        irqs := irqs + 1;
      }
    }

    /** The block position moves to `at`; at the end of the block it restarts, and a single-cycle transfer stops. */
    method MoveBlock(at: int, sbBytes: nat) returns (ended: bool)
      requires SbDsp.Ok(sb.Abs()) && sbBytes == SbDsp.SampleBytes(sb.play)
      modifies sb
      ensures SbDsp.Ok(sb.Abs()) && sb.adpcm == old(sb.adpcm) && SameBlock(old(sb.play), sb.play)
      ensures ended == (at >= sbBytes) && sb.play.pos == if ended then 0 else at
      ensures sb.play.started == (old(sb.play.started) && (!ended || sb.play.auto))
      ensures ended ==> (sb.irq.int8 || sb.irq.int16)
    {
      SbDsp.ApplyKeepsOk(sb.Abs(), SbDsp.Moved(at));
      sb.SetPosition(at);
      ended := at >= sbBytes;
      if ended {
        if !sb.play.auto {
          SbDsp.ApplyKeepsOk(sb.Abs(), SbDsp.Stopped);
          sb.StopTransfer();
        }
        SbDsp.ApplyKeepsOk(sb.Abs(), SbDsp.Moved(0));
        sb.SetPosition(0);
      }
    }

    /** The next `bytes` bytes of the ring, read through its window, or zero bytes if it has none. */
    method Fetch(u: Setup, addr: nat, index: nat, count: nat, bytes: nat) returns (chunk: seq<nat>)
      requires SetupOk(u) && 0 < bytes
      modifies this`window, this`copied
      ensures window == InForce(old(window), addr, index + count, u.mapper)
      ensures chunk == Fetched(u.mem, window, addr, index, bytes) && copied == old(copied) + chunk
      ensures |chunk| == bytes && Adpcm.Bytes(chunk)
    {
      hide InForce;
      EnsureMapped(addr, index, count, u.mapper);
      var w := window;
      if w.at == 0 {
        chunk := seq(bytes, _ => 0);
      } else {
        var from := w.at + (addr - w.addr) + index;
        chunk := LinearBytes(u.mem, w, from, bytes);
      }
      FetchedAreBytes(u.mem, w, addr, index, bytes);
      copied := copied + chunk;
    }

    /** One pass of the pump: `n` frames for the PCM buffer out of `b` bytes of the ring. */
    method Pass(u: Setup, left: nat, addr: nat) returns (n: nat, ended: bool, ghost b: nat)
      requires Valid() && SetupOk(u) && 0 < left <= 8192 && dma.GetAddress(u.channel) == addr && Sane(Now(u))
      modifies this, dma, sb
      ensures Valid() && detections == old(detections) && SameBlock(old(sb.play), sb.play)
      ensures b > 0 && b == ChunkBytes(u, old(sb.play), old(Now(u)), left)
      ensures n == FramesOut(u, old(sb.play), old(Now(u)), b)
      ensures Now(u) == PassOn(u, old(sb.play), old(Now(u)), b)
      ensures ended <==> old(sb.play.pos) + b >= SbDsp.SampleBytes(old(sb.play))
      ensures ended ==> sb.play.pos == 0
      ensures sb.play.started == (old(sb.play.started) && (!ended || sb.play.auto))
      ensures n >= 1 || (old(sb.adpcm.useRef) && !sb.adpcm.useRef)
      ensures sb.adpcm.useRef ==> old(sb.adpcm.useRef)
    {
      hide FrameBytes, Vdma.ViewOf, Vdma.Progress, Adpcm.Decode, InForce, Fetched, SbDsp.SampleBytes, ChunkBytes;
      var index, count := dma.GetIndex(u.channel), dma.GetCounter(u.channel);
      var sbBytes, sbPos := SbDsp.SampleBytes(sb.play), sb.play.pos;
      var bytes, resample;
      n, bytes, resample := Plan(u, left, count);
      b := bytes;
      var chunk := Fetch(u, addr, index, count, bytes);
      n := FramesOf(chunk, n);
      if resample {
        n := u.resampled(n);
      }
      ended := Finish(u, index, count, sbPos, sbBytes, bytes);
    }

    /** Frames and bytes of the next pass, and whether they are resampled. */
    method Plan(u: Setup, left: nat, count: nat) returns (n: nat, bytes: nat, resample: bool)
      requires Valid() && SetupOk(u) && 0 < left <= 8192 && Sane(Now(u))
      requires count == dma.GetCounter(u.channel)
      ensures n >= 1 && bytes > 0 && bytes == ChunkBytes(u, sb.play, Now(u), left)
      ensures n == bytes / FrameBytes(sb.play) && (resample <==> Resamples(u))
    {
      hide ChunkFrames, Wanted, Vdma.ViewOf, SbDsp.SampleBytes;
      FrameIsSmall(sb.play);
      BlockIsSmall(sb.play);
      var size, channels := SampleSize(sb.play.bits), Channels(sb.play.stereo);
      var sbBytes, sbPos := SbDsp.SampleBytes(sb.play), sb.play.pos;
      n, resample := NextChunk(u, left, count, U32(sbBytes - sbPos), size, channels, sb.play.bits);
      bytes := n * size * channels;
      FramesOfProduct(n, size, channels);
    }

    /** What the pump has done since the state `s0`, in which the transfer was `p0`. */
    ghost predicate Went(u: Setup, p0: SbDsp.Play, s0: State, chunks: seq<nat>)
      reads this, dma, sb
      requires u.channel < 8 && Sane(s0) && u.freq > 50 && SbDsp.PlayOk(p0)
    {
      && Valid() && SameBlock(p0, sb.play)
      && Planned(u, p0, s0, chunks) && Now(u) == PassesOn(u, p0, s0, chunks)
      && Start(Now(u), Vdma.Unit(u.channel)) == Start(s0, Vdma.Unit(u.channel))
      && Vdma.Auto(Chan(u)) == Vdma.Auto(s0.chan)
    }

    /** A pass added to what was done before. */
    method NextPass(u: Setup, pos: nat, addr: nat, ghost p0: SbDsp.Play, ghost s0: State, ghost chunks: seq<nat>)
      returns (n: nat, ended: bool, ghost chunks': seq<nat>)
      requires SetupOk(u) && Sane(s0) && SbDsp.PlayOk(p0) && Went(u, p0, s0, chunks) && GoesOn(u, p0, s0, chunks)
      requires pos == FramesOutAll(u, p0, s0, chunks) < u.samples && addr == Start(s0, Vdma.Unit(u.channel))
      modifies this, dma, sb
      ensures Went(u, p0, s0, chunks') && |chunks'| == |chunks| + 1 && pos + n == FramesOutAll(u, p0, s0, chunks')
      ensures irqs == old(irqs) + if ended then 1 else 0
      ensures detections == old(detections) && (ended ==> sb.play.pos == 0)
      ensures sb.play.started == (old(sb.play.started) && (!ended || sb.play.auto))
      ensures n >= 1 || (old(sb.adpcm.useRef) && !sb.adpcm.useRef)
      ensures sb.adpcm.useRef ==> old(sb.adpcm.useRef)
    {
      hide PassOn, SizeOk, Vdma.ViewOf, SbDsp.Ok, SbDsp.SampleBytes, SbDsp.PlayOk, ChunkBytes, FramesOut, GoesOn;
      ghost var s, p := Now(u), sb.play;
      ghost var b;
      n, ended, b := Pass(u, u.samples - pos, addr);
      chunks' := chunks + [b];
      SameBlockSamePass(u, p0, p, s, b);
      PassEnds(u, p, s, b);
      PlannedNext(u, p0, s0, chunks, b);
      PassesAppend(u, p0, s0, chunks, b);
      PassKeeps(u, p, s, b);
    }

    /**
     * One card interrupt's worth of digital sound. The guest's interrupt handlers are outside; they are taken
     * not to reprogram the devices. Whatever the state, the passes are those of the plan: each moves just the
     * bytes for the frames still wanted, and they end when they must, the frames they give, at the card's rate,
     * being counted. For an aligned transfer the bytes moved are one gapless cyclic read of the ring; both cursors
     * stay exact and every block end raises one interrupt. An ADPCM decoder sees one stream.
     */
    method PlayDigital(u: Setup) returns (pos: nat, ghost chunks: seq<nat>)
      requires Valid() && SetupOk(u) && sb.play.started && Sane(Now(u))
      modifies this, dma, sb
      ensures Valid() && SameBlock(old(sb.play), sb.play)
      ensures chunks != [] && Planned(u, old(sb.play), old(Now(u)), chunks)
              && !GoesOn(u, old(sb.play), old(Now(u)), chunks)
      ensures pos == FramesOutAll(u, old(sb.play), old(Now(u)), chunks)
      ensures SizesOk(u, old(sb.play), old(Now(u)), chunks)
      ensures Now(u) == PassesOn(u, old(sb.play), old(Now(u)), chunks)
      ensures !Vdma.Auto(old(Chan(u))) ==> |chunks| == 1
      ensures var over := irqs != old(irqs) && SbDsp.SampleBytes(sb.play) <= 32;
              && detections == old(detections) + (if over then 1 else 0)
              && (sb.play.started <==> (irqs == old(irqs) || sb.play.auto) && !(over && detections >= 256))
      ensures Aligned(old(Chan(u)), Vdma.Unit(u.channel), old(sb.play)) ==>
        Sum(chunks) >= 0 && Played(u, old(sb.play), old(Now(u)), Now(u), Sum(chunks))
      ensures Adpcm.Width(sb.play.bits) ==> OneStream(sb.play, old(Now(u)), Now(u))
    {
      hide PassesOn, SizesOk, Planned, FramesOutAll, Vdma.ViewOf, SbDsp.Ok, SbDsp.SampleBytes, Aligned, Played,
        Adpcm.Decode;
      ghost var p0, s0 := sb.play, Now(u);
      var addr := dma.GetAddress(u.channel);
      pos, chunks := 0, [];
      WentNowhere(u);
      var more := true;
      while more
        invariant Went(u, p0, s0, chunks) && pos == FramesOutAll(u, p0, s0, chunks)
        invariant more ==> pos < u.samples && sb.play.started && detections == old(detections)
        invariant more ==> irqs == s0.irqs || (p0.auto && SbDsp.SampleBytes(p0) > 32)
        invariant more <==> GoesOn(u, p0, s0, chunks)
        invariant !Vdma.Auto(s0.chan) ==> |chunks| <= 1
        invariant !more ==> Finished(p0, s0.irqs, old(detections))
        decreases more, u.samples - pos, sb.adpcm.useRef
      {
        more, pos, chunks := Round(u, pos, addr, p0, s0, chunks);
      }
      PlanSizesOk(u, p0, s0, chunks);
      SameBlockSameBytes(p0, sb.play);
      if Aligned(s0.chan, Vdma.Unit(u.channel), p0) {
        PassesPlay(u, p0, s0, chunks);
      }
      if Adpcm.Width(sb.play.bits) {
        PassesAreOneStream(u, p0, s0, chunks);
      }
    }

    /** Whether the transfer goes on after the interrupt, and what is noted of very short blocks. */
    ghost predicate Finished(p0: SbDsp.Play, irqs0: int, detections0: nat)
      reads this, sb
    {
      var over := irqs != irqs0 && SbDsp.SampleBytes(p0) <= 32;
      && detections == detections0 + (if over then 1 else 0)
      && (sb.play.started <==> (irqs == irqs0 || p0.auto) && !(over && detections >= 256))
    }

    /** A pass, and whether another one is to follow. */
    method Round(u: Setup, pos: nat, addr: nat, ghost p0: SbDsp.Play, ghost s0: State, ghost chunks: seq<nat>)
      returns (more: bool, pos': nat, ghost chunks': seq<nat>)
      requires SetupOk(u) && Sane(s0) && SbDsp.PlayOk(p0) && Went(u, p0, s0, chunks) && GoesOn(u, p0, s0, chunks)
      requires pos == FramesOutAll(u, p0, s0, chunks) < u.samples && addr == Start(s0, Vdma.Unit(u.channel))
      requires sb.play.started && (irqs == s0.irqs || (p0.auto && SbDsp.SampleBytes(p0) > 32))
      modifies this, dma, sb
      ensures Went(u, p0, s0, chunks') && |chunks'| == |chunks| + 1 && pos' == FramesOutAll(u, p0, s0, chunks')
      ensures more <==> GoesOn(u, p0, s0, chunks')
      ensures more ==> pos' < u.samples && sb.play.started && detections == old(detections)
      ensures more ==> irqs == s0.irqs || (p0.auto && SbDsp.SampleBytes(p0) > 32)
      ensures !more ==> Finished(p0, s0.irqs, old(detections))
      ensures pos' > pos || (pos' == pos && old(sb.adpcm.useRef) && !sb.adpcm.useRef)
    {
      hide PassesOn, Planned, FramesOutAll, Vdma.ViewOf, SbDsp.Ok;
      var sbBytes := SbDsp.SampleBytes(sb.play);
      var n, ended;
      n, ended, chunks' := NextPass(u, pos, addr, p0, s0, chunks);
      pos' := pos + n;
      if ended && sbBytes <= 32 {
        detections := detections + 1;
        if detections >= 256 {
          Quit(u, p0, s0, chunks');
        }
        more := false;
      } else {
        more := dma.GetAuto(u.channel) && pos' < u.samples && sb.play.started;
      }
    }

    /** Gives up on a transfer that looks like a detection routine. */
    method Quit(u: Setup, ghost p0: SbDsp.Play, ghost s0: State, ghost chunks: seq<nat>)
      requires u.channel < 8 && Sane(s0) && u.freq > 50 && SbDsp.PlayOk(p0)
      requires Went(u, p0, s0, chunks) && sb.play.pos == 0
      modifies sb
      ensures Went(u, p0, s0, chunks)
      ensures !sb.play.started && sb.adpcm == old(sb.adpcm)
    {
      hide PassesOn, Planned;
      SbDsp.ApplyKeepsOk(sb.Abs(), SbDsp.Stopped);
      sb.StopTransfer();
    }

    lemma WentNowhere(u: Setup)
      requires Valid() && u.channel < 8 && u.freq > 50 && Sane(Now(u))
      ensures Playing(sb.play, Now(u)) && Went(u, sb.play, Now(u), []) && FramesOutAll(u, sb.play, Now(u), []) == 0
    {
    }
  }

  lemma SameBlockSameBytes(p: SbDsp.Play, p': SbDsp.Play)
    requires SameBlock(p, p')
    ensures SbDsp.SampleBytes(p) == SbDsp.SampleBytes(p')
  {
  }

  lemma PassEnds(u: Setup, p: SbDsp.Play, s: State, b: nat)
    requires Sane(s) && u.channel < 8
    ensures PassOn(u, p, s, b).irqs == s.irqs + if s.pos + b >= SbDsp.SampleBytes(p) then 1 else 0
  {
    hide InForce, Fetched, Vdma.Progress, Adpcm.Decode;
  }

  lemma PassesAppend(u: Setup, p: SbDsp.Play, s: State, chunks: seq<nat>, b: nat)
    requires Sane(s) && u.channel < 8
    ensures PassesOn(u, p, s, chunks + [b]) == PassOn(u, p, PassesOn(u, p, s, chunks), b)
  {
    hide PassOn;
    assert (chunks + [b])[..|chunks|] == chunks;
  }

  /** A pass changes neither where the ring starts nor the channel's mode. */
  lemma PassKeeps(u: Setup, p: SbDsp.Play, s: State, b: nat)
    requires Sane(s) && u.channel < 8
    ensures var s' := PassOn(u, p, s, b);
            && Start(s', Vdma.Unit(u.channel)) == Start(s, Vdma.Unit(u.channel))
            && Vdma.Auto(s'.chan) == Vdma.Auto(s.chan)
  {
    var unit := Vdma.Unit(u.channel);
    ProgressIsSane(s.chan, unit, RingIndex(s.chan, unit) + b, Rest(s.chan, unit) - b);
    hide Vdma.Progress, InForce, Fetched, Adpcm.Decode;
  }

  lemma FramesOfProduct(n: nat, size: nat, channels: nat)
    requires FrameShape(size, channels)
    ensures n * size * channels / (size * channels) == n
  {
    MulAssoc(n, size, channels);
    DivModUnique(n * size * channels, size * channels, n, 0);
  }

  lemma BlockIsSmall(p: SbDsp.Play)
    requires SbDsp.PlayOk(p)
    ensures SbDsp.SampleBytes(p) <= 0x10_0000 && FrameShape(SampleSize(p.bits), Channels(p.stereo)) && p.bits >= 2
  {
  }

  /** The unsigned difference is what is left of the block, as long as the position is inside it. */
  lemma LeftIsRest(sbBytes: nat, pos: nat)
    requires sbBytes <= 0x10_0000
    ensures pos < sbBytes ==> U32(sbBytes - pos) == sbBytes - pos
  {
  }

  lemma MovedFacts(c: Vdma.Channel, p: SbDsp.Play, c': Vdma.Channel, p': SbDsp.Play, unit: nat, total: nat, irqs: int)
    requires Aligned(c, unit, p) && Moved(c, p, c', p', unit, total, irqs)
    ensures Aligned(c', unit, p') && Vdma.Auto(c') && c'.addr == c.addr
    ensures RingBytes(c', unit) == RingBytes(c, unit) > 0
    ensures 0 <= RingIndex(c, unit) && RingIndex(c', unit) == (RingIndex(c, unit) + total) % RingBytes(c, unit)
    ensures SbDsp.SampleBytes(p') == SbDsp.SampleBytes(p) > 0 && p.pos >= 0 && FrameBytes(p') == FrameBytes(p)
    ensures 1 <= unit <= 2
  {
    Linear(c, unit);
  }

  lemma MovedNowhere(c: Vdma.Channel, p: SbDsp.Play, unit: nat)
    requires Aligned(c, unit, p)
    ensures Moved(c, p, c, p, unit, 0, 0)
  {
    Linear(c, unit);
    DivModUnique(c.index * unit, RingBytes(c, unit), 0, c.index * unit);
    DivModUnique(p.pos, SbDsp.SampleBytes(p), 0, p.pos);
  }

  /** What is left of the ring and of the block is a whole, positive number of frames. */
  lemma RestIsWhole(c: Vdma.Channel, unit: nat, p: SbDsp.Play)
    requires Whole(c, unit, p) && SbDsp.PlayOk(p)
    ensures c.cur * unit > 0 && c.cur * unit % FrameBytes(p) == 0
    ensures (SbDsp.SampleBytes(p) - p.pos) % FrameBytes(p) == 0
    ensures FrameShape(SampleSize(p.bits), Channels(p.stereo))
  {
    Linear(c, unit);
    FrameIsSmall(p);
    DifferenceIsWhole(RingBytes(c, unit), RingIndex(c, unit), FrameBytes(p));
    DifferenceIsWhole(SbDsp.SampleBytes(p), p.pos, FrameBytes(p));
  }

  lemma DifferenceIsWhole(x: int, y: int, frame: nat)
    requires frame == 1 || frame == 2 || frame == 4
    requires x % frame == 0 && y % frame == 0
    ensures (x - y) % frame == 0
  {
    match frame {
      case 1 =>
      case 2 => assert x % 2 == 0 && y % 2 == 0;
      case 4 => assert x % 4 == 0 && y % 4 == 0;
    }
  }

  lemma Expansion(bytes: nat, bits: int)
    requires Adpcm.Width(bits)
    ensures bytes <= bytes * (9 / bits)
  {
    MulLeq(1, 9 / bits, bytes);
  }
}
