/**
 * The last stage of the sound interrupt: digital samples and OPL samples are
 * scaled by their mixer volumes and combined by a non-clipping formula in 32-bit
 * `int` arithmetic, in place in the PCM buffer.
 */
module Mixer {
  import opened CInt
  import opened Arith

  /** A sample moved to the unsigned 16-bit range the mixing formula works on. */
  predicate Offset16(x: int) { 0 <= x <= 65535 }

  /** The mixing formula on unbounded integers, given the product of its operands. */
  function Combine(a: int, b: int, product: int): (r: int) {
    if a < 32768 || b < 32768 then TDiv(product, 32768)
    else (a + b) * 2 - TDiv(product, 32768) - 65536
  }

  /** The intended result: the product is exact. */
  function Mix(a: int, b: int): (r: int) { Combine(a, b, a * b) }

  /** What the code computes: the product of two `int`s is kept in 32 bits. */
  function Mix32(a: int, b: int): (r: int) { Combine(a, b, S32(a * b)) }

  /** A caller can test this before mixing: the product leaves the 32-bit range. */
  predicate ProductOverflows(a: int, b: int) { a * b >= 0x8000_0000 }

  function Scale(sample: int, vol: int): (r: int) { TDiv(sample * vol, 256) }

  function Clamp(mixed: int): (r: int) { if mixed == 65536 then 65535 else mixed }

  function DigitalOperand(pcm: int, voicevol: int): (r: int) { Scale(pcm, voicevol) + 32768 }

  /** OPL output is doubled before it is mixed. */
  function OplOperand(opl: int, midivol: int): (r: int) { Scale(opl, midivol) * 2 + 32768 }

  /** A mix as it is stored: scaled by the master volume in 32 bits, and cut to 16. */
  function Stored(mixed: int, vol: int): (r: int) { S16(TDiv(S32((Clamp(mixed) - 32768) * vol), 256)) }

  /** The same scaling of the exact mix, without a width. */
  function Intended(a: int, b: int, vol: int): (r: int) { Scale(Clamp(Mix(a, b)) - 32768, vol) }

  /** The value stored for one sample. */
  function Mixed(pcm: int, opl: int, voicevol: int, midivol: int, vol: int): (r: int) {
    Stored(Mix32(DigitalOperand(pcm, voicevol), OplOperand(opl, midivol)), vol)
  }

  // ---------------------------------------------------------------- the formula

  lemma {:induction false} ProductBound(a: int, b: int, m: int, n: int)
    requires 0 <= a <= m && 0 <= b <= n
    ensures 0 <= a * b <= m * n
  {
    assert a * b <= m * b <= m * n;
  }

  /** Distance from full scale: the product of the operands' distances, scaled. */
  lemma LoudForm(a: int, b: int)
    requires 32768 <= a <= 65535 && 32768 <= b <= 65535
    ensures Mix(a, b) == 65536 - (65536 - a) * (65536 - b) / 32768
  {
    var x, y := 65536 - a, 65536 - b;
    assert a * b == 32768 * (131072 - 2 * (x + y)) + x * y;
    assert a * b / 32768 == 131072 - 2 * (x + y) + x * y / 32768;
    ProductBound(a, b, 65535, 65535);
  }

  /** On exact products the mix lies in 0..65536, so one comparison is enough to clamp it. */
  lemma MixInRange(a: int, b: int)
    requires Offset16(a) && Offset16(b)
    ensures 0 <= Mix(a, b) <= 65536
    ensures Offset16(Clamp(Mix(a, b)))
  {
    if a < 32768 {
      ProductBound(a, b, 32767, 65535);
    } else if b < 32768 {
      ProductBound(a, b, 65535, 32767);
    } else {
      LoudForm(a, b);
      ProductBound(65536 - a, 65536 - b, 32768, 32768);
    }
  }

  /** Exactly the operands so close to full scale that the product of distances is below 1/2 scale. */
  lemma ClampNeededIff(a: int, b: int)
    requires Offset16(a) && Offset16(b)
    ensures Mix(a, b) == 65536 <==> (a >= 32768 && b >= 32768 && (65536 - a) * (65536 - b) < 32768)
  {
    if a < 32768 {
      ProductBound(a, b, 32767, 65535);
    } else if b < 32768 {
      ProductBound(a, b, 65535, 32767);
    } else {
      LoudForm(a, b);
      ProductBound(65536 - a, 65536 - b, 32768, 32768);
    }
  }

  lemma MixCommutes(a: int, b: int)
    ensures Mix(a, b) == Mix(b, a) && Mix32(a, b) == Mix32(b, a)
  {
    assert a * b == b * a;
  }

  /** Silence (32768) is the identity, in 32-bit arithmetic as well. */
  lemma SilenceIsIdentity(a: int)
    requires Offset16(a)
    ensures Mix(a, 32768) == a && Mix32(a, 32768) == a
  {
    ProductBound(a, 32768, 65535, 32768);
    assert a * 32768 / 32768 == a;
  }

  /** A product overflows only when both operands are above silence. */
  lemma OverflowIsLoud(a: int, b: int)
    requires Offset16(a) && Offset16(b) && ProductOverflows(a, b)
    ensures a > 32768 && b > 32768
  {
    if a <= 32768 {
      ProductBound(a, b, 32768, 65535);
    }
    if b <= 32768 {
      ProductBound(a, b, 65535, 32768);
    }
  }

  /** The wrapped product shifts the mix up by two full scales, less one unless the product is whole. */
  lemma OverflowShiftsMix(a: int, b: int)
    requires Offset16(a) && Offset16(b) && ProductOverflows(a, b)
    ensures Mix32(a, b) == Mix(a, b) + 131072 - (if a * b % 32768 == 0 then 0 else 1)
  {
    OverflowIsLoud(a, b);
    ProductBound(a, b, 65535, 65535);
    var p := a * b;
    assert S32(p) == p - 0x1_0000_0000;
    assert (0x1_0000_0000 - p) / 32768 == 131072 - p / 32768 - (if p % 32768 == 0 then 0 else 1);
  }

  /**
   * The 32-bit formula meets its range exactly when the product fits; there it
   * agrees with the exact formula, and the comparison with 65536 never fires.
   */
  lemma Mix32InRangeIff(a: int, b: int)
    requires Offset16(a) && Offset16(b)
    ensures 0 <= Mix32(a, b) <= 65536 <==> !ProductOverflows(a, b)
    ensures Mix32(a, b) == Mix(a, b) <==> !ProductOverflows(a, b)
    ensures Mix32(a, b) != 65536
  {
    MixInRange(a, b);
    if ProductOverflows(a, b) {
      OverflowShiftsMix(a, b);
    } else {
      ProductBound(a, b, 65535, 65535);
      assert S32(a * b) == a * b;
      ClampNeededIff(a, b);
      if a >= 32768 && b >= 32768 {
        NoOverflowNoClamp(65536 - a, 65536 - b);
      }
    }
  }

  lemma NoClamp(a: int, b: int)
    requires Offset16(a) && Offset16(b) && !ProductOverflows(a, b)
    ensures Clamp(Mix(a, b)) == Mix(a, b)
  {
    Mix32InRangeIff(a, b);
  }

  lemma NoOverflowNoClamp(x: int, y: int)
    requires 1 <= x <= 32768 && 1 <= y <= 32768
    requires (65536 - x) * (65536 - y) < 0x8000_0000
    ensures x * y >= 32768
  {
    var p := x * y;
    assert (65536 - x) * (65536 - y) == 0x1_0000_0000 - 65536 * (x + y) + p;
    ProductBound(x, y, 32768, 32768);
    assert (x - 1) * (y - 1) == p - x - y + 1;
    ProductBound(x - 1, y - 1, 32767, 32767);
  }

  /** Loud samples at three quarters of the master volume: the stored mix has the wrong sign. */
  lemma OverflowExample()
    ensures Mixed(27232, 13616, 256, 256, 192) == -8894
    ensures Scale(Mix(60000, 60000) - 32768, 192) == 23874
    ensures DigitalOperand(27232, 256) == 60000 && OplOperand(13616, 256) == 60000
  {
    assert DigitalOperand(27232, 256) == 60000 && OplOperand(13616, 256) == 60000;
    var product := 60000 * 60000;
    assert product == 3_600_000_000;
    assert S32(product) == -694_967_296;
    assert TDiv(-694_967_296, 32768) == -21208;
    assert Mix32(60000, 60000) == 195_672;
    assert TDiv(product, 32768) == 109_863;
    assert Mix(60000, 60000) == 64_601;
  }

  // ---------------------------------------------------------------- volumes and stored samples

  lemma ScaleBounds(sample: int, vol: int, lo: int, hi: int)
    requires 0 <= vol <= 256 && lo <= 0 <= hi && lo <= sample <= hi
    ensures lo <= Scale(sample, vol) <= hi
  {
    if sample >= 0 {
      ProductBound(sample, vol, hi, 256);
      assert sample * vol / 256 <= hi;
    } else {
      ProductBound(-sample, vol, -lo, 256);
      assert -(sample * vol) == (-sample) * vol;
      assert (-sample) * vol / 256 <= -lo;
    }
  }

  /** A sample in 16-bit range survives the scaling and the store. */
  lemma StoreIsExact(m: int, vol: int)
    requires 0 <= m <= 65535 && 0 <= vol <= 256
    ensures Stored(m, vol) == Scale(m - 32768, vol) && -32768 <= Scale(m - 32768, vol) <= 32767
  {
    ScaleBounds(m - 32768, vol, -32768, 32767);
    ScaledProductFits(m - 32768, vol);
    hide Scale;
    StoreOfProduct(m, vol, (m - 32768) * vol);
  }

  lemma ScaledProductFits(x: int, vol: int)
    requires -32768 <= x <= 32767 && 0 <= vol <= 256
    ensures -0x80_0000 <= x * vol <= 0x7F_FF00
  {
    if x >= 0 {
      ProductBound(x, vol, 32767, 256);
    } else {
      ProductBound(-x, vol, 32768, 256);
      assert x * vol == -((-x) * vol);
    }
  }

  lemma StoreOfProduct(m: int, vol: int, product: int)
    requires 0 <= m <= 65535 && product == (m - 32768) * vol && -0x80_0000 <= product <= 0x7F_FF00
    ensures Stored(m, vol) == TDiv(product, 256) && Scale(m - 32768, vol) == TDiv(product, 256)
  {
    assert Clamp(m) == m && S32(product) == product;
  }

  /** What two full scales too many, less `e`, become in the store: 512 steps too many for each step of volume. */
  lemma StoreOfShifted(d: int, e: int, vol: int)
    requires 0 <= d <= 32767 && 0 <= e <= 1 && 0 <= vol <= 256
    ensures (d - e) * vol / 256 <= d * vol / 256 <= (d - e) * vol / 256 + 1
    ensures 0 <= d * vol / 256 <= 32767
    ensures Stored(d + 32768 + 131072 - e, vol) == S16((d - e) * vol / 256 + 512 * vol)
  {
    ProductBound(d, vol, 32767, 256);
    ProductBound(e, vol, 1, 256);
    assert (d - e) * vol == d * vol - e * vol;
    var n := d + 131072 - e;
    ProductBound(n, vol, 163839, 256);
    assert n * vol == (d - e) * vol + 131072 * vol;
    assert S32(n * vol) == n * vol;
    assert n * vol / 256 == (d - e) * vol / 256 + 512 * vol;
  }

  /** Only a multiple of 65536 vanishes in the store, and 512 times the volume is one at multiples of 128. */
  lemma ShiftVanishesIff(x: int, intended: int, vol: int)
    requires 0 <= intended <= 32767 && x <= intended <= x + 1 && 0 <= vol <= 256
    ensures intended - 1 <= S16(x + 512 * vol) <= intended <==> vol % 128 == 0
  {
    var k, q := vol % 128, vol / 128;
    WholeScalesVanish(x + 512 * k, q);
    assert 512 * vol == 65536 * q + 512 * k;
    SmallShiftShows(x, intended, k);
  }

  lemma WholeScalesVanish(y: int, q: nat)
    requires y >= -1
    ensures S16(y + 65536 * q) == S16(y)
  {
    DivModUnique(y + 0x8000 + 65536 * q, 0x1_0000, (y + 0x8000) / 0x1_0000 + q, (y + 0x8000) % 0x1_0000);
  }

  lemma SmallShiftShows(x: int, intended: int, k: nat)
    requires 0 <= intended <= 32767 && x <= intended <= x + 1 && k < 128
    ensures intended - 1 <= S16(x + 512 * k) <= intended <==> k == 0
  {
    var y := x + 512 * k + 0x8000;
    if y < 0x1_0000 {
      DivModUnique(y, 0x1_0000, 0, y);
    } else {
      DivModUnique(y, 0x1_0000, 1, y - 0x1_0000);
    }
  }

  /** The overflowing half. */
  lemma OverflowRecoversIff(a: int, b: int, vol: int)
    requires Offset16(a) && Offset16(b) && 0 <= vol <= 256 && ProductOverflows(a, b)
    ensures Intended(a, b, vol) - 1 <= Stored(Mix32(a, b), vol) <= Intended(a, b, vol) <==> vol % 128 == 0
  {
    OverflowWrapsOnce(a, b);
    MixInRange(a, b);
    var d := Clamp(Mix(a, b)) - 32768;
    var e := d + 32768 + 131072 - Mix32(a, b);
    ProductBound(d, vol, 32767, 256);
    assert Intended(a, b, vol) == d * vol / 256;
    hide Mix, Mix32, Stored;
    StoreOfShifted(d, e, vol);
    ShiftVanishesIff((d - e) * vol / 256, d * vol / 256, vol);
  }

  /**
   * The stored sample is the intended one, or one step below, exactly if the product of the operands fits 32
   * bits or the master volume is 0, 128 or 256; when the product fits, it is the intended one.
   */
  lemma StoredIsIntendedIff(a: int, b: int, vol: int)
    requires Offset16(a) && Offset16(b) && 0 <= vol <= 256
    ensures Intended(a, b, vol) - 1 <= Stored(Mix32(a, b), vol) <= Intended(a, b, vol)
       <==> !ProductOverflows(a, b) || vol % 128 == 0
    ensures !ProductOverflows(a, b) ==> Stored(Mix32(a, b), vol) == Intended(a, b, vol)
  {
    hide Mix, Mix32, Stored;
    if ProductOverflows(a, b) {
      OverflowRecoversIff(a, b, vol);
    } else {
      MixInRange(a, b);
      NoClamp(a, b);
      Mix32InRangeIff(a, b);
      StoreIsExact(Mix(a, b), vol);
    }
  }

  /** 16-bit digital samples and OPL samples within half scale give operands in range. */
  lemma OperandsInRange(pcm: int, opl: int, voicevol: int, midivol: int)
    requires -32768 <= pcm <= 32767 && -16384 <= opl <= 16383
    requires 0 <= voicevol <= 256 && 0 <= midivol <= 256
    ensures Offset16(DigitalOperand(pcm, voicevol)) && Offset16(OplOperand(opl, midivol))
  {
    ScaleBounds(pcm, voicevol, -32768, 32767);
    ScaleBounds(opl, midivol, -16384, 16383);
  }

  /**
   * For 16-bit digital samples, OPL samples within half scale and volumes 0..256 the operands are in range,
   * the intended sample fits 16 bits, and the stored one is right under exactly the condition above.
   */
  lemma StoredSampleFits(pcm: int, opl: int, voicevol: int, midivol: int, vol: int)
    requires -32768 <= pcm <= 32767 && -16384 <= opl <= 16383
    requires 0 <= voicevol <= 256 && 0 <= midivol <= 256 && 0 <= vol <= 256
    ensures var a, b := DigitalOperand(pcm, voicevol), OplOperand(opl, midivol);
            var stored, intended := Mixed(pcm, opl, voicevol, midivol, vol), Intended(a, b, vol);
            && Offset16(a) && Offset16(b) && -32768 <= intended <= 32767
            && (intended - 1 <= stored <= intended <==> !ProductOverflows(a, b) || vol % 128 == 0)
            && (!ProductOverflows(a, b) ==> stored == intended)
  {
    var a, b := DigitalOperand(pcm, voicevol), OplOperand(opl, midivol);
    OperandsInRange(pcm, opl, voicevol, midivol);
    StoredIsIntendedIff(a, b, vol);
    MixInRange(a, b);
    hide DigitalOperand, OplOperand, Mix, Mix32, Stored, Scale;
    ScaleBounds(Clamp(Mix(a, b)) - 32768, vol, -32768, 32767);
  }

  /** At full master volume the 16-bit store undoes the overflow: at most one step is lost. */
  lemma FullVolumeRecovers(pcm: int, opl: int, voicevol: int, midivol: int)
    requires -32768 <= pcm <= 32767 && -16384 <= opl <= 16383
    requires 0 <= voicevol <= 256 && 0 <= midivol <= 256
    ensures var intended := Clamp(Mix(DigitalOperand(pcm, voicevol), OplOperand(opl, midivol))) - 32768;
            intended - 1 <= Mixed(pcm, opl, voicevol, midivol, 256) <= intended
  {
    StoredSampleFits(pcm, opl, voicevol, midivol, 256);
    FullVolumeIsIdentity(Clamp(Mix(DigitalOperand(pcm, voicevol), OplOperand(opl, midivol))) - 32768);
  }

  lemma FullVolumeIsIdentity(sample: int)
    ensures Scale(sample, 256) == sample
  {
  }

  lemma OverflowWrapsOnce(a: int, b: int)
    requires Offset16(a) && Offset16(b) && ProductOverflows(a, b)
    ensures Clamp(Mix(a, b)) + 131071 <= Mix32(a, b) <= Clamp(Mix(a, b)) + 131072
    ensures Mix(a, b) >= 32768
  {
    OverflowIsLoud(a, b);
    OverflowShiftsMix(a, b);
    LoudForm(a, b);
    var x, y := 65536 - a, 65536 - b;
    ProductBound(x, y, 32767, 32767);
    if Mix(a, b) == 65536 {
      ClampNeededIff(a, b);
      MixPositive(x, y);
      assert a * b == 32768 * (131072 - 2 * (x + y)) + x * y;
    }
  }

  lemma MixPositive(x: int, y: int)
    requires x >= 1 && y >= 1
    ensures x * y >= 1
  {
  }

  datatype Card = SoundBlaster12 | SoundBlasterPro | SoundBlaster16

  /** Master or MIDI volume from its mixer register. */
  function MasterVolume(card: Card, reg: nat): (v: nat)
    requires reg < 256
  {
    match card
    case SoundBlaster12 => reg / 2 * 256 / 7
    case SoundBlasterPro => reg / 32 * 256 / 7
    case SoundBlaster16 => reg / 16 * 256 / 15
  }

  function VoiceVolume(card: Card, reg: nat): (v: nat)
    requires reg < 256
  {
    match card
    case SoundBlaster12 => reg / 2 * 256 / 3
    case SoundBlasterPro => reg / 32 * 256 / 7
    case SoundBlaster16 => reg / 16 * 256 / 15
  }

  /** A level of so many steps, as a part of 256 rounded down. */
  predicate Scaled(v: nat, level: nat, steps: nat) { v * steps <= 256 * level < (v + 1) * steps }

  /**
   * Each register's upper bits are a level of 0 to 7 or 0 to 15, on the first cards the lower ones are, of 0 to 7 or
   * 0 to 3; silence and the full volume of 256 are its ends.
   */
  lemma VolumesAreLevels(card: Card, reg: nat)
    requires reg < 256
    ensures match card
      case SoundBlaster12 =>
        Scaled(MasterVolume(card, reg), reg / 2, 7) && Scaled(VoiceVolume(card, reg), reg / 2, 3)
      case SoundBlasterPro =>
        Scaled(MasterVolume(card, reg), reg / 32, 7) && Scaled(VoiceVolume(card, reg), reg / 32, 7)
      case SoundBlaster16 =>
        Scaled(MasterVolume(card, reg), reg / 16, 15) && Scaled(VoiceVolume(card, reg), reg / 16, 15)
    ensures MasterVolume(card, 0) == VoiceVolume(card, 0) == 0
    ensures !card.SoundBlaster12? ==> MasterVolume(card, 255) == VoiceVolume(card, 255) == 256
    ensures card.SoundBlaster12? ==> MasterVolume(card, 14) == VoiceVolume(card, 6) == 256
  {
  }

  /**
   * The volumes are within 0..256 for every register value on the later cards. On the first
   * cards the register is used unmasked, so they are only if the guest leaves the
   * undefined upper bits clear.
   */
  lemma VolumeInRangeIff(card: Card, reg: nat)
    requires reg < 256
    ensures MasterVolume(card, reg) <= 256 <==> (card.SoundBlaster12? ==> reg < 16)
    ensures VoiceVolume(card, reg) <= 256 <==> (card.SoundBlaster12? ==> reg < 8)
  {
    match card
    case SoundBlaster12 =>
      var q := reg / 2;
      assert q >= 8 ==> q * 256 / 7 >= 292;
      assert q <= 7 ==> q * 256 / 7 <= 256;
      assert q >= 4 ==> q * 256 / 3 >= 341;
      assert q <= 3 ==> q * 256 / 3 <= 256;
    case SoundBlasterPro =>
    case SoundBlaster16 =>
  }

  // ---------------------------------------------------------------- the loops

  /** Mixes `frames` stereo frames of OPL output into the PCM buffer, in place. */
  method MixIntoPcm(pcm: array<int>, opl: array<int>, frames: nat, voicevol: int, midivol: int, vol: int)
    requires pcm != opl && 2 * frames <= pcm.Length && 2 * frames <= opl.Length
    modifies pcm
    ensures forall i :: 0 <= i < 2 * frames ==> pcm[i] == Mixed(old(pcm[i]), opl[i], voicevol, midivol, vol)
    ensures pcm[2 * frames..] == old(pcm[2 * frames..])
  {
    for i := 0 to frames * 2
      invariant forall j :: 0 <= j < i ==> pcm[j] == Mixed(old(pcm[j]), opl[j], voicevol, midivol, vol)
      invariant forall j :: i <= j < pcm.Length ==> pcm[j] == old(pcm[j])
    {
      var a := TDiv(pcm[i] * voicevol, 256) + 32768;
      var b := TDiv(opl[i] * midivol, 256) * (1 + 1) + 32768;
      var product := S32(a * b);
      var mixed := if a < 32768 || b < 32768 then TDiv(product, 32768)
                   else (a + b) * 2 - TDiv(product, 32768) - 65536;
      if mixed == 65536 {
        mixed := 65535;
      }
      pcm[i] := S16(TDiv(S32((mixed - 32768) * vol), 256));
    }
  }

  /** The whole-buffer statement: with volumes in range and no overflowing pair, nothing clips or wraps. */
  lemma BufferDoesNotClip(pcm: seq<int>, opl: seq<int>, voicevol: int, midivol: int, vol: int, out: seq<int>)
    requires |pcm| == |opl| == |out|
    requires 0 <= voicevol <= 256 && 0 <= midivol <= 256 && 0 <= vol <= 256
    requires forall i :: 0 <= i < |pcm| ==> -32768 <= pcm[i] <= 32767 && -16384 <= opl[i] <= 16383
    requires forall i :: 0 <= i < |pcm| ==>
      !ProductOverflows(DigitalOperand(pcm[i], voicevol), OplOperand(opl[i], midivol))
    requires forall i :: 0 <= i < |pcm| ==> out[i] == Mixed(pcm[i], opl[i], voicevol, midivol, vol)
    ensures forall i :: 0 <= i < |out| ==>
      && -32768 <= out[i] <= 32767
      && out[i] == Scale(Mix(DigitalOperand(pcm[i], voicevol), OplOperand(opl[i], midivol)) - 32768, vol)
  {
    hide Mixed, Mix, Scale, DigitalOperand, OplOperand;
    forall i | 0 <= i < |out|
      ensures -32768 <= out[i] <= 32767
      ensures out[i] == Scale(Mix(DigitalOperand(pcm[i], voicevol), OplOperand(opl[i], midivol)) - 32768, vol)
    {
      StoredSampleFits(pcm[i], opl[i], voicevol, midivol, vol);
      MixInRange(DigitalOperand(pcm[i], voicevol), OplOperand(opl[i], midivol));
      NoClamp(DigitalOperand(pcm[i], voicevol), OplOperand(opl[i], midivol));
    }
  }
}
