/**
 * The envelope of one OPL operator: register writes choose the rates, key events the phase, and every
 * sample moves the volume (an attenuation, 0 loudest and 511 off) one step.
 */
module OplOperator {
  import opened Arith

  datatype Phase = Off | Release | Sustain | Decay | Attack

  /** The moving part: phase, attenuation, the 24-bit fraction counter, and the bits holding the key down. */
  datatype Env = Env(phase: Phase, volume: int, rateIndex: nat, keyOn: bv8)

  /** The increments chosen by the registers, and the level the decay stops at. */
  datatype Rates = Rates(attack: nat, decay: nat, release: nat, sustainLevel: nat)

  /** The bits of `rateZero`: the phases believed not to move. The bit of `Off` is always set. */
  datatype Zero = Zero(release: bool, sustain: bool, decay: bool, attack: bool)

  datatype Regs = Regs(r20: nat, r40: nat, r60: nat, r80: nat, ksr: nat)

  /** What the channel's frequency contributes: the key-scale base and the key code. */
  datatype Key = Key(kslBase: nat, keyCode: nat)

  datatype Oper = Oper(env: Env, rates: Rates, zero: Zero, regs: Regs, key: Key, totalLevel: nat)

  /** The chip's rate tables, indexed by four times the register's rate plus the key scaling. */
  datatype Tables = Tables(attackRates: seq<nat>, linearRates: seq<nat>)

  predicate TablesOk(t: Tables) {
    && |t.attackRates| == 76 && |t.linearRates| == 76
    && (forall i :: 0 <= i < 76 ==> t.attackRates[i] < 0x8000_0000)
    && (forall i :: 0 <= i < 76 ==> t.linearRates[i] < 0x8000_0000)
  }

  const FULL := 0x100_0000
  const LIMIT := 384

  predicate SustainBit(r20: nat) { r20 / 0x20 % 2 == 1 }
  predicate KsrBit(r20: nat) { r20 / 0x10 % 2 == 1 }
  predicate TremoloBit(r20: nat) { r20 / 0x80 % 2 == 1 }

  // ---------------------------------------------------------------- one sample

  /** The whole steps a counter at `index` makes when `add` is added, and what remains. */
  function Steps(index: nat, add: nat): (k: nat) { (index + add) / FULL }

  function Left(index: nat, add: nat): (r: nat) { (index + add) % FULL }

  function ForwardAttack(e: Env, add: nat): (e': Env) {
    var change, left := Steps(e.rateIndex, add), Left(e.rateIndex, add);
    // the attenuation is scaled down by an arithmetic shift, that is, by rounding toward minus infinity
    var vol := e.volume + ((-e.volume - 1) * change) / 8;
    if change == 0 then Env(Attack, e.volume, left, e.keyOn)
    else if vol < 0 then Env(Decay, 0, 0, e.keyOn)
    else Env(Attack, vol, left, e.keyOn)
  }

  function ForwardDecay(e: Env, add: nat, sustainLevel: nat): (e': Env) {
    var vol, left := e.volume + Steps(e.rateIndex, add), Left(e.rateIndex, add);
    if vol < sustainLevel then Env(Decay, vol, left, e.keyOn)
    else if vol >= 511 then Env(Off, 511, left, e.keyOn)
    else Env(Sustain, vol, 0, e.keyOn)
  }

  function ForwardRelease(e: Env, add: nat): (e': Env) {
    var vol, left := e.volume + Steps(e.rateIndex, add), Left(e.rateIndex, add);
    if vol >= 511 then Env(Off, 511, left, e.keyOn) else Env(e.phase, vol, left, e.keyOn)
  }

  /** The envelope after one sample. */
  function Forward(e: Env, r: Rates, sustaining: bool): (e': Env) {
    match e.phase
    case Off => e
    case Attack => ForwardAttack(e, r.attack)
    case Decay => ForwardDecay(e, r.decay, r.sustainLevel)
    case Sustain => if sustaining then e else ForwardRelease(e, r.release)
    case Release => ForwardRelease(e, r.release)
  }

  function Sample(o: Oper): (o': Oper) { o.(env := Forward(o.env, o.rates, SustainBit(o.regs.r20))) }

  // ---------------------------------------------------------------- keys

  function KeyOn(e: Env, mask: bv8): (e': Env) {
    if e.keyOn == 0 then Env(Attack, e.volume, 0, mask) else Env(e.phase, e.volume, e.rateIndex, e.keyOn | mask)
  }

  function KeyOff(e: Env, mask: bv8): (e': Env) {
    var k := e.keyOn & !mask;
    Env(if k == 0 && e.phase != Off then Release else e.phase, e.volume, e.rateIndex, k)
  }

  // ---------------------------------------------------------------- registers

  function RateOf(table: seq<nat>, rate: nat, ksr: nat): (add: nat)
    requires |table| == 76 && rate < 16 && ksr < 16
  {
    if rate == 0 then 0 else table[rate * 4 + ksr]
  }

  predicate RegsOk(g: Regs) { g.r20 < 256 && g.r40 < 256 && g.r60 < 256 && g.r80 < 256 && g.ksr < 16 }

  function UpdateAttack(t: Tables, o: Oper): (o': Oper)
    requires TablesOk(t) && RegsOk(o.regs)
  {
    var add := RateOf(t.attackRates, o.regs.r60 / 16, o.regs.ksr);
    o.(rates := Rates(add, o.rates.decay, o.rates.release, o.rates.sustainLevel),
       zero := Zero(o.zero.release, o.zero.sustain, o.zero.decay, o.regs.r60 / 16 == 0))
  }

  function UpdateDecay(t: Tables, o: Oper): (o': Oper)
    requires TablesOk(t) && RegsOk(o.regs)
  {
    var add := RateOf(t.linearRates, o.regs.r60 % 16, o.regs.ksr);
    o.(rates := Rates(o.rates.attack, add, o.rates.release, o.rates.sustainLevel),
       zero := Zero(o.zero.release, o.zero.sustain, o.regs.r60 % 16 == 0, o.zero.attack))
  }

  function UpdateRelease(t: Tables, o: Oper): (o': Oper)
    requires TablesOk(t) && RegsOk(o.regs)
  {
    var none, add := o.regs.r80 % 16 == 0, RateOf(t.linearRates, o.regs.r80 % 16, o.regs.ksr);
    o.(rates := Rates(o.rates.attack, o.rates.decay, add, o.rates.sustainLevel),
       zero := Zero(none, if SustainBit(o.regs.r20) then o.zero.sustain else none, o.zero.decay, o.zero.attack))
  }

  function WithRegs(o: Oper, g: Regs): (o': Oper) { Oper(o.env, o.rates, o.zero, g, o.key, o.totalLevel) }

  /** Key scaling: the key code, or a quarter of it unless the register asks for all of it. */
  function Ksr(r20: nat, keyCode: nat): (k: nat) { if KsrBit(r20) then keyCode else keyCode / 4 }

  function UpdateRates(t: Tables, o: Oper): (o': Oper)
    requires TablesOk(t) && RegsOk(o.regs) && o.key.keyCode < 16
  {
    var k := Ksr(o.regs.r20, o.key.keyCode);
    if k == o.regs.ksr then o
    else
      UpdateRelease(t, UpdateDecay(t, UpdateAttack(t,
        WithRegs(o, Regs(o.regs.r20, o.regs.r40, o.regs.r60, o.regs.r80, k)))))
  }

  function SustainZero(o: Oper): (o': Oper) {
    o.(zero := Zero(o.zero.release, SustainBit(o.regs.r20) || o.rates.release == 0, o.zero.decay, o.zero.attack))
  }

  function Write20(t: Tables, o: Oper, val: nat): (o': Oper)
    requires TablesOk(t) && RegsOk(o.regs) && o.key.keyCode < 16 && val < 256
  {
    if val == o.regs.r20 then o
    else
      var o1 := WithRegs(o, Regs(val, o.regs.r40, o.regs.r60, o.regs.r80, o.regs.ksr));
      SustainZero(if KsrBit(val) != KsrBit(o.regs.r20) then UpdateRates(t, o1) else o1)
  }

  /** Attenuation by the level register plus the scaled key base; shifting by 31 removes the latter. */
  function Attenuation(r40: nat, kslBase: nat): (l: nat) {
    var shift := r40 / 64;
    r40 % 64 * 4 + if shift == 0 then 0
                   else if shift == 1 then kslBase / 2
                   else if shift == 2 then kslBase / 4
                   else kslBase
  }

  function Write40(o: Oper, val: nat): (o': Oper) {
    if val == o.regs.r40 then o
    else Oper(o.env, o.rates, o.zero, Regs(o.regs.r20, val, o.regs.r60, o.regs.r80, o.regs.ksr), o.key,
              Attenuation(val, o.key.kslBase))
  }

  function Write60(t: Tables, o: Oper, val: nat): (o': Oper)
    requires TablesOk(t) && RegsOk(o.regs) && val < 256
  {
    var o1 := WithRegs(o, Regs(o.regs.r20, o.regs.r40, val, o.regs.r80, o.regs.ksr));
    var o2 := if val % 16 != o.regs.r60 % 16 then UpdateDecay(t, o1) else o1;
    if val / 16 != o.regs.r60 / 16 then UpdateAttack(t, o2) else o2
  }

  /** Sixteenths of the range, the last one standing for nearly all of it. */
  function SustainLevelOf(nibble: nat): (l: nat) { (if nibble == 15 then 31 else nibble) * 16 }

  function Write80(t: Tables, o: Oper, val: nat): (o': Oper)
    requires TablesOk(t) && RegsOk(o.regs) && val < 256
  {
    if val == o.regs.r80 then o
    else
      var o1 := o.(regs := Regs(o.regs.r20, o.regs.r40, o.regs.r60, val, o.regs.ksr),
                   rates := Rates(o.rates.attack, o.rates.decay, o.rates.release, SustainLevelOf(val / 16)));
      if val % 16 != o.regs.r80 % 16 then UpdateRelease(t, o1) else o1
  }

  /** A change of the channel's frequency: attenuation and rates follow the key. */
  function SetKey(t: Tables, o: Oper, key: Key): (o': Oper)
    requires TablesOk(t) && RegsOk(o.regs) && key.keyCode < 16
  {
    var level := if key.kslBase != o.key.kslBase then Attenuation(o.regs.r40, key.kslBase) else o.totalLevel;
    var o1 := Oper(o.env, o.rates, o.zero, o.regs, key, level);
    if key.keyCode != o.key.keyCode then UpdateRates(t, o1) else o1
  }

  /** A fresh operator. */
  function Created(): (o: Oper) {
    Oper(Env(Off, 511, 0, 0), Rates(0, 0, 0, 511), Zero(false, false, false, false), Regs(0, 0, 0, 0, 0), Key(0, 0),
        511)
  }

  // ---------------------------------------------------------------- invariants

  predicate EnvOk(e: Env) {
    && 0 <= e.volume <= 511 && e.rateIndex < FULL
    && (e.phase == Off ==> e.volume == 511)
    && (e.keyOn == 0 ==> e.phase == Release || e.phase == Off)
    && (e.phase == Release ==> e.keyOn == 0)
  }

  predicate RatesOk(r: Rates) {
    r.attack < 0x8000_0000 && r.decay < 0x8000_0000 && r.release < 0x8000_0000 && r.sustainLevel <= 511
  }

  /** A set bit tells the truth: that phase does not move. */
  predicate ZeroOk(z: Zero, r: Rates, r20: nat) {
    && (z.attack ==> r.attack == 0) && (z.decay ==> r.decay == 0) && (z.release ==> r.release == 0)
    && (z.sustain ==> SustainBit(r20) || r.release == 0)
  }

  predicate OperOk(o: Oper) {
    && EnvOk(o.env) && RatesOk(o.rates) && ZeroOk(o.zero, o.rates, o.regs.r20) && RegsOk(o.regs)
    && o.key.keyCode < 16 && o.key.kslBase < 256 && o.totalLevel <= 511
  }

  lemma AttackVolume(v: int, change: nat)
    requires 0 <= v && change >= 1
    ensures v + ((-v - 1) * change) / 8 < v
  {
    var p := (v + 1) * change;
    assert p >= 1 by { MulAtLeast(v + 1, change); }
    assert (-v - 1) * change == -p;
  }

  lemma MulAtLeast(a: int, b: int)
    requires a >= 1 && b >= 1
    ensures a * b >= a
  {
  }

  /** One sample keeps the envelope in range, and only an attack makes it louder. */
  lemma ForwardKeepsOk(e: Env, r: Rates, sustaining: bool)
    requires EnvOk(e) && RatesOk(r)
    ensures EnvOk(Forward(e, r, sustaining)) && Forward(e, r, sustaining).keyOn == e.keyOn
    ensures if e.phase == Attack then Forward(e, r, sustaining).volume <= e.volume
            else Forward(e, r, sustaining).volume >= e.volume
  {
    if e.phase == Attack && Steps(e.rateIndex, r.attack) > 0 {
      AttackVolume(e.volume, Steps(e.rateIndex, r.attack));
    }
  }

  lemma RatesKeepOk(t: Tables, o: Oper)
    requires TablesOk(t) && OperOk(o)
    ensures OperOk(UpdateAttack(t, o)) && OperOk(UpdateDecay(t, o)) && OperOk(UpdateRelease(t, o))
  {
    hide EnvOk;
  }

  /** Everything of an operator but the zero bits, for key scaling `k`; the bits are made anew. */
  lemma UpdateRatesKeepsOk(t: Tables, o: Oper)
    requires TablesOk(t) && EnvOk(o.env) && RatesOk(o.rates) && RegsOk(o.regs)
    requires o.key.keyCode < 16 && o.key.kslBase < 256 && o.totalLevel <= 511
    requires o.zero.attack ==> o.rates.attack == 0
    requires o.zero.decay ==> o.rates.decay == 0
    requires o.zero.release ==> o.rates.release == 0
    ensures var o' := UpdateRates(t, o);
            && o'.env == o.env && RatesOk(o'.rates) && RegsOk(o'.regs) && o'.regs.r20 == o.regs.r20
            && o'.key == o.key && o'.totalLevel == o.totalLevel
            && (o'.zero.attack ==> o'.rates.attack == 0)
            && (o'.zero.decay ==> o'.rates.decay == 0)
            && (o'.zero.release ==> o'.rates.release == 0)
            && (OperOk(o) ==> OperOk(o'))
  {
    hide EnvOk, SustainBit;
  }

  lemma Write20KeepsOk(t: Tables, o: Oper, val: nat)
    requires TablesOk(t) && OperOk(o) && val < 256
    ensures OperOk(Write20(t, o, val))
  {
    hide EnvOk, SustainBit, KsrBit, UpdateRates, RatesOk;
    if val != o.regs.r20 {
      UpdateRatesKeepsOk(t, WithRegs(o, Regs(val, o.regs.r40, o.regs.r60, o.regs.r80, o.regs.ksr)));
    }
  }

  lemma Write60KeepsOk(t: Tables, o: Oper, val: nat)
    requires TablesOk(t) && OperOk(o) && val < 256
    ensures OperOk(Write60(t, o, val))
  {
    hide EnvOk, SustainBit, UpdateDecay, UpdateAttack;
    var o1 := WithRegs(o, Regs(o.regs.r20, o.regs.r40, val, o.regs.r80, o.regs.ksr));
    RatesKeepOk(t, o1);
    var o2 := if val % 16 != o.regs.r60 % 16 then UpdateDecay(t, o1) else o1;
    RatesKeepOk(t, o2);
  }

  lemma Write80KeepsOk(t: Tables, o: Oper, val: nat)
    requires TablesOk(t) && OperOk(o) && val < 256
    ensures OperOk(Write80(t, o, val))
  {
    hide EnvOk, SustainBit, UpdateRelease;
    if val != o.regs.r80 {
      var o1 := o.(regs := Regs(o.regs.r20, o.regs.r40, o.regs.r60, val, o.regs.ksr),
                   rates := Rates(o.rates.attack, o.rates.decay, o.rates.release, SustainLevelOf(val / 16)));
      RatesKeepOk(t, o1);
    }
  }

  lemma SetKeyKeepsOk(t: Tables, o: Oper, key: Key)
    requires TablesOk(t) && OperOk(o) && key.keyCode < 16 && key.kslBase < 256
    ensures OperOk(SetKey(t, o, key))
  {
    hide EnvOk, SustainBit, UpdateRates;
    var level := if key.kslBase != o.key.kslBase then Attenuation(o.regs.r40, key.kslBase) else o.totalLevel;
    UpdateRatesKeepsOk(t, Oper(o.env, o.rates, o.zero, o.regs, key, level));
  }

  lemma KeysKeepOk(e: Env, mask: bv8)
    requires EnvOk(e) && mask != 0
    ensures EnvOk(KeyOn(e, mask)) && EnvOk(KeyOff(e, mask))
  {
    assert e.keyOn != 0 ==> e.keyOn | mask != 0;
  }

  // ---------------------------------------------------------------- runs

  datatype Event =
    | Tick
    | On(mask: bv8)
    | Released(mask: bv8)
    | W20(val: nat)
    | W40(val: nat)
    | W60(val: nat)
    | W80(val: nat)
    | NewKey(key: Key)

  predicate EventOk(e: Event) {
    match e
    case Tick => true
    case On(mask) => mask != 0
    case Released(mask) => mask != 0
    case NewKey(key) => key.keyCode < 16 && key.kslBase < 256
    case W20(val) => val < 256
    case W40(val) => val < 256
    case W60(val) => val < 256
    case W80(val) => val < 256
  }

  function Apply(t: Tables, o: Oper, e: Event): (o': Oper)
    requires TablesOk(t) && OperOk(o) && EventOk(e)
  {
    match e
    case Tick => Sample(o)
    case On(mask) => o.(env := KeyOn(o.env, mask))
    case Released(mask) => o.(env := KeyOff(o.env, mask))
    case W20(val) => Write20(t, o, val)
    case W40(val) => Write40(o, val)
    case W60(val) => Write60(t, o, val)
    case W80(val) => Write80(t, o, val)
    case NewKey(key) => SetKey(t, o, key)
  }

  lemma ApplyKeepsOk(t: Tables, o: Oper, e: Event)
    requires TablesOk(t) && OperOk(o) && EventOk(e)
    ensures OperOk(Apply(t, o, e))
  {
    hide EnvOk, RatesOk, ZeroOk, Forward, KeyOn, KeyOff, Write20, Write60, Write80, SetKey;
    match e
    case Tick => ForwardKeepsOk(o.env, o.rates, SustainBit(o.regs.r20));
    case On(mask) => KeysKeepOk(o.env, mask);
    case Released(mask) => KeysKeepOk(o.env, mask);
    case W20(val) => Write20KeepsOk(t, o, val);
    case W40(val) =>
    case W60(val) => Write60KeepsOk(t, o, val);
    case W80(val) => Write80KeepsOk(t, o, val);
    case NewKey(key) => SetKeyKeepsOk(t, o, key);
  }

  /**
   * Every run of samples, key events and register writes keeps the attenuation in 0..511 and the counter
   * below 2^24; an operator that is off is fully attenuated, one whose key is up is off or in release, and a
   * phase whose zero bit is set does not move.
   */
  function Run(t: Tables, o: Oper, es: seq<Event>): (o': Oper)
    requires TablesOk(t) && OperOk(o) && forall k :: 0 <= k < |es| ==> EventOk(es[k])
    ensures OperOk(o')
  {
    if es == [] then o
    else
      var m, e := Run(t, o, es[..|es| - 1]), es[|es| - 1];
      ApplyKeepsOk(t, m, e);
      Apply(t, m, e)
  }

  lemma CreatedIsOk()
    ensures OperOk(Created())
  {
  }

  /** A created operator is off, and silent until a key is pressed: no sample changes it. */
  lemma CreatedIsSilent(t: Tables)
    requires TablesOk(t)
    ensures OperOk(Created()) && Created().env == Env(Off, 511, 0, 0) && Silent(Created())
    ensures Apply(t, Created(), Tick) == Created()
  {
  }

  // ---------------------------------------------------------------- keys

  /** A key pressed on an operator whose key is up starts the attack from the attenuation there is. */
  lemma PressStartsAttack(t: Tables, o: Oper, mask: bv8)
    requires TablesOk(t) && OperOk(o) && o.env.keyOn == 0 && mask != 0
    ensures Apply(t, o, On(mask)) == o.(env := Env(Attack, o.env.volume, 0, mask))
  {
  }

  /** Releasing the only key leaves everything but the phase as it is. */
  lemma ReleaseOfLastKey(t: Tables, o: Oper, mask: bv8)
    requires TablesOk(t) && OperOk(o) && mask != 0 && o.env.keyOn & !mask == 0
    ensures Apply(t, o, Released(mask))
         == o.(env := Env(if o.env.phase == Off then Off else Release, o.env.volume, o.env.rateIndex, 0))
  {
  }

  /** While another key holds the operator, pressing or releasing one changes nothing but the record of keys. */
  lemma OtherKeyHolds(t: Tables, o: Oper, mask: bv8)
    requires TablesOk(t) && OperOk(o) && mask != 0 && o.env.keyOn & !mask != 0
    ensures Apply(t, o, On(mask)) == o.(env := o.env.(keyOn := o.env.keyOn | mask))
    ensures Apply(t, o, Released(mask)) == o.(env := o.env.(keyOn := o.env.keyOn & !mask))
  {
    HeldEnvelope(o.env, mask);
    hide KeyOn, KeyOff, OperOk, TablesOk;
  }

  lemma HeldEnvelope(e: Env, mask: bv8)
    requires e.keyOn & !mask != 0
    ensures KeyOn(e, mask) == e.(keyOn := e.keyOn | mask) && KeyOff(e, mask) == e.(keyOn := e.keyOn & !mask)
  {
    KeyIsDown(e.keyOn, mask);
  }

  lemma KeyIsDown(keys: bv8, mask: bv8)
    requires keys & !mask != 0
    ensures keys != 0
  {
  }

  // ---------------------------------------------------------------- what the registers say

  /** Register 20 put together from its fields. */
  predicate Fields20(r20: nat, tremolo: bool, vibrato: bool, sustain: bool, ksr: bool, multiple: nat) {
    && multiple < 16
    && r20 == (if tremolo then 0x80 else 0) + (if vibrato then 0x40 else 0) + (if sustain then 0x20 else 0)
              + (if ksr then 0x10 else 0) + multiple
  }

  lemma BitsOfRegister20(r20: nat, tremolo: bool, vibrato: bool, sustain: bool, ksr: bool, multiple: nat)
    requires Fields20(r20, tremolo, vibrato, sustain, ksr, multiple)
    ensures TremoloBit(r20) == tremolo && SustainBit(r20) == sustain && KsrBit(r20) == ksr
  {
  }

  /** A table entry for the rate of a register, and none for rate 0. */
  predicate Chosen(add: nat, table: seq<nat>, rate: nat, ksr: nat) {
    if rate == 0 then add == 0 else 4 * rate + ksr < |table| && add == table[4 * rate + ksr]
  }

  /** Half, a quarter, all or none of the key's base, by the upper bits of register 40. */
  predicate KeyShare(share: nat, base: nat, kind: nat) {
    match kind
    case 0 => share == 0
    case 1 => 2 * share <= base <= 2 * share + 1
    case 2 => 4 * share <= base <= 4 * share + 3
    case _ => share == base
  }

  /**
   * The parameters are those that registers and key ask for: the key scaling, the three rates and the sustain
   * level with their zero bits, and the attenuation.
   */
  ghost predicate Tuned(t: Tables, o: Oper)
    requires TablesOk(t)
  {
    && TunedRates(t, o) && TunedHold(o) && TunedLevel(o) && TunedSustain(o)
  }

  predicate TunedRates(t: Tables, o: Oper)
    requires TablesOk(t)
  {
    && (if o.regs.r20 % 0x20 >= 0x10 then o.regs.ksr == o.key.keyCode else o.regs.ksr == o.key.keyCode / 4)
    && Chosen(o.rates.attack, t.attackRates, o.regs.r60 / 16, o.regs.ksr)
    && Chosen(o.rates.decay, t.linearRates, o.regs.r60 % 16, o.regs.ksr)
    && Chosen(o.rates.release, t.linearRates, o.regs.r80 % 16, o.regs.ksr)
    && (o.zero.attack <==> o.regs.r60 / 16 == 0) && (o.zero.decay <==> o.regs.r60 % 16 == 0)
    && (o.zero.release <==> o.regs.r80 % 16 == 0)
  }

  /** The sustain phase is believed not to move if it holds the note or the release rate is 0. */
  predicate TunedHold(o: Oper) { o.zero.sustain <==> o.regs.r20 % 0x40 >= 0x20 || o.regs.r80 % 16 == 0 }

  ghost predicate TunedLevel(o: Oper) {
    exists share: nat ::
      KeyShare(share, o.key.kslBase, o.regs.r40 / 64) && o.totalLevel == 4 * (o.regs.r40 % 64) + share
  }

  predicate TunedSustain(o: Oper) {
    o.rates.sustainLevel == if o.regs.r80 / 16 == 15 then 496 else 16 * (o.regs.r80 / 16)
  }

  /** No rate but 0 stands still. */
  predicate RatesMove(t: Tables) {
    && (forall i :: 0 <= i < |t.attackRates| ==> t.attackRates[i] > 0)
    && (forall i :: 0 <= i < |t.linearRates| ==> t.linearRates[i] > 0)
  }

  lemma AttenuationIsTuned(r40: nat, kslBase: nat)
    requires r40 < 256
    ensures exists share: nat ::
              KeyShare(share, kslBase, r40 / 64) && Attenuation(r40, kslBase) == 4 * (r40 % 64) + share
  {
    var share: nat := Attenuation(r40, kslBase) - 4 * (r40 % 64);
    assert KeyShare(share, kslBase, r40 / 64);
  }

  lemma BitsAreThresholds(r20: nat)
    ensures SustainBit(r20) <==> r20 % 0x40 >= 0x20
    ensures KsrBit(r20) <==> r20 % 0x20 >= 0x10
  {
    BitIsThreshold(r20, 0x20);
    BitIsThreshold(r20, 0x10);
  }

  lemma BitIsThreshold(r: nat, bit: nat)
    requires bit == 0x10 || bit == 0x20
    ensures r / bit % 2 == 1 <==> r % (2 * bit) >= bit
  {
    var q, b := r / (2 * bit), r % (2 * bit);
    DivMod(r, 2 * bit);
    if b >= bit {
      DivModUnique(r, bit, 2 * q + 1, b - bit);
    } else {
      DivModUnique(r, bit, 2 * q, b);
    }
  }

  lemma KsrIsTuned(r20: nat, keyCode: nat)
    ensures Ksr(r20, keyCode) == if r20 % 0x20 >= 0x10 then keyCode else keyCode / 4
  {
    BitsAreThresholds(r20);
  }

  /** Rates and zero bits recomputed from scratch are those asked for. */
  lemma UpdatedIsTuned(t: Tables, o: Oper)
    requires TablesOk(t) && RegsOk(o.regs) && o.regs.ksr == Ksr(o.regs.r20, o.key.keyCode)
    ensures var o' := UpdateRelease(t, UpdateDecay(t, UpdateAttack(t, o)));
            TunedRates(t, o') && ((SustainBit(o.regs.r20) ==> o.zero.sustain) ==> TunedHold(o'))
  {
    KsrIsTuned(o.regs.r20, o.key.keyCode);
    BitsAreThresholds(o.regs.r20);
    hide SustainBit, KsrBit, Ksr;
  }

  /** A key or scaling bit that changed is followed up, and one that did not needs nothing. */
  lemma UpdateRatesTunes(t: Tables, o: Oper)
    requires TablesOk(t) && RegsOk(o.regs) && o.key.keyCode < 16
    requires o.regs.ksr == Ksr(o.regs.r20, o.key.keyCode) ==> TunedRates(t, o)
    ensures TunedRates(t, UpdateRates(t, o))
    ensures TunedHold(o) ==> TunedHold(UpdateRates(t, o))
    ensures SameButRates(o, UpdateRates(t, o))
  {
    KsrIsTuned(o.regs.r20, o.key.keyCode);
    BitsAreThresholds(o.regs.r20);
    var k := Ksr(o.regs.r20, o.key.keyCode);
    if k != o.regs.ksr {
      UpdatedIsTuned(t, WithRegs(o, Regs(o.regs.r20, o.regs.r40, o.regs.r60, o.regs.r80, k)));
    }
    hide SustainBit, KsrBit, Ksr, TunedRates;
  }

  /** Nothing but rates, zero bits and key scaling differs. */
  predicate SameButRates(o: Oper, o': Oper) {
    && o'.env == o.env && o'.key == o.key && o'.totalLevel == o.totalLevel
    && o'.rates.sustainLevel == o.rates.sustainLevel
    && o'.regs.r20 == o.regs.r20 && o'.regs.r40 == o.regs.r40 && o'.regs.r60 == o.regs.r60 && o'.regs.r80 == o.regs.r80
  }

  lemma SameKeepsLevels(o: Oper, o': Oper)
    requires o'.key == o.key && o'.totalLevel == o.totalLevel && o'.rates.sustainLevel == o.rates.sustainLevel
    requires o'.regs.r40 == o.regs.r40 && o'.regs.r80 == o.regs.r80
    ensures TunedLevel(o) ==> TunedLevel(o')
    ensures TunedSustain(o) ==> TunedSustain(o')
  {
  }

  lemma ReleaseStandsStillIff(t: Tables, o: Oper)
    requires TablesOk(t) && RatesMove(t) && TunedRates(t, o) && RegsOk(o.regs)
    ensures o.rates.release == 0 <==> o.regs.r80 % 16 == 0
  {
  }

  /** Register 20, whatever was in it, leaves the rates tuned if they were, or if its scaling bit changes. */
  lemma Write20Tunes(t: Tables, o: Oper, val: nat)
    requires TablesOk(t) && RatesMove(t) && OperOk(o) && val < 256 && TunedRates(t, o) && TunedHold(o)
    ensures var o' := Write20(t, o, val);
            && TunedRates(t, o') && TunedHold(o') && o'.regs.r20 == val && o'.key == o.key
            && o'.totalLevel == o.totalLevel && o'.rates.sustainLevel == o.rates.sustainLevel
            && o'.regs.r40 == o.regs.r40 && o'.regs.r80 == o.regs.r80
  {
    if val != o.regs.r20 {
      var o1 := WithRegs(o, Regs(val, o.regs.r40, o.regs.r60, o.regs.r80, o.regs.ksr));
      BitsAreThresholds(val);
      BitsAreThresholds(o.regs.r20);
      KsrIsTuned(val, o.key.keyCode);
      var o2 := if KsrBit(val) != KsrBit(o.regs.r20) then UpdateRates(t, o1) else o1;
      UpdateRatesTunes(t, o1);
      hide UpdateRates, KsrBit, SustainBit, Ksr;
      ReleaseStandsStillIff(t, o2);
      SustainZeroTunes(t, o2);
    }
  }

  lemma SustainZeroTunes(t: Tables, o: Oper)
    requires TablesOk(t) && TunedRates(t, o) && (o.rates.release == 0 <==> o.regs.r80 % 16 == 0)
    ensures TunedRates(t, SustainZero(o)) && TunedHold(SustainZero(o)) && SameButRates(o, SustainZero(o))
  {
    BitsAreThresholds(o.regs.r20);
    hide SustainBit;
  }

  lemma Write40Tunes(o: Oper, val: nat)
    requires OperOk(o) && val < 256 && (val == o.regs.r40 ==> TunedLevel(o))
    ensures TunedLevel(Write40(o, val)) && Write40(o, val).regs.r40 == val
  {
    AttenuationIsTuned(val, o.key.kslBase);
    hide Attenuation, KeyShare;
  }

  lemma Write60Tunes(t: Tables, o: Oper, val: nat)
    requires TablesOk(t) && OperOk(o) && val < 256 && TunedRates(t, o)
    ensures TunedRates(t, Write60(t, o, val)) && (TunedHold(o) ==> TunedHold(Write60(t, o, val)))
    ensures var o' := Write60(t, o, val);
            && o'.regs.r60 == val && o'.key == o.key && o'.totalLevel == o.totalLevel
            && o'.rates.sustainLevel == o.rates.sustainLevel && o'.regs.r40 == o.regs.r40 && o'.regs.r80 == o.regs.r80
  {
    var o1 := WithRegs(o, Regs(o.regs.r20, o.regs.r40, val, o.regs.r80, o.regs.ksr));
    var o2 := if val % 16 != o.regs.r60 % 16 then UpdateDecay(t, o1) else o1;
    DecayFollows(t, o, val, o2);
    hide UpdateDecay, TunedRates, EnvOk, RatesOk, ZeroOk;
    AttackFollows(t, o, val, o2);
  }

  lemma DecayFollows(t: Tables, o: Oper, val: nat, o2: Oper)
    requires TablesOk(t) && RegsOk(o.regs) && val < 256 && TunedRates(t, o)
    requires var o1 := WithRegs(o, Regs(o.regs.r20, o.regs.r40, val, o.regs.r80, o.regs.ksr));
             o2 == if val % 16 != o.regs.r60 % 16 then UpdateDecay(t, o1) else o1
    ensures Chosen(o2.rates.decay, t.linearRates, val % 16, o.regs.ksr) && (o2.zero.decay <==> val % 16 == 0)
    ensures o2 == WithRegs(o, Regs(o.regs.r20, o.regs.r40, val, o.regs.r80, o.regs.ksr)).(
                    rates := o.rates.(decay := o2.rates.decay), zero := o.zero.(decay := o2.zero.decay))
  {
  }

  lemma AttackFollows(t: Tables, o: Oper, val: nat, o2: Oper)
    requires TablesOk(t) && RegsOk(o.regs) && val < 256 && TunedRates(t, o)
    requires Chosen(o2.rates.decay, t.linearRates, val % 16, o.regs.ksr) && (o2.zero.decay <==> val % 16 == 0)
    requires o2 == WithRegs(o, Regs(o.regs.r20, o.regs.r40, val, o.regs.r80, o.regs.ksr)).(
                     rates := o.rates.(decay := o2.rates.decay), zero := o.zero.(decay := o2.zero.decay))
    ensures var o' := if val / 16 != o.regs.r60 / 16 then UpdateAttack(t, o2) else o2;
            && TunedRates(t, o') && (TunedHold(o) ==> TunedHold(o'))
            && o'.regs == o2.regs && o'.key == o.key && o'.totalLevel == o.totalLevel
            && o'.rates.sustainLevel == o.rates.sustainLevel
  {
  }

  lemma Write80Tunes(t: Tables, o: Oper, val: nat)
    requires TablesOk(t) && OperOk(o) && val < 256 && TunedRates(t, o) && TunedHold(o) && TunedSustain(o)
    ensures var o' := Write80(t, o, val);
            && TunedRates(t, o') && TunedHold(o') && TunedSustain(o') && o'.regs.r80 == val && o'.key == o.key
            && o'.totalLevel == o.totalLevel && o'.regs.r40 == o.regs.r40
  {
    BitsAreThresholds(o.regs.r20);
    hide SustainBit;
  }

  lemma SetKeyTunes(t: Tables, o: Oper, key: Key)
    requires TablesOk(t) && OperOk(o) && Tuned(t, o) && key.keyCode < 16 && key.kslBase < 256
    ensures Tuned(t, SetKey(t, o, key)) && SetKey(t, o, key).key == key
  {
    var level := if key.kslBase != o.key.kslBase then Attenuation(o.regs.r40, key.kslBase) else o.totalLevel;
    var o1 := Oper(o.env, o.rates, o.zero, o.regs, key, level);
    AttenuationIsTuned(o.regs.r40, key.kslBase);
    KsrIsTuned(o.regs.r20, o.key.keyCode);
    assert TunedLevel(o1);
    KeyCodeTunes(t, o, o1);
    hide Attenuation, KeyShare, TunedLevel, TunedRates, UpdateRates;
    if key.keyCode != o.key.keyCode {
      UpdateRatesTunes(t, o1);
      SameKeepsLevels(o1, UpdateRates(t, o1));
    }
  }

  /** With another key code the rates are still right if the scaling comes out the same. */
  lemma KeyCodeTunes(t: Tables, o: Oper, o1: Oper)
    requires TablesOk(t) && TunedRates(t, o) && o1.rates == o.rates && o1.zero == o.zero && o1.regs == o.regs
    ensures o1.regs.ksr == Ksr(o1.regs.r20, o1.key.keyCode) ==> TunedRates(t, o1)
  {
    KsrIsTuned(o.regs.r20, o1.key.keyCode);
  }

  /** No event puts an operator out of tune: nothing that depends on a register or the key is left behind. */
  lemma ApplyKeepsTuned(t: Tables, o: Oper, e: Event)
    requires TablesOk(t) && RatesMove(t) && OperOk(o) && EventOk(e) && Tuned(t, o)
    ensures Tuned(t, Apply(t, o, e))
  {
    assert RegsOk(o.regs) && o.key.keyCode < 16;
    hide OperOk, TunedRates, TunedHold, TunedSustain, TunedLevel, RatesMove, Forward, KeyOn, KeyOff;
    match e
    case Tick => SameButEnvTuned(t, o, Sample(o));
    case On(mask) => SameButEnvTuned(t, o, Apply(t, o, e));
    case Released(mask) => SameButEnvTuned(t, o, Apply(t, o, e));
    case W20(val) =>
      Write20Tunes(t, o, val);
      SameKeepsLevels(o, Write20(t, o, val));
    case W40(val) =>
      Write40Tunes(o, val);
      Level40Only(t, o, val);
    case W60(val) =>
      Write60Tunes(t, o, val);
      SameKeepsLevels(o, Write60(t, o, val));
    case W80(val) =>
      Write80Tunes(t, o, val);
      LevelKept(o, Write80(t, o, val));
    case NewKey(key) => SetKeyTunes(t, o, key);
  }

  lemma SameButEnvTuned(t: Tables, o: Oper, o': Oper)
    requires TablesOk(t) && Tuned(t, o) && o' == o.(env := o'.env)
    ensures Tuned(t, o')
  {
  }

  lemma Level40Only(t: Tables, o: Oper, val: nat)
    requires TablesOk(t)
    ensures TunedRates(t, o) ==> TunedRates(t, Write40(o, val))
    ensures TunedHold(o) ==> TunedHold(Write40(o, val))
    ensures TunedSustain(o) ==> TunedSustain(Write40(o, val))
  {
  }

  lemma LevelKept(o: Oper, o': Oper)
    requires o'.key == o.key && o'.totalLevel == o.totalLevel && o'.regs.r40 == o.regs.r40
    ensures TunedLevel(o) ==> TunedLevel(o')
  {
  }

  /** Over every run of samples, key events, frequency changes and register writes. */
  lemma {:induction false} RunStaysTuned(t: Tables, o: Oper, es: seq<Event>)
    requires TablesOk(t) && RatesMove(t) && OperOk(o) && Tuned(t, o) && forall k :: 0 <= k < |es| ==> EventOk(es[k])
    ensures Tuned(t, Run(t, o, es))
    decreases |es|
  {
    hide Tuned, OperOk, Apply, RatesMove;
    if es != [] {
      RunStaysTuned(t, o, es[..|es| - 1]);
      ApplyKeepsTuned(t, Run(t, o, es[..|es| - 1]), es[|es| - 1]);
    }
  }

  /** Clearing the four registers as the chip is set up, through all ones, tunes any operator. */
  lemma SetupTunes(t: Tables, o: Oper)
    requires TablesOk(t) && RatesMove(t) && OperOk(o)
    ensures OperOk(Cleared20(t, o)) && OperOk(Cleared60(t, Cleared20(t, o)))
    ensures Tuned(t, Cleared80(t, Cleared60(t, Cleared20(t, o))))
  {
    hide OperOk;
    Cleared20Is(t, o);
    var o1 := Cleared20(t, o);
    Cleared60Is(t, o1);
    var o2 := Cleared60(t, o1);
    Cleared80Is(t, o2);
  }

  /** Registers 20 and 40 written with all ones and then with 0. */
  function Cleared20(t: Tables, o: Oper): (o': Oper)
    requires TablesOk(t) && OperOk(o)
  {
    Write20KeepsOk(t, o, 255);
    Write40(Write40(Write20(t, Write20(t, o, 255), 0), 255), 0)
  }

  function Cleared60(t: Tables, o: Oper): (o': Oper)
    requires TablesOk(t) && OperOk(o)
  {
    Write60KeepsOk(t, o, 255);
    Write60(t, Write60(t, o, 255), 0)
  }

  function Cleared80(t: Tables, o: Oper): (o': Oper)
    requires TablesOk(t) && OperOk(o)
  {
    Write80KeepsOk(t, o, 255);
    Write80(t, Write80(t, o, 255), 0)
  }

  lemma Cleared20Is(t: Tables, o: Oper)
    requires TablesOk(t) && OperOk(o)
    ensures var o' := Cleared20(t, o);
            && OperOk(o') && o'.regs.r20 == 0 && o'.regs.r40 == 0 && o'.regs.ksr == o'.key.keyCode / 4 && TunedLevel(o')
  {
    Write20KeepsOk(t, o, 255);
    var a := Write20(t, o, 255);
    Write20KeepsOk(t, a, 0);
    var b := Write20(t, a, 0);
    ScalingAfterWrite20(t, o, 255);
    ScalingAfterWrite20(t, a, 0);
    Write40Tunes(Write40(b, 255), 0);
    hide Write20, EnvOk;
  }

  /** A changed scaling bit has the scaling recomputed. */
  lemma ScalingAfterWrite20(t: Tables, o: Oper, val: nat)
    requires TablesOk(t) && OperOk(o) && val < 256
    ensures var o' := Write20(t, o, val);
            && o'.regs.r20 == val && o'.key == o.key
            && (KsrBit(val) != KsrBit(o.regs.r20) ==> o'.regs.ksr == Ksr(val, o.key.keyCode))
  {
  }

  lemma Cleared60Is(t: Tables, o: Oper)
    requires TablesOk(t) && OperOk(o)
    ensures var o' := Cleared60(t, o);
            && OperOk(o') && o'.regs == o.regs.(r60 := 0) && o'.key == o.key && o'.totalLevel == o.totalLevel
            && o'.rates.attack == 0 && o'.rates.decay == 0 && o'.zero.attack && o'.zero.decay
  {
    Write60KeepsOk(t, o, 255);
    Write60KeepsOk(t, Write60(t, o, 255), 0);
    hide EnvOk;
  }

  lemma Cleared80Is(t: Tables, o: Oper)
    requires TablesOk(t) && OperOk(o) && o.regs.r20 == 0 && o.regs.r60 == 0 && o.regs.ksr == o.key.keyCode / 4
    requires o.rates.attack == 0 && o.rates.decay == 0 && o.zero.attack && o.zero.decay && TunedLevel(o)
    ensures Tuned(t, Cleared80(t, o))
  {
    Write80KeepsOk(t, o, 255);
    hide EnvOk;
  }

  // ---------------------------------------------------------------- silence

  /** The test of the shortcut: too quiet to hear, and in a phase believed not to move. */
  predicate Silent(o: Oper) {
    && o.totalLevel + o.env.volume >= LIMIT
    && match o.env.phase
       case Off => true
       case Release => o.zero.release
       case Sustain => o.zero.sustain
       case Decay => o.zero.decay
       case Attack => o.zero.attack
  }

  /** What silence amounts to: too quiet to hear, and not on the way to become louder. */
  predicate Hushed(o: Oper) { o.totalLevel + o.env.volume >= LIMIT && (o.env.phase == Attack ==> o.rates.attack == 0) }

  /** Events that neither write a register nor press a key. */
  predicate Passive(e: Event) { e.Tick? || e.Released? }

  lemma ForwardKeepsHush(o: Oper)
    requires OperOk(o) && Hushed(o)
    ensures Hushed(Sample(o))
  {
    ForwardKeepsOk(o.env, o.rates, SustainBit(o.regs.r20));
  }

  /** The attenuation the sample is computed with. */
  function Level(o: Oper, tremolo: nat): (l: int) {
    o.totalLevel + (if TremoloBit(o.regs.r20) then tremolo else 0) + Sample(o).env.volume
  }

  /** An operator found silent stays inaudible, whatever the tremolo, through samples and key releases. */
  lemma {:induction false} SilentStaysSilent(t: Tables, o: Oper, es: seq<Event>, tremolo: nat)
    requires TablesOk(t) && OperOk(o) && Silent(o)
    requires forall k :: 0 <= k < |es| ==> EventOk(es[k]) && Passive(es[k])
    ensures Hushed(Run(t, o, es)) && Level(Run(t, o, es), tremolo) >= LIMIT
  {
    if es != [] {
      SilentStaysSilent(t, o, es[..|es| - 1], tremolo);
      if es[|es| - 1].Tick? {
        ForwardKeepsHush(Run(t, o, es[..|es| - 1]));
      }
    }
    ForwardKeepsHush(Run(t, o, es));
  }

  /** The test is needed: an inaudible operator that attacks can become audible with its next sample. */
  lemma InaudibleIsNotSilent()
    ensures var o := Created().(env := Env(Attack, 511, 0xFF_FFFF, 1), rates := Rates(0x800_0000, 0, 0, 511),
            totalLevel := 0);
            OperOk(o) && o.env.volume >= LIMIT && !Silent(o) && Level(o, 0) < LIMIT
  {
  }

  // ---------------------------------------------------------------- only the attack gets louder

  /** Attenuation falls from one moment to the next only by a sample taken in the attack phase. */
  lemma LouderOnlyInAttack(t: Tables, o: Oper, e: Event)
    requires TablesOk(t) && OperOk(o) && EventOk(e) && Apply(t, o, e).env.volume < o.env.volume
    ensures e.Tick? && o.env.phase == Attack
  {
    ForwardKeepsOk(o.env, o.rates, SustainBit(o.regs.r20));
  }

  // ---------------------------------------------------------------- the attack ends

  /** The samples it takes the counter to go all the way round, rounded up. */
  function Period(add: nat): (p: nat)
    requires add > 0
  {
    (FULL + add - 1) / add
  }

  /** The samples until the counter next goes round, rounded up. */
  function ToWrap(index: nat, add: nat): (n: nat)
    requires add > 0 && index < FULL
  {
    (FULL - index + add - 1) / add
  }

  lemma ToWrapBounds(index: nat, add: nat)
    requires add > 0 && index < FULL
    ensures 1 <= ToWrap(index, add) <= Period(add)
    ensures index + add < FULL ==> ToWrap(index + add, add) == ToWrap(index, add) - 1
  {
    var q := ToWrap(index, add);
    QuotientBounds(FULL - index + add - 1, add);
    QuotientBounds(FULL + add - 1, add);
    CeilingMonotone(FULL - index, FULL, add);
    if index + add < FULL {
      assert (q - 1) * add == q * add - add;
      DivModUnique(FULL - index - 1, add, q - 1, (FULL - index + add - 1) % add);
    }
  }

  lemma CeilingMonotone(a: nat, b: nat, d: nat)
    requires d > 0 && 1 <= a <= b
    ensures 1 <= (a + d - 1) / d <= (b + d - 1) / d
  {
    DivMonotone(d, a + d - 1, d);
    DivMonotone(a + d - 1, b + d - 1, d);
    DivModUnique(d, d, 1, 0);
  }

  /** An upper bound for the samples an attack still takes. */
  function AttackLeft(e: Env, add: nat): (n: int)
    requires add > 0 && EnvOk(e)
  {
    e.volume * Period(add) + ToWrap(e.rateIndex, add)
  }

  lemma WrapPays(v: int, v': int, tw: int, tw': int, p: int)
    requires 0 <= v' < v && 1 <= tw <= p && 1 <= tw' <= p
    ensures 0 <= v' * p + tw' < v * p + tw
  {
    MulLeq(v' + 1, v, p);
    assert (v' + 1) * p == v' * p + p;
    MulLeq(0, v', p);
  }

  lemma AttackStep(e: Env, add: nat)
    requires EnvOk(e) && add > 0
    ensures var e' := ForwardAttack(e, add);
            && (e.rateIndex + add < FULL ==> e' == Env(Attack, e.volume, e.rateIndex + add, e.keyOn))
            && (e.rateIndex + add >= FULL && e'.phase == Attack ==> 0 <= e'.volume < e.volume)
            && (e'.phase != Attack ==> e'.phase == Decay && e'.volume == 0)
  {
    var k := Steps(e.rateIndex, add);
    if e.rateIndex + add < FULL {
      DivModUnique(e.rateIndex + add, FULL, 0, e.rateIndex + add);
    } else {
      DivMonotone(FULL, e.rateIndex + add, FULL);
      AttackVolume(e.volume, k);
    }
  }

  /** Each sample of an attack brings its end nearer, and it ends at full volume in the decay phase. */
  lemma AttackAdvances(e: Env, add: nat)
    requires EnvOk(e) && e.phase == Attack && 0 < add < 0x8000_0000
    ensures var e' := ForwardAttack(e, add);
            EnvOk(e') && if e'.phase == Attack then 0 <= AttackLeft(e', add) < AttackLeft(e, add)
                else e'.phase == Decay && e'.volume == 0
  {
    hide ForwardAttack, Period, ToWrap;
    var e' := ForwardAttack(e, add);
    AttackKeepsOk(e, add);
    AttackStep(e, add);
    ToWrapBounds(e.rateIndex, add);
    if e'.phase == Attack {
      ToWrapBounds(e'.rateIndex, add);
      if e.rateIndex + add >= FULL {
        WrapPays(e.volume, e'.volume, ToWrap(e.rateIndex, add), ToWrap(e'.rateIndex, add), Period(add));
      } else {
        MulLeq(0, e.volume, Period(add));
      }
    }
  }

  lemma AttackKeepsOk(e: Env, add: nat)
    requires EnvOk(e) && e.phase == Attack && add < 0x8000_0000
    ensures EnvOk(ForwardAttack(e, add))
  {
    ForwardKeepsOk(e, Rates(add, 0, 0, 0), false);
  }

  /** The envelope after `n` undisturbed samples. */
  function Samples(e: Env, r: Rates, sustaining: bool, n: nat): (e': Env)
    decreases n
  {
    if n == 0 then e else Samples(Forward(e, r, sustaining), r, sustaining, n - 1)
  }

  lemma {:induction false} SamplesAdd(e: Env, r: Rates, sustaining: bool, a: nat, b: nat)
    ensures Samples(Samples(e, r, sustaining, a), r, sustaining, b) == Samples(e, r, sustaining, a + b)
    decreases a
  {
    hide Forward;
    if a > 0 {
      SamplesAdd(Forward(e, r, sustaining), r, sustaining, a - 1, b);
    }
  }

  /** The attenuation after `n` samples at one rate, were it not limited: the whole steps of all samples together. */
  function Reached(volume: int, index: nat, add: nat, n: nat): (v: int) { volume + (index + n * add) / FULL }

  lemma ReachedNext(volume: int, index: nat, add: nat, n: nat)
    requires n > 0
    ensures Reached(volume + Steps(index, add), Left(index, add), add, n - 1) == Reached(volume, index, add, n)
  {
    var m := (n - 1) * add;
    assert n * add == m + add;
    var x := index + add;
    DivMod(x, FULL);
    DivMod(x % FULL + m, FULL);
    DivModUnique(x + m, FULL, x / FULL + (x % FULL + m) / FULL, (x % FULL + m) % FULL);
  }

  lemma ReachedGrows(volume: int, index: nat, add: nat, n: nat)
    ensures Reached(volume, index, add, n) >= volume
    ensures index < FULL ==> Reached(volume, index, add, 0) == volume
  {
    MulLeq(0, n, add);
  }

  lemma ReleasedStep(e: Env, r: Rates, sustaining: bool)
    requires EnvOk(e) && e.keyOn == 0
    ensures var e', v := Forward(e, r, sustaining), e.volume + Steps(e.rateIndex, r.release);
            && e'.volume == (if v < 511 then v else 511)
            && (v < 511 ==> e'.rateIndex == Left(e.rateIndex, r.release))
  {
  }

  /** Without a key the attenuation grows by the whole steps of all samples together, up to its limit. */
  lemma {:induction false} ReleasedVolume(e: Env, r: Rates, sustaining: bool, n: nat)
    requires EnvOk(e) && RatesOk(r) && e.keyOn == 0
    ensures var e', v := Samples(e, r, sustaining, n), Reached(e.volume, e.rateIndex, r.release, n);
            EnvOk(e') && e'.keyOn == 0 && e'.volume == if v < 511 then v else 511
    decreases n
  {
    ReachedGrows(e.volume, e.rateIndex, r.release, n);
    if n > 0 {
      var e1 := Forward(e, r, sustaining);
      ForwardKeepsOk(e, r, sustaining);
      ReleasedStep(e, r, sustaining);
      hide Forward, EnvOk, RatesOk, Steps, Left, Reached;
      ReleasedVolume(e1, r, sustaining, n - 1);
      ReachedNext(e.volume, e.rateIndex, r.release, n);
      ReachedGrows(e.volume + Steps(e.rateIndex, r.release), Left(e.rateIndex, r.release), r.release, n - 1);
      ReachedGrows(e1.volume, e1.rateIndex, r.release, n - 1);
    }
  }

  lemma ReachedStep(volume: int, index: nat, add: nat, n: nat)
    ensures Reached(volume, index, add, n) + ((index + n * add) % FULL + add) / FULL
            == Reached(volume, index, add, n + 1)
    ensures ((index + n * add) % FULL + add) % FULL == (index + (n + 1) * add) % FULL
    ensures Reached(volume, index, add, n) <= Reached(volume, index, add, n + 1)
  {
    var x := index + n * add;
    assert (n + 1) * add == n * add + add;
    DivMod(x, FULL);
    DivMod(x % FULL + add, FULL);
    DivModUnique(x + add, FULL, x / FULL + (x % FULL + add) / FULL, (x % FULL + add) % FULL);
  }

  lemma SamplesNext(e: Env, r: Rates, sustaining: bool, n: nat)
    ensures Samples(e, r, sustaining, n + 1) == Forward(Samples(e, r, sustaining, n), r, sustaining)
  {
    SamplesAdd(e, r, sustaining, n, 1);
  }

  /** A held note that sustains stays as loud as it is, for as long as it is held. */
  lemma {:induction false} HeldNoteStays(e: Env, r: Rates, n: nat)
    requires e.phase == Sustain
    ensures Samples(e, r, true, n) == e
    decreases n
  {
    if n > 0 {
      HeldNoteStays(e, r, n - 1);
    }
  }

  /** The counter after `n` samples at one rate. */
  function CountedOn(index: nat, add: nat, n: nat): (i: nat) { (index + n * add) % FULL }

  /** How a note fades: by whole steps while it is above the limit of attenuation, and then it is off. */
  predicate FadedTo(e: Env, add: nat, n: nat, e': Env) {
    var v := Reached(e.volume, e.rateIndex, add, n);
    && (n == 0 || v < 511 ==> e' == Env(e.phase, v, CountedOn(e.rateIndex, add, n), e.keyOn))
    && (n > 0 && v >= 511 ==> e'.phase == Off && e'.volume == 511 && e'.keyOn == e.keyOn)
  }

  /**
   * A note that is released, or held without sustaining, fades by the whole steps of all samples together, keeps
   * the rest of a step in the counter, and is off when the attenuation reaches its limit.
   */
  lemma {:induction false} NoteFades(e: Env, r: Rates, sustaining: bool, n: nat)
    requires EnvOk(e) && (e.phase == Release || (e.phase == Sustain && !sustaining))
    ensures FadedTo(e, r.release, n, Samples(e, r, sustaining, n))
    decreases n
  {
    hide FadedTo, EnvOk;
    if n == 0 {
      FadedNot(e, r.release);
    } else {
      NoteFades(e, r, sustaining, n - 1);
      SamplesNext(e, r, sustaining, n - 1);
      FadeNext(e, r, sustaining, n, Samples(e, r, sustaining, n - 1));
    }
  }

  lemma FadedNot(e: Env, add: nat)
    requires EnvOk(e)
    ensures FadedTo(e, add, 0, e)
  {
    DivModUnique(e.rateIndex, FULL, 0, e.rateIndex);
  }

  lemma FadeNext(e: Env, r: Rates, sustaining: bool, n: nat, m: Env)
    requires n > 0 && FadedTo(e, r.release, n - 1, m) && (e.phase == Release || (e.phase == Sustain && !sustaining))
    ensures FadedTo(e, r.release, n, Forward(m, r, sustaining))
  {
    CountedNext(e.volume, e.rateIndex, r.release, n);
    FadesOneStep(m, r, sustaining);
    hide Forward, Reached, CountedOn;
  }

  lemma CountedNext(volume: int, index: nat, add: nat, n: nat)
    requires n > 0
    ensures var v, i := Reached(volume, index, add, n - 1), CountedOn(index, add, n - 1);
            && Reached(volume, index, add, n) == v + (i + add) / FULL >= v
            && CountedOn(index, add, n) == (i + add) % FULL
  {
    ReachedStep(volume, index, add, n - 1);
  }

  lemma FadesOneStep(e: Env, r: Rates, sustaining: bool)
    requires e.phase == Release || e.phase == Off || (e.phase == Sustain && !sustaining)
    ensures var e', v := Forward(e, r, sustaining), e.volume + (e.rateIndex + r.release) / FULL;
            && (e.phase == Off ==> e' == e)
            && (e.phase != Off && v < 511 ==> e' == Env(e.phase, v, (e.rateIndex + r.release) % FULL, e.keyOn))
            && (e.phase != Off && v >= 511 ==> e'.phase == Off && e'.volume == 511 && e'.keyOn == e.keyOn)
  {
  }

  /** What a sample of a decay leads to: more decay, the sustain phase with a fresh counter, or at the limit off. */
  predicate DecayedTo(e: Env, r: Rates, n: nat, e': Env) {
    var v := Reached(e.volume, e.rateIndex, r.decay, n);
    && (n == 0 || v < r.sustainLevel ==> e' == Env(Decay, v, CountedOn(e.rateIndex, r.decay, n), e.keyOn))
    && (n > 0 && r.sustainLevel <= v < 511 ==> e' == Env(Sustain, v, 0, e.keyOn))
    && (n > 0 && r.sustainLevel <= v && v >= 511 ==> e'.phase == Off && e'.volume == 511 && e'.keyOn == e.keyOn)
  }

  /** So it goes as long as the whole steps of all samples before stay below the sustain level. */
  lemma {:induction false} DecayReaches(e: Env, r: Rates, sustaining: bool, n: nat)
    requires EnvOk(e) && e.phase == Decay
    requires n > 1 ==> Reached(e.volume, e.rateIndex, r.decay, n - 1) < r.sustainLevel
    ensures DecayedTo(e, r, n, Samples(e, r, sustaining, n))
    decreases n
  {
    hide DecayedTo, EnvOk, Reached;
    if n == 0 {
      DecayedNot(e, r);
    } else {
      if n > 2 {
        CountedNext(e.volume, e.rateIndex, r.decay, n - 1);
      }
      DecayReaches(e, r, sustaining, n - 1);
      SamplesNext(e, r, sustaining, n - 1);
      DecayNext(e, r, sustaining, n, Samples(e, r, sustaining, n - 1));
    }
  }

  lemma DecayedNot(e: Env, r: Rates)
    requires EnvOk(e) && e.phase == Decay
    ensures DecayedTo(e, r, 0, e)
  {
    DivModUnique(e.rateIndex, FULL, 0, e.rateIndex);
  }

  lemma DecayNext(e: Env, r: Rates, sustaining: bool, n: nat, m: Env)
    requires n > 0 && DecayedTo(e, r, n - 1, m) && e.phase == Decay
    requires n > 1 ==> Reached(e.volume, e.rateIndex, r.decay, n - 1) < r.sustainLevel
    ensures DecayedTo(e, r, n, Forward(m, r, sustaining))
  {
    CountedNext(e.volume, e.rateIndex, r.decay, n);
    DecaysOneStep(m, r, sustaining);
    hide Forward, Reached, CountedOn;
  }

  lemma DecaysOneStep(e: Env, r: Rates, sustaining: bool)
    requires e.phase == Decay
    ensures var e', v := Forward(e, r, sustaining), e.volume + (e.rateIndex + r.decay) / FULL;
            && (v < r.sustainLevel ==> e' == Env(Decay, v, (e.rateIndex + r.decay) % FULL, e.keyOn))
            && (r.sustainLevel <= v < 511 ==> e' == Env(Sustain, v, 0, e.keyOn))
            && (r.sustainLevel <= v && v >= 511 ==> e'.phase == Off && e'.volume == 511 && e'.keyOn == e.keyOn)
  {
  }

  /**
   * With a non-zero rate the decay ends, within as many rounds of the counter as there are steps to the sustain
   * level.
   */
  lemma DecayTerminates(e: Env, r: Rates, sustaining: bool) returns (n: nat)
    requires EnvOk(e) && RatesOk(r) && e.phase == Decay && r.decay > 0
    ensures 1 <= n && (n == 1 || n <= (r.sustainLevel - e.volume) * Period(r.decay))
    ensures Reached(e.volume, e.rateIndex, r.decay, n) >= r.sustainLevel
    ensures Samples(e, r, sustaining, n).phase == Sustain || Samples(e, r, sustaining, n).phase == Off
    ensures forall i :: 0 <= i < n ==> Samples(e, r, sustaining, i).phase == Decay
  {
    var bound := if r.sustainLevel <= e.volume then 1 else (r.sustainLevel - e.volume) * Period(r.decay);
    BoundReaches(e, r.decay, r.sustainLevel);
    n := FirstReaching(e, r.decay, r.sustainLevel, bound);
    DecayReaches(e, r, sustaining, n);
    forall i | 0 <= i < n ensures Samples(e, r, sustaining, i).phase == Decay {
      if i > 0 {
        DecayReaches(e, r, sustaining, i);
      }
    }
  }

  lemma BoundReaches(e: Env, add: nat, level: nat)
    requires EnvOk(e) && 0 < add
    ensures level <= e.volume ==> Reached(e.volume, e.rateIndex, add, 1) >= level
    ensures level > e.volume ==> (level - e.volume) * Period(add) >= 1
                                 && Reached(e.volume, e.rateIndex, add, (level - e.volume) * Period(add)) >= level
  {
    ReachedGrows(e.volume, e.rateIndex, add, 1);
    if level > e.volume {
      var d, p := level - e.volume, Period(add);
      QuotientBounds(FULL + add - 1, add);
      assert (p + 1) * add == p * add + add;
      assert p * add >= FULL;
      MulLeq(FULL, p * add, d);
      assert d * p * add == p * add * d by { MulAssoc(d, p, add); }
      MulLeq(1, p, d);
      DivModUnique(d * FULL, FULL, d, 0);
      DivMonotone(d * FULL, e.rateIndex + d * p * add, FULL);
    }
  }

  lemma {:induction false} FirstReaching(e: Env, add: nat, level: nat, bound: nat) returns (n: nat)
    requires bound >= 1 && Reached(e.volume, e.rateIndex, add, bound) >= level
    ensures 1 <= n <= bound && Reached(e.volume, e.rateIndex, add, n) >= level
    ensures forall i :: 1 <= i < n ==> Reached(e.volume, e.rateIndex, add, i) < level
    decreases bound
  {
    hide Reached;
    n := bound;
    if bound > 1 {
      if Reached(e.volume, e.rateIndex, add, bound - 1) >= level {
        n := FirstReaching(e, add, level, bound - 1);
      } else {
        BelowBefore(e, add, level, bound - 1);
      }
    }
  }

  lemma {:induction false} BelowBefore(e: Env, add: nat, level: nat, m: nat)
    requires Reached(e.volume, e.rateIndex, add, m) < level
    ensures forall i :: 1 <= i <= m ==> Reached(e.volume, e.rateIndex, add, i) < level
    decreases m
  {
    hide Reached;
    if m > 1 {
      ReachedStep(e.volume, e.rateIndex, add, m - 1);
      BelowBefore(e, add, level, m - 1);
    }
  }

  /**
   * One sample of the attack: a step of the counter takes an eighth of the attenuation and one more off, rounded
   * up; when that is more than there is, the attack is over at full volume.
   */
  lemma AttackDrops(e: Env, add: nat) returns (d: nat)
    requires EnvOk(e)
    ensures var k := (e.rateIndex + add) / FULL; (e.volume + 1) * k <= 8 * d < (e.volume + 1) * k + 8
    ensures ForwardAttack(e, add)
         == if d <= e.volume then Env(Attack, e.volume - d, (e.rateIndex + add) % FULL, e.keyOn)
             else Env(Decay, 0, 0, e.keyOn)
  {
    d := EighthRoundedUp(e.volume + 1, Steps(e.rateIndex, add));
  }

  lemma EighthRoundedUp(v: int, k: int) returns (d: int)
    requires v >= 0 && k >= 0
    ensures 0 <= d && v * k <= 8 * d < v * k + 8 && ((-v) * k) / 8 == -d
    ensures k > 0 ==> 8 * d >= v
  {
    var p := v * k;
    MulLeq(0, v, k);
    assert (-v) * k == -p;
    d := (p + 7) / 8;
    assert (-p) / 8 == -d;
    if k > 0 {
      MulLeq(1, k, v);
    }
  }

  /** Whether `n` samples leave the attenuation of an operator without a key as it is. */
  predicate Still(o: Oper, n: nat) { o.env.volume == 511 || o.env.rateIndex + n * o.rates.release < FULL }

  function After(o: Oper, n: nat): (o': Oper) {
    o.(env := Samples(o.env, o.rates, SustainBit(o.regs.r20), n))
  }

  lemma AfterNext(o: Oper, n: nat)
    ensures Sample(After(o, n)) == After(o, n + 1)
  {
    SamplesAdd(o.env, o.rates, SustainBit(o.regs.r20), n, 1);
  }

  /** The next key press does not tell whether these samples were taken, exactly if the attenuation is still. */
  lemma PressForgetsIff(o: Oper, n: nat, mask: bv8)
    requires OperOk(o) && o.env.keyOn == 0
    ensures KeyOn(After(o, n).env, mask) == KeyOn(o.env, mask) <==> Still(o, n)
    ensures After(o, n).env.keyOn == 0
  {
    ReleasedVolume(o.env, o.rates, SustainBit(o.regs.r20), n);
    hide OperOk, EnvOk;
    var total := o.env.rateIndex + n * o.rates.release;
    assert total / FULL == 0 <==> total < FULL;
  }

  lemma {:induction false} AttackEndsWithin(e: Env, r: Rates, sustaining: bool, bound: nat) returns (n: nat)
    requires EnvOk(e) && e.phase == Attack && RatesOk(r) && r.attack > 0 && AttackLeft(e, r.attack) <= bound
    ensures n <= bound && Samples(e, r, sustaining, n).phase == Decay && Samples(e, r, sustaining, n).volume == 0
    ensures forall i :: 0 <= i < n ==> Samples(e, r, sustaining, i).phase == Attack
    decreases bound
  {
    AttackAdvances(e, r.attack);
    ToWrapBounds(e.rateIndex, r.attack);
    MulLeq(0, e.volume, Period(r.attack));
    var e' := Forward(e, r, sustaining);
    if e'.phase == Attack {
      var m := AttackEndsWithin(e', r, sustaining, bound - 1);
      n := m + 1;
    } else {
      n := 1;
    }
  }

  /**
   * With a non-zero attack rate the attack of an undisturbed operator ends, at full volume, within one round
   * of the counter for every step of attenuation and one more.
   */
  lemma AttackTerminates(e: Env, r: Rates, sustaining: bool) returns (n: nat)
    requires EnvOk(e) && e.phase == Attack && RatesOk(r) && r.attack > 0
    ensures n <= (e.volume + 1) * Period(r.attack)
    ensures Samples(e, r, sustaining, n).phase == Decay && Samples(e, r, sustaining, n).volume == 0
    ensures forall i :: 0 <= i < n ==> Samples(e, r, sustaining, i).phase == Attack
  {
    ToWrapBounds(e.rateIndex, r.attack);
    assert (e.volume + 1) * Period(r.attack) == e.volume * Period(r.attack) + Period(r.attack);
    n := AttackEndsWithin(e, r, sustaining, AttackLeft(e, r.attack));
  }

  /** With a zero attack rate it never ends. */
  lemma {:induction false} ZeroAttackNeverEnds(e: Env, r: Rates, sustaining: bool, n: nat)
    requires EnvOk(e) && e.phase == Attack && r.attack == 0
    ensures Samples(e, r, sustaining, n) == e
  {
    if n > 0 {
      ZeroAttackNeverEnds(e, r, sustaining, n - 1);
    }
  }

  // ---------------------------------------------------------------- the emulator's object

  /** An operator of the emulated chip, its fields written by register writes, key events and samples. */
  class Operator {
    var state: Phase
    var volume: int
    var rateIndex: nat
    var keyOn: bv8
    var rates: Rates
    var zero: Zero
    var regs: Regs
    var key: Key
    var totalLevel: nat

    ghost function AbsEnv(): (e: Env)
      reads this`state, this`volume, this`rateIndex, this`keyOn
    {
      Env(state, volume, rateIndex, keyOn)
    }

    ghost function Abs(): (o: Oper)
      reads this
    {
      Oper(AbsEnv(), rates, zero, regs, key, totalLevel)
    }

    constructor ()
      ensures Abs() == Created() && OperOk(Abs())
    {
      state, volume, rateIndex, keyOn := Off, 511, 0, 0;
      rates, zero := Rates(0, 0, 0, 511), Zero(false, false, false, false);
      regs, key, totalLevel := Regs(0, 0, 0, 0, 0), Key(0, 0), 511;
    }

    method RateForward(add: nat) returns (steps: nat)
      modifies this`rateIndex
      ensures steps == Steps(old(rateIndex), add) && rateIndex == Left(old(rateIndex), add)
    {
      rateIndex := rateIndex + add;
      steps := rateIndex / FULL;
      rateIndex := rateIndex % FULL;
    }

    /** One sample of the attack. */
    method AttackVolumeNow() returns (vol: int)
      requires state == Attack
      modifies this`state, this`volume, this`rateIndex
      ensures AbsEnv() == ForwardAttack(old(AbsEnv()), rates.attack) && vol == volume
    {
      vol := volume;
      var change := RateForward(rates.attack);
      if change == 0 {
        return;
      }
      vol := vol + ((-vol - 1) * change) / 8;
      if vol < 0 {
        volume, rateIndex, state, vol := 0, 0, Decay, 0;
        return;
      }
      volume := vol;
    }

    /** One sample of the decay. */
    method DecayVolumeNow() returns (vol: int)
      requires state == Decay
      modifies this`state, this`volume, this`rateIndex
      ensures AbsEnv() == ForwardDecay(old(AbsEnv()), rates.decay, rates.sustainLevel) && vol == volume
    {
      var steps := RateForward(rates.decay);
      vol := volume + steps;
      if vol >= rates.sustainLevel {
        if vol >= 511 {
          volume, state := 511, Off;
          return 511;
        }
        rateIndex, state := 0, Sustain;
      }
      volume := vol;
    }

    /** One sample of the release, or of a sustain that is not held. */
    method ReleaseVolumeNow() returns (vol: int)
      modifies this`state, this`volume, this`rateIndex
      ensures AbsEnv() == ForwardRelease(old(AbsEnv()), rates.release) && vol == volume
    {
      var steps := RateForward(rates.release);
      vol := volume + steps;
      if vol >= 511 {
        volume, state := 511, Off;
        return 511;
      }
      volume := vol;
    }

    /** Moves the envelope by one sample and returns its attenuation. */
    method ForwardVolume() returns (vol: int)
      requires OperOk(Abs())
      modifies this`state, this`volume, this`rateIndex
      ensures Abs() == Sample(old(Abs())) && vol == volume
    {
      match state
      case Off => vol := 511;
      case Attack => vol := AttackVolumeNow();
      case Decay => vol := DecayVolumeNow();
      case Sustain =>
        if SustainBit(regs.r20) {
          vol := volume;
        } else {
          vol := ReleaseVolumeNow();
        }
      case Release => vol := ReleaseVolumeNow();
    }

    method PressKey(mask: bv8)
      modifies this`state, this`rateIndex, this`keyOn
      ensures AbsEnv() == KeyOn(old(AbsEnv()), mask)
    {
      if keyOn == 0 {
        rateIndex, state := 0, Attack;
      }
      keyOn := keyOn | mask;
    }

    method ReleaseKey(mask: bv8)
      modifies this`state, this`keyOn
      ensures AbsEnv() == KeyOff(old(AbsEnv()), mask)
    {
      keyOn := keyOn & !mask;
      if keyOn == 0 {
        if state != Off {
          state := Release;
        }
      }
    }

    method RecomputeAttack(t: Tables)
      requires TablesOk(t) && RegsOk(regs)
      modifies this`rates, this`zero
      ensures Abs() == UpdateAttack(t, old(Abs()))
    {
      var rate, add := regs.r60 / 16, 0;
      if rate != 0 {
        var val := rate * 4 + regs.ksr;
        add := t.attackRates[val];
      }
      rates := Rates(add, rates.decay, rates.release, rates.sustainLevel);
      zero := Zero(zero.release, zero.sustain, zero.decay, rate == 0);
    }

    method RecomputeDecay(t: Tables)
      requires TablesOk(t) && RegsOk(regs)
      modifies this`rates, this`zero
      ensures Abs() == UpdateDecay(t, old(Abs()))
    {
      var rate, add := regs.r60 % 16, 0;
      if rate != 0 {
        var val := rate * 4 + regs.ksr;
        add := t.linearRates[val];
      }
      rates := Rates(rates.attack, add, rates.release, rates.sustainLevel);
      zero := Zero(zero.release, zero.sustain, rate == 0, zero.attack);
    }

    method RecomputeRelease(t: Tables)
      requires TablesOk(t) && RegsOk(regs)
      modifies this`rates, this`zero
      ensures Abs() == UpdateRelease(t, old(Abs()))
    {
      var rate, add, sustain := regs.r80 % 16, 0, zero.sustain;
      if rate != 0 {
        var val := rate * 4 + regs.ksr;
        add := t.linearRates[val];
        if !SustainBit(regs.r20) {
          sustain := false;
        }
      } else if !SustainBit(regs.r20) {
        sustain := true;
      }
      rates := Rates(rates.attack, rates.decay, add, rates.sustainLevel);
      zero := Zero(rate == 0, sustain, zero.decay, zero.attack);
    }

    method RecomputeRates(t: Tables)
      requires TablesOk(t) && RegsOk(regs) && key.keyCode < 16
      modifies this`rates, this`zero, this`regs
      ensures Abs() == UpdateRates(t, old(Abs()))
    {
      hide UpdateAttack, UpdateDecay, UpdateRelease;
      var ksr := Ksr(regs.r20, key.keyCode);
      if regs.ksr == ksr {
        return;
      }
      regs := Regs(regs.r20, regs.r40, regs.r60, regs.r80, ksr);
      RecomputeAttack(t);
      RecomputeDecay(t);
      RecomputeRelease(t);
    }

    method WriteReg20(t: Tables, val: nat)
      requires TablesOk(t) && RegsOk(regs) && key.keyCode < 16 && val < 256
      modifies this`rates, this`zero, this`regs
      ensures Abs() == Write20(t, old(Abs()), val)
    {
      hide UpdateRates;
      if val == regs.r20 {
        return;
      }
      var ksrChanged := KsrBit(val) != KsrBit(regs.r20);
      regs := Regs(val, regs.r40, regs.r60, regs.r80, regs.ksr);
      if ksrChanged {
        RecomputeRates(t);
      }
      zero := Zero(zero.release, SustainBit(regs.r20) || rates.release == 0, zero.decay, zero.attack);
    }

    method WriteReg40(val: nat)
      modifies this`regs, this`totalLevel
      ensures Abs() == Write40(old(Abs()), val)
    {
      if val == regs.r40 {
        return;
      }
      regs := Regs(regs.r20, val, regs.r60, regs.r80, regs.ksr);
      totalLevel := Attenuation(val, key.kslBase);
    }

    method WriteReg60(t: Tables, val: nat)
      requires TablesOk(t) && RegsOk(regs) && val < 256
      modifies this`rates, this`zero, this`regs
      ensures Abs() == Write60(t, old(Abs()), val)
    {
      hide UpdateAttack, UpdateDecay;
      var was := regs.r60;
      regs := Regs(regs.r20, regs.r40, val, regs.r80, regs.ksr);
      if val % 16 != was % 16 {
        RecomputeDecay(t);
      }
      if val / 16 != was / 16 {
        RecomputeAttack(t);
      }
    }

    method WriteReg80(t: Tables, val: nat)
      requires TablesOk(t) && RegsOk(regs) && val < 256
      modifies this`rates, this`zero, this`regs
      ensures Abs() == Write80(t, old(Abs()), val)
    {
      hide UpdateRelease;
      var was := regs.r80;
      if val == was {
        return;
      }
      regs := Regs(regs.r20, regs.r40, regs.r60, val, regs.ksr);
      rates := Rates(rates.attack, rates.decay, rates.release, SustainLevelOf(val / 16));
      if val % 16 != was % 16 {
        RecomputeRelease(t);
      }
    }

    predicate IsSilent()
      reads this
      ensures IsSilent() == Silent(Abs())
    {
      && totalLevel + volume >= LIMIT
      && match state
         case Off => true
         case Release => zero.release
         case Sustain => zero.sustain
         case Decay => zero.decay
         case Attack => zero.attack
    }
  }
}
