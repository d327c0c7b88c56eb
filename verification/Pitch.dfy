/**
 * The sample-rate converter's pitch: a rate quotient in 8.24 fixed point, computed
 * in 32-bit unsigned arithmetic by normalising the remainder before dividing.
 */
module Pitch {
  import opened CInt
  import opened Arith

  const ONE: nat := 0x100_0000   // 1.0 in 8.24

  function Pow2(n: nat): (r: nat)
    ensures r >= 1
  {
    if n == 0 then 1 else 2 * Pow2(n - 1)
  }

  lemma {:induction false} Pow2Add(m: nat, n: nat)
    ensures Pow2(m + n) == Pow2(m) * Pow2(n)
    decreases n
  {
    if n > 0 {
      Pow2Add(m, n - 1);
      assert Pow2(m + n) == 2 * Pow2(m + n - 1);
    }
  }

  lemma {:induction false} Pow2Mono(m: nat, n: nat)
    requires m < n
    ensures 2 * Pow2(m) <= Pow2(n)
    decreases n
  {
    if m + 1 < n {
      Pow2Mono(m, n - 1);
    }
  }

  lemma Pow2Values()
    ensures Pow2(7) == 128 && Pow2(9) == 512 && Pow2(23) == 0x80_0000
    ensures Pow2(24) == ONE && Pow2(31) == 0x8000_0000 && Pow2(32) == 0x1_0000_0000
  {
    assert Pow2(8) == 256 && Pow2(16) == 65536 by {
      assert Pow2(4) == 16;
      Pow2Add(4, 4);
      Pow2Add(8, 8);
    }
    Pow2Add(8, 16);
    Pow2Add(7, 16);
    Pow2Add(7, 24);
  }

  /** `b` is the position of the highest set bit of `r`. */
  predicate TopBit(r: nat, b: nat) { Pow2(b) <= r < Pow2(b + 1) }

  lemma TopBitUnique(r: nat, b: nat, c: nat)
    requires TopBit(r, b) && TopBit(r, c)
    ensures b == c
  {
    if b < c {
      Pow2Mono(b, c + 1);
      if b + 1 < c { Pow2Mono(b + 1, c); }
    } else if c < b {
      Pow2Mono(c, b + 1);
      if c + 1 < b { Pow2Mono(c + 1, b); }
    }
  }

  /** The weight of the last quotient bit that survives normalisation. */
  function Step(b: nat): (e: nat)
    ensures e >= 1
  {
    if b >= 7 then Pow2(b - 7) else 1
  }

  /** The fraction computed for a remainder `r` (in hundreds) over `o`, `b` being r's top bit. */
  function Fraction(r: nat, o: nat, b: nat): (f: nat)
    requires o > 0 && b < 32
  {
    var q := r * Pow2(31 - b) / o;
    if b >= 7 then q * Pow2(b - 7) else q / Pow2(7 - b)
  }

  /** Bits of a multiple of 1.0 combined with a fraction that may reach 1.0 itself. */
  function OrFraction(whole: nat, f: nat): (p: nat)
    requires f <= ONE
  {
    whole * ONE + if f == ONE && whole % 2 == 1 then 0 else f
  }

  // ---------------------------------------------------------------- the fraction

  /** Scaling a quotient up by `t`. */
  lemma ScaleUp(r: nat, o: nat, s: nat, t: nat, q: nat)
    requires o > 0 && t > 0 && s * t == ONE && q * o <= r * s < (q + 1) * o
    ensures q * t * o <= ONE * r < (q * t + t) * o
  {
    MulAssoc(r, s, t);
    MulLeq(q * o, r * s, t);
    MulLess(r * s, (q + 1) * o, t);
    Rearrange(q, o, t);
    Rearrange(q + 1, o, t);
  }

  /** Scaling a quotient down by `t`, dropping its low bits. */
  lemma ScaleDown(r: nat, o: nat, s: nat, t: nat, q: nat, f: nat)
    requires o > 0 && t > 0 && s == ONE * t && q * o <= r * s < (q + 1) * o
    requires f * t <= q < (f + 1) * t
    ensures f * o <= ONE * r < (f + 1) * o
  {
    var x := ONE * r;
    assert r * s == x * t by { MulAssoc(ONE, r, t); MulAssoc(ONE, t, r); }
    MulLeq(f * t, q, o);
    Rearrange(f, t, o);
    MulCancelLeq(f * o, x, t);
    MulLeq(q + 1, (f + 1) * t, o);
    Rearrange(f + 1, t, o);
    MulCancelLess(x, (f + 1) * o, t);
  }

  lemma NormalisedFits(r: nat, b: nat)
    requires b < 32 && TopBit(r, b)
    ensures r * Pow2(31 - b) < 0x1_0000_0000
  {
    Pow2Values();
    Pow2Add(b + 1, 31 - b);
    MulLess(r, Pow2(b + 1), Pow2(31 - b));
  }

  lemma ShiftProducts(b: nat)
    requires b < 32
    ensures b >= 7 ==> Pow2(31 - b) * Pow2(b - 7) == ONE
    ensures b < 7 ==> Pow2(31 - b) == ONE * Pow2(7 - b)
  {
    Pow2Values();
    if b >= 7 {
      Pow2Add(31 - b, b - 7);
    } else {
      Pow2Add(24, 7 - b);
    }
  }

  lemma BracketHigh(r: nat, o: nat, b: nat)
    requires o > 0 && 7 <= b < 32
    ensures Fraction(r, o, b) * o <= ONE * r < (Fraction(r, o, b) + Step(b)) * o
  {
    var s, t := Pow2(31 - b), Pow2(b - 7);
    var q := r * s / o;
    assert q * o <= r * s < (q + 1) * o by { QuotientBounds(r * s, o); }
    assert s * t == ONE by { ShiftProducts(b); }
    var f := q * t;
    assert f * o <= ONE * r < (f + t) * o by { ScaleUp(r, o, s, t, q); }
    assert f == Fraction(r, o, b) && t == Step(b);
  }

  lemma BracketLow(r: nat, o: nat, b: nat)
    requires o > 0 && b < 7
    ensures Fraction(r, o, b) * o <= ONE * r < (Fraction(r, o, b) + Step(b)) * o
  {
    ShiftProducts(b);
    TwoQuotients(r, o, Pow2(31 - b), Pow2(7 - b));
  }

  /** Dividing by `o` and then by `t` what was scaled up by `t`. */
  lemma TwoQuotients(r: nat, o: nat, s: nat, t: nat)
    requires o > 0 && t > 0 && s == ONE * t
    ensures r * s / o / t * o <= ONE * r < (r * s / o / t + 1) * o
  {
    var q := r * s / o;
    QuotientBounds(r * s, o);
    QuotientBounds(q, t);
    ScaleDown(r, o, s, t, q, q / t);
  }

  /** The normalised quotient brackets r/o to within one Step. */
  lemma FractionBracket(r: nat, o: nat, b: nat)
    requires o > 0 && b < 32
    ensures Fraction(r, o, b) * o <= ONE * r < (Fraction(r, o, b) + Step(b)) * o
  {
    if b >= 7 {
      BracketHigh(r, o, b);
    } else {
      BracketLow(r, o, b);
    }
  }

  /** A remainder below the divisor never reaches 1.0; an equal one is exactly 1.0. */
  lemma FractionRange(r: nat, o: nat, b: nat)
    requires o > 0 && b < 32 && TopBit(r, b) && r <= o
    ensures Fraction(r, o, b) <= ONE
    ensures r < o ==> Fraction(r, o, b) < ONE
    ensures r == o ==> Fraction(r, o, b) == ONE
  {
    FractionBracket(r, o, b);
    MulCancelLeq(Fraction(r, o, b), ONE, o);
    if r == o {
      FullFraction(o, b);
    }
  }

  lemma FullFraction(o: nat, b: nat)
    requires o > 0 && b < 32
    ensures Fraction(o, o, b) == ONE
  {
    Pow2Values();
    var s := Pow2(31 - b);
    assert o * s / o == s by { assert o * s == s * o; MulDiv(s, o); }
    if b >= 7 {
      Pow2Add(31 - b, b - 7);
    } else {
      Pow2Add(24, 7 - b);
      MulDiv(ONE, Pow2(7 - b));
    }
  }

  lemma MulDiv(a: nat, b: nat)
    requires b > 0
    ensures a * b / b == a
  {
    QuotientBounds(a * b, b);
    MulCancelLess(a, a * b / b + 1, b);
    MulCancelLeq(a * b / b, a, b);
  }

  // ---------------------------------------------------------------- the conversion

  /** Remainder and divisor in hundreds, as the code truncates them. */
  function Rem(input: nat, output: nat): (r: nat)
    requires output > 0
    ensures r <= output / 100
  {
    input % output / 100
  }

  /** `p` is the pitch for a whole part and a remainder `r` over `o`. */
  ghost predicate PitchOf(whole: nat, r: nat, o: nat, p: nat) {
    if r == 0 then p == whole * ONE
    else exists b: nat :: IsFractionAt(whole, r, o, p, b)
  }

  ghost predicate IsFractionAt(whole: nat, r: nat, o: nat, p: nat, b: nat) {
    && b < 32 && o > 0 && TopBit(r, b)
    && Fraction(r, o, b) <= ONE
    && p == OrFraction(whole, Fraction(r, o, b))
  }

  /** The pitch for any pair of rates. */
  ghost predicate IsPitch(input: nat, output: nat, p: nat)
    requires output > 0
  {
    PitchOf(input / output % 256, Rem(input, output), output / 100, p)
  }

  lemma WholePart(q: nat)
    ensures U32(q * ONE) == q % 256 * ONE && U32(q * ONE) / ONE == q % 256
  {
  }

  /** Neither shift of the normalised quotient leaves 32 bits. */
  lemma ShiftsFit(r: nat, o: nat, b: nat)
    requires 0 < r <= o && b < 32 && TopBit(r, b)
    ensures U32(r * Pow2(31 - b)) == r * Pow2(31 - b)
    ensures b >= 7 ==> U32(r * Pow2(31 - b) / o * Pow2(b - 7)) == r * Pow2(31 - b) / o * Pow2(b - 7)
    ensures Fraction(r, o, b) <= ONE
  {
    NormalisedFits(r, b);
    FractionRange(r, o, b);
  }

  method GetPitch(inputRate: nat, outputRate: nat) returns (pitch: nat)
    requires inputRate < 0x1_0000_0000 && 0 < outputRate < 0x1_0000_0000
    ensures IsPitch(inputRate, outputRate, pitch)
  {
    pitch := U32(inputRate / outputRate * ONE);
    WholePart(inputRate / outputRate);
    var input := inputRate % outputRate;
    input := input / 100;
    var output := outputRate / 100;
    ghost var r := input;
    Pow2Values();
    var b: int := 31;
    while b >= 0 && input / Pow2(b) == 0
      invariant -1 <= b <= 31
      invariant input == r < Pow2(b + 1)
      decreases b
    {
      b := b - 1;
    }
    if b >= 0 {
      TopBitFound(input, b);
      ShiftsFit(input, output, b);
      ghost var top := b;
      input := U32(input * Pow2(31 - b));
      input := input / output;
      b := 24 - (31 - b);
      if b >= 0 {
        input := U32(input * Pow2(b));
      } else {
        input := input / Pow2(-b);
      }
      assert input == Fraction(r, output, top);
      pitch := OrFraction(pitch / ONE, input);
      assert IsFractionAt(inputRate / outputRate % 256, r, output, pitch, top);
    }
  }

  lemma TopBitFound(r: nat, b: nat)
    requires r < Pow2(b + 1) && r / Pow2(b) != 0
    ensures TopBit(r, b) && r > 0
  {
    hide Pow2;
    var p := Pow2(b);
    QuotientBounds(r, p);
    MulLeq(1, r / p, p);
  }

  /** `w` and `r` are the quotient and remainder of the two rates, which a caller can compute first. */
  predicate Divided(i: nat, o: nat, w: nat, r: nat) { i == w * o + r && r < o }

  /**
   * For rates that are multiples of 100 the pitch is the rate quotient truncated to 8.24,
   * with an error below the weight of the remainder's last surviving bit.
   */
  lemma PitchBracket(i: nat, o: nat, w: nat, r: nat, p: nat)
    requires Divided(i, o, w, r) && w < 256 && IsPitch(100 * i, 100 * o, p)
    ensures p * o <= ONE * i
    ensures r == 0 ==> p * o == ONE * i
    ensures forall b: nat :: TopBit(r, b) ==> ONE * i < (p + Step(b)) * o
    ensures p / ONE == w
  {
    var b := PitchForm(i, o, w, r, p);
    if r == 0 {
      MulAssoc(ONE, w, o);
    } else {
      PitchBracketAt(i, o, w, r, p, b);
    }
    forall c: nat | TopBit(r, c)
      ensures ONE * i < (p + Step(c)) * o
    {
      if r != 0 {
        TopBitUnique(r, b, c);
      }
    }
  }

  lemma PitchForm(i: nat, o: nat, w: nat, r: nat, p: nat) returns (b: nat)
    requires Divided(i, o, w, r) && w < 256 && IsPitch(100 * i, 100 * o, p)
    ensures if r == 0 then p == w * ONE else IsFractionAt(w, r, o, p, b)
  {
    HundredsQuotient(i, o, w, r);
    assert PitchOf(w, r, o, p);
    b := if r == 0 then 0 else var b: nat :| IsFractionAt(w, r, o, p, b); b;
  }

  lemma PitchBracketAt(i: nat, o: nat, w: nat, r: nat, p: nat, b: nat)
    requires Divided(i, o, w, r) && IsFractionAt(w, r, o, p, b)
    ensures p * o <= ONE * i < (p + Step(b)) * o
    ensures p / ONE == w
  {
    var f, e := Fraction(r, o, b), Step(b);
    assert f < ONE by { FractionRange(r, o, b); }
    assert f * o <= ONE * r < (f + e) * o by { FractionBracket(r, o, b); }
    AddWhole(i, o, w, r, f, e);
  }

  lemma AddWhole(i: nat, o: nat, whole: nat, r: nat, f: nat, e: nat)
    requires i == whole * o + r && f * o <= ONE * r < (f + e) * o
    ensures (whole * ONE + f) * o <= ONE * i < (whole * ONE + f + e) * o
  {
    var w := whole * ONE;
    assert w * o == ONE * (whole * o) by { MulAssoc(ONE, whole, o); }
    assert (w + f) * o == w * o + f * o;
    assert (w + f + e) * o == w * o + (f + e) * o;
  }

  /** Truncation to hundreds loses nothing when both rates are multiples of 100. */
  lemma HundredsQuotient(i: nat, o: nat, w: nat, r: nat)
    requires Divided(i, o, w, r)
    ensures 100 * i / (100 * o) == w
    ensures Rem(100 * i, 100 * o) == r && 100 * o / 100 == o
  {
    assert 100 * i == w * (100 * o) + 100 * r by {
      MulAssoc(100, w, o);
      MulAssoc(w, 100, o);
    }
    DivModUnique(100 * i, 100 * o, w, 100 * r);
  }

  /** The fraction below 1.0, whatever the rates: it brackets the quotient of the truncated remainder and divisor. */
  lemma PitchBelow(i: nat, w: nat, r: nat, o: nat, p: nat)
    requires 0 < r < o && i == w * o + r && PitchOf(w, r, o, p)
    ensures p * o <= ONE * i && p / ONE == w
    ensures forall c: nat :: TopBit(r, c) ==> ONE * i < (p + Step(c)) * o
  {
    hide TopBit, Fraction, OrFraction, Step;
    var b: nat :| IsFractionAt(w, r, o, p, b);
    PitchBracketAt(i, o, w, r, p, b);
    forall c: nat | TopBit(r, c)
      ensures ONE * i < (p + Step(c)) * o
    {
      TopBitUnique(r, b, c);
    }
  }

  /** A fraction of 1.0 is or-ed into the whole part, so that it counts only if that is even. */
  lemma PitchFull(w: nat, o: nat, p: nat)
    requires o > 0 && PitchOf(w, o, o, p)
    ensures p == (if w % 2 == 0 then w + 1 else w) * ONE
  {
    var b: nat :| IsFractionAt(w, o, o, p, b);
    FractionRange(o, o, b);
  }

  lemma PitchWhole(w: nat, o: nat, p: nat)
    requires PitchOf(w, 0, o, p)
    ensures p == w * ONE
  {
  }

  /**
   * The pitch for any rates, in terms of the whole part modulo 256 and of remainder and divisor truncated to
   * hundreds: exact without a remainder, within a step of their quotient below the divisor, and a whole number,
   * odd, when truncation makes the two equal.
   */
  lemma PitchOfAnyRates(input: nat, output: nat, p: nat)
    requires output > 0 && IsPitch(input, output, p)
    ensures var w, r, o := input / output % 256, Rem(input, output), output / 100;
            && r <= o && (r == 0 ==> p == w * ONE)
            && (0 < r < o ==> p * o <= ONE * (w * o + r) && p / ONE == w
                              && forall b: nat :: TopBit(r, b) ==> ONE * (w * o + r) < (p + Step(b)) * o)
            && (0 < r == o ==> p == (if w % 2 == 0 then w + 1 else w) * ONE)
  {
    var w, r, o := input / output % 256, Rem(input, output), output / 100;
    hide TopBit, PitchOf, Step;
    if 0 < r < o {
      PitchBelow(w * o + r, w, r, o, p);
    } else if 0 < r {
      PitchFull(w, o, p);
    } else {
      PitchWhole(w, o, p);
    }
  }

  /** Other rates can lose the whole fraction: 299/150 is programmed as 1.0. */
  lemma TruncatedHundredsExample()
    ensures IsPitch(299, 150, ONE)
    ensures forall p :: IsPitch(299, 150, p) ==> p == ONE
  {
    assert Rem(299, 150) == 1;
    assert TopBit(1, 0);
    FractionRange(1, 1, 0);
    assert IsFractionAt(1, 1, 1, ONE, 0);
    forall p | IsPitch(299, 150, p)
      ensures p == ONE
    {
      var b: nat :| IsFractionAt(1, 1, 1, p, b);
      TopBitUnique(1, b, 0);
    }
  }

  // ---------------------------------------------------------------- the consumer

  datatype Rom = Rom(index: nat) | NoRom

  function SelectRom(pitch: nat): (rom: Rom) {
    if 0x00428f5c < pitch < 0x01b851ec then Rom(1)
    else if pitch == 0x01d66666 || pitch == 0x01d66667 then Rom(2)
    else if pitch == 0x02000000 then Rom(3)
    else if pitch <= 0x08000000 then Rom(0)
    else NoRom
  }

  /** ROM 1 serves ratios between 0.26 and 1.72, ROM 3 the ratio 2, ROM 2 the two pitches next to 147/80. */
  lemma RomByRatio(p: nat)
    ensures SelectRom(p) == Rom(1) <==> 26 * ONE < 100 * p < 172 * ONE
    ensures SelectRom(p) == Rom(3) <==> p == 2 * ONE
    ensures SelectRom(p) == Rom(2) <==> 80 * p < 147 * ONE + 80 && 147 * ONE < 80 * p + 80
    ensures SelectRom(p) == NoRom <==> p > 8 * ONE
  {
  }

  /** A conversion ROM exists exactly for ratios up to 8, at any output rate the card can run. */
  lemma RomExistsIff(i: nat, o: nat, w: nat, r: nat, p: nat)
    requires Divided(i, o, w, r) && w < 256 && IsPitch(100 * i, 100 * o, p)
    requires o <= ONE
    ensures SelectRom(p) != NoRom <==> i <= 8 * o
  {
    PitchBracket(i, o, w, r, p);
    if i <= 8 * o {
      MulCancelLeq(p, ONE * 8, o);
    } else if p <= 0x08000000 {
      if w <= 7 {
        MulLeq(w, 7, o);
      }
      var b := PitchForm(i, o, w, r, p);
      FractionIsPositive(r, o, b);
      assert false;
    }
  }

  lemma FractionIsPositive(r: nat, o: nat, b: nat)
    requires 0 < o <= ONE && b < 32 && TopBit(r, b)
    ensures Fraction(r, o, b) > 0
  {
    Pow2Values();
    Pow2Add(b, 31 - b);
    var s := Pow2(31 - b);
    MulLeq(Pow2(b), r, s);
    var q := r * s / o;
    QuotientBounds(r * s, o);
    if b >= 7 {
      if q > 0 {
        MulLeq(1, q, Pow2(b - 7));
      }
    } else {
      FractionBracket(r, o, b);
    }
  }

  /**
   * The ROM for the ratio 1.8375 is chosen by comparing the pitch with its exact value, so it is
   * found only while normalisation keeps every bit of that value: remainders below 51200 Hz.
   */
  lemma Rom18375Iff(k: nat, p: nat)
    requires 0 < k && 100 * (147 * k) < 0x1_0000_0000
    requires IsPitch(100 * (147 * k), 100 * (80 * k), p)
    ensures SelectRom(p) == Rom(2) <==> 67 * k < 512
  {
    var i, o, r := 147 * k, 80 * k, 67 * k;
    var b := PitchForm(i, o, 1, r, p);
    assert p == ONE + Ratio18375(b) by {
      FractionRange(r, o, b);
      ReduceRatio(k, b);
    }
    TopBitBelow512(r, b);
    if b < 9 {
      Ratio18375Exact(b);
    } else {
      Ratio18375Truncated(b);
    }
  }

  lemma TopBitBelow512(r: nat, b: nat)
    requires TopBit(r, b)
    ensures r < 512 <==> b < 9
  {
    Pow2Values();
    if b < 9 {
      if b + 1 < 9 { Pow2Mono(b + 1, 9); }
    } else {
      if b > 9 { Pow2Mono(9, b); }
    }
  }

  /** The fraction computed for 67/80, whose exact 8.24 value is 0xd66666. */
  function Ratio18375(b: nat): (f: nat)
    requires b < 32
  {
    Fraction(67, 80, b)
  }

  lemma ReduceRatio(k: nat, b: nat)
    requires 0 < k && b < 32
    ensures Fraction(67 * k, 80 * k, b) == Ratio18375(b)
  {
    var s := Pow2(31 - b);
    CancelFactor(67 * s, 80, k);
    Rearrange(67, k, s);
  }

  lemma CancelFactor(a: nat, b: nat, k: nat)
    requires b > 0 && k > 0
    ensures b * k > 0 && a * k / (b * k) == a / b
  {
    MulLess(0, b, k);
    QuotientBounds(a, b);
    var q, r := a / b, a % b;
    assert a == q * b + r;
    assert a * k == q * (b * k) + r * k by { assert (q * b + r) * k == q * b * k + r * k; }
    MulLess(r, b, k);
    MulLeq(0, r, k);
    DivModUnique(a * k, b * k, q, r * k);
  }

  lemma Ratio18375Exact(b: nat)
    requires b < 9
    ensures Ratio18375(b) == 0xd66666
  {
    Pow2Values();
    if b == 8 {
      assert Pow2(1) == 2;
    } else if b == 7 {
      assert Pow2(0) == 1;
    } else {
      Pow2Add(24, 7 - b);
      ShiftedQuotient(Pow2(7 - b));
    }
  }

  /** Exact division by 80 commutes with the shift, so every bit of 67 * 2^24 / 80 survives. */
  lemma ShiftedQuotient(t: nat)
    requires t > 0
    ensures 67 * (ONE * t) / 80 / t == 0xd66666
  {
    var r := 32 * t / 80;
    QuotientBounds(32 * t, 80);
    DivModUnique(67 * (ONE * t), 80, 0xd66666 * t + r, 32 * t - 80 * r);
    DivModUnique(0xd66666 * t + r, t, 0xd66666, r);
  }

  lemma Ratio18375Truncated(b: nat)
    requires 9 <= b < 32
    ensures Ratio18375(b) < 0xd66666
  {
    Pow2Values();
    var s, t, u := Pow2(31 - b), Pow2(b - 7), Pow2(b - 9);
    Pow2Add(31 - b, b - 7);
    Pow2Add(2, b - 9);
    assert Pow2(2) == 4;
    var q := 67 * s / 80;
    TruncatedMultiple(q, s, t, u);
  }

  /** A multiple of 4 not above 67 * 2^24 / 80 stays below 0xd66666. */
  lemma TruncatedMultiple(q: nat, s: nat, t: nat, u: nat)
    requires 80 * q <= 67 * s && s * t == ONE && t == 4 * u
    ensures q * t < 0xd66666
  {
    assert q * t == 4 * (q * u) by { MulAssoc(4, u, q); }
    MulLeq(80 * q, 67 * s, t);
    MulAssoc(80, q, t);
    MulAssoc(67, s, t);
  }
}
