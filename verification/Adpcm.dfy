/** Creative ADPCM: three sample decoders sharing a reference and an adaptive step. */
module Adpcm {
  import opened CInt
  import opened Arith

  /** `step` is the table row offset, `ref` the running 8-bit sample, `useRef` that a reference byte is due. */
  datatype State = State(step: int, ref: int, useRef: bool)

  const SCALE4: seq<int> :=
    [0,  1,  2,  3,  4,  5,  6,  7,  0,  -1,  -2,  -3,  -4,  -5,  -6,  -7] +
    [1,  3,  5,  7,  9, 11, 13, 15, -1,  -3,  -5,  -7,  -9, -11, -13, -15] +
    [2,  6, 10, 14, 18, 22, 26, 30, -2,  -6, -10, -14, -18, -22, -26, -30] +
    [4, 12, 20, 28, 36, 44, 52, 60, -4, -12, -20, -28, -36, -44, -52, -60]

  const ADJUST4: seq<int> :=
    [  0, 0, 0, 0, 0, 16, 16, 16,   0, 0, 0, 0, 0, 16, 16, 16] +
    [240, 0, 0, 0, 0, 16, 16, 16, 240, 0, 0, 0, 0, 16, 16, 16] +
    [240, 0, 0, 0, 0, 16, 16, 16, 240, 0, 0, 0, 0, 16, 16, 16] +
    [240, 0, 0, 0, 0,  0,  0,  0, 240, 0, 0, 0, 0,  0,  0,  0]

  const SCALE2: seq<int> :=
    [ 0,  1,   0,  -1] +
    [ 1,  3,  -1,  -3] +
    [ 2,  6,  -2,  -6] +
    [ 4, 12,  -4, -12] +
    [ 8, 24,  -8, -24] +
    [16, 48, -16, -48]

  const ADJUST2: seq<int> :=
    [  0, 4,   0, 4] +
    [252, 4, 252, 4] +
    [252, 4, 252, 4] +
    [252, 4, 252, 4] +
    [252, 4, 252, 4] +
    [252, 0, 252, 0]

  const SCALE3: seq<int> :=
    [0,  1,  2,  3,  0,  -1,  -2,  -3] +
    [1,  3,  5,  7, -1,  -3,  -5,  -7] +
    [2,  6, 10, 14, -2,  -6, -10, -14] +
    [4, 12, 20, 28, -4, -12, -20, -28] +
    [5, 15, 25, 35, -5, -15, -25, -35]

  const ADJUST3: seq<int> :=
    [  0, 0, 0, 8,   0, 0, 0, 8] +
    [248, 0, 0, 8, 248, 0, 0, 8] +
    [248, 0, 0, 8, 248, 0, 0, 8] +
    [248, 0, 0, 8, 248, 0, 0, 8] +
    [248, 0, 0, 0, 248, 0, 0, 0]

  predicate Width(bits: int) { 2 <= bits <= 4 }

  /** Number of codes of a sample, which is also the length of a table row. */
  function Codes(bits: int): (n: nat) { if bits == 2 then 4 else if bits == 3 then 8 else 16 }

  function Rows(bits: int): (n: nat) { if bits == 2 then 6 else if bits == 3 then 5 else 4 }

  function LastIndex(bits: int): (n: nat) { if bits == 2 then 23 else if bits == 3 then 39 else 63 }

  function ScaleAt(bits: int, i: nat): (d: int)
    requires Width(bits) && i <= LastIndex(bits)
  {
    if bits == 2 then SCALE2[i] else if bits == 3 then SCALE3[i] else SCALE4[i]
  }

  function AdjustAt(bits: int, i: nat): (d: int)
    requires Width(bits) && i <= LastIndex(bits)
  {
    if bits == 2 then ADJUST2[i] else if bits == 3 then ADJUST3[i] else ADJUST4[i]
  }

  /** The table index, kept inside the tables by the decoder's two range checks. */
  function Index(bits: int, code: nat, step: int): (i: nat)
    ensures i <= LastIndex(bits)
  {
    if code + step < 0 then 0 else if code + step > LastIndex(bits) then LastIndex(bits) else code + step
  }

  function ClampByte(x: int): (b: int)
    ensures 0 <= b <= 0xff
  {
    if x > 0xff then 0xff else if x < 0 then 0 else x
  }

  /** One sample decoded; its value is the new reference. */
  function Sample(bits: int, code: nat, s: State): (s': State)
    requires Width(bits)
    ensures 0 <= s'.ref <= 0xff
  {
    var i := Index(bits, code, s.step);
    s.(ref := ClampByte(s.ref + ScaleAt(bits, i)), step := U8(s.step + AdjustAt(bits, i)))
  }

  // ---------------------------------------------------------------- steps stay inside the tables

  function RowStart(bits: int, k: nat): (i: nat) { if bits == 2 then 4 * k else if bits == 3 then 8 * k else 16 * k }

  function RowOf(bits: int, step: nat): (k: nat) {
    if bits == 2 then step / 4 else if bits == 3 then step / 8 else step / 16
  }

  /** The steps a width may have: the starts of its table rows. */
  predicate LegalStep(bits: int, step: int) {
    Width(bits) && step >= 0 && step == RowStart(bits, RowOf(bits, step)) && RowOf(bits, step) < Rows(bits)
  }

  predicate LegalState(bits: int, s: State) { LegalStep(bits, s.step) && 0 <= s.ref <= 0xff }

  /** A code's magnitude and sign, and how far it moves the reference in row `k`. */
  function Magnitude(bits: int, code: nat): (m: nat) {
    if bits == 2 then code % 2 else if bits == 3 then code % 4 else code % 8
  }

  /** In row 0 the magnitude itself; above it an odd multiple of half a power of two (of 5 in the last 3-bit row). */
  function Weight(bits: int, m: nat, k: nat): (w: int) {
    match k
    case 0 => m
    case 1 => 2 * m + 1
    case 2 => 4 * m + 2
    case 3 => 8 * m + 4
    case 4 => if bits == 3 then 10 * m + 5 else 16 * m + 8
    case _ => 32 * m + 16
  }

  function Delta(bits: int, code: nat, k: nat): (d: int) {
    var w := Weight(bits, Magnitude(bits, code), k);
    if code < Codes(bits) / 2 then w else -w
  }

  /** Zero magnitudes move one row down, the largest ones one row up, at the table's edges neither. */
  function NextRow(bits: int, code: nat, k: nat): (k': nat)
    ensures k < Rows(bits) ==> k' < Rows(bits)
  {
    var m := Magnitude(bits, code);
    var top := if bits == 2 then 1 else if bits == 3 then 3 else 5;
    if m == 0 then if k > 0 then k - 1 else 0
    else if m >= top && k + 1 < Rows(bits) then k + 1 else k
  }

  lemma ScaleRule2(code: nat, k: nat)
    requires code < 4 && k < 6
    ensures SCALE2[code + 4 * k] == Delta(2, code, k)
  {
    match code {
      case 0 =>
      case 1 =>
      case 2 =>
      case 3 =>
    }
  }

  lemma AdjustRule2(code: nat, k: nat)
    requires code < 4 && k < 6
    ensures U8(4 * k + ADJUST2[code + 4 * k]) == 4 * NextRow(2, code, k)
  {
    match code {
      case 0 =>
      case 1 =>
      case 2 =>
      case 3 =>
    }
  }

  lemma ScaleRule3(code: nat, k: nat)
    requires code < 8 && k < 5
    ensures SCALE3[code + 8 * k] == Delta(3, code, k)
  {
    match code {
      case 0 =>
      case 1 =>
      case 2 =>
      case 3 =>
      case 4 =>
      case 5 =>
      case 6 =>
      case 7 =>
    }
  }

  lemma AdjustRule3Low(code: nat, k: nat)
    requires 0 <= code < 4 && k < 5
    ensures U8(8 * k + ADJUST3[code + 8 * k]) == 8 * NextRow(3, code, k)
  {
    match code {
      case 0 =>
      case 1 =>
      case 2 =>
      case 3 =>
    }
  }

  lemma AdjustRule3High(code: nat, k: nat)
    requires 4 <= code < 8 && k < 5
    ensures U8(8 * k + ADJUST3[code + 8 * k]) == 8 * NextRow(3, code, k)
  {
    match code {
      case 4 =>
      case 5 =>
      case 6 =>
      case 7 =>
    }
  }

  lemma ScaleRule4Low(code: nat, k: nat)
    requires 0 <= code < 8 && k < 4
    ensures SCALE4[code + 16 * k] == Delta(4, code, k)
  {
    match code {
      case 0 =>
      case 1 =>
      case 2 =>
      case 3 =>
      case 4 =>
      case 5 =>
      case 6 =>
      case 7 =>
    }
  }

  lemma ScaleRule4High(code: nat, k: nat)
    requires 8 <= code < 16 && k < 4
    ensures SCALE4[code + 16 * k] == Delta(4, code, k)
  {
    match code {
      case 8 =>
      case 9 =>
      case 10 =>
      case 11 =>
      case 12 =>
      case 13 =>
      case 14 =>
      case 15 =>
    }
  }

  lemma AdjustRule4Row0(code: nat)
    requires code < 16
    ensures U8(0 + ADJUST4[code + 0]) == 16 * NextRow(4, code, 0)
  {
    match code {
      case 0 =>
      case 1 =>
      case 2 =>
      case 3 =>
      case 4 =>
      case 5 =>
      case 6 =>
      case 7 =>
      case 8 =>
      case 9 =>
      case 10 =>
      case 11 =>
      case 12 =>
      case 13 =>
      case 14 =>
      case 15 =>
    }
  }

  lemma AdjustRule4Row1(code: nat)
    requires code < 16
    ensures U8(16 + ADJUST4[code + 16]) == 16 * NextRow(4, code, 1)
  {
    match code {
      case 0 =>
      case 1 =>
      case 2 =>
      case 3 =>
      case 4 =>
      case 5 =>
      case 6 =>
      case 7 =>
      case 8 =>
      case 9 =>
      case 10 =>
      case 11 =>
      case 12 =>
      case 13 =>
      case 14 =>
      case 15 =>
    }
  }

  lemma AdjustRule4Row2(code: nat)
    requires code < 16
    ensures U8(32 + ADJUST4[code + 32]) == 16 * NextRow(4, code, 2)
  {
    match code {
      case 0 =>
      case 1 =>
      case 2 =>
      case 3 =>
      case 4 =>
      case 5 =>
      case 6 =>
      case 7 =>
      case 8 =>
      case 9 =>
      case 10 =>
      case 11 =>
      case 12 =>
      case 13 =>
      case 14 =>
      case 15 =>
    }
  }

  lemma AdjustRule4Row3(code: nat)
    requires code < 16
    ensures U8(48 + ADJUST4[code + 48]) == 16 * NextRow(4, code, 3)
  {
    match code {
      case 0 =>
      case 1 =>
      case 2 =>
      case 3 =>
      case 4 =>
      case 5 =>
      case 6 =>
      case 7 =>
      case 8 =>
      case 9 =>
      case 10 =>
      case 11 =>
      case 12 =>
      case 13 =>
      case 14 =>
      case 15 =>
    }
  }

  /** The tables realise the rule above: every row, every code. */
  lemma TablesFollowRule(bits: int, code: nat, k: nat)
    requires Width(bits) && code < Codes(bits) && k < Rows(bits)
    ensures RowStart(bits, k) + code <= LastIndex(bits)
    ensures ScaleAt(bits, RowStart(bits, k) + code) == Delta(bits, code, k)
    ensures U8(RowStart(bits, k) + AdjustAt(bits, RowStart(bits, k) + code)) == RowStart(bits, NextRow(bits, code, k))
  {
    ScaleFollowsRule(bits, code, k);
    AdjustFollowsRule(bits, code, k);
  }

  lemma ScaleFollowsRule(bits: int, code: nat, k: nat)
    requires Width(bits) && code < Codes(bits) && k < Rows(bits)
    ensures ScaleAt(bits, RowStart(bits, k) + code) == Delta(bits, code, k)
  {
    match bits {
      case 2 => ScaleRule2(code, k);
      case 3 => ScaleRule3(code, k);
      case 4 => if code < 8 { ScaleRule4Low(code, k); } else { ScaleRule4High(code, k); }
    }
  }

  lemma AdjustFollowsRule(bits: int, code: nat, k: nat)
    requires Width(bits) && code < Codes(bits) && k < Rows(bits)
    ensures U8(RowStart(bits, k) + AdjustAt(bits, RowStart(bits, k) + code)) == RowStart(bits, NextRow(bits, code, k))
  {
    hide AdjustAt, NextRow, U8;
    match bits {
      case 2 => AdjustWidth2(code, k);
      case 3 => AdjustWidth3(code, k);
      case 4 => AdjustWidth4(code, k);
    }
  }

  lemma AdjustWidth2(code: nat, k: nat)
    requires code < 4 && k < 6
    ensures U8(4 * k + AdjustAt(2, 4 * k + code)) == 4 * NextRow(2, code, k)
  {
    AdjustRule2(code, k);
  }

  lemma AdjustWidth3(code: nat, k: nat)
    requires code < 8 && k < 5
    ensures U8(8 * k + AdjustAt(3, 8 * k + code)) == 8 * NextRow(3, code, k)
  {
    if code < 4 {
      AdjustRule3Low(code, k);
    } else {
      AdjustRule3High(code, k);
    }
  }

  lemma AdjustWidth4(code: nat, k: nat)
    requires code < 16 && k < 4
    ensures U8(16 * k + AdjustAt(4, 16 * k + code)) == 16 * NextRow(4, code, k)
  {
    hide NextRow, U8;
    match k {
      case 0 => AdjustRule4Row0(code);
      case 1 => AdjustRule4Row1(code);
      case 2 => AdjustRule4Row2(code);
      case 3 => AdjustRule4Row3(code);
    }
  }

  /** In row `k` neither range check fires, and the sample follows the rule. */
  lemma SampleInRow(bits: int, code: nat, s: State, k: nat)
    requires Width(bits) && k < Rows(bits) && s.step == RowStart(bits, k) && code < Codes(bits)
    ensures Index(bits, code, s.step) == code + s.step
    ensures Sample(bits, code, s)
         == State(RowStart(bits, NextRow(bits, code, k)), ClampByte(s.ref + Delta(bits, code, k)), s.useRef)
  {
    hide AdjustAt, ScaleAt, NextRow, Delta;
    TablesFollowRule(bits, code, k);
    assert Index(bits, code, s.step) == RowStart(bits, k) + code;
  }

  /** So the next reference is the last one moved by the rule, or the end of the byte range it would leave. */
  lemma SampleIsLimited(bits: int, code: nat, s: State, k: nat)
    requires Width(bits) && k < Rows(bits) && s.step == RowStart(bits, k) && code < Codes(bits)
    ensures var x, r := s.ref + Delta(bits, code, k), Sample(bits, code, s).ref;
            (0 <= x <= 255 ==> r == x) && (x < 0 ==> r == 0) && (x > 255 ==> r == 255)
  {
    SampleInRow(bits, code, s, k);
    hide Delta;
  }

  lemma RowStartIsLegal(bits: int, k: nat)
    requires Width(bits) && k < Rows(bits)
    ensures LegalStep(bits, RowStart(bits, k)) && RowOf(bits, RowStart(bits, k)) == k
  {
  }

  /** From a legal step the sample follows the rule, and the step is legal again. */
  lemma SampleIsLegal(bits: int, code: nat, s: State)
    requires LegalState(bits, s) && code < Codes(bits)
    ensures Index(bits, code, s.step) == code + s.step
    ensures LegalState(bits, Sample(bits, code, s)) && Sample(bits, code, s).useRef == s.useRef
  {
    var k := RowOf(bits, s.step);
    SampleInRow(bits, code, s, k);
    RowStartIsLegal(bits, NextRow(bits, code, k));
  }

  // ---------------------------------------------------------------- bytes

  /** The codes packed in one byte, first decoded first; the last 3-bit code lacks its low bit. */
  function CodesOf(bits: int, byte: nat): (cs: seq<nat>)
    ensures byte < 0x100 && Width(bits) ==> forall i :: 0 <= i < |cs| ==> cs[i] < Codes(bits)
    ensures Width(bits) ==> |cs| == 9 / bits
  {
    if bits == 2 then [byte / 64 % 4, byte / 16 % 4, byte / 4 % 4, byte % 4]
    else if bits == 3 then [byte / 32 % 8, byte / 4 % 8, byte % 4 * 2]
    else if bits == 4 then [byte / 16, byte % 16]
    else []
  }

  /** A byte is its codes put together, the first decoded in the highest bits. */
  lemma FourCodesMakeTheByte(byte: nat)
    requires byte < 0x100
    ensures var c := CodesOf(2, byte);
            c[0] < 4 && c[1] < 4 && c[2] < 4 && c[3] < 4 && byte == 64 * c[0] + 16 * c[1] + 4 * c[2] + c[3]
  {
    LowDigit(byte);
    LowDigit(byte / 4);
    LowDigit(byte / 16);
  }

  /** Base 4, digit by digit. */
  lemma LowDigit(x: nat)
    ensures x == 4 * (x / 4) + x % 4
    ensures x / 4 / 4 == x / 16 && x / 16 / 4 == x / 64
  {
  }

  /** Of three codes the last is even: its low bit is not in the byte. */
  lemma ThreeCodesMakeTheByte(byte: nat)
    requires byte < 0x100
    ensures var c := CodesOf(3, byte);
            c[0] < 8 && c[1] < 8 && c[2] < 8 && c[2] % 2 == 0 && byte == 32 * c[0] + 4 * c[1] + c[2] / 2
  {
    DivModUnique(byte, 4, 8 * (byte / 32) + byte % 32 / 4, byte % 4);
  }

  lemma TwoCodesMakeTheByte(byte: nat)
    requires byte < 0x100
    ensures var c := CodesOf(4, byte); c[0] < 16 && c[1] < 16 && byte == 16 * c[0] + c[1]
  {
  }

  /** Decoding a run of codes: the samples and the final state. */
  function DecodeCodes(bits: int, s: State, cs: seq<nat>): (r: (seq<int>, State))
    requires Width(bits)
    ensures |r.0| == |cs|
    decreases |cs|
  {
    if cs == [] then ([], s)
    else
      var s1 := Sample(bits, cs[0], s);
      var rest := DecodeCodes(bits, s1, cs[1..]);
      ([s1.ref] + rest.0, rest.1)
  }

  function CodesOfBytes(bits: int, data: seq<nat>): (cs: seq<nat>)
    decreases |data|
  {
    if data == [] then [] else CodesOf(bits, data[0]) + CodesOfBytes(bits, data[1..])
  }

  predicate Bytes(data: seq<nat>) { forall i :: 0 <= i < |data| ==> data[i] < 0x100 }

  /** Decoding a buffer: a due reference byte is taken first and resets the step. */
  function Decode(bits: int, s: State, data: seq<nat>): (r: (seq<int>, State))
    requires Width(bits) && data != []
  {
    if s.useRef then DecodeCodes(bits, State(0, data[0], false), CodesOfBytes(bits, data[1..]))
    else DecodeCodes(bits, s, CodesOfBytes(bits, data))
  }

  lemma {:induction false} CodesOfBytesAppend(bits: int, xs: seq<nat>, ys: seq<nat>)
    ensures CodesOfBytes(bits, xs + ys) == CodesOfBytes(bits, xs) + CodesOfBytes(bits, ys)
    decreases |xs|
  {
    hide CodesOf;
    if xs == [] {
      assert xs + ys == ys;
    } else {
      CodesOfBytesAppend(bits, xs[1..], ys);
      assert (xs + ys)[0] == xs[0] && (xs + ys)[1..] == xs[1..] + ys;
      var c, p, q := CodesOf(bits, xs[0]), CodesOfBytes(bits, xs[1..]), CodesOfBytes(bits, ys);
      assert c + (p + q) == c + p + q;
    }
  }

  lemma {:induction false} DecodeCodesAppend(bits: int, s: State, xs: seq<nat>, ys: seq<nat>)
    requires Width(bits)
    ensures var a := DecodeCodes(bits, s, xs);
            var b := DecodeCodes(bits, a.1, ys);
            DecodeCodes(bits, s, xs + ys) == (a.0 + b.0, b.1)
    decreases |xs|
  {
    hide Sample;
    if xs == [] {
      assert xs + ys == ys;
      assert [] + DecodeCodes(bits, s, ys).0 == DecodeCodes(bits, s, ys).0;
    } else {
      var s1 := Sample(bits, xs[0], s);
      DecodeCodesAppend(bits, s1, xs[1..], ys);
      assert (xs + ys)[0] == xs[0] && (xs + ys)[1..] == xs[1..] + ys;
      var a := DecodeCodes(bits, s1, xs[1..]);
      var b := DecodeCodes(bits, a.1, ys);
      assert [s1.ref] + (a.0 + b.0) == [s1.ref] + a.0 + b.0;
    }
  }

  lemma {:induction false} CodesOfBytesLength(bits: int, data: seq<nat>)
    requires Width(bits) && Bytes(data)
    ensures |CodesOfBytes(bits, data)| == |data| * (9 / bits)
    ensures forall i :: 0 <= i < |CodesOfBytes(bits, data)| ==> CodesOfBytes(bits, data)[i] < Codes(bits)
    decreases |data|
  {
    if data != [] {
      CodesOfBytesLength(bits, data[1..]);
      assert |data| * (9 / bits) == 9 / bits + |data[1..]| * (9 / bits) by {
        if bits == 2 { } else if bits == 3 { } else { }
      }
    }
  }

  lemma {:induction false} DecodeCodesLegal(bits: int, s: State, cs: seq<nat>)
    requires LegalState(bits, s) && forall i :: 0 <= i < |cs| ==> cs[i] < Codes(bits)
    ensures LegalState(bits, DecodeCodes(bits, s, cs).1)
    ensures DecodeCodes(bits, s, cs).1.useRef == s.useRef
    ensures forall i :: 0 <= i < |cs| ==> 0 <= DecodeCodes(bits, s, cs).0[i] <= 0xff
    decreases |cs|
  {
    if cs != [] {
      SampleIsLegal(bits, cs[0], s);
      DecodeCodesLegal(bits, Sample(bits, cs[0], s), cs[1..]);
    }
  }

  /** Decoding two non-empty buffers in turn is decoding their concatenation. */
  lemma DecodeAppend(bits: int, s: State, xs: seq<nat>, ys: seq<nat>)
    requires Width(bits) && xs != [] && ys != []
    ensures var a := Decode(bits, s, xs);
            !a.1.useRef && Decode(bits, s, xs + ys) == (a.0 + Decode(bits, a.1, ys).0, Decode(bits, a.1, ys).1)
  {
    var s0, data := if s.useRef then State(0, xs[0], false) else s, if s.useRef then xs[1..] else xs;
    assert (xs + ys)[1..] == xs[1..] + ys;
    CodesOfBytesAppend(bits, data, ys);
    DecodeCodesAppend(bits, s0, CodesOfBytes(bits, data), CodesOfBytes(bits, ys));
    DecodeCodesKeepsFlag(bits, s0, CodesOfBytes(bits, data));
  }

  lemma {:induction false} DecodeCodesKeepsFlag(bits: int, s: State, cs: seq<nat>)
    requires Width(bits)
    ensures DecodeCodes(bits, s, cs).1.useRef == s.useRef
    decreases |cs|
  {
    if cs != [] {
      DecodeCodesKeepsFlag(bits, Sample(bits, cs[0], s), cs[1..]);
    }
  }

  /** Length, range and legality of a decoded buffer. */
  lemma DecodeIsLegal(bits: int, s: State, data: seq<nat>)
    requires Width(bits) && data != [] && Bytes(data) && (s.useRef || LegalState(bits, s))
    ensures var r := Decode(bits, s, data);
            && |r.0| == (|data| - if s.useRef then 1 else 0) * (9 / bits)
            && LegalState(bits, r.1) && !r.1.useRef
            && forall i :: 0 <= i < |r.0| ==> 0 <= r.0[i] <= 0xff
  {
    var s0, rest := if s.useRef then State(0, data[0], false) else s, if s.useRef then data[1..] else data;
    CodesOfBytesLength(bits, rest);
    DecodeCodesLegal(bits, s0, CodesOfBytes(bits, rest));
  }
}
