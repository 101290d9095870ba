/**
 VCO arithmetic of the main PLL: packing a numerator (`divf`) and a
 denominator (`divq`) into the VCO register, unpacking them again with the
 plain shifts the frequency query uses, and the VCO output frequency
 `25 MHz * (numer + 1) / (denom + 1)`.
 */
module Vco {
  import opened Machine

  /** `OSC1_HZ`: the 25 MHz reference oscillator feeding the main PLL. */
  const OSC1_HZ: nat := 25_000_000

  const VCO_NUMER_OFFSET: nat := 3
  const VCO_DENOM_OFFSET: nat := 16

  /** Bits 3..15: the 13-bit numerator field. */
  const DIVF_MASK: uint32 := 0x0000_FFF8
  const DIVF_SHIFT: nat := 3
  /** Bits 16..21: the 6-bit denominator field. */
  const DIVQ_MASK: uint32 := 0x003F_0000
  const DIVQ_SHIFT: nat := 16

  /** The numerator and denominator read back out of a VCO register value. */
  datatype VcoFields = VcoFields(numer: uint32, denom: uint32)

  /**
   `calculate_vco_reg`: the denominator shifted to bit 16 OR-ed with the
   numerator shifted to bit 3, both as 32-bit shifts. When the numerator fits
   its 13 bits and the denominator its 16, the two fields do not overlap and
   nothing is shifted out, so the register is their plain sum.
   */
  function CalculateVcoReg(numer: uint32, denom: uint32): (reg: uint32)
    ensures numer < 0x2000 && denom < 0x1_0000 ==> reg == denom * 0x1_0000 + numer * 8
  {
    var hi := Shl32(denom, VCO_DENOM_OFFSET);
    var lo := Shl32(numer, VCO_NUMER_OFFSET);
    Pow2Values();
    OrBelow(hi, lo, 32);
    InFieldEncodeIsSum(numer, denom);
    BitOr(hi, lo)
  }

  /** Operands within their fields neither overlap nor lose bits, so their OR is their sum. */
  lemma InFieldEncodeIsSum(numer: uint32, denom: uint32)
    ensures numer < 0x2000 && denom < 0x1_0000 ==>
      BitOr(Shl32(denom, VCO_DENOM_OFFSET), Shl32(numer, VCO_NUMER_OFFSET)) == denom * 0x1_0000 + numer * 8
  {
    if numer < 0x2000 && denom < 0x1_0000 {
      Pow2Values();
      DisjointFields(denom, Shl32(numer, VCO_NUMER_OFFSET), 16);
    }
  }

  /**
   The two shifts at the start of `socfpga_get`. No mask is applied first, so
   the numerator keeps every bit from bit 3 up, the denominator's bits among
   them, and the denominator keeps every bit from bit 16 up.
   */
  function DecodeVcoReg(reg: uint32): (f: VcoFields)
    ensures f.denom < 0x1_0000
    ensures f.denom * 0x1_0000 <= reg < (f.denom + 1) * 0x1_0000
    ensures f.numer == f.denom * 0x2000 + (reg % 0x1_0000) / 8
  {
    ShrAsDivision(reg);
    NumerAboveDenom(reg);
    VcoFields(Shr(reg, VCO_NUMER_OFFSET), Shr(reg, VCO_DENOM_OFFSET))
  }

  /** The two right shifts of the query are divisions by 2^3 and 2^16. */
  lemma ShrAsDivision(x: uint32)
    ensures Shr(x, VCO_NUMER_OFFSET) == x / 8
    ensures Shr(x, VCO_DENOM_OFFSET) == x / 0x1_0000
  {
    Pow2Values();
    var a, b := Shr(x, 3), Shr(x, 16);
    DivUnique(x, 8, a, x - a * 8);
    DivUnique(x, 0x1_0000, b, x - b * 0x1_0000);
  }

  /** Bits 3 and up of a register are its bits 16 and up, moved down to bit 13, over bits 3..15. */
  lemma NumerAboveDenom(x: uint32)
    ensures x / 8 == (x / 0x1_0000) * 0x2000 + (x % 0x1_0000) / 8
  {
    var d, t := x / 0x1_0000, x % 0x1_0000;
    assert x == d * 0x1_0000 + t;
    DivUnique(x, 8, d * 0x2000 + t / 8, t % 8);
  }

  /**
   `calculate_vco_clock_hz`: `OSC1_HZ * (numer + 1)` in 64 bits, then divided
   by `1 + denom`. Both `+ 1` are 32-bit additions: a numerator of 0xFFFFFFFF
   wraps to a factor of zero, and a denominator of 0xFFFFFFFF wraps to a zero
   divisor. Otherwise the result is the exact truncated quotient: the 64-bit
   product cannot overflow.
   */
  function CalculateVcoClockHz(numer: uint32, denom: uint32): (r: Outcome<uint64>)
    ensures r.DivisionByZero? <==> denom == UINT32_MAX
    ensures r.Value? && numer < UINT32_MAX ==> r.v == OSC1_HZ * (numer + 1) / (denom + 1)
    ensures r.Value? && numer == UINT32_MAX ==> r.v == 0
  {
    var vcoFreq: uint64 := OSC1_HZ;
    var vcoFreq := Mul64(vcoFreq, Add32(numer, 1));
    DoDiv(vcoFreq, Add32(1, denom))
  }

  /** Neither the numerator nor the denominator field overlaps the other. */
  lemma EncodeFieldsDisjoint(numer: uint32, denom: uint32)
    requires numer < 0x2000
    ensures BitAnd(Shl32(denom, VCO_DENOM_OFFSET), Shl32(numer, VCO_NUMER_OFFSET)) == 0
  {
    Pow2Values();
    ShiftedFields(numer, denom);
    DisjointFields(denom % 0x1_0000, numer * 8, 16);
  }

  /** What is left of each operand after its 32-bit shift. */
  lemma ShiftedFields(numer: uint32, denom: uint32)
    ensures Shl32(denom, VCO_DENOM_OFFSET) == (denom % 0x1_0000) * 0x1_0000
    ensures Shl32(numer, VCO_NUMER_OFFSET) == (numer % 0x2000_0000) * 8
  {
    Pow2Values();
    ShlWraps(denom, 0x1_0000, 0x1_0000);
    ShlWraps(numer, 8, 0x2000_0000);
  }

  /** Multiplying by `p` modulo 2^32 keeps only the residue of `x` modulo `2^32 / p`. */
  lemma ShlWraps(x: uint32, p: nat, w: nat)
    requires p * w == UINT32_LIMIT
    ensures (x * p) % UINT32_LIMIT == (x % w) * p
  {
    var q, r := x / w, x % w;
    assert x == q * w + r;
    assert x * p == q * UINT32_LIMIT + r * p by {
      assert x * p == (q * w) * p + r * p;
      assert (q * w) * p == q * (p * w);
    }
    MulLe(r, w - 1, p);
    assert (w - 1) * p == UINT32_LIMIT - p;
    DivUnique(x * p, UINT32_LIMIT, q, r * p);
  }

  /** Bits 0..2 of an encoded register are always clear, whatever the inputs. */
  lemma EncodeLowBitsClear(numer: uint32, denom: uint32)
    ensures CalculateVcoReg(numer, denom) % 8 == 0
  {
    var m := (denom % 0x1_0000) * 0x2000;
    var n := numer % 0x2000_0000;
    var hi, lo := Shl32(denom, VCO_DENOM_OFFSET), Shl32(numer, VCO_NUMER_OFFSET);
    ShiftedFields(numer, denom);
    OrOfEightfoldLowBits(hi, lo, m, n);
    EncodeIsOr(numer, denom);
  }

  /** `calculate_vco_reg` is the OR of its two shifted operands. */
  lemma EncodeIsOr(numer: uint32, denom: uint32)
    ensures CalculateVcoReg(numer, denom)
         == BitOr(Shl32(denom, VCO_DENOM_OFFSET), Shl32(numer, VCO_NUMER_OFFSET))
  {
  }

  /** The two masks select disjoint bit ranges. */
  lemma MasksDisjoint()
    ensures BitAnd(DIVF_MASK, DIVQ_MASK) == 0
  {
    Pow2Values();
    DisjointFields(0x3F, DIVF_MASK, 16);
    AndCommutes(DIVQ_MASK, DIVF_MASK);
  }

  /**
   Decoding an encoded register by shifts alone gives the denominator back
   exactly, but the numerator comes back with the denominator folded in above
   its 13 bits: it round-trips exactly when the denominator is zero.
   */
  lemma DecodeOfEncode(numer: uint32, denom: uint32)
    requires numer < 0x2000 && denom < 0x1_0000
    ensures DecodeVcoReg(CalculateVcoReg(numer, denom)).denom == denom
    ensures DecodeVcoReg(CalculateVcoReg(numer, denom)).numer == numer + denom * 0x2000
    ensures DecodeVcoReg(CalculateVcoReg(numer, denom)) == VcoFields(numer, denom) <==> denom == 0
  {
    var reg := CalculateVcoReg(numer, denom);
    assert reg == denom * 0x1_0000 + numer * 8;
    DivUnique(reg, 0x1_0000, denom, numer * 8);
    DivUnique(reg % 0x1_0000, 8, numer, 0);
  }

  /**
   Outside the field widths the encoding loses information: a 14-bit numerator
   runs into the denominator's field, and a denominator of 2^16 is shifted out
   of the word.
   */
  lemma OutOfFieldEncodeCollides()
    ensures CalculateVcoReg(0x2000, 0) == CalculateVcoReg(0, 1) == 0x1_0000
    ensures DecodeVcoReg(CalculateVcoReg(0x2000, 0)) == VcoFields(0x2000, 1)
    ensures CalculateVcoReg(0, 0x1_0000) == 0
  {
    Pow2Values();
    EncodeIsOr(0x2000, 0);
    EncodeIsOr(0, 0x1_0000);
    OrZero(0x1_0000);
    OrZero(0);
    DecodeAsDivision(0x1_0000);
  }

  /**
   The other direction: re-encoding the shifted-out fields of any register
   value gives that value back with bits 0..2 cleared. The numerator already
   carries the denominator's bits, so OR-ing them in again changes nothing.
   */
  lemma {:induction false} EncodeOfDecode(reg: uint32)
    ensures CalculateVcoReg(DecodeVcoReg(reg).numer, DecodeVcoReg(reg).denom) == reg - reg % 8
  {
    var f := DecodeVcoReg(reg);
    var m := reg / 0x1_0000;
    DecodedFieldsShifted(reg);
    var s: nat := reg % 0x1_0000 - reg % 8;
    OrAbsorbsHighPart(m, s, 16);
    Pow2Values();
    assert m * 0x1_0000 + s == reg - reg % 8;
    EncodeIsOr(f.numer, f.denom);
  }

  /** The decoded fields, shifted back into place: the numerator's copy covers the denominator's. */
  lemma DecodedFieldsShifted(reg: uint32)
    ensures Shl32(DecodeVcoReg(reg).denom, VCO_DENOM_OFFSET) == (reg / 0x1_0000) * Pow2(16)
    ensures Shl32(DecodeVcoReg(reg).numer, VCO_NUMER_OFFSET)
         == (reg / 0x1_0000) * Pow2(16) + (reg % 0x1_0000 - reg % 8)
    ensures 0 <= reg % 0x1_0000 - reg % 8 < Pow2(16)
  {
    DenomShiftedBack(reg);
    NumerShiftedBack(reg);
  }

  lemma DenomShiftedBack(reg: uint32)
    ensures Shl32(DecodeVcoReg(reg).denom, VCO_DENOM_OFFSET) == (reg / 0x1_0000) * Pow2(16)
  {
    Pow2Values();
    DecodeAsDivision(reg);
    var d := reg / 0x1_0000;
    assert d * Pow2(16) == d * 0x1_0000 < UINT32_LIMIT;
  }

  lemma NumerShiftedBack(reg: uint32)
    ensures Shl32(DecodeVcoReg(reg).numer, VCO_NUMER_OFFSET)
         == (reg / 0x1_0000) * Pow2(16) + (reg % 0x1_0000 - reg % 8)
    ensures 0 <= reg % 0x1_0000 - reg % 8 < Pow2(16)
  {
    Pow2Values();
    DecodeAsDivision(reg);
    LowBitsWithin(reg);
    var n := reg / 8;
    assert n * Pow2(3) == n * 8 <= reg;
    assert reg == (reg / 0x1_0000) * 0x1_0000 + reg % 0x1_0000;
  }

  /** The decode as plain divisions of the register value. */
  lemma DecodeAsDivision(reg: uint32)
    ensures DecodeVcoReg(reg) == VcoFields(reg / 8, reg / 0x1_0000)
  {
    ShrAsDivision(reg);
  }

  /** Bits 3..15 of a value, read from it whole or from its low 16 bits, are the same. */
  lemma LowBitsWithin(reg: uint32)
    ensures reg % 8 == (reg % 0x1_0000) % 8
    ensures (reg / 8) * 8 == reg - reg % 8
  {
    var d, t := reg / 0x1_0000, reg % 0x1_0000;
    assert reg == d * 0x1_0000 + t;
    DivUnique(reg, 8, d * 0x2000 + t / 8, t % 8);
  }

  /** The VCO frequencies the operating-point rows are annotated with. */
  lemma VcoWorkedExamples()
    ensures CalculateVcoClockHz(63, 0) == Value(1_600_000_000)
    ensures CalculateVcoClockHz(79, 0) == Value(2_000_000_000)
    ensures CalculateVcoClockHz(95, 0) == Value(2_400_000_000)
  {
  }
}
