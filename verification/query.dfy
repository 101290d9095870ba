/**
 The frequency query (`socfpga_get`): the CPU clock in kHz, reconstructed from
 three clock-manager registers. The register reads are inputs here:
 `vcoReg` is the main PLL's VCO register (offset 0x40), `altrMpuclk` the
 Altera-group MPU clock divider (offset 0xe0) and `mpuclkCnt` the main PLL's
 MPU clock counter (offset 0x48).
 */
module Query {
  import opened Machine
  import opened Vco

  /**
   The most `socfpga_get` can ever report: the VCO runs at most 8192 times the
   reference (the numerator and denominator read by shifts alone always satisfy
   `numer + 1 <= 8192 * (denom + 1)`), and the divisors are at least 1, 1 and
   1000.
   */
  const MAX_REPORTED_KHZ: nat := 204_800_000

  /** The VCO frequency in Hz that a register value stands for, its fields read by shifts alone. */
  ghost function VcoHzOfReg(reg: nat): nat
  {
    OSC1_HZ * (reg / 8 + 1) / (reg / 0x1_0000 + 1)
  }

  /**
   `socfpga_get`: decode the VCO register, compute the VCO frequency, divide
   it in turn by `1 + altrMpuclk`, by `mpuclkCnt + 1` and by 1000, and cast
   the 64-bit quotient to a 32-bit `unsigned int`. A register value of
   0xFFFFFFFF in either divider register wraps its divisor to zero; the
   decoded VCO denominator is below 2^16 and never does.
   */
  function Get(vcoReg: uint32, altrMpuclk: uint32, mpuclkCnt: uint32): (r: Outcome<uint32>)
    ensures r.DivisionByZero? <==> altrMpuclk == UINT32_MAX || mpuclkCnt == UINT32_MAX
  {
    var fields := DecodeVcoReg(vcoReg);
    var vcoHz := CalculateVcoClockHz(fields.numer, fields.denom).v;
    var mpuclkFreq :- DoDiv(vcoHz, Add32(1, altrMpuclk));
    var mpuclkFreq :- DoDiv(mpuclkFreq, Add32(mpuclkCnt, 1));
    var khz := DoDiv(mpuclkFreq, 1000).v;
    Value(khz % UINT32_LIMIT)
  }

  /**
   The three truncating divisions in sequence give the same kHz value as one
   truncating division of the VCO frequency by the product of the divisors,
   and that value is small enough that the final cast to 32 bits loses
   nothing.
   */
  lemma {:induction false} GetIsOneDivision(vcoReg: uint32, altrMpuclk: uint32, mpuclkCnt: uint32)
    requires altrMpuclk < UINT32_MAX && mpuclkCnt < UINT32_MAX
    ensures Get(vcoReg, altrMpuclk, mpuclkCnt)
         == Value(VcoHzOfReg(vcoReg) / ((altrMpuclk + 1) * (mpuclkCnt + 1) * 1000))
    ensures VcoHzOfReg(vcoReg) / ((altrMpuclk + 1) * (mpuclkCnt + 1) * 1000) <= MAX_REPORTED_KHZ
  {
    GetUnfolded(vcoReg, altrMpuclk, mpuclkCnt);
    CascadedDivision(VcoHzOfReg(vcoReg), altrMpuclk + 1, mpuclkCnt + 1);
    ReportedKhzBelow(vcoReg, (altrMpuclk + 1) * (mpuclkCnt + 1) * 1000);
  }

  /** Three truncating divisions in a row are one division by the product of the divisors. */
  lemma CascadedDivision(hz: nat, a: nat, b: nat)
    requires a > 0 && b > 0
    ensures hz / a / b / 1000 == hz / (a * b * 1000)
  {
    DivOfDiv(hz, a, b);
    DivOfDiv(hz, a * b, 1000);
  }

  /** Any divisor of at least 1000 brings the VCO frequency within `MAX_REPORTED_KHZ`, hence within 32 bits. */
  lemma ReportedKhzBelow(vcoReg: uint32, m: nat)
    requires m >= 1000
    ensures VcoHzOfReg(vcoReg) / m <= MAX_REPORTED_KHZ
    ensures (VcoHzOfReg(vcoReg) / m) % UINT32_LIMIT == VcoHzOfReg(vcoReg) / m
  {
    VcoHzBelow(vcoReg);
    QuotientBelow(VcoHzOfReg(vcoReg), m, OSC1_HZ * 0x2000);
  }

  /** The steps of `socfpga_get` as plain integer divisions, one after the other. */
  lemma GetUnfolded(vcoReg: uint32, altrMpuclk: uint32, mpuclkCnt: uint32)
    requires altrMpuclk < UINT32_MAX && mpuclkCnt < UINT32_MAX
    ensures Get(vcoReg, altrMpuclk, mpuclkCnt)
         == Value((VcoHzOfReg(vcoReg) / (altrMpuclk + 1) / (mpuclkCnt + 1) / 1000) % UINT32_LIMIT)
  {
    var a, b := altrMpuclk + 1, mpuclkCnt + 1;
    var hz := VcoHzOfReg(vcoReg);
    VcoHzOfDecode(vcoReg);
    assert DoDiv(hz, Add32(1, altrMpuclk)) == Value(hz / a);
    assert DoDiv(hz / a, Add32(mpuclkCnt, 1)) == Value(hz / a / b);
  }

  /** The first two steps of `socfpga_get`, the decode and the VCO frequency, give `VcoHzOfReg`. */
  lemma VcoHzOfDecode(vcoReg: uint32)
    ensures CalculateVcoClockHz(DecodeVcoReg(vcoReg).numer, DecodeVcoReg(vcoReg).denom)
         == Value(VcoHzOfReg(vcoReg))
  {
    DecodeAsDivision(vcoReg);
  }

  /** Whatever the register holds, the VCO runs at most 8192 times the reference. */
  lemma VcoHzBelow(reg: uint32)
    ensures VcoHzOfReg(reg) <= OSC1_HZ * 0x2000
  {
    var n, d := reg / 8, reg / 0x1_0000;
    assert n + 1 <= (d + 1) * 0x2000;
    assert OSC1_HZ * (n + 1) <= (OSC1_HZ * 0x2000) * (d + 1);
    DivBelow(OSC1_HZ * (n + 1), OSC1_HZ * 0x2000, d + 1);
  }

  /** Dividing at most `bound` Hz by at least 1000 gives at most `bound / 1000`. */
  lemma QuotientBelow(x: nat, m: nat, bound: nat)
    requires x <= bound && m >= 1000
    ensures x / m <= bound / 1000
  {
    var q := x / m;
    MulLe(1000, m, q);
    assert q * 1000 <= q * m <= x;
    DivBelow(q * 1000, bound / 1000, 1000);
  }

  /**
   The worked example for the query: a 1.6 GHz VCO divided by 1 + 1 and by
   15 + 1 is 50 MHz, reported as exactly 50000 kHz.
   */
  lemma GetWorkedExample()
    ensures Get(CalculateVcoReg(63, 0), 1, 15) == Value(50_000)
  {
    assert CalculateVcoReg(63, 0) == 504;
    GetIsOneDivision(504, 1, 15);
  }

  /**
   What the unmasked decode costs once the denominator is not zero: a VCO set
   up as 25 MHz * (63 + 1) / (1 + 1) = 800 MHz is read back with the
   denominator's bit folded into the numerator (8255 instead of 63), so the
   MPU clock at 800 MHz / (1 + 1) is reported as 51600000 kHz, not 400000.
   */
  lemma UnmaskedDecodeMisreports()
    ensures CalculateVcoClockHz(63, 1) == Value(800_000_000)
    ensures Get(CalculateVcoReg(63, 1), 1, 0) == Value(51_600_000)
  {
    assert CalculateVcoReg(63, 1) == 66040;
    assert VcoHzOfReg(66040) == 103_200_000_000;
    GetIsOneDivision(66040, 1, 0);
  }
}
