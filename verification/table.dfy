/**
 The operating-point table: five PLL configurations, each paired with the CPU
 frequency in kHz it is meant to produce, the boost flag on the two overclock
 rows, and the end marker; plus the limits `socfpga_cpu_init` hands to the
 cpufreq framework.
 */
module Table {
  import opened Machine
  import opened Vco
  import opened Query

  /**
   `struct socfpga_clock_data`: the VCO numerator and denominator, and the
   four dividers, each dividing by its value plus one.
   */
  datatype ClockData = ClockData(
    vcoNumer: uint32,
    vcoDenom: uint32,
    alteragrpMpuclk: uint32,
    alteragrpMainclk: uint32,
    alteragrpDbgatclk: uint32,
    cfgs2fuser0clkCnt: uint32)

  /** 1200 MHz overclock: a 2400 MHz VCO. */
  const CLOCK_DATA_1200000 := ClockData(95, 0, 1, 5, 5, 23)
  /** 1000 MHz overclock: a 2000 MHz VCO. */
  const CLOCK_DATA_1000000 := ClockData(79, 0, 1, 4, 4, 19)
  /** 800 MHz, the default for the -I7 and -C7 speed grades: a 1600 MHz VCO. */
  const CLOCK_DATA_800000 := ClockData(63, 0, 1, 3, 3, 15)
  /** 400 MHz underclock: a 1600 MHz VCO. */
  const CLOCK_DATA_400000 := ClockData(63, 0, 3, 3, 3, 15)
  /** 266.66 MHz underclock: a 1600 MHz VCO. */
  const CLOCK_DATA_266666 := ClockData(63, 0, 5, 3, 3, 15)

  /** A row's `driver_data`: its clock data, or nothing on the end marker. */
  datatype DriverData = NoData | ClockDataOf(data: ClockData)

  /** `struct cpufreq_frequency_table`: frequency in kHz and flags. */
  datatype FreqEntry = FreqEntry(driverData: DriverData, frequency: uint32, flags: uint32)

  /** `CPUFREQ_TABLE_END` (`~1u`) and `CPUFREQ_BOOST_FREQ` (bit 0) of the Linux cpufreq interface. */
  const CPUFREQ_TABLE_END: uint32 := 0xFFFF_FFFE
  const CPUFREQ_BOOST_FREQ: uint32 := 1

  /** `SOCFPGA_CPUFREQ_ROW(freq_khz, f)`. */
  function CpufreqRow(freqKhz: uint32, data: ClockData, f: uint32): FreqEntry
  {
    FreqEntry(ClockDataOf(data), freqKhz, f)
  }

  /** `freq_table`. */
  const FREQ_TABLE: seq<FreqEntry> := [
    CpufreqRow(1200000, CLOCK_DATA_1200000, CPUFREQ_BOOST_FREQ),
    CpufreqRow(1000000, CLOCK_DATA_1000000, CPUFREQ_BOOST_FREQ),
    CpufreqRow(800000, CLOCK_DATA_800000, 0),
    CpufreqRow(400000, CLOCK_DATA_400000, 0),
    CpufreqRow(266666, CLOCK_DATA_266666, 0),
    FreqEntry(NoData, CPUFREQ_TABLE_END, 0)
  ]

  /** The number of real rows, the end marker excluded. */
  const ROWS: nat := 5

  predicate IsBoost(e: FreqEntry)
  {
    BitAnd(e.flags, CPUFREQ_BOOST_FREQ) != 0
  }

  /**
   The shape of the table: five real rows, each carrying clock data, in
   strictly descending order of frequency, followed by exactly one end
   marker. The boost flag is set on the two overclock rows and nowhere else.
   */
  lemma TableShape()
    ensures |FREQ_TABLE| == ROWS + 1
    ensures FREQ_TABLE[ROWS].frequency == CPUFREQ_TABLE_END && FREQ_TABLE[ROWS].driverData == NoData
    ensures forall i :: 0 <= i < ROWS ==>
      FREQ_TABLE[i].frequency != CPUFREQ_TABLE_END && FREQ_TABLE[i].driverData.ClockDataOf?
    ensures forall i, j :: 0 <= i < j < ROWS ==> FREQ_TABLE[i].frequency > FREQ_TABLE[j].frequency
    ensures forall i :: 0 <= i < ROWS ==>
      (IsBoost(FREQ_TABLE[i]) <==> FREQ_TABLE[i].frequency in {1200000, 1000000})
  {
  }

  /** The VCO frequency a row's configuration runs the PLL at. */
  function RowVcoHz(d: ClockData): (hz: nat)
    requires d.vcoDenom < UINT32_MAX
    ensures CalculateVcoClockHz(d.vcoNumer, d.vcoDenom) == Value(hz)
  {
    CalculateVcoClockHz(d.vcoNumer, d.vcoDenom).v
  }

  /**
   Every row's clock data, encoded into the VCO register and read back by the
   frequency query with the MPU counter at zero, reports exactly that row's
   frequency. The 266666 kHz row is 1600 MHz / 6 = 266666666 Hz, truncated.
   */
  lemma TableSound()
    ensures forall i :: 0 <= i < ROWS ==>
      var d := FREQ_TABLE[i].driverData.data;
      Get(CalculateVcoReg(d.vcoNumer, d.vcoDenom), d.alteragrpMpuclk, 0) == Value(FREQ_TABLE[i].frequency)
  {
    forall i | 0 <= i < ROWS
      ensures var d := FREQ_TABLE[i].driverData.data;
        Get(CalculateVcoReg(d.vcoNumer, d.vcoDenom), d.alteragrpMpuclk, 0) == Value(FREQ_TABLE[i].frequency)
    {
      RowSound(i);
    }
  }

  lemma RowSound(i: nat)
    requires i < ROWS
    ensures var d := FREQ_TABLE[i].driverData.data;
      Get(CalculateVcoReg(d.vcoNumer, d.vcoDenom), d.alteragrpMpuclk, 0) == Value(FREQ_TABLE[i].frequency)
  {
    var d := FREQ_TABLE[i].driverData.data;
    assert d.vcoDenom == 0;
    GetOfZeroDenominator(d.vcoNumer, d.alteragrpMpuclk);
    if i == 0 {
      assert OSC1_HZ * (95 + 1) / ((1 + 1) * 1000) == 1200000;
    } else if i == 1 {
      assert OSC1_HZ * (79 + 1) / ((1 + 1) * 1000) == 1000000;
    } else if i == 2 {
      assert OSC1_HZ * (63 + 1) / ((1 + 1) * 1000) == 800000;
    } else if i == 3 {
      assert OSC1_HZ * (63 + 1) / ((3 + 1) * 1000) == 400000;
    } else {
      assert OSC1_HZ * (63 + 1) / ((5 + 1) * 1000) == 266666;
    }
  }

  /** With a zero denominator the query is the numerator's VCO frequency over the MPU divider and 1000. */
  lemma GetOfZeroDenominator(numer: uint32, altrMpuclk: uint32)
    requires numer < 0x2000 && altrMpuclk < UINT32_MAX
    ensures Get(CalculateVcoReg(numer, 0), altrMpuclk, 0)
         == Value(OSC1_HZ * (numer + 1) / ((altrMpuclk + 1) * 1000))
  {
    var reg := CalculateVcoReg(numer, 0);
    assert reg == numer * 8;
    assert reg / 8 == numer && reg / 0x1_0000 == 0;
    assert VcoHzOfReg(reg) == OSC1_HZ * (numer + 1);
    assert (altrMpuclk + 1) * (0 + 1) * 1000 == (altrMpuclk + 1) * 1000;
    GetIsOneDivision(reg, altrMpuclk, 0);
  }

  /**
   Every row's VCO numerator and denominator survive the round trip through
   the register: all rows have a zero denominator, the one case in which the
   unmasked decode is exact.
   */
  lemma TableRowsRoundTrip()
    ensures forall i :: 0 <= i < ROWS ==>
      var d := FREQ_TABLE[i].driverData.data;
      DecodeVcoReg(CalculateVcoReg(d.vcoNumer, d.vcoDenom)) == VcoFields(d.vcoNumer, d.vcoDenom)
  {
    forall i | 0 <= i < ROWS
      ensures var d := FREQ_TABLE[i].driverData.data;
        DecodeVcoReg(CalculateVcoReg(d.vcoNumer, d.vcoDenom)) == VcoFields(d.vcoNumer, d.vcoDenom)
    {
      var d := FREQ_TABLE[i].driverData.data;
      DecodeOfEncode(d.vcoNumer, d.vcoDenom);
    }
  }

  /**
   Only the MPU clock changes from row to row: in every row the main and
   debug clocks come out at 400 MHz and the FPGA user clock at 100 MHz. This
   holds for the 1200 MHz row too, whose comments wrongly name a 2000 MHz VCO
   for the last two dividers.
   */
  lemma OnlyMpuClockChanges()
    ensures forall i :: 0 <= i < ROWS ==>
      var d := FREQ_TABLE[i].driverData.data;
      && d.vcoDenom < UINT32_MAX
      && RowVcoHz(d) / (d.alteragrpMainclk + 1) == 400_000_000
      && RowVcoHz(d) / (d.alteragrpDbgatclk + 1) == 400_000_000
      && RowVcoHz(d) / (d.cfgs2fuser0clkCnt + 1) == 100_000_000
  {
    VcoWorkedExamples();
  }

  /** The limits and state `socfpga_cpu_init` fills into the policy. */
  datatype Policy = Policy(
    cur: uint32,
    transitionLatency: uint32,
    maxFreq: uint32,
    minFreq: uint32,
    freqTable: seq<FreqEntry>)

  /**
   `socfpga_cpu_init`: the current frequency comes from the frequency query
   (and traps with it), the transition latency is 300 microseconds in
   nanoseconds, and the limits are the fixed values 1000000 and 266666 kHz.
   The minimum is the lowest row of the table; the maximum is a row of the
   table too, the 1000 MHz overclock row, below the 1200 MHz one.
   */
  function CpuInit(vcoReg: uint32, altrMpuclk: uint32, mpuclkCnt: uint32): (r: Outcome<Policy>)
    ensures r.DivisionByZero? <==> altrMpuclk == UINT32_MAX || mpuclkCnt == UINT32_MAX
    ensures r.Value? ==> Get(vcoReg, altrMpuclk, mpuclkCnt) == Value(r.v.cur)
    ensures r.Value? ==> r.v.transitionLatency == 300 * 1000
    ensures r.Value? ==> r.v.freqTable == FREQ_TABLE
    ensures r.Value? ==> r.v.minFreq == FREQ_TABLE[ROWS - 1].frequency
    ensures r.Value? ==> forall i :: 0 <= i < ROWS ==> r.v.minFreq <= FREQ_TABLE[i].frequency
    ensures r.Value? ==> exists i :: 0 <= i < ROWS && FREQ_TABLE[i].frequency == r.v.maxFreq && IsBoost(FREQ_TABLE[i])
    ensures r.Value? ==> r.v.minFreq < r.v.maxFreq < FREQ_TABLE[0].frequency
  {
    var cur :- Get(vcoReg, altrMpuclk, mpuclkCnt);
    assert FREQ_TABLE[1].frequency == 1000000 && IsBoost(FREQ_TABLE[1]);
    Value(Policy(cur, 300 * 1000, 1000000, 266666, FREQ_TABLE))
  }

  /**
   Started on any row's configuration (MPU counter at zero), the policy's
   current frequency is that row's frequency. For the 1200 MHz row it lies
   above the policy's maximum.
   */
  lemma CpuInitOnTableRow(i: nat)
    requires i < ROWS
    ensures var d := FREQ_TABLE[i].driverData.data;
      var r := CpuInit(CalculateVcoReg(d.vcoNumer, d.vcoDenom), d.alteragrpMpuclk, 0);
      r.Value? && r.v.cur == FREQ_TABLE[i].frequency && r.v.minFreq <= r.v.cur
      && (r.v.cur <= r.v.maxFreq <==> i != 0)
  {
    TableSound();
  }
}
