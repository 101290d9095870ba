# socfpga cpufreq: clock arithmetic and operating points

A Dafny model of the arithmetic core of the MiSTer FPGA (Cyclone V SoC)
cpufreq driver, `socfpga_cpufreq.c`. The driver's clock-manager main PLL
produces a VCO frequency of `25 MHz * (numer + 1) / (denom + 1)`. The CPU
(MPU) clock is that VCO frequency divided by two further dividers. The driver
does four things, and each is modelled here:

- it packs a numerator and denominator into the VCO register layout
  (`calculate_vco_reg`);
- it computes the VCO frequency in 64-bit integers (`calculate_vco_clock_hz`);
- it reconstructs the current CPU frequency in kHz from three registers
  (`socfpga_get`);
- it publishes a static table of five operating points, plus the limits set
  by `socfpga_cpu_init`.

The model is functional. C's unsigned 32- and 64-bit integers are subset types
of `int`. The wrap-around of `+` and `*`, the bits lost by `<<`, and the
bit-by-bit `|` and `&` are spelled out in module `Machine`. The kernel's
`do_div` returns an `Outcome` that is `DivisionByZero` when its divisor is
zero. The three register reads become the parameters of `Query.Get`.

Modules follow the driver's structure:

- `Machine` (machine.dfy) holds the C integer semantics and the division lemmas.
- `Vco` (vco.dfy) holds the register encoding, the unmasked decode and the VCO frequency.
- `Query` (query.dfy) holds `socfpga_get`.
- `Table` (table.dfy) holds the clock data, `freq_table` and `socfpga_cpu_init`.

Two things the proofs bring out:

- **The decode is not masked.** `socfpga_get` reads the numerator as
  `vco_reg >> 3` and the denominator as `vco_reg >> 16`. It never applies
  `DIVF_MASK` or `DIVQ_MASK`, which are defined but unused. For a numerator
  below 2^13 and a denominator below 2^16, the denominator comes back exactly,
  but the numerator comes back as `numer + denom * 8192`. For such inputs,
  decoding inverts encoding exactly if and only if the denominator is zero.
  Outside those ranges the fields collide or are shifted out: `(0x2000, 0)`
  and `(0, 1)` both encode to 0x10000 (`Vco.OutOfFieldEncodeCollides`).
  Every table row is in range with a zero denominator, so every row
  round-trips.
  Re-encoding any decoded register gives the register back with bits 0..2
  cleared. The model keeps this behaviour as written, as a property of the
  register layout. `Query.UnmaskedDecodeMisreports` shows its effect on a
  non-zero denominator.
- **The query never truncates.** The numerator and denominator read by shifts
  alone always satisfy `numer + 1 <= 8192 * (denom + 1)`. So the VCO frequency the query computes
  is at most 204.8 GHz, the reported value is at most 204,800,000 kHz, and the
  final `(unsigned int)` cast never loses bits. Only a divider register holding
  0xFFFFFFFF can make the query fail: its `+ 1` wraps to a zero divisor.

Facts about the code that the model follows:

- The driver never reprograms the PLL. `socfpga_target_index` only looks up
  the row, prints it and returns 0.
- The encoder does not confine the denominator to bits 16..21. It shifts the
  whole 32-bit value.
- `calculate_vco_clock_hz` cannot overflow for any 32-bit numerator, not only
  for small ones.
- The code has no error kinds. A zero divisor in `do_div` is the only
  abnormal case; what the kernel then does depends on the architecture (see
  "## Left out").

## Model

| member | source | states |
|---|---|---|
| `Vco.CalculateVcoReg` | socfpga_cpufreq.c:123-127 | When the numerator fits 13 bits and the denominator 16, the packed register is exactly `denom * 2^16 + numer * 8`: no bit is shifted out of the 32-bit word and the OR adds nothing extra. |
| `Vco.EncodeFieldsDisjoint` | socfpga_cpufreq.c:125-127 | For a numerator below 2^13, the shifted denominator and the shifted numerator have no bit in common, whatever the denominator. |
| `Vco.EncodeLowBitsClear` | socfpga_cpufreq.c:125-127 | Bits 0..2 of `calculate_vco_reg` are zero for every pair of 32-bit inputs. |
| `Vco.MasksDisjoint` | socfpga_cpufreq.c:23-26 | `DIVF_MASK & DIVQ_MASK == 0`: the numerator and denominator fields do not overlap. |
| `Vco.DecodeVcoReg` | socfpga_cpufreq.c:154-157 | The unmasked shifts give a denominator below 2^16 made of the register's bits from 16 up, and a numerator equal to that denominator times 8192 plus bits 3..15 of the register. |
| `Vco.DecodeOfEncode` | socfpga_cpufreq.c:155-157 | For `numer < 2^13` and `denom < 2^16`, decoding an encoded (numer, denom) pair returns `denom` exactly and `numer + denom * 8192` as numerator. It returns the original pair if and only if `denom == 0`. |
| `Vco.OutOfFieldEncodeCollides` | socfpga_cpufreq.c:125-127 | Outside the field widths the encoding is not injective: `(0x2000, 0)` and `(0, 1)` both give 0x10000, and a denominator of 0x10000 is shifted out entirely. |
| `Vco.EncodeOfDecode` | socfpga_cpufreq.c:155-157 | Re-encoding the decoded fields of any register value gives that value with bits 0..2 cleared. |
| `Vco.CalculateVcoClockHz` | socfpga_cpufreq.c:129-136 | Fails (division by zero) if and only if `denom == 0xFFFFFFFF`. Otherwise it equals `floor(25000000 * (numer + 1) / (denom + 1))` with no 64-bit overflow, except that `numer == 0xFFFFFFFF` wraps its factor to 0 and gives 0. |
| `Vco.VcoWorkedExamples` | socfpga_cpufreq.c:52-72 | Numerators 63, 79 and 95 over a zero denominator give exactly 1600, 2000 and 2400 MHz, as the row comments state. |
| `Query.Get` | socfpga_cpufreq.c:143-168 | The frequency query fails if and only if one of the two divider registers holds 0xFFFFFFFF. The decoded VCO denominator can never cause a failure. |
| `Query.GetIsOneDivision` | socfpga_cpufreq.c:158-167 | The three truncating divisions and the 32-bit cast together give exactly `floor(vco_hz / ((altr + 1) * (cnt + 1) * 1000))`, and that value is at most 204,800,000 kHz. |
| `Query.CascadedDivision` | socfpga_cpufreq.c:160-165 | Dividing by `a`, then `b`, then 1000, truncating each time, equals one truncating division by `a * b * 1000`. |
| `Query.VcoHzBelow` | socfpga_cpufreq.c:155-158 | Whatever the VCO register holds, the VCO frequency computed from its unmasked fields is at most 25 MHz * 8192. |
| `Query.ReportedKhzBelow` | socfpga_cpufreq.c:165-167 | Any divisor of at least 1000 brings the VCO frequency to at most 204,800,000, so the `(unsigned int)` cast changes nothing. |
| `Query.GetWorkedExample` | socfpga_cpufreq.c:143-168 | A 1.6 GHz VCO with `altr = 1` and `cnt = 15` is reported as exactly 50000 kHz. |
| `Query.UnmaskedDecodeMisreports` | socfpga_cpufreq.c:155-158 | Numerator 63 over denominator 1 is an 800 MHz VCO. The unmasked decode reports the MPU clock at 800 MHz / 2 as 51,600,000 kHz, not 400,000. |
| `Table.TableShape` | socfpga_cpufreq.c:108-120 | There are five real rows, each with clock data, in strictly descending order of frequency. They are followed by exactly one `CPUFREQ_TABLE_END` entry. The boost flag is set exactly on the 1200000 and 1000000 kHz rows. |
| `Table.TableSound` | socfpga_cpufreq.c:50-115 | For every row, encoding its numerator and denominator and querying with its MPU divider (and the MPU counter at 0) reports exactly the row's frequency, including 266666 kHz truncated from 266,666,666 Hz. |
| `Table.TableRowsRoundTrip` | socfpga_cpufreq.c:50-98 | Every row's (numerator, denominator) survives encoding followed by the unmasked decode. |
| `Table.OnlyMpuClockChanges` | socfpga_cpufreq.c:50-98 | In every row the VCO divided by `mainclk + 1` and by `dbgatclk + 1` is 400 MHz, and by `cfgs2fuser0clk_cnt + 1` it is 100 MHz. This includes the 1200 MHz row, whose comments name a 2000 MHz VCO. |
| `Table.CpuInit` | socfpga_cpufreq.c:181-191 | `cpu_init` fails exactly when the query does. Otherwise its current frequency is the query's result and its transition latency is 300,000 ns. Its minimum is the last real row and no row is lower. Its maximum is the frequency of a boost-flagged row, strictly between the minimum and the first row. It publishes `freq_table`. |
| `Table.CpuInitOnTableRow` | socfpga_cpufreq.c:181-191 | Started on any row's configuration, the policy's current frequency is that row's frequency, at or above the minimum. It is above the maximum exactly for the 1200 MHz row. |

## Left out

- `socfpga_target_index`: it reads the row's clock data, prints the frequency and returns 0 without writing any register, so there is no behaviour to model.
- `socfpga_verify_speed`: it only calls `cpufreq_frequency_table_verify`, a framework function whose behaviour is not visible here.
- `socfpga_cpu_exit`: it returns 0 and does nothing else.
- Module load and unload: device-tree lookup, `of_iomap`, the unused VCO read at line 224, driver registration and the attribute array. These are platform I/O.
- The global `clk_mgr_base_addr` and `readl`: the three register values are parameters of `Query.Get`. The register offsets (0x40, 0x48, 0xe0) appear only in comments.
- The `cpu` argument of `socfpga_get`: the driver ignores it.
- `printk` output, and the pointer-to-`unsigned int` cast of `driver_data`: a row holds its clock data as a value.
- `cpumask_setall` and the policy fields other than `cur`, the transition latency, the two limits and the table.
- The Linux cpufreq header is not part of this model. The values of `CPUFREQ_TABLE_END` (`~1u`) and `CPUFREQ_BOOST_FREQ` (bit 0) that `Table` uses are taken from it.
- `unsigned long` is taken to be 32 bits wide, as on the 32-bit ARM core this driver runs on. The `1 + reg` divisor wraps the same way if it is wider, because `do_div` takes a 32-bit divisor.
- The stray `;` in the `OSC1_HZ` macro has no effect at its one use, so the model uses the constant 25,000,000.
- Query.Get: what `do_div` does with a zero divisor depends on the architecture (on 32-bit ARM the division helper logs the division by zero and yields quotient 0, so the query would report 0). The model stops with a `DivisionByZero` outcome instead of reporting a value.
- Table.CpuInit: for the same reason, where the kernel would start the policy with `cur = 0` after a zero divisor, the model's `cpu_init` yields `DivisionByZero`.
