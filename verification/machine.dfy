/**
 The C integer semantics the driver relies on: unsigned 32- and 64-bit values,
 wrapping `+` and `*`, the shifts and bitwise operators on `u32`, and the
 kernel's `do_div` helper, whose divisor may be zero.

 Bitwise `|` and `&` are defined bit by bit on naturals, so that the layout of
 the VCO register can be reasoned about with ordinary arithmetic.
 */
module Machine {

  const UINT32_LIMIT: nat := 0x1_0000_0000
  const UINT64_LIMIT: nat := 0x1_0000_0000_0000_0000
  /** `0xFFFFFFFF`, the one `u32` value whose successor wraps to zero. */
  const UINT32_MAX: nat := 0xFFFF_FFFF

  type uint32 = x: int | 0 <= x < 0x1_0000_0000
  type uint64 = x: int | 0 <= x < 0x1_0000_0000_0000_0000

  /** The result of an integer computation that may divide by zero. */
  datatype Outcome<+T> = Value(v: T) | DivisionByZero {
    predicate IsFailure() {
      DivisionByZero?
    }

    function PropagateFailure<U>(): Outcome<U>
      requires DivisionByZero?
    {
      DivisionByZero
    }

    function Extract(): T
      requires Value?
    {
      v
    }
  }

  function Pow2(k: nat): (p: nat)
    ensures p >= 1
  {
    if k == 0 then 1 else 2 * Pow2(k - 1)
  }

  lemma Pow2Values()
    ensures Pow2(3) == 8
    ensures Pow2(13) == 0x2000
    ensures Pow2(16) == 0x1_0000
    ensures Pow2(32) == UINT32_LIMIT
  {
    Pow2Add(16, 16);
  }

  lemma {:induction false} Pow2Add(a: nat, b: nat)
    ensures Pow2(a + b) == Pow2(a) * Pow2(b)
  {
    if a != 0 {
      Pow2Add(a - 1, b);
      assert Pow2(a + b) == 2 * Pow2(a - 1 + b);
    }
  }

  /** `a + b` on two `u32` operands: the sum wraps modulo 2^32. */
  function Add32(a: uint32, b: uint32): (r: uint32)
    ensures a + b <= UINT32_MAX ==> r == a + b
    ensures a + b > UINT32_MAX ==> r == a + b - UINT32_LIMIT
  {
    (a + b) % UINT32_LIMIT
  }

  /** `a * b` on two `u64` operands: the product wraps modulo 2^64. */
  function Mul64(a: uint64, b: uint64): (r: uint64)
    ensures a * b < UINT64_LIMIT ==> r == a * b
  {
    var p := a * b;
    assert 0 <= p;
    p % UINT64_LIMIT
  }

  /** `x << k` on a `u32`: bits shifted past bit 31 are lost. */
  function Shl32(x: uint32, k: nat): (r: uint32)
    ensures x * Pow2(k) < UINT32_LIMIT ==> r == x * Pow2(k)
  {
    (x * Pow2(k)) % UINT32_LIMIT
  }

  /** `x >> k` on an unsigned value: the low `k` bits are dropped, one at a time. */
  function Shr(x: nat, k: nat): (r: nat)
    ensures r <= x
    ensures r * Pow2(k) <= x < (r + 1) * Pow2(k)
  {
    if k == 0 then x
    else
      var r := Shr(x / 2, k - 1);
      ShrStep(x, r, Pow2(k - 1));
      r
  }

  /** Dropping one more bit doubles the weight of the bits that remain. */
  lemma ShrStep(x: nat, r: nat, p: nat)
    requires r * p <= x / 2 < (r + 1) * p
    ensures r * (2 * p) <= x < (r + 1) * (2 * p)
  {
    assert r * (2 * p) == 2 * (r * p);
    assert (r + 1) * (2 * p) == 2 * ((r + 1) * p);
  }

  /** Bitwise `a | b`, defined one bit at a time from the least significant. */
  function BitOr(a: nat, b: nat): (r: nat)
    ensures a <= r && b <= r
    ensures r <= a + b
    decreases a + b
  {
    if a == 0 && b == 0 then 0
    else 2 * BitOr(a / 2, b / 2) + (if a % 2 == 1 || b % 2 == 1 then 1 else 0)
  }

  /** Bitwise `a & b`, defined one bit at a time from the least significant. */
  function BitAnd(a: nat, b: nat): (r: nat)
    ensures r <= a && r <= b
    decreases a + b
  {
    if a == 0 || b == 0 then 0
    else 2 * BitAnd(a / 2, b / 2) + (if a % 2 == 1 && b % 2 == 1 then 1 else 0)
  }

  /**
   `do_div(n, base)`: replaces the 64-bit dividend by its quotient by a 32-bit
   divisor. A zero divisor is a division by zero.
   */
  function DoDiv(n: uint64, base: uint32): (r: Outcome<uint64>)
    ensures r.DivisionByZero? <==> base == 0
    ensures r.Value? ==> r.v * base <= n < (r.v + 1) * base
  {
    if base == 0 then DivisionByZero else Value(n / base)
  }

  /** OR never carries: when `a` and `b` fit in `k` bits, so does `a | b`. */
  lemma {:induction false} OrBelow(a: nat, b: nat, k: nat)
    requires a < Pow2(k) && b < Pow2(k)
    ensures BitOr(a, b) < Pow2(k)
  {
    if a == 0 && b == 0 {
    } else if k == 0 {
    } else {
      OrBelow(a / 2, b / 2, k - 1);
    }
  }

  /**
   Two fields that do not overlap: `hi` has its low `k` bits clear and `lo`
   fits in `k` bits. OR-ing them is the same as adding them, and AND-ing them
   gives zero.
   */
  lemma {:induction false} DisjointFields(m: nat, lo: nat, k: nat)
    requires lo < Pow2(k)
    ensures BitOr(m * Pow2(k), lo) == m * Pow2(k) + lo
    ensures BitAnd(m * Pow2(k), lo) == 0
  {
    var hi := m * Pow2(k);
    if k == 0 {
      assert lo == 0;
      OrZero(hi);
    } else if hi == 0 && lo == 0 {
    } else {
      var half := m * Pow2(k - 1);
      HalfOfHighPart(m, k);
      DisjointFields(m, lo / 2, k - 1);
      assert BitOr(hi, lo) == 2 * BitOr(half, lo / 2) + lo % 2;
    }
  }

  /** A high part with at least one clear low bit is twice the high part one bit down. */
  lemma HalfOfHighPart(m: nat, k: nat)
    requires k > 0
    ensures m * Pow2(k) == 2 * (m * Pow2(k - 1))
  {
    var p := Pow2(k - 1);
    assert Pow2(k) == 2 * p;
    assert m * (2 * p) == 2 * (m * p);
  }

  lemma {:induction false} OrZero(a: nat)
    ensures BitOr(a, 0) == a
  {
    if a != 0 {
      OrZero(a / 2);
    }
  }

  lemma {:induction false} AndCommutes(a: nat, b: nat)
    ensures BitAnd(a, b) == BitAnd(b, a)
    decreases a + b
  {
    if a != 0 && b != 0 {
      AndCommutes(a / 2, b / 2);
    }
  }

  lemma {:induction false} OrSelf(a: nat)
    ensures BitOr(a, a) == a
  {
    if a != 0 {
      OrSelf(a / 2);
    }
  }

  /**
   OR-ing a value with its own high part (the bits from `k` up) gives the value
   back: the high part's bits are already set in it.
   */
  lemma {:induction false} OrAbsorbsHighPart(m: nat, s: nat, k: nat)
    requires s < Pow2(k)
    ensures BitOr(m * Pow2(k), m * Pow2(k) + s) == m * Pow2(k) + s
  {
    var hi := m * Pow2(k);
    if k == 0 {
      assert s == 0;
      OrSelf(hi);
    } else {
      var half := m * Pow2(k - 1);
      HalfOfHighPart(m, k);
      OrAbsorbsHighPart(m, s / 2, k - 1);
      AbsorbStep(hi, half, s);
    }
  }

  /** One step of `OrAbsorbsHighPart`: absorbing one bit level down absorbs at this level. */
  lemma AbsorbStep(hi: nat, half: nat, s: nat)
    requires hi == 2 * half
    requires BitOr(half, half + s / 2) == half + s / 2
    ensures BitOr(hi, hi + s) == hi + s
  {
    OrStep(hi, hi + s, half, half + s / 2, s % 2);
  }

  /** Appending one bit to both operands of an OR appends their OR to the result. */
  lemma OrStep(x: nat, y: nat, a: nat, b: nat, bit: nat)
    requires bit < 2 && x == 2 * a && y == 2 * b + bit
    ensures BitOr(x, y) == 2 * BitOr(a, b) + bit
  {
    if x != 0 || y != 0 {
      assert x / 2 == a && y / 2 == b;
      assert x % 2 == 0 && y % 2 == bit;
    }
  }

  /** Doubling both operands of an OR doubles the result: both low bits are clear. */
  lemma OrDoubled(a: nat, b: nat)
    ensures BitOr(2 * a, 2 * b) == 2 * BitOr(a, b)
  {
    OrStep(2 * a, 2 * b, a, b, 0);
  }

  /** Shifting both operands of an OR left by three bits shifts the result by three bits. */
  lemma OrOfEightfold(a: nat, b: nat)
    ensures BitOr(8 * a, 8 * b) == 8 * BitOr(a, b)
  {
    OrDoubled(a, b);
    OrDoubled(2 * a, 2 * b);
    OrDoubled(4 * a, 4 * b);
    assert 2 * (4 * a) == 8 * a && 2 * (4 * b) == 8 * b;
    assert 2 * (2 * a) == 4 * a && 2 * (2 * b) == 4 * b;
  }

  /** The OR of two multiples of eight has bits 0..2 clear. */
  lemma OrOfEightfoldLowBits(x: nat, y: nat, a: nat, b: nat)
    requires x == 8 * a && y == 8 * b
    ensures BitOr(x, y) % 8 == 0
  {
    OrOfEightfold(a, b);
    var r := BitOr(a, b);
    assert BitOr(x, y) == 8 * r;
  }

  /** Dividing by `a` and then by `b`, truncating each time, is dividing by `a * b` once. */
  lemma DivOfDiv(x: nat, a: nat, b: nat)
    requires a > 0 && b > 0
    ensures x / a / b == x / (a * b)
  {
    var q, r := x / a, x % a;
    var q2, r2 := q / b, q % b;
    var ab := a * b;
    assert x == q * a + r && q == q2 * b + r2;
    RegroupProduct(q2, r2, a, b);
    assert x == q2 * ab + (r2 * a + r);
    RemainderBelow(r2, r, a, b);
    DivUnique(x, ab, q2, r2 * a + r);
  }

  lemma RegroupProduct(q2: int, r2: int, a: int, b: int)
    ensures (q2 * b + r2) * a == q2 * (a * b) + r2 * a
  {
    assert (q2 * b + r2) * a == (q2 * b) * a + r2 * a;
    assert (q2 * b) * a == q2 * (a * b);
  }

  lemma RemainderBelow(r2: nat, r: nat, a: nat, b: nat)
    requires r2 < b && r < a
    ensures 0 <= r2 * a + r < a * b
  {
    MulLe(r2, b - 1, a);
    assert (b - 1) * a == a * b - a;
  }

  /** The quotient of a truncating division is the only one with a remainder below the divisor. */
  lemma DivUnique(x: int, m: int, q: int, s: int)
    requires m > 0 && 0 <= s < m && x == q * m + s
    ensures x / m == q
  {
    var q', s' := x / m, x % m;
    assert q' * m + s' == q * m + s;
    assert (q - q') * m == q * m - q' * m;
    MulAtLeast(q - q', m);
    MulAtLeast(q' - q, m);
    assert (q' - q) * m == -((q - q') * m);
  }

  lemma MulAtLeast(d: int, m: nat)
    ensures d >= 1 ==> d * m >= m
  {
    if d >= 1 {
      assert d * m == (d - 1) * m + m;
      MulLe(0, d - 1, m);
    }
  }

  lemma MulLe(x: nat, y: nat, m: nat)
    requires x <= y
    ensures x * m <= y * m
  {
    assert y * m == x * m + (y - x) * m;
  }

  /** A dividend of at most `c * m` has a quotient by `m` of at most `c`. */
  lemma DivBelow(x: nat, c: nat, m: nat)
    requires m > 0 && x <= c * m
    ensures x / m <= c
  {
  }
}
