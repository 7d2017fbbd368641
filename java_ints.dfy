/** Java's fixed-width integers, written out over Dafny's unbounded `int`. */
module JavaInts {

  const TWO_32: int := 0x1_0000_0000
  const INT_MIN: int := -0x8000_0000
  const INT_MAX: int := 0x7FFF_FFFF

  predicate IsInt(x: int) {
    INT_MIN <= x <= INT_MAX
  }

  predicate IsLong(x: int) {
    -0x8000_0000_0000_0000 <= x <= 0x7FFF_FFFF_FFFF_FFFF
  }

  predicate IsByte(x: int) {
    -128 <= x <= 127
  }

  /** The Java `int` that `x` becomes: `x` reduced into the 32-bit two's-complement range. */
  function Wrap32(x: int): (r: int)
    ensures IsInt(r)
    ensures (r - x) % TWO_32 == 0
    ensures IsInt(x) ==> r == x
  {
    var m := x % TWO_32;
    if m > INT_MAX then m - TWO_32 else m
  }

  /** Incrementing past `Integer.MAX_VALUE` wraps to `Integer.MIN_VALUE`; otherwise it adds one. */
  lemma IncrementWraps(x: int)
    requires IsInt(x)
    ensures x < INT_MAX ==> Wrap32(x + 1) == x + 1
    ensures x == INT_MAX ==> Wrap32(x + 1) == INT_MIN
  {
  }

  lemma MulNonneg(a: int, n: int)
    requires a >= 0 && n > 0
    ensures a * n >= 0
  {
  }

  /** A non-zero multiple of a positive `n` is at least `n` away from zero. */
  lemma MulAwayFromZero(a: int, n: int)
    requires n > 0
    ensures a >= 1 ==> a * n >= n
    ensures a <= -1 ==> a * n <= -n
  {
    if a >= 1 {
      MulNonneg(a - 1, n);
      assert a * n == (a - 1) * n + n;
    } else if a <= -1 {
      MulNonneg(-a - 1, n);
      assert -a * n == (-a - 1) * n + n;
      assert a * n == -(-a * n);
    }
  }

  /** The remainder of `q * n + r` by `n` is `r`, and the quotient is `q`, for any `r` in `[0, n)`. */
  lemma ModUnique(x: int, n: int, q: int, r: int)
    requires n > 0 && 0 <= r < n && x == q * n + r
    ensures x % n == r && x / n == q
  {
    var a := x / n - q;
    assert x == (x / n) * n + x % n;
    assert a * n == r - x % n by {
      assert a * n == (x / n) * n - q * n;
    }
    MulAwayFromZero(a, n);
  }

  /** `2^k`. */
  function Pow2(k: nat): (r: nat)
    ensures r >= 1
  {
    if k == 0 then 1 else 2 * Pow2(k - 1)
  }

  /** How many low bits of `m` a `float`, with its 24-bit significand, cannot hold. */
  function FloatShift(m: nat): nat {
    if m < 0x100_0000 then 0 else 1 + FloatShift(m / 2)
  }

  /** Which multiple of `u` is nearest to `m`, the even one on a tie. */
  function NearestMultiple(m: nat, u: nat): (k: nat)
    requires u > 0
    ensures k == m / u || k == m / u + 1
  {
    var q := m / u;
    if 2 * (m % u) < u || (2 * (m % u) == u && q % 2 == 0) then q else q + 1
  }

  /** `m` rounded to a multiple of `u`, to the nearest one and to the even multiple on a tie. */
  function RoundHalfEven(m: nat, u: nat): (r: nat)
    requires u > 0
    ensures r % u == 0
    ensures m % u == 0 ==> r == m
    ensures m - u < r < m + u
  {
    var q := m / u;
    assert m == q * u + m % u;
    assert (q + 1) * u == q * u + u;
    ModUnique(q * u, u, q, 0);
    ModUnique((q + 1) * u, u, q + 1, 0);
    NearestMultiple(m, u) * u
  }

  /**
   * The `float` that a Java `int` (or any integer of at most 31 bits) widens to: exact up to `2^24`
   * in size, and above that rounded to the nearest value the 24-bit significand holds, ties to even.
   */
  function IntToFloat(n: int): (r: real)
    ensures -0x100_0000 <= n <= 0x100_0000 ==> r == n as real
  {
    if n >= 0 then RoundFloat(n) as real else -(RoundFloat(-n) as real)
  }

  function RoundFloat(m: nat): (r: nat)
    ensures m <= 0x100_0000 ==> r == m
  {
    assert m == 0x100_0000 ==> FloatShift(m) == 1 && Pow2(1) == 2 && m % 2 == 0;
    RoundHalfEven(m, Pow2(FloatShift(m)))
  }

  /** Where a magnitude lies: a shift of 0 means below `2^24`, a shift of `s > 0` the range `[2^(23+s), 2^(24+s))`. */
  lemma {:induction false} FloatShiftRange(m: nat)
    ensures FloatShift(m) == 0 ==> m < 0x100_0000
    ensures FloatShift(m) > 0 ==> 0x80_0000 * Pow2(FloatShift(m)) <= m < 0x100_0000 * Pow2(FloatShift(m))
  {
    if m >= 0x100_0000 {
      FloatShiftRange(m / 2);
      var s := FloatShift(m / 2);
      assert Pow2(s + 1) == 2 * Pow2(s);
    }
  }

  lemma {:induction false} FloatShiftMonotone(a: nat, b: nat)
    requires a <= b
    ensures FloatShift(a) <= FloatShift(b)
  {
    if a >= 0x100_0000 {
      FloatShiftMonotone(a / 2, b / 2);
    }
  }

  lemma {:induction false} Pow2Monotone(j: nat, k: nat)
    requires j < k
    ensures 2 * Pow2(j) <= Pow2(k)
  {
    if j + 1 < k {
      Pow2Monotone(j, k - 1);
    }
  }

  /** Rounding to one step `u` keeps the order of two magnitudes. */
  lemma RoundHalfEvenMonotone(a: nat, b: nat, u: nat)
    requires a <= b && u > 0
    ensures RoundHalfEven(a, u) <= RoundHalfEven(b, u)
  {
    NearestMultipleMonotone(a, b, u);
    var ka, kb := NearestMultiple(a, u), NearestMultiple(b, u);
    MulNonneg(kb - ka, u);
    assert kb * u - ka * u == (kb - ka) * u;
  }

  lemma NearestMultipleMonotone(a: nat, b: nat, u: nat)
    requires a <= b && u > 0
    ensures NearestMultiple(a, u) <= NearestMultiple(b, u)
  {
    var qa, qb := a / u, b / u;
    assert a == qa * u + a % u && b == qb * u + b % u;
    DivMonotone(a, b, u);
    if qa == qb {
      // The same quotient, so the remainders keep the order and `b` rounds up whenever `a` does.
      assert a % u <= b % u;
    }
  }

  lemma DivMonotone(a: nat, b: nat, u: nat)
    requires a <= b && u > 0
    ensures a / u <= b / u
  {
    var qa, qb := a / u, b / u;
    assert a == qa * u + a % u && b == qb * u + b % u;
    MulAwayFromZero(qa - qb, u);
    assert (qa - qb) * u == qa * u - qb * u;
  }

  /** Widening to `float` keeps the order of non-negative integers. */
  lemma RoundFloatMonotone(a: nat, b: nat)
    requires a <= b
    ensures RoundFloat(a) <= RoundFloat(b)
  {
    var sa, sb := FloatShift(a), FloatShift(b);
    FloatShiftMonotone(a, b);
    if sa == sb {
      RoundHalfEvenMonotone(a, b, Pow2(sa));
    } else {
      // `a` rounds to at most the top of its range, which is a multiple of its step and at most
      // the bottom of `b`'s range, to which `b` rounds at least.
      var ua, ub := Pow2(sa), Pow2(sb);
      FloatShiftRange(a);
      FloatShiftRange(b);
      Pow2Monotone(sa, sb);
      assert 0x100_0000 * ua <= 0x80_0000 * ub;
      ModUnique(0x100_0000 * ua, ua, 0x100_0000, 0);
      RoundHalfEvenBelow(a, ua, 0x100_0000 * ua);
      MulMultiple(0x80_0000, ub);
      RoundHalfEvenAbove(b, ub, 0x80_0000 * ub);
    }
  }

  lemma MulMultiple(c: nat, u: nat)
    requires u > 0
    ensures (c * u) % u == 0
  {
    ModUnique(c * u, u, c, 0);
  }

  /** A multiple of `u` at or above `m` bounds its rounding from above. */
  lemma RoundHalfEvenBelow(m: nat, u: nat, top: nat)
    requires u > 0 && m <= top && top % u == 0
    ensures RoundHalfEven(m, u) <= top
  {
    RoundHalfEvenMonotone(m, top, u);
  }

  /** A multiple of `u` at or below `m` bounds its rounding from below. */
  lemma RoundHalfEvenAbove(m: nat, u: nat, bottom: nat)
    requires u > 0 && bottom <= m && bottom % u == 0
    ensures bottom <= RoundHalfEven(m, u)
  {
    RoundHalfEvenMonotone(bottom, m, u);
  }

  /** Widening to `float` keeps the order of all integers. */
  lemma IntToFloatMonotone(a: int, b: int)
    requires a <= b
    ensures IntToFloat(a) <= IntToFloat(b)
  {
    if 0 <= a {
      RoundFloatMonotone(a, b);
    } else if b < 0 {
      RoundFloatMonotone(-b, -a);
    }
  }

  /** Above `2^24` the widening rounds: `2^25 + 2` becomes `2^25`. */
  lemma IntToFloatRounds()
    ensures IntToFloat(0x200_0002) == 0x200_0000 as real
  {
    assert FloatShift(0x80_0000) == 0;
    assert FloatShift(0x100_0001) == 1;
    assert FloatShift(0x200_0002) == 2;
    assert Pow2(2) == 4;
    ModUnique(0x200_0002, 4, 0x80_0000, 2);
  }
}
