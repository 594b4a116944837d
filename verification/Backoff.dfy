/** retryBackoff over 64-bit two's-complement durations. */
module Backoff {
  import opened Rows

  const CAP: int := 60 * SECOND
  const WORD: int := 0x1_0000_0000_0000_0000
  const SIGN: int := 0x8000_0000_0000_0000

  function Pow2(n: nat): (p: int)
    ensures p > 0
  {
    if n == 0 then 1 else 2 * Pow2(n - 1)
  }

  /** The int64 that the low 64 bits of x denote. */
  function Wrap(x: int): (y: int)
    ensures -SIGN <= y < SIGN
    ensures -SIGN <= x < SIGN ==> y == x
  {
    (x + SIGN) % WORD - SIGN
  }

  /** int64 `1 << n`. */
  function ShiftedOne(n: nat): int { if n >= 64 then 0 else Wrap(Pow2(n)) }

  function RetryBackoff(attempt: int): (d: Time)
    ensures d <= CAP
  {
    var a: nat := if attempt < 1 then 1 else attempt;
    var d := Wrap(ShiftedOne(a) * SECOND);
    if d > CAP then CAP else d
  }

  /** What the design promises: doubling per attempt, capped at a minute. */
  function Ideal(attempt: int): (d: Time)
  {
    var a: nat := if attempt < 1 then 1 else attempt;
    if a < 6 then Pow2(a) * SECOND else CAP
  }

  /** Bit n of the number of nanoseconds in a second. */
  predicate SecondBit(n: nat) { SECOND / Pow2(n) % 2 == 1 }

  /**
   * The attempts whose product keeps a clear sign bit: all up to 33, where nothing overflows, and
   * those up to 54 whose sign bit happens to be a zero bit of the second.
   */
  predicate Representable(attempt: int) {
    attempt <= 33 || (attempt <= 54 && !SecondBit(63 - attempt))
  }

  lemma Pow2Splits(a: nat, b: nat)
    ensures Pow2(a + b) == Pow2(a) * Pow2(b)
    decreases a
  {
    if a > 0 { Pow2Splits(a - 1, b); }
  }

  lemma Pow2Words()
    ensures Pow2(63) == SIGN && Pow2(64) == WORD && Pow2(9) == 512 && Pow2(30) == 0x4000_0000
    ensures Pow2(33) == 0x2_0000_0000 && Pow2(55) == 0x80_0000_0000_0000
  {
    assert Pow2(9) == 512;
    assert Pow2(15) == 0x8000;
    Pow2Splits(15, 15);
    Pow2Splits(30, 3);
    Pow2Splits(30, 30);
    Pow2Splits(60, 3);
    Pow2Splits(63, 1);
    Pow2Splits(30, 15);
    Pow2Splits(45, 10);
    assert Pow2(10) == 1024;
  }

  lemma Pow2Grows(a: nat, b: nat)
    requires a <= b
    ensures Pow2(a) <= Pow2(b)
    decreases b
  {
    if a < b { Pow2Grows(a, b - 1); }
  }

  lemma SmallAttempts(a: nat)
    requires 1 <= a <= 33
    ensures RetryBackoff(a) == Ideal(a)
  {
    Pow2Words();
    Pow2Grows(a, 33);
    assert 0 < Pow2(a) * SECOND < SIGN;
    if a < 6 {
      Pow2Grows(a, 5);
      assert Pow2(5) == 32;
    } else {
      Pow2Grows(6, a);
      assert Pow2(6) == 64;
    }
  }

  /** From 55 on the product is a multiple of 2^64: the job is due at once. */
  lemma LargeAttempts(a: nat)
    requires a >= 55
    ensures RetryBackoff(a) == 0
  {
    if a < 64 {
      Pow2Words();
      var k := Pow2(a - 55);
      Pow2Splits(55, a - 55);
      assert Pow2(55) * 512 == WORD;
      assert SECOND == 512 * 1953125;
      var d := Pow2(a) * SECOND;
      assert d == WORD * (k * 1953125);
      WrapOfMultiple(k * 1953125);
      if a == 63 {
        assert ShiftedOne(a) == -SIGN;
        assert ShiftedOne(a) * SECOND == WORD * -500_000_000;
        WrapOfMultiple(-500_000_000);
      } else {
        Pow2Grows(a, 62);
        Pow2Splits(62, 1);
        assert ShiftedOne(a) == Pow2(a);
      }
    }
  }

  lemma WrapOfMultiple(k: int)
    ensures Wrap(WORD * k) == 0
  {
    assert (WORD * k + SIGN) % WORD == SIGN;
  }

  lemma WrapSplit(high: int, rest: int)
    requires 0 <= rest < WORD
    ensures Wrap(WORD * high + rest) == if rest < SIGN then rest else rest - WORD
  {
    if rest < SIGN {
      assert (WORD * high + rest + SIGN) % WORD == rest + SIGN;
    } else {
      assert WORD * high + rest + SIGN == WORD * (high + 1) + (rest - SIGN);
      assert (WORD * (high + 1) + (rest - SIGN)) % WORD == rest - SIGN;
    }
  }

  /** n as whole * q + low, the quotient split into its last bit and the rest, all times p = SIGN / q. */
  lemma Decompose(p: int, q: int, n: int)
    requires p > 0 && q > 0 && p * q == SIGN
    ensures p * n == WORD * (n / q / 2) + (n / q % 2 * SIGN + p * (n % q))
    ensures 0 <= p * (n % q) < SIGN
  {
    var whole, low := n / q, n % q;
    var high, bit := whole / 2, whole % 2;
    calc {
      p * n;
      p * (whole * q + low);
      whole * (p * q) + p * low;
      (2 * high + bit) * SIGN + p * low;
    }
    assert p * low <= p * (q - 1);
  }

  /** The set bits of the second that decide the boundary cases. */
  lemma SomeSecondBits()
    ensures SecondBit(9) && SecondBit(28) && SecondBit(29)
  {
    assert Pow2(9) == 512 && Pow2(14) == 16384;
    Pow2Splits(14, 14);
    Pow2Splits(28, 1);
  }

  lemma MultipleOf1024(n: int, m: int)
    requires m > 0 && n % (m * 1024) == 0
    ensures n % 1024 == 0
  {
    var t := n / (m * 1024);
    var u := t * m;
    assert n == t * (m * 1024);
    assert n == u * 1024;
  }

  /** The second is no multiple of 1024, hence of no higher power of two. */
  lemma LowBitsRemain(n: nat)
    requires n >= 10
    ensures SECOND % Pow2(n) >= 1
  {
    Pow2Splits(n - 10, 10);
    assert Pow2(10) == 1024;
    if SECOND % Pow2(n) == 0 {
      MultipleOf1024(SECOND, Pow2(n - 10));
    }
  }

  lemma HighPowers(a: nat)
    requires a >= 36
    ensures Pow2(a) > CAP
  {
    Pow2Words();
    Pow2Splits(33, 3);
    assert Pow2(3) == 8;
    Pow2Grows(36, a);
  }

  lemma AtLeastFactor(p: int, low: int)
    requires p > 0 && low >= 1
    ensures p * low >= p
  {
  }

  lemma LowPart(a: nat)
    requires 34 <= a <= 54 && !SecondBit(63 - a)
    ensures Pow2(a) * (SECOND % Pow2(63 - a)) > CAP
  {
    SomeSecondBits();
    assert a != 34 && a != 35 && a != 54;
    LowBitsRemain(63 - a);
    HighPowers(a);
    AtLeastFactor(Pow2(a), SECOND % Pow2(63 - a));
  }

  /**
   * Between 34 and 54 the sign bit of the product is bit 63 - a of the second: what lies above it is a
   * multiple of 2^64 and drops out.
   */
  lemma MiddleAttempts(a: nat)
    requires 34 <= a <= 54
    ensures RetryBackoff(a) == CAP <==> !SecondBit(63 - a)
    ensures SecondBit(63 - a) ==> RetryBackoff(a) < 0
  {
    Pow2Words();
    Pow2Splits(a, 63 - a);
    Pow2Grows(a, 54);
    Pow2Splits(54, 1);
    assert ShiftedOne(a) == Pow2(a);
    Decompose(Pow2(a), Pow2(63 - a), SECOND);
    var q := Pow2(63 - a);
    WrapSplit(SECOND / q / 2, SECOND / q % 2 * SIGN + Pow2(a) * (SECOND % q));
    if !SecondBit(63 - a) {
      LowPart(a);
    }
  }

  /** retryBackoff never exceeds a minute, and is the promised delay exactly at the representable attempts. */
  lemma BackoffExact(attempt: int)
    ensures RetryBackoff(attempt) <= CAP
    ensures RetryBackoff(attempt) == Ideal(attempt) <==> Representable(attempt)
    ensures !Representable(attempt) ==> RetryBackoff(attempt) <= 0
  {
    if attempt <= 33 {
      SmallAttempts(if attempt < 1 then 1 else attempt);
    } else if attempt <= 54 {
      MiddleAttempts(attempt);
    } else {
      LargeAttempts(attempt);
    }
  }

  /** The promise in closed form: the smaller of 2^attempt and 60 seconds. */
  lemma IdealIsMin(attempt: int)
    requires attempt >= 1
    ensures Ideal(attempt) == (if Pow2(attempt) < 60 then Pow2(attempt) else 60) * SECOND
  {
    assert Pow2(5) == 32 && Pow2(6) == 64;
    if attempt < 6 { Pow2Grows(attempt, 5); } else { Pow2Grows(6, attempt); }
  }

  /** Below the overflow the delay never shrinks from one attempt to a later one, and lies in 2s..60s. */
  lemma BackoffMonotone(a: nat, b: nat)
    requires 1 <= a <= b <= 33
    ensures 2 * SECOND <= RetryBackoff(a) <= RetryBackoff(b) <= 60 * SECOND
  {
    SmallAttempts(a);
    SmallAttempts(b);
    Pow2Grows(1, a);
    if b < 6 {
      Pow2Grows(a, b);
    } else if a < 6 {
      Pow2Grows(a, 5);
      assert Pow2(5) == 32;
    }
  }

  /** The first overflow: the 34th attempt is scheduled in the past. */
  lemma BackoffOverflows()
    ensures RetryBackoff(34) < 0 && Ideal(34) == 60 * SECOND
  {
    Pow2Splits(15, 14);
    assert Pow2(15) == 32768 && Pow2(14) == 16384;
    assert SecondBit(63 - 34);
    MiddleAttempts(34);
  }
}
