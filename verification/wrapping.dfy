/** Unsigned 32-bit positions: wrap-around, distances, and slots of a power-of-two table. */
module Wrapping {

  const WRAP: nat := 0x1_0000_0000

  /** is_power_of_two */
  predicate IsPow2(x: nat) {
    x == 1 || (x > 1 && x % 2 == 0 && IsPow2(x / 2))
  }

  /** Unsigned 32-bit subtraction. */
  function Sub32(a: nat, b: nat): nat {
    (a - b) % WRAP
  }

  function Inc32(a: nat): nat {
    (a + 1) % WRAP
  }

  lemma {:induction false} Pow2Divides(a: nat, b: nat)
    requires IsPow2(a) && IsPow2(b) && a <= b
    ensures b % a == 0
  {
    if a > 1 {
      Pow2Divides(a / 2, b / 2);
      var q := (b / 2) / (a / 2);
      assert b == a * q;
      MulMod(q, a);
    }
  }

  lemma {:induction false} MulMod(q: int, a: int)
    requires a > 0
    ensures (q * a) % a == 0 && (q * a) / a == q
  {
    ShiftDivMod(0, a, q);
  }

  /** Adding k whole tables moves the lap by k and leaves the slot alone. */
  lemma {:induction false} ShiftDivMod(r: int, size: int, k: int)
    requires size > 0
    ensures (k * size + r) % size == r % size
    ensures (k * size + r) / size == k + r / size
  {
    var q, m := r / size, r % size;
    assert k * size + r == (k + q) * size + m;
    Unique(k * size + r, size, k + q, m);
  }

  lemma AtLeastOne(d: int, size: int)
    requires d >= 1 && size > 0
    ensures d * size >= size
  {
  }

  lemma Unique(x: int, size: int, q: int, m: int)
    requires size > 0 && 0 <= m < size && x == q * size + m
    ensures x / size == q && x % size == m
  {
    var a, b := x / size, x % size;
    assert x == a * size + b && 0 <= b < size;
    assert (a - q) * size == m - b;
    if a - q >= 1 {
      AtLeastOne(a - q, size);
    } else if q - a >= 1 {
      AtLeastOne(q - a, size);
    }
  }

  lemma {:induction false} Pow2Product(a: nat, b: nat)
    requires IsPow2(a) && IsPow2(b)
    ensures IsPow2(a * b)
  {
    if a > 1 {
      Pow2Product(a / 2, b);
      var h := (a / 2) * b;
      assert a * b == 2 * h;
      assert (2 * h) % 2 == 0 && (2 * h) / 2 == h;
      assert h >= 1;
    }
  }

  lemma WrapIsPow2()
    ensures IsPow2(WRAP)
  {
    assert IsPow2(2);
    Pow2Product(2, 2);
    Pow2Product(4, 4);
    Pow2Product(16, 16);
    Pow2Product(256, 256);
    Pow2Product(65536, 65536);
  }

  /** 2^32 is an even number of tables. */
  lemma TablesInWrap(size: nat) returns (k: nat)
    requires IsPow2(size) && size < WRAP
    ensures WRAP == 2 * k * size
  {
    WrapIsPow2();
    assert IsPow2(2);
    Pow2Product(2, size);
    Pow2Below(size, WRAP);
    Pow2Divides(2 * size, WRAP);
    k := WRAP / (2 * size);
    assert WRAP == k * (2 * size);
  }

  /** A position is its wrapped value plus an even number of tables. */
  lemma SplitPosition(n: nat, size: nat) returns (j: nat)
    requires IsPow2(size) && size < WRAP
    ensures n == (2 * j) * size + n % WRAP
  {
    var k := TablesInWrap(size);
    var laps := n / WRAP;
    j := laps * k;
    Regroup(laps, k, size);
    calc {
      n - n % WRAP;
      laps * WRAP;
      laps * (2 * k * size);
      (2 * j) * size;
    }
  }

  lemma EvenShift(n: nat, r: nat, size: nat, j: nat)
    requires size > 0 && n == (2 * j) * size + r
    ensures n % size == r % size && (n / size) % 2 == (r / size) % 2
  {
    ShiftDivMod(r, size, 2 * j);
  }

  lemma Regroup(laps: nat, k: nat, size: nat)
    ensures laps * (2 * k * size) == (2 * (laps * k)) * size
  {
  }

  /** Distinct powers of two are a factor of two apart. */
  lemma {:induction false} Pow2Below(a: nat, b: nat)
    requires IsPow2(a) && IsPow2(b) && a < b
    ensures 2 * a <= b
  {
    if a > 1 {
      Pow2Below(a / 2, b / 2);
    }
  }

  lemma WrappedDistance(a: nat, b: nat)
    requires 0 <= a - b < WRAP
    ensures Sub32(a % WRAP, b % WRAP) == a - b
  {
    var k := a / WRAP - b / WRAP;
    assert a % WRAP - b % WRAP == (-k) * WRAP + (a - b);
    ShiftDivMod(a - b, WRAP, -k);
  }

  lemma WrappedIncrement(a: nat)
    ensures Inc32(a % WRAP) == (a + 1) % WRAP
  {
  }

  /** Positions less than a table apart use different slots. */
  lemma SameSlot(m: nat, n: nat, size: nat)
    requires size > 0 && m < n < m + size
    ensures m % size != n % size
  {
    var d := n / size - m / size;
    assert n - m == d * size + (n % size - m % size);
    if d >= 1 {
      AtLeastOne(d, size);
    } else if d <= -1 {
      AtLeastOne(-d, size);
    }
  }

  /** wraps_lt: the sign of the 32-bit difference. */
  predicate WrapsLt(a: nat, b: nat) {
    Sub32(a, b) >= 0x8000_0000
  }

  /** wraps_lt decides the true order of any two counters less than 2^31 apart. */
  lemma WrapsLtExact(a: nat, b: nat)
    requires -0x8000_0000 <= a - b < 0x8000_0000
    ensures WrapsLt(a % WRAP, b % WRAP) <==> a < b
  {
    if a >= b {
      WrappedDistance(a, b);
    } else {
      var k := a / WRAP - b / WRAP;
      assert a % WRAP - b % WRAP == (-k - 1) * WRAP + (a - b + WRAP);
      ShiftDivMod(a - b + WRAP, WRAP, -k - 1);
    }
  }
}
