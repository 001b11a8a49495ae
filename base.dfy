/** Shared vocabulary: the fixed-width machine integers of the Rust source as
    ranges of `int` (`usize` is 64 bits wide), the powers used to reason about
    them, and `Option`. */
module Base {

  datatype Option<T> = None | Some(value: T)

  const TWO_8: int := 0x100
  const TWO_32: int := 0x1_0000_0000
  const TWO_64: int := 0x1_0000_0000_0000_0000

  newtype u8 = x: int | 0 <= x < 0x100
  newtype u32 = x: int | 0 <= x < 0x1_0000_0000
  newtype u64 = x: int | 0 <= x < 0x1_0000_0000_0000_0000
  newtype i64 = x: int | -0x8000_0000_0000_0000 <= x < 0x8000_0000_0000_0000

  /** `usize` and `u64` coincide on the 64-bit targets the source is built for. */
  type usize = u64

  /** b to the power e. */
  function Pow(b: nat, e: nat): (r: nat)
    ensures b > 0 ==> r > 0
  {
    if e == 0 then 1 else b * Pow(b, e - 1)
  }

  lemma {:induction false} PowAdd(b: nat, m: nat, n: nat)
    ensures Pow(b, m + n) == Pow(b, m) * Pow(b, n)
  {
    if n > 0 {
      PowAdd(b, m, n - 1);
      assert Pow(b, m + n) == b * Pow(b, m + n - 1);
      assert Pow(b, m) * Pow(b, n) == Pow(b, m) * (b * Pow(b, n - 1));
    }
  }

  lemma PowMonotone(b: nat, m: nat, n: nat)
    requires b > 0 && m <= n
    ensures Pow(b, m) <= Pow(b, n)
  {
    PowAdd(b, m, n - m);
    assert Pow(b, n) == Pow(b, m) * Pow(b, n - m);
  }

  lemma PowValues()
    ensures Pow(16, 15) == 0x1000_0000_0000_0000
    ensures Pow(16, 16) == TWO_64
    ensures Pow(256, 4) == TWO_32
    ensures Pow(256, 8) == TWO_64
  {
    assert Pow(16, 4) == 0x1_0000;
    assert Pow(16, 8) == 0x1_0000_0000 by { PowAdd(16, 4, 4); }
    assert Pow(16, 15) == 0x1000_0000_0000_0000 by { PowAdd(16, 8, 7); PowAdd(16, 4, 3); }
    assert Pow(256, 4) == TWO_32 by { assert Pow(256, 2) == 0x1_0000; PowAdd(256, 2, 2); }
    PowAdd(256, 4, 4);
  }

  // Euclidean division facts used by the hex and hash proofs.

  /** `q` and `r` are the quotient and remainder of `x` by `m`. */
  lemma DivModUnique(x: int, m: int, q: int, r: int)
    requires m > 0 && 0 <= r < m && x == q * m + r
    ensures x / m == q && x % m == r
  {
    var q0, r0 := x / m, x % m;
    assert x == q0 * m + r0;
    if q0 != q {
      var d := if q0 > q then q0 - q else q - q0;
      assert d >= 1;
      MulAtLeast(d, m);
      assert false;
    }
  }

  lemma MulMonotone(a: nat, b: nat, m: nat)
    requires a <= b
    ensures a * m <= b * m
  {
    assert b * m == a * m + (b - a) * m;
  }

  /** Below `n * d`, the quotient by `d` is below `n`. */
  lemma DivBound(x: nat, d: nat, n: nat)
    requires d > 0 && x < n * d
    ensures x / d < n
  {
    if x / d >= n {
      MulMonotone(n, x / d, d);
      assert false;
    }
  }

  lemma MulAtLeast(d: int, m: int)
    requires d >= 1 && m > 0
    ensures d * m >= m
  {
    assert d * m == (d - 1) * m + m;
    assert (d - 1) * m >= 0;
  }

  /** Two digits in radixes `b` then `a` form one digit in radix `a * b`. */
  lemma MixedRadix(a: nat, b: nat, q: nat, r2: nat, r: nat)
    requires a > 0 && r2 < b && r < a
    ensures (q * b + r2) * a + r == q * (a * b) + (r2 * a + r)
    ensures r2 * a + r < a * b
  {
    assert (q * b + r2) * a == q * b * a + r2 * a;
    assert q * b * a == q * (a * b);
    MulMonotone(r2, b - 1, a);
    assert (b - 1) * a + a == b * a;
  }

  lemma DivDiv(x: nat, a: nat, b: nat)
    requires a > 0 && b > 0
    ensures x / a / b == x / (a * b)
  {
    var q, r := x / a, x % a;
    var q2, r2 := q / b, q % b;
    assert x == q * a + r;
    assert q == q2 * b + r2;
    MixedRadix(a, b, q2, r2, r);
    DivModUnique(x, a * b, q2, r2 * a + r);
  }

  /** Splitting a remainder: (x / d) % p digits above x % d. */
  lemma ModSplit(x: nat, d: nat, p: nat)
    requires d > 0 && p > 0
    ensures (x / d) % p * d + x % d == x % (d * p)
    ensures (x % (d * p)) / d == (x / d) % p
  {
    var q, r := x / d, x % d;
    var a, b := q / p, q % p;
    assert x == q * d + r;
    assert q == a * p + b;
    MixedRadix(d, p, a, b, r);
    DivModUnique(x, d * p, a, b * d + r);
    DivModUnique(b * d + r, d, b, r);
  }

  /** A remainder by a multiple of `d`, reduced by `d`. */
  lemma ModOfMod(x: nat, d: nat, p: nat)
    requires d > 0 && p > 0
    ensures (x % (d * p)) % d == x % d
  {
    ModSplit(x, d, p);
    DivModUnique(x % (d * p), d, (x / d) % p, x % d);
  }

  /** Scaling both operands of a remainder. */
  lemma MulModScale(a: nat, b: nat, c: nat)
    requires b > 0 && c > 0
    ensures (a * c) % (b * c) == (a % b) * c
    ensures (a * c) / (b * c) == a / b
  {
    var q, r := a / b, a % b;
    assert a * c == q * (b * c) + r * c;
    assert r * c < b * c;
    DivModUnique(a * c, b * c, q, r * c);
  }

  /** Reducing before multiplying does not change the remainder. */
  lemma ModMulMod(a: nat, b: nat, m: nat)
    requires m > 0
    ensures (a % m * b) % m == (a * b) % m
  {
    var q, r := a / m, a % m;
    var q2, r2 := (r * b) / m, (r * b) % m;
    assert a * b == (q * b + q2) * m + r2;
    DivModUnique(a * b, m, q * b + q2, r2);
  }
}
