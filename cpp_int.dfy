/** The underlying type `int` of the tagged values in the test suite: a 32-bit
    two's-complement C++ `int`. Overflow of `+`, `-`, `*`, `++`, `--` and unary
    `-`, division by zero, and `INT_MIN / -1` are undefined behaviour in C++, so
    the operations below carry them as preconditions. The built-in `/` and `%` of
    C++ truncate toward zero (section 7.6.5 of ISO/IEC 14882:2020), unlike
    Dafny's Euclidean ones, so they are written out here. */
module CppInt {

  const MinInt32: int := -0x8000_0000
  const MaxInt32: int := 0x7FFF_FFFF

  newtype int32 = x: int | -0x8000_0000 <= x < 0x8000_0000

  predicate InInt32(x: int) {
    MinInt32 <= x <= MaxInt32
  }

  function Abs(x: int): nat {
    if x < 0 then -x else x
  }

  /** Quotient of C++ `a / b` on integers: the magnitude is |a| / |b| rounded
      down, and the sign is negative exactly when the operands' signs differ. */
  function Quot(a: int, b: int): int
    requires b != 0
  {
    var q := Abs(a) / Abs(b);
    if (a < 0) == (b < 0) then q else -q
  }

  /** Remainder of C++ `a % b` on integers: |a| % |b| with the sign of `a`. */
  function Rem(a: int, b: int): int
    requires b != 0
  {
    var r := Abs(a) % Abs(b);
    if a < 0 then -r else r
  }

  /** `(a / b) * b + a % b == a`, the identity the C++ standard requires of its
      `/` and `%`, holds of the two independent definitions above. */
  lemma {:induction false} QuotRemIdentity(a: int, b: int)
    requires b != 0
    ensures Quot(a, b) * b + Rem(a, b) == a
  {
    var m: int, n: int := Abs(a), Abs(b);
    var q: int, r: int := m / n, m % n;
    assert m == q * n + r;
    var qa: int, ra: int := Quot(a, b), Rem(a, b);
    if a < 0 && b < 0 {
      assert qa == q && ra == -r && b == -n && a == -m;
      assert q * -n == -(q * n);
    } else if a < 0 {
      assert qa == -q && ra == -r && b == n && a == -m;
      assert -q * n == -(q * n);
    } else if b < 0 {
      assert qa == -q && ra == r && b == -n && a == m;
      assert -q * -n == q * n;
    } else {
      assert qa == q && ra == r && b == n && a == m;
    }
  }

  lemma MulLeftMonotone(x: nat, y: int, z: int)
    requires y <= z
    ensures x * y <= x * z
  {
    assert x * z - x * y == x * (z - y);
  }

  /** The quotient is truncated toward zero: its magnitude is the number of
      whole multiples of |b| that fit in |a|, and it is negative only when the
      operands' signs differ. */
  lemma {:induction false} QuotTruncates(a: int, b: int)
    requires b != 0
    ensures Abs(Quot(a, b)) * Abs(b) <= Abs(a) < (Abs(Quot(a, b)) + 1) * Abs(b)
    ensures Quot(a, b) < 0 ==> (a < 0) != (b < 0)
    ensures Abs(Quot(a, b)) <= Abs(a)
  {
    var m: int, n: int := Abs(a), Abs(b);
    var q: nat, r: int := m / n, m % n;
    assert m == q * n + r && 0 <= r < n;
    assert Abs(Quot(a, b)) == q;
    assert (q + 1) * n == q * n + n;
    MulLeftMonotone(q, 1, n);
  }

  /** The remainder is smaller in magnitude than the divisor and than the
      dividend, and is zero or has the dividend's sign. */
  lemma {:induction false} RemBounds(a: int, b: int)
    requires b != 0
    ensures Abs(Rem(a, b)) < Abs(b)
    ensures Abs(Rem(a, b)) <= Abs(a)
    ensures Rem(a, b) == 0 || ((Rem(a, b) < 0) <==> (a < 0))
  {
    var m: int, n: int := Abs(a), Abs(b);
    var q: nat, r: int := m / n, m % n;
    assert m == q * n + r && 0 <= r < n;
    MulLeftMonotone(q, 0, n);
    assert Abs(Rem(a, b)) == r;
  }

  /** For 32-bit operands the quotient and remainder are 32-bit values, except
      for the one overflowing case `INT_MIN / -1`. */
  lemma {:induction false} QuotRemFit(a: int, b: int)
    requires InInt32(a) && InInt32(b) && b != 0
    ensures InInt32(Rem(a, b))
    ensures InInt32(Quot(a, b)) <==> !(a == MinInt32 && b == -1)
  {
    QuotTruncates(a, b);
    RemBounds(a, b);
    var q: nat := Abs(Quot(a, b));
    if Abs(b) == 1 {
      assert Abs(a) / 1 == Abs(a);
      assert q == Abs(a);
    } else {
      MulLeftMonotone(q, 2, Abs(b));
      assert q * 2 <= Abs(a) <= 0x8000_0000;
    }
  }

  /** C++ `a / b` on `int`. */
  function Div32(a: int32, b: int32): int32
    requires b != 0 && !(a as int == MinInt32 && b == -1)
  {
    QuotRemFit(a as int, b as int);
    Quot(a as int, b as int) as int32
  }

  /** C++ `a % b` on `int`; `INT_MIN % -1` is undefined together with
      `INT_MIN / -1`. */
  function Rem32(a: int32, b: int32): int32
    requires b != 0 && !(a as int == MinInt32 && b == -1)
  {
    QuotRemFit(a as int, b as int);
    Rem(a as int, b as int) as int32
  }

  /** The 32-bit `/` and `%` satisfy the C++ identity without overflow. */
  lemma Div32Rem32Identity(a: int32, b: int32)
    requires b != 0 && !(a as int == MinInt32 && b == -1)
    ensures (Div32(a, b) as int) * (b as int) + Rem32(a, b) as int == a as int
  {
    QuotRemIdentity(a as int, b as int);
  }
}
