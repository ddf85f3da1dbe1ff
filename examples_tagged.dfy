/** Uses of the wrapper: `MAKE_TAGGED` instances and the operation sequences
    that the example program and the unit test run. */
module TaggedExamples {
  import opened CppInt
  import opened TaggedT

  // `MAKE_TAGGED(name, type)` declares a fresh, empty tag type per use and
  // names the instantiation. The tags below carry no data.
  datatype MetersTag = MetersTag
  datatype SecondsTag = SecondsTag
  datatype SpecialIntTag = SpecialIntTag
  datatype FlagsTag = FlagsTag

  // The example program wraps `double`; here the lengths and durations are
  // `int` counts of tenths.
  type Meters = Tagged<int32, MetersTag>
  type Seconds = Tagged<int32, SecondsTag>
  type SpecialInt = Tagged<int32, SpecialIntTag>
  type Flags = Tagged<bv32, FlagsTag>

  // Mixing tags does not type-check: with `d: Meters` and `t: Seconds`, both
  // `Add(d, t)` and `Lt(d, t)` are rejected, as `d1 < t1` is in C++.

  /** The unit test: `foo++; ++foo; foo--; --foo` brings `foo` back to 10,
      `foo == bar` for two wrappers of 10, and `(foo + bar) - SpecialInt{1}`
      incremented once equals `foo + bar`. */
  method UnitTest() returns (foo: SpecialInt, bar: SpecialInt, moo: SpecialInt, loo: SpecialInt)
    ensures foo.value == 10 && Eq(foo, bar)
    ensures Eq(moo, loo)
  {
    foo := new Tagged(10);
    var prior := PostIncrement(foo);
    var self := PreIncrement(foo);
    prior := PostDecrement(foo);
    self := PreDecrement(foo);

    bar := new Tagged(10);

    moo := Add(foo, bar);
    var one: SpecialInt := new Tagged(1);
    loo := Sub(moo, one);
    prior := PostIncrement(loo);
  }

  /** `x++; ++x; x--; --x` restores any value that does not overflow on the
      way. */
  method StepSequenceRestores<Tag>(x: Tagged<int32, Tag>)
    requires x.value as int <= MaxInt32 - 2
    modifies x
    ensures x.value == old(x.value)
  {
    var prior := PostIncrement(x);
    var self := PreIncrement(x);
    prior := PostDecrement(x);
    self := PreDecrement(x);
  }

  /** For any wrappers `a` and `b`: `(a + b) - 1`, incremented, equals `a + b`;
      neither operand is modified. */
  method SumMinusOneIncremented<Tag>(a: Tagged<int32, Tag>, b: Tagged<int32, Tag>)
    returns (moo: Tagged<int32, Tag>, loo: Tagged<int32, Tag>)
    requires MinInt32 < a.value as int + b.value as int <= MaxInt32
    ensures Eq(moo, loo) && moo.value as int == a.value as int + b.value as int
  {
    moo := Add(a, b);
    var one := new Tagged<int32, Tag>(1);
    loo := Sub(moo, one);
    var prior := PostIncrement(loo);
  }

  /** `(a / b) * b + a % b` rebuilds `a` through the wrapper's operators,
      with no intermediate overflow, whenever `a / b` itself is defined. */
  method DivModRecombine<Tag>(a: Tagged<int32, Tag>, b: Tagged<int32, Tag>) returns (r: Tagged<int32, Tag>)
    requires b.value != 0 && !(a.value as int == MinInt32 && b.value == -1)
    ensures Eq(r, a)
  {
    var q := Div(a, b);
    var m := Mod(a, b);
    QuotRemIdentity(a.value as int, b.value as int);
    RemBounds(a.value as int, b.value as int);
    ghost var p := q.value as int * b.value as int;
    assert p == a.value as int - m.value as int;
    assert InInt32(p) by {
      if a.value < 0 {
        assert MinInt32 <= a.value as int <= p <= 0;
      } else {
        assert 0 <= p <= a.value as int;
      }
    }
    var prod := Mul(q, b);
    r := Add(prod, m);
  }

  /** Negating twice gives back the original value. */
  method NegateTwice<Tag>(a: Tagged<int32, Tag>) returns (r: Tagged<int32, Tag>)
    requires MinInt32 < a.value as int
    ensures Eq(r, a)
  {
    var n := Negate(a);
    r := Negate(n);
  }

  /** `x += b` leaves `x` holding what `a + b` returns when `x` starts as a
      copy of `a`. */
  method AddAssignAgrees<Tag>(a: Tagged<int32, Tag>, b: Tagged<int32, Tag>)
    returns (x: Tagged<int32, Tag>, y: Tagged<int32, Tag>)
    requires InInt32(a.value as int + b.value as int)
    ensures Eq(x, y)
  {
    x := new Tagged<int32, Tag>(a.value);
    var self := AddAssign(x, b);
    y := Add(a, b);
  }

  /** `x -= b` leaves `x` holding what `a - b` returns. */
  method SubAssignAgrees<Tag>(a: Tagged<int32, Tag>, b: Tagged<int32, Tag>)
    returns (x: Tagged<int32, Tag>, y: Tagged<int32, Tag>)
    requires InInt32(a.value as int - b.value as int)
    ensures Eq(x, y)
  {
    x := new Tagged<int32, Tag>(a.value);
    var self := SubAssign(x, b);
    y := Sub(a, b);
  }

  /** `x *= b` leaves `x` holding what `a * b` returns. */
  method MulAssignAgrees<Tag>(a: Tagged<int32, Tag>, b: Tagged<int32, Tag>)
    returns (x: Tagged<int32, Tag>, y: Tagged<int32, Tag>)
    requires InInt32(a.value as int * b.value as int)
    ensures Eq(x, y)
  {
    x := new Tagged<int32, Tag>(a.value);
    var self := MulAssign(x, b);
    y := Mul(a, b);
  }

  /** `x /= b` leaves `x` holding what `a / b` returns. */
  method DivAssignAgrees<Tag>(a: Tagged<int32, Tag>, b: Tagged<int32, Tag>)
    returns (x: Tagged<int32, Tag>, y: Tagged<int32, Tag>)
    requires b.value != 0 && !(a.value as int == MinInt32 && b.value == -1)
    ensures Eq(x, y)
  {
    x := new Tagged<int32, Tag>(a.value);
    var self := DivAssign(x, b);
    y := Div(a, b);
  }

  /** `x %= b` leaves `x` holding what `a % b` returns. */
  method ModAssignAgrees<Tag>(a: Tagged<int32, Tag>, b: Tagged<int32, Tag>)
    returns (x: Tagged<int32, Tag>, y: Tagged<int32, Tag>)
    requires b.value != 0 && !(a.value as int == MinInt32 && b.value == -1)
    ensures Eq(x, y)
  {
    x := new Tagged<int32, Tag>(a.value);
    var self := ModAssign(x, b);
    y := Mod(a, b);
  }

  /** The example program: 3.5 m + 2.1 m is 5.6 m, 4.8 s - 1.2 s is 3.6 s,
      2.1 m < 3.5 m, and the distances ordered as 2.1, 3.5, 5.6 are sorted
      by `<`. */
  method ExampleProgram() returns (d3: Meters, t3: Seconds, d2LessD1: bool, sortedDistances: seq<Meters>)
    ensures d3.value == 56 && t3.value == 36 && d2LessD1
    ensures Values(sortedDistances) == [21, 35, 56] && SortedByLt(sortedDistances)
  {
    var d1: Meters := new Tagged(35);
    var d2: Meters := new Tagged(21);
    var t1: Seconds := new Tagged(12);
    var t2: Seconds := new Tagged(48);
    d3 := Add(d1, d2);
    t3 := Sub(t2, t1);
    d2LessD1 := Lt(d2, d1);
    sortedDistances := [d2, d1, d3];
    assert Values(sortedDistances) == [21, 35, 56];
    SortedByLtIffValuesSorted(sortedDistances);
  }

  lemma XorCancels(a: bv32, b: bv32)
    ensures (a ^ b) ^ b == a
  {
  }

  lemma XorSelf(a: bv32)
    ensures a ^ a == 0
  {
  }

  /** `x ^= k` twice restores `x` when `k` is another object. */
  method XorAssignTwiceRestores<Tag>(x: Tagged<bv32, Tag>, k: Tagged<bv32, Tag>)
    requires x != k
    modifies x
    ensures x.value == old(x.value) && k.value == old(k.value)
  {
    ghost var v, w := x.value, k.value;
    var self := XorAssign(x, k);
    self := XorAssign(x, k);
    XorCancels(v, w);
  }

  /** With `k` the same object as `x`, `x ^= x` reads the value it is about
      to overwrite, so a single application sets `x` to 0. */
  method XorAssignSelfClears<Tag>(x: Tagged<bv32, Tag>)
    modifies x
    ensures x.value == 0
  {
    ghost var v := x.value;
    var self := XorAssign(x, x);
    XorSelf(v);
  }

  /** `unsigned` shifts drop the bits shifted out: `0x8000_0001 << 1` is 2,
      and shifting that right by 1 gives 1, not the original value. */
  method ShiftDropsBits() returns (up: Flags, down: Flags)
    ensures up.value == 2 && down.value == 1
  {
    var x: Flags := new Tagged(0x8000_0001);
    var one: Flags := new Tagged(1);
    up := ShiftLeft(x, one);
    down := ShiftRight(up, one);
  }
}
