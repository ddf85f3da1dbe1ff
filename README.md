# tagged_t in Dafny

A model of `tagged_t<T, Tag>`, a C++ wrapper that holds one value of an
underlying type `T` and uses an empty phantom type `Tag` to make each
instantiation a distinct nominal type. Two wrappers of the same `T` with
different tags cannot be mixed in arithmetic, comparison or assignment, and a
wrapper cannot be mixed with a bare `T`. The wrapper forwards every operator
to `T` and adds no check of its own.

The model has three modules:

- `CppInt` (`cpp_int.dfy`) is the underlying type `int`: a 32-bit newtype
  `int32`. C++ leaves overflow, division by zero and `INT_MIN / -1`
  undefined, so these become preconditions. C++ `/` and `%` truncate toward
  zero (section 7.6.5 of ISO/IEC 14882:2020). They are defined here as `Quot`
  and `Rem`, separately from Dafny's Euclidean operators, and lemmas prove
  the standard's identity `(a / b) * b + a % b == a` and the bounds.
- `TaggedT` (`tagged_t.dfy`) is the wrapper itself. `Tagged<T, Tag>` is a class
  with the one mutable field `value`. The operators are free methods and
  functions specialised to the underlying types that have them, mirroring
  the constrained C++ overloads:
  - `int32` (C++ `int`) gets `+ - * / %`, their compound assignments,
    `++`/`--` in prefix and postfix form, unary `+`/`-`, and `<=>`.
  - `bv32` (C++ `unsigned int`) gets `| ^ & << >>`, their compound
    assignments, and `<=>`.
  - `==` is generic.
  In-place operators take the object with `modifies` and return the same
  object. Binary and unary operators return a `fresh` wrapper and modify
  nothing.
- `TaggedExamples` (`examples_tagged.dfy`) holds the `MAKE_TAGGED` instances
  (`Meters`, `Seconds`, `SpecialInt`, `Flags`, each with its own empty tag
  datatype) and the operation sequences of the unit test and the example
  program, stated for all inputs where possible.

Tag distinctness is enforced by Dafny's type checker. `Add(d, t)` with
`d: Meters` and `t: Seconds` does not resolve, so no lemma states it.

The header defines no swap, no stream input or output, no hashing
and no conversion operator to `T`, so none is modelled. The example program
(`swap`, `<<` to a stream) and the unit test (`int test_conv = moo;`) use
these, and the header does not provide them.

## Model

| member | source | states |
|---|---|---|
| `TaggedT.Tagged.constructor` | include/tagged_t.h:12-13 | explicit construction from a `T` stores exactly that value |
| `TaggedT.Tagged.Get` | include/tagged_t.h:25-26 | `get()` returns the wrapped value |
| `TaggedT.GetAfterConstruct` | include/tagged_t.h:12-26 | constructing from `v` and reading back with `get()` gives `v`, for every `T` |
| `TaggedT.Eq` | include/tagged_t.h:56-60 | two wrappers are `==` exactly when their wrapped values are equal |
| `TaggedT.Compare` | include/tagged_t.h:62-64 | `<=>` over `int` is less, equal or greater exactly as the wrapped values are |
| `TaggedT.Lt` | include/tagged_t.h:62-64 | `a < b`, derived from `<=>`, holds exactly when `a.get() < b.get()` |
| `TaggedT.CompareBits` | include/tagged_t.h:62-64 | `<=>` over `unsigned int` follows the numeric order of the wrapped values |
| `TaggedT.CompareConsistent` | include/tagged_t.h:56-64 | `<=>` yields equal exactly when `==` holds, and swapping operands reverses its outcome |
| `TaggedT.LtStrictWeakOrder` | include/tagged_t.h:62-64 | `<` is irreflexive and transitive, and two wrappers are incomparable under it exactly when they are `==` |
| `TaggedT.SortedByLtIffValuesSorted` | examples/main.cpp:28-29 | a sequence of wrappers is sorted by `<` exactly when its wrapped values are sorted |
| `TaggedT.PreIncrement` | include/tagged_t.h:28-31 | `++x` adds 1 to the value in place and returns the same object; requires no overflow |
| `TaggedT.PostIncrement` | include/tagged_t.h:33-39 | `x++` returns a new wrapper holding the prior value and leaves `x` one higher |
| `TaggedT.PreDecrement` | include/tagged_t.h:41-44 | `--x` subtracts 1 in place and returns the same object; requires no overflow |
| `TaggedT.PostDecrement` | include/tagged_t.h:46-54 | `x--` returns a new wrapper holding the prior value and leaves `x` one lower |
| `TaggedT.Add` | include/tagged_t.h:70-80 | `lhs + rhs` is a new wrapper of `lhs.get() + rhs.get()`; operands unchanged; requires the sum to fit `int` |
| `TaggedT.Sub` | include/tagged_t.h:70-81 | `lhs - rhs` is a new wrapper of the difference; operands unchanged |
| `TaggedT.Div` | include/tagged_t.h:70-82 | `lhs / rhs` is a new wrapper of the truncated quotient; requires a nonzero divisor and not `INT_MIN / -1` |
| `TaggedT.Mul` | include/tagged_t.h:70-83 | `lhs * rhs` is a new wrapper of the product; operands unchanged |
| `TaggedT.Mod` | include/tagged_t.h:70-84 | `lhs % rhs` is a new wrapper of the remainder with the dividend's sign; same precondition as `/` |
| `TaggedT.BitOr` | include/tagged_t.h:70-85 | bitwise or over `unsigned int` returns a new wrapper of the bitwise or of the values |
| `TaggedT.BitXor` | include/tagged_t.h:70-86 | `lhs ^ rhs` is a new wrapper of the bitwise exclusive or |
| `TaggedT.BitAnd` | include/tagged_t.h:70-87 | `lhs & rhs` is a new wrapper of the bitwise and |
| `TaggedT.ShiftLeft` | include/tagged_t.h:70-88 | `lhs << rhs` is a new wrapper of the left shift, dropping bits past bit 31; requires a shift amount below 32 |
| `TaggedT.ShiftRight` | include/tagged_t.h:70-89 | `lhs >> rhs` is a new wrapper of the logical right shift; requires a shift amount below 32 |
| `TaggedT.AddAssign` | include/tagged_t.h:93-104 | `lhs += rhs` sets `lhs` to the old sum, returns `lhs`, leaves a distinct `rhs` unchanged, and doubles `lhs` when `rhs` is `lhs` |
| `TaggedT.SubAssign` | include/tagged_t.h:93-105 | `lhs -= rhs` sets `lhs` to the old difference and returns `lhs`; a distinct `rhs` is unchanged |
| `TaggedT.DivAssign` | include/tagged_t.h:93-106 | `lhs /= rhs` sets `lhs` to the truncated quotient and returns `lhs`; same precondition as `/` |
| `TaggedT.MulAssign` | include/tagged_t.h:93-107 | `lhs *= rhs` sets `lhs` to the old product and returns `lhs` |
| `TaggedT.ModAssign` | include/tagged_t.h:93-108 | `lhs %= rhs` sets `lhs` to the remainder and returns `lhs`; same precondition as `%` |
| `TaggedT.OrAssign` | include/tagged_t.h:93-109 | or-assignment sets `lhs` to the bitwise or of the old values and returns `lhs` |
| `TaggedT.XorAssign` | include/tagged_t.h:93-110 | `lhs ^= rhs` sets `lhs` to the exclusive or of the old values and returns `lhs` |
| `TaggedT.AndAssign` | include/tagged_t.h:93-111 | `lhs &= rhs` sets `lhs` to the bitwise and of the old values and returns `lhs` |
| `TaggedT.ShiftLeftAssign` | include/tagged_t.h:93-112 | `lhs <<= rhs` shifts `lhs` left by the old `rhs`; requires an amount below 32 |
| `TaggedT.ShiftRightAssign` | include/tagged_t.h:93-113 | `lhs >>= rhs` shifts `lhs` right by the old `rhs`; requires an amount below 32 |
| `TaggedT.UnaryPlus` | include/tagged_t.h:117-123 | unary `+` returns a new wrapper holding the same `int` value |
| `TaggedT.Negate` | include/tagged_t.h:125-131 | unary `-` returns a new wrapper of the negated value; requires the operand is not `INT_MIN` |
| `CppInt.QuotRemIdentity` | include/tagged_t.h:82-84 | the truncating quotient and the remainder that `/` and `%` forward to satisfy `(a / b) * b + a % b == a` |
| `CppInt.QuotTruncates` | include/tagged_t.h:82 | the quotient's magnitude is the magnitude of `a` divided by that of `b`, rounded toward zero; it is negative only when the signs differ, and no larger in magnitude than `a` |
| `CppInt.RemBounds` | include/tagged_t.h:84 | the remainder is smaller in magnitude than the divisor, no larger in magnitude than the dividend, and is zero or has the dividend's sign |
| `CppInt.QuotRemFit` | include/tagged_t.h:82-84 | for `int` operands, quotient and remainder fit in `int`, except the quotient of exactly `INT_MIN / -1` |
| `CppInt.Div32Rem32Identity` | include/tagged_t.h:82-84 | the 32-bit `/` and `%` that the wrapper forwards to satisfy the division identity |
| `TaggedExamples.UnitTest` | tests/test_tagged.cpp:4-20 | after `foo++; ++foo; foo--; --foo` from 10, `foo` holds 10 and `foo == bar`; `moo == loo` for the wrappers the test builds |
| `TaggedExamples.StepSequenceRestores` | tests/test_tagged.cpp:6-11 | `x++; ++x; x--; --x` restores any value at most `INT_MAX - 2` |
| `TaggedExamples.SumMinusOneIncremented` | tests/test_tagged.cpp:17-20 | for all `a`, `b`: `(a + b) - 1`, incremented, is `==` to `a + b` |
| `TaggedExamples.DivModRecombine` | include/tagged_t.h:80-84 | `(a / b) * b + a % b` through the wrapper's operators is `==` to `a`, with no intermediate overflow |
| `TaggedExamples.NegateTwice` | include/tagged_t.h:125-131 | negating twice gives a wrapper `==` to the original |
| `TaggedExamples.AddAssignAgrees` | include/tagged_t.h:70-104 | whenever the sum fits in `int`, `x += b` on a copy `x` of `a` leaves `x == a + b` |
| `TaggedExamples.SubAssignAgrees` | include/tagged_t.h:70-105 | whenever the difference fits in `int`, `x -= b` on a copy of `a` leaves `x == a - b` |
| `TaggedExamples.MulAssignAgrees` | include/tagged_t.h:70-107 | whenever the product fits in `int`, `x *= b` on a copy of `a` leaves `x == a * b` |
| `TaggedExamples.DivAssignAgrees` | include/tagged_t.h:70-106 | whenever `a / b` is defined, `x /= b` on a copy of `a` leaves `x == a / b` |
| `TaggedExamples.ModAssignAgrees` | include/tagged_t.h:70-108 | whenever `a % b` is defined, `x %= b` on a copy of `a` leaves `x == a % b` |
| `TaggedExamples.XorAssignTwiceRestores` | include/tagged_t.h:93-110 | applying `x ^= k` twice with a distinct `k` restores `x` and leaves `k` unchanged |
| `TaggedExamples.XorAssignSelfClears` | include/tagged_t.h:93-110 | a single `x ^= x` through the aliased reference sets `x` to 0 |
| `TaggedExamples.ShiftDropsBits` | include/tagged_t.h:70-89 | `0x80000001 << 1` is 2 on `unsigned int`, and shifting back right gives 1 |
| `TaggedExamples.ExampleProgram` | examples/main.cpp:9-29 | `d1 + d2` and `t2 - t1` sum and subtract, `d2 < d1`, and the distances in order are sorted by `<` |

## Left out

- Floating-point underlying types. The example program wraps `double`; here `Meters` and `Seconds` wrap `int` counts of tenths. NaN and partial-order outcomes of `<=>` are therefore not modelled.
- `int` is modelled as 32-bit two's complement. Its undefined behaviours become preconditions rather than wrap-around.
- The defaulted default constructor (include/tagged_t.h:15-17). Value-initialization (`SpecialInt{}`) gives `T{}`, which is 0 for `int`; default-initialization (`SpecialInt x;`) leaves an `int` indeterminate. Neither is modelled; every wrapper here is built from a value.
- The defaulted copy and move constructors, assignments and destructor (include/tagged_t.h:19-23). They only copy the one field; the copy in postfix `++`/`--` is modelled as a new wrapper holding the same value.
- Write access through the non-const `get()` (include/tagged_t.h:26). It is plain assignment to the field `value`.
- The `requires` constraints and `noexcept` specifications. They select overloads at compile time; each operator is offered only on an underlying type that has it.
- Bitwise and shift operators on signed `int`, and arithmetic, increments and unary operators on `unsigned int`. Each operator family is modelled on one underlying type, where its semantics are exact.
- Agreement between each compound assignment and its binary operator is not proved for `unsigned int`. Each compound assignment's contract gives its result directly as the bit-vector operator applied to the old values.
- Repeated increments are stated only for the sequences the unit test runs, not for an arbitrary count.
- The `MAKE_TAGGED` macro's code generation (include/tagged_t.h:133). Each use becomes an empty tag datatype and a type synonym.
- Swap, stream input and output, hashing and conversion to `T`. The header does not define them.
- Console output of the example program and the test harness's `main`.
