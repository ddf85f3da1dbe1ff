/** The `tagged_t<T, Tag>` wrapper: one value of the underlying type `T`,
    made a distinct nominal type by the phantom parameter `Tag`. `Tag` holds no
    data and no operation mentions it; because every operation takes and
    returns `Tagged<T, Tag>` with one and the same `Tag`, Dafny's type checker
    rejects mixing two tags, or a tagged value with a bare `T`, as the C++
    compiler does.

    Each operator exists here only on an underlying type that has it, as the
    C++ overloads are constrained to such types: `int32` (the C++ `int`) gets
    the arithmetic, increments and unary operators, `bv32` (the C++
    `unsigned int`) the bitwise and shift operators. The wrapper adds no
    check of its own: each operator's precondition is exactly the underlying
    operation's (no overflow, no division by zero, a shift amount below 32). */
module TaggedT {
  import opened CppInt

  /** The wrapper object; `value` is the C++ private member `value_`. */
  class Tagged<T, Tag> {
    var value: T

    /** Explicit construction from a `T`, by copy or by move. */
    constructor (v: T)
      ensures value == v
    {
      value := v;
    }

    /** `get()`: read access to the wrapped value. Write access through the
        non-const `get()` is assignment to `value`. */
    function Get(): (v: T)
      reads this
      ensures v == value
    {
      value
    }
  }

  /** Reading back a freshly constructed wrapper yields the value it was
      constructed from. */
  method GetAfterConstruct<T, Tag>(v: T) returns (got: T)
    ensures got == v
  {
    var x := new Tagged<T, Tag>(v);
    got := x.Get();
  }

  // ---------------------------------------------------------------------------
  // Comparison

  /** `operator==`: compares the wrapped fields with `T`'s own equality. */
  function Eq<T(==), Tag>(a: Tagged<T, Tag>, b: Tagged<T, Tag>): (r: bool)
    reads a, b
    ensures r <==> a.value == b.value
  {
    a.value == b.value
  }

  /** The result of the defaulted `operator<=>` on a type with a total order
      (`std::strong_ordering`). */
  datatype StrongOrdering = Less | Equal | Greater {
    /** The outcome with the operands swapped. */
    function Reversed(): StrongOrdering {
      match this
      case Less => Greater
      case Equal => Equal
      case Greater => Less
    }
  }

  /** The defaulted `operator<=>` over `int`: a member-wise comparison of the
      single field. */
  function Compare<Tag>(a: Tagged<int32, Tag>, b: Tagged<int32, Tag>): (r: StrongOrdering)
    reads a, b
    ensures r == Less <==> a.value < b.value
    ensures r == Equal <==> a.value == b.value
    ensures r == Greater <==> b.value < a.value
  {
    if a.value < b.value then Less
    else if b.value < a.value then Greater
    else Equal
  }

  /** `a < b`, which C++ rewrites to `(a <=> b) < 0`. */
  function Lt<Tag>(a: Tagged<int32, Tag>, b: Tagged<int32, Tag>): (r: bool)
    reads a, b
    ensures r <==> a.value < b.value
  {
    Compare(a, b) == Less
  }

  /** The defaulted `operator<=>` over `unsigned int`, whose order is that of
      the numbers the bit patterns denote. */
  function CompareBits<Tag>(a: Tagged<bv32, Tag>, b: Tagged<bv32, Tag>): (r: StrongOrdering)
    reads a, b
    ensures r == Less <==> a.value as int < b.value as int
    ensures r == Equal <==> a.value as int == b.value as int
    ensures r == Greater <==> b.value as int < a.value as int
  {
    var x, y := a.value as int, b.value as int;
    if x < y then Less
    else if y < x then Greater
    else Equal
  }

  /** The hand-written `==` and the defaulted `<=>` agree, and swapping the
      operands reverses the outcome of `<=>`. */
  lemma {:induction false} CompareConsistent<Tag>(a: Tagged<int32, Tag>, b: Tagged<int32, Tag>)
    ensures Compare(a, b) == Equal <==> Eq(a, b)
    ensures Compare(b, a) == Compare(a, b).Reversed()
  {
    if a.value < b.value {
      assert Compare(b, a) == Greater;
    } else if b.value < a.value {
      assert Compare(b, a) == Less;
    }
  }

  /** `<` on wrappers is a strict weak ordering whose incomparability is `==`,
      which is what `std::sort` demands of its comparison. */
  lemma LtStrictWeakOrder<Tag>(a: Tagged<int32, Tag>, b: Tagged<int32, Tag>, c: Tagged<int32, Tag>)
    ensures !Lt(a, a)
    ensures Lt(a, b) && Lt(b, c) ==> Lt(a, c)
    ensures !Lt(a, b) && !Lt(b, a) <==> Eq(a, b)
  {
  }

  /** The wrapped values of a sequence of wrappers, in order. */
  function Values<Tag>(s: seq<Tagged<int32, Tag>>): (vs: seq<int32>)
    reads s
    ensures |vs| == |s|
    ensures forall i :: 0 <= i < |s| ==> vs[i] == s[i].value
  {
    if s == [] then [] else [s[0].value] + Values(s[1..])
  }

  predicate Sorted(vs: seq<int32>) {
    forall i, j :: 0 <= i < j < |vs| ==> vs[i] <= vs[j]
  }

  /** No later element is `<` an earlier one: the order `std::sort` leaves a
      range in. */
  predicate SortedByLt<Tag>(s: seq<Tagged<int32, Tag>>)
    reads s
  {
    forall i, j :: 0 <= i < j < |s| ==> !Lt(s[j], s[i])
  }

  /** Sorting wrappers by their `<` sorts them by their wrapped values. */
  lemma SortedByLtIffValuesSorted<Tag>(s: seq<Tagged<int32, Tag>>)
    ensures SortedByLt(s) <==> Sorted(Values(s))
  {
  }

  // ---------------------------------------------------------------------------
  // Increment and decrement (members of tagged_t in C++)

  /** Prefix `++x`: increments the wrapped value in place and returns the
      same object. */
  method PreIncrement<Tag>(x: Tagged<int32, Tag>) returns (self: Tagged<int32, Tag>)
    requires x.value as int < MaxInt32
    modifies x
    ensures self == x
    ensures x.value as int == old(x.value) as int + 1
  {
    x.value := x.value + 1;
    self := x;
  }

  /** Postfix `x++`: copies the object, increments it in place and returns
      the copy, which holds the prior value. */
  method PostIncrement<Tag>(x: Tagged<int32, Tag>) returns (prior: Tagged<int32, Tag>)
    requires x.value as int < MaxInt32
    modifies x
    ensures fresh(prior) && prior.value == old(x.value)
    ensures x.value as int == old(x.value) as int + 1
  {
    prior := new Tagged(x.value);
    var self := PreIncrement(x);
  }

  /** Prefix `--x`. */
  method PreDecrement<Tag>(x: Tagged<int32, Tag>) returns (self: Tagged<int32, Tag>)
    requires MinInt32 < x.value as int
    modifies x
    ensures self == x
    ensures x.value as int == old(x.value) as int - 1
  {
    x.value := x.value - 1;
    self := x;
  }

  /** Postfix `x--`. */
  method PostDecrement<Tag>(x: Tagged<int32, Tag>) returns (prior: Tagged<int32, Tag>)
    requires MinInt32 < x.value as int
    modifies x
    ensures fresh(prior) && prior.value == old(x.value)
    ensures x.value as int == old(x.value) as int - 1
  {
    prior := new Tagged(x.value);
    var self := PreDecrement(x);
  }

  // ---------------------------------------------------------------------------
  // Binary operators over int (MAKE_OP): a fresh wrapper around
  // `lhs.get() OP rhs.get()`; neither operand changes.

  method Add<Tag>(lhs: Tagged<int32, Tag>, rhs: Tagged<int32, Tag>) returns (r: Tagged<int32, Tag>)
    requires InInt32(lhs.value as int + rhs.value as int)
    ensures fresh(r) && r.value as int == lhs.value as int + rhs.value as int
  {
    r := new Tagged(lhs.value + rhs.value);
  }

  method Sub<Tag>(lhs: Tagged<int32, Tag>, rhs: Tagged<int32, Tag>) returns (r: Tagged<int32, Tag>)
    requires InInt32(lhs.value as int - rhs.value as int)
    ensures fresh(r) && r.value as int == lhs.value as int - rhs.value as int
  {
    r := new Tagged(lhs.value - rhs.value);
  }

  method Mul<Tag>(lhs: Tagged<int32, Tag>, rhs: Tagged<int32, Tag>) returns (r: Tagged<int32, Tag>)
    requires InInt32(lhs.value as int * rhs.value as int)
    ensures fresh(r) && r.value as int == lhs.value as int * rhs.value as int
  {
    r := new Tagged(lhs.value * rhs.value);
  }

  /** `/` truncates toward zero; a zero divisor and `INT_MIN / -1` are
      excluded as they are for `int`. */
  method Div<Tag>(lhs: Tagged<int32, Tag>, rhs: Tagged<int32, Tag>) returns (r: Tagged<int32, Tag>)
    requires rhs.value != 0 && !(lhs.value as int == MinInt32 && rhs.value == -1)
    ensures fresh(r) && r.value as int == Quot(lhs.value as int, rhs.value as int)
  {
    r := new Tagged(Div32(lhs.value, rhs.value));
  }

  /** `%` takes the sign of the dividend. */
  method Mod<Tag>(lhs: Tagged<int32, Tag>, rhs: Tagged<int32, Tag>) returns (r: Tagged<int32, Tag>)
    requires rhs.value != 0 && !(lhs.value as int == MinInt32 && rhs.value == -1)
    ensures fresh(r) && r.value as int == Rem(lhs.value as int, rhs.value as int)
  {
    r := new Tagged(Rem32(lhs.value, rhs.value));
  }

  // ---------------------------------------------------------------------------
  // Binary operators over unsigned int (MAKE_OP)

  method BitOr<Tag>(lhs: Tagged<bv32, Tag>, rhs: Tagged<bv32, Tag>) returns (r: Tagged<bv32, Tag>)
    ensures fresh(r) && r.value == lhs.value | rhs.value
  {
    r := new Tagged(lhs.value | rhs.value);
  }

  method BitXor<Tag>(lhs: Tagged<bv32, Tag>, rhs: Tagged<bv32, Tag>) returns (r: Tagged<bv32, Tag>)
    ensures fresh(r) && r.value == lhs.value ^ rhs.value
  {
    r := new Tagged(lhs.value ^ rhs.value);
  }

  method BitAnd<Tag>(lhs: Tagged<bv32, Tag>, rhs: Tagged<bv32, Tag>) returns (r: Tagged<bv32, Tag>)
    ensures fresh(r) && r.value == lhs.value & rhs.value
  {
    r := new Tagged(lhs.value & rhs.value);
  }

  /** `<<` on `unsigned int` drops the bits shifted past bit 31; a shift
      amount of 32 or more is undefined. */
  method ShiftLeft<Tag>(lhs: Tagged<bv32, Tag>, rhs: Tagged<bv32, Tag>) returns (r: Tagged<bv32, Tag>)
    requires rhs.value < 32
    ensures fresh(r) && r.value == lhs.value << (rhs.value as int)
  {
    r := new Tagged(lhs.value << (rhs.value as int));
  }

  /** `>>` on `unsigned int` shifts in zeros. */
  method ShiftRight<Tag>(lhs: Tagged<bv32, Tag>, rhs: Tagged<bv32, Tag>) returns (r: Tagged<bv32, Tag>)
    requires rhs.value < 32
    ensures fresh(r) && r.value == lhs.value >> (rhs.value as int)
  {
    r := new Tagged(lhs.value >> (rhs.value as int));
  }

  // ---------------------------------------------------------------------------
  // Compound assignments (MAKE_OP_ASSIGN): `lhs.get() OP= rhs.get()`, then
  // `lhs` is returned. `rhs` may be `lhs` itself (`x += x`); the right operand
  // is the value both had before the assignment, and only `lhs` changes.

  method AddAssign<Tag>(lhs: Tagged<int32, Tag>, rhs: Tagged<int32, Tag>) returns (self: Tagged<int32, Tag>)
    requires InInt32(lhs.value as int + rhs.value as int)
    modifies lhs
    ensures self == lhs && (rhs != lhs ==> unchanged(rhs))
    ensures lhs.value as int == old(lhs.value) as int + old(rhs.value) as int
  {
    lhs.value := lhs.value + rhs.value;
    self := lhs;
  }

  method SubAssign<Tag>(lhs: Tagged<int32, Tag>, rhs: Tagged<int32, Tag>) returns (self: Tagged<int32, Tag>)
    requires InInt32(lhs.value as int - rhs.value as int)
    modifies lhs
    ensures self == lhs && (rhs != lhs ==> unchanged(rhs))
    ensures lhs.value as int == old(lhs.value) as int - old(rhs.value) as int
  {
    lhs.value := lhs.value - rhs.value;
    self := lhs;
  }

  method MulAssign<Tag>(lhs: Tagged<int32, Tag>, rhs: Tagged<int32, Tag>) returns (self: Tagged<int32, Tag>)
    requires InInt32(lhs.value as int * rhs.value as int)
    modifies lhs
    ensures self == lhs && (rhs != lhs ==> unchanged(rhs))
    ensures lhs.value as int == old(lhs.value) as int * old(rhs.value) as int
  {
    lhs.value := lhs.value * rhs.value;
    self := lhs;
  }

  method DivAssign<Tag>(lhs: Tagged<int32, Tag>, rhs: Tagged<int32, Tag>) returns (self: Tagged<int32, Tag>)
    requires rhs.value != 0 && !(lhs.value as int == MinInt32 && rhs.value == -1)
    modifies lhs
    ensures self == lhs && (rhs != lhs ==> unchanged(rhs))
    ensures lhs.value as int == Quot(old(lhs.value) as int, old(rhs.value) as int)
  {
    lhs.value := Div32(lhs.value, rhs.value);
    self := lhs;
  }

  method ModAssign<Tag>(lhs: Tagged<int32, Tag>, rhs: Tagged<int32, Tag>) returns (self: Tagged<int32, Tag>)
    requires rhs.value != 0 && !(lhs.value as int == MinInt32 && rhs.value == -1)
    modifies lhs
    ensures self == lhs && (rhs != lhs ==> unchanged(rhs))
    ensures lhs.value as int == Rem(old(lhs.value) as int, old(rhs.value) as int)
  {
    lhs.value := Rem32(lhs.value, rhs.value);
    self := lhs;
  }

  method OrAssign<Tag>(lhs: Tagged<bv32, Tag>, rhs: Tagged<bv32, Tag>) returns (self: Tagged<bv32, Tag>)
    modifies lhs
    ensures self == lhs && (rhs != lhs ==> unchanged(rhs))
    ensures lhs.value == old(lhs.value) | old(rhs.value)
  {
    lhs.value := lhs.value | rhs.value;
    self := lhs;
  }

  method XorAssign<Tag>(lhs: Tagged<bv32, Tag>, rhs: Tagged<bv32, Tag>) returns (self: Tagged<bv32, Tag>)
    modifies lhs
    ensures self == lhs && (rhs != lhs ==> unchanged(rhs))
    ensures lhs.value == old(lhs.value) ^ old(rhs.value)
  {
    lhs.value := lhs.value ^ rhs.value;
    self := lhs;
  }

  method AndAssign<Tag>(lhs: Tagged<bv32, Tag>, rhs: Tagged<bv32, Tag>) returns (self: Tagged<bv32, Tag>)
    modifies lhs
    ensures self == lhs && (rhs != lhs ==> unchanged(rhs))
    ensures lhs.value == old(lhs.value) & old(rhs.value)
  {
    lhs.value := lhs.value & rhs.value;
    self := lhs;
  }

  method ShiftLeftAssign<Tag>(lhs: Tagged<bv32, Tag>, rhs: Tagged<bv32, Tag>) returns (self: Tagged<bv32, Tag>)
    requires rhs.value < 32
    modifies lhs
    ensures self == lhs && (rhs != lhs ==> unchanged(rhs))
    ensures lhs.value == old(lhs.value) << (old(rhs.value) as int)
  {
    lhs.value := lhs.value << (rhs.value as int);
    self := lhs;
  }

  method ShiftRightAssign<Tag>(lhs: Tagged<bv32, Tag>, rhs: Tagged<bv32, Tag>) returns (self: Tagged<bv32, Tag>)
    requires rhs.value < 32
    modifies lhs
    ensures self == lhs && (rhs != lhs ==> unchanged(rhs))
    ensures lhs.value == old(lhs.value) >> (old(rhs.value) as int)
  {
    lhs.value := lhs.value >> (rhs.value as int);
    self := lhs;
  }

  // ---------------------------------------------------------------------------
  // Unary operators

  /** Unary `+` on `int` is the identity (Dafny has no unary `+`), wrapped
      anew. */
  method UnaryPlus<Tag>(v: Tagged<int32, Tag>) returns (r: Tagged<int32, Tag>)
    ensures fresh(r) && r.value == v.value
  {
    r := new Tagged(v.value);
  }

  /** Unary `-`; negating `INT_MIN` overflows. */
  method Negate<Tag>(v: Tagged<int32, Tag>) returns (r: Tagged<int32, Tag>)
    requires MinInt32 < v.value as int
    ensures fresh(r) && r.value as int == -(v.value as int)
  {
    r := new Tagged(-v.value);
  }
}
