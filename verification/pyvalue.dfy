/**
 Python values that the trainer reads out of its configuration dictionary, and
 the few Python operations the trainer applies to them: truthiness, equality
 with an int counter, and conversion to a `range` bound.
 */
module PyValue {
  import opened Wrappers

  /** A configuration value: a Python int, float, bool or `None`. */
  datatype Value = Int(i: int) | Real(r: real) | Bool(b: bool) | PyNone

  /** Python truthiness (`not v` is `!Truthy(v)`). */
  predicate Truthy(v: Value)
  {
    match v
    case Int(i) => i != 0
    case Real(r) => r != 0.0
    case Bool(b) => b
    case PyNone => false
  }

  /** Python `n == v` for an int `n`: ints and floats compare by value, and
      `True`/`False` equal 1 and 0. */
  predicate EqualsInt(n: int, v: Value)
  {
    match v
    case Int(i) => n == i
    case Real(r) => n as real == r
    case Bool(b) => n == (if b then 1 else 0)
    case PyNone => false
  }

  /** The int a counter must reach to compare equal to `v`; a float with a
      fractional part, or `None`, equals no int, so it is mapped to 0, which
      a counter that has just been incremented from 0 never equals. */
  function EqualityThreshold(v: Value): int
  {
    match v
    case Int(i) => i
    case Real(r) => if r.Floor as real == r then r.Floor else 0
    case Bool(b) => if b then 1 else 0
    case PyNone => 0
  }

  /** For every positive counter, comparing with the threshold is the same
      as Python equality with the value itself. */
  lemma ThresholdMatchesEquality(n: int, v: Value)
    requires n >= 1
    ensures EqualsInt(n, v) <==> n == EqualityThreshold(v)
  {
  }

  /** The int that `v + 1` is one more than when it is used as a `range`
      bound: ints and bools convert, while a float (a float `range`
      argument) or `None` (no `+` for `None`) raises TypeError, written
      `None` here. */
  function RangeBound(v: Value): (r: Option<int>)
    ensures r.None? <==> v.Real? || v.PyNone?
    ensures r.Some? ==> EqualsInt(r.value, v)
  {
    match v
    case Int(i) => Some(i)
    case Real(_) => None
    case Bool(b) => Some(if b then 1 else 0)
    case PyNone => None
  }

  /** Python `v < 0`: numbers and bools compare by value, while `None`
      raises TypeError, written `None` here. */
  function LessThanZero(v: Value): (r: Option<bool>)
    ensures r.None? <==> v.PyNone?
    ensures r.Some? ==> (r.value <==> (v.Int? && v.i < 0) || (v.Real? && v.r < 0.0))
    ensures r == Some(true) ==> Truthy(v) && !v.Bool?
  {
    match v
    case Int(i) => Some(i < 0)
    case Real(x) => Some(x < 0.0)
    case Bool(_) => Some(false)
    case PyNone => None
  }
}
