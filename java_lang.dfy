/**
 * The pieces of the Java platform and of Apache Commons Lang that UserDTO's
 * `equals` and `hashCode` are built from: 32-bit `int` arithmetic,
 * `String.hashCode`, and the steps of `EqualsBuilder` and `HashCodeBuilder`.
 */
module JavaLang {
  import opened Wrappers

  const Int32Modulus: int := 0x1_0000_0000
  const Int32Min: int := -0x8000_0000
  const Int32Max: int := 0x7FFF_FFFF

  predicate IsInt32(x: int) { Int32Min <= x <= Int32Max }

  /** Two's-complement wrap-around of an unbounded integer to a Java `int`. */
  function Int32(x: int): (r: int)
    ensures IsInt32(r)
    ensures (x - r) % Int32Modulus == 0
  {
    (x - Int32Min) % Int32Modulus + Int32Min
  }

  /** Integers that differ by a multiple of 2^32 wrap to the same `int`. */
  lemma Int32Congruent(x: int, y: int, k: int)
    requires x == y + k * Int32Modulus
    ensures Int32(x) == Int32(y)
  {
    var m := Int32Modulus;
    var a, b := x - Int32Min, y - Int32Min;
    assert a == b + k * m;
    assert a % m == b % m by {
      var qb, rb := b / m, b % m;
      assert b == qb * m + rb && 0 <= rb < m;
      assert a == (qb + k) * m + rb;
    }
  }

  /** Wrapping before or after a linear step gives the same `int`. */
  lemma Int32Step(x: int, c: int, d: int)
    ensures Int32(Int32(x) * c + d) == Int32(x * c + d)
  {
    var r := Int32(x);
    var k := (x - r) / Int32Modulus;
    assert x == r + k * Int32Modulus by {
      assert (x - r) % Int32Modulus == 0;
    }
    assert x * c + d == r * c + d + (k * c) * Int32Modulus;
    Int32Congruent(x * c + d, r * c + d, k * c);
  }

  /**
   * `String.hashCode`: s[0]*31^(n-1) + ... + s[n-1], computed left to right
   * in `int` arithmetic (an empty string hashes to 0).
   */
  function StringHashCode(s: string): (h: int)
    ensures IsInt32(h)
    ensures s == [] ==> h == 0
  {
    if s == [] then 0
    else Int32(StringHashCode(s[..|s| - 1]) * 31 + s[|s| - 1] as int)
  }

  /**
   * `EqualsBuilder.append(Object, Object)` on two strings: once the builder
   * has seen a difference it stays unequal; otherwise identical references
   * (both null) are equal, one null is unequal, and two strings are compared
   * with `String.equals`.
   */
  function EqualsAppend(isEquals: bool, lhs: Option<string>, rhs: Option<string>): (r: bool)
    ensures r <==> isEquals && lhs == rhs
  {
    if !isEquals then false
    else match (lhs, rhs)
      case (None, None) => true
      case (None, Some(_)) => false
      case (Some(_), None) => false
      case (Some(a), Some(b)) => a == b
  }

  /** The multiplier the user DTO passes to `new HashCodeBuilder(17, 31)`. */
  const HashMultiplier: int := 31
  /** The initial total the user DTO passes to `new HashCodeBuilder(17, 31)`. */
  const HashInitial: int := 17

  /** The hash code a field contributes: 0 for null. */
  function FieldHash(field: Option<string>): (h: int)
    ensures IsInt32(h)
    ensures field.None? ==> h == 0
  {
    match field
    case None => 0
    case Some(s) => StringHashCode(s)
  }

  /**
   * `HashCodeBuilder.append(Object)` on a string: the running total is
   * multiplied by 31 and the field's hash code is added, in `int` arithmetic.
   */
  function HashAppend(total: int, field: Option<string>): (r: int)
    ensures IsInt32(r)
  {
    Int32(total * HashMultiplier + FieldHash(field))
  }
}
