/**
 * 32-bit two's-complement integer arithmetic as C# performs it in an
 * unchecked context, and the exceptions the .NET runtime raises instead of
 * returning a value.
 */
module Numerics {

  const TwoTo31: int := 0x8000_0000
  const TwoTo32: int := 0x1_0000_0000
  const Int32Min: int := -0x8000_0000
  const Int32Max: int := 0x7fff_ffff

  type Int32 = x: int | -0x8000_0000 <= x < 0x8000_0000

  /** The exceptions of the runtime that the modelled code can raise. */
  datatype Exception = OverflowException | DivideByZeroException | NullReferenceException

  /** A value, or the exception thrown while computing it. */
  datatype Fallible<+T> = Ok(value: T) | Thrown(error: Exception)

  /** The 32-bit two's-complement value congruent to `v` modulo 2^32. */
  function Wrap32(v: int): (r: Int32)
    ensures (v - r) % TwoTo32 == 0
    ensures Int32Min <= v <= Int32Max ==> r == v
  {
    (v + TwoTo31) % TwoTo32 - TwoTo31
  }

  /** Unchecked C# `a + b` on `int`. */
  function Add32(a: int, b: int): Int32 { Wrap32(a + b) }

  /** Unchecked C# `a * b` on `int`. */
  function Mul32(a: int, b: int): Int32 { Wrap32(a * b) }

  /** `Math.Abs(int)`: throws for `int.MinValue`, whose negation does not fit. */
  function Abs32(a: Int32): (r: Fallible<Int32>)
    ensures r.Thrown? <==> a == Int32Min
    ensures r.Thrown? ==> r.error == OverflowException
    ensures r.Ok? ==> 0 <= r.value && (r.value == a || r.value == -a)
  {
    if a == Int32Min then Thrown(OverflowException)
    else if a < 0 then Ok(-a) else Ok(a)
  }

  /**
   * C# `a % b` on `int`: the remainder takes the sign of the dividend; a zero
   * divisor throws, and so does `int.MinValue % -1`.
   */
  function Rem32(a: Int32, b: Int32): (r: Fallible<Int32>)
    ensures r.Thrown? <==> b == 0 || (a == Int32Min && b == -1)
    ensures r.Ok? && a >= 0 ==> 0 <= r.value < (if b < 0 then -(b as int) else b as int)
    ensures r.Ok? && a >= 0 && b > 0 ==> r.value == a % b
  {
    if b == 0 then Thrown(DivideByZeroException)
    else if a == Int32Min && b == -1 then Thrown(OverflowException)
    else
      var m: int := if b < 0 then -(b as int) else b as int;
      var r: int := if a >= 0 then (a as int) % m else -((-(a as int)) % m);
      Ok(r)
  }

  /** Adding a multiple of 2^32 does not change the wrapped value. */
  lemma WrapShift(v: int, k: int)
    ensures Wrap32(v + k * TwoTo32) == Wrap32(v)
  {
    var a := v + TwoTo31;
    var q, r := a / TwoTo32, a % TwoTo32;
    assert a == q * TwoTo32 + r && 0 <= r < TwoTo32;
    assert a + k * TwoTo32 == (q + k) * TwoTo32 + r;
    DivModUnique(a + k * TwoTo32, TwoTo32, q + k, r);
  }

  lemma DivModUnique(a: int, n: int, q: int, r: int)
    requires n > 0 && 0 <= r < n && a == q * n + r
    ensures a / n == q && a % n == r
  {
    var q', r' := a / n, a % n;
    assert a == q' * n + r' && 0 <= r' < n;
    var d := q' - q;
    assert d * n == r - r';
    MulBound(d, n);
    if d != 0 {
      assert false;
    }
  }

  /** Multiplying by a non-negative factor preserves `<=`. */
  lemma MulLeq(a: int, b: int, c: int)
    ensures a <= b && c >= 0 ==> a * c <= b * c
  {
    if a <= b && c >= 0 {
      assert b * c - a * c == (b - a) * c;
    }
  }

  lemma MulBound(d: int, n: int)
    ensures n > 0 && d >= 1 ==> d * n >= n
    ensures n > 0 && d <= -1 ==> d * n <= -n
  {
    if n > 0 && d >= 1 {
      assert d * n == (d - 1) * n + n;
    }
    if n > 0 && d <= -1 {
      assert d * n == (d + 1) * n - n;
    }
  }

  /** Wrapping an intermediate result and wrapping only at the end agree. */
  lemma WrapCongruent(u: int, v: int)
    requires (u - v) % TwoTo32 == 0
    ensures Wrap32(u) == Wrap32(v)
  {
    var k := (u - v) / TwoTo32;
    assert u == v + k * TwoTo32;
    WrapShift(v, k);
  }

  /** One step of a polynomial hash: wrapping `h * 31` before adding `b` changes nothing. */
  lemma MulAddStep(h: int, b: int)
    ensures Add32(Mul32(h, 31), b) == Wrap32(h * 31 + b)
  {
    var w := Wrap32(h * 31);
    var k := (h * 31 - w) / TwoTo32;
    assert h * 31 == w + k * TwoTo32;
    assert w + b == (h * 31 + b) + (-k) * TwoTo32;
    WrapShift(h * 31 + b, -k);
  }
}
