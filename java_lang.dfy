/**
 * The few pieces of Java semantics the productivity service relies on:
 * nullable references, the one exception it can raise, and 32-bit `int`
 * arithmetic (two's-complement wrap-around, division truncating toward zero).
 */
module JavaLang {

  /** A Java reference that may be null. */
  datatype Option<+T> = None | Some(value: T)

  /** The exceptions the modelled code can raise. */
  datatype Exception = ArithmeticException

  /** A value, or the exception thrown instead of producing it. */
  datatype Result<+T> = Ok(value: T) | Err(error: Exception)

  const INT_MIN: int := -0x8000_0000
  const INT_MAX: int := 0x7fff_ffff
  const INT_RANGE: int := 0x1_0000_0000

  /** `x` is representable as a Java `int`. */
  predicate IsInt(x: int) {
    INT_MIN <= x <= INT_MAX
  }

  /**
   * The Java `int` that a mathematical integer wraps to: the value in range
   * that differs from `x` by a multiple of 2^32.
   */
  function Wrap(x: int): (r: int)
    ensures IsInt(r)
    ensures IsInt(x) ==> r == x
  {
    (x - INT_MIN) % INT_RANGE + INT_MIN
  }

  /** How many times 2^32 is taken off `x` by wrapping. */
  function Overflows(x: int): int {
    (x - INT_MIN) / INT_RANGE
  }

  lemma WrapDecompose(x: int)
    ensures x == Wrap(x) + INT_RANGE * Overflows(x)
  {
  }

  /** The wrapped value is the only `int` that differs from `x` by a multiple of 2^32. */
  lemma WrapUnique(x: int, r: int, k: int)
    requires IsInt(r) && x == r + INT_RANGE * k
    ensures Wrap(x) == r
  {
    WrapDecompose(x);
    var d := k - Overflows(x);
    assert Wrap(x) - r == INT_RANGE * d;
  }

  /** Wrapping the operands of a sum does not change the wrapped sum. */
  lemma WrapAdd(a: int, b: int)
    ensures Wrap(Wrap(a) + Wrap(b)) == Wrap(a + b)
  {
    WrapDecompose(a);
    WrapDecompose(b);
    WrapDecompose(a + b);
    WrapUnique(Wrap(a) + Wrap(b), Wrap(a + b), Overflows(a + b) - Overflows(a) - Overflows(b));
  }

  /** A sum of three wrapped terms, added in Java `int`, is the exact sum wrapped once. */
  lemma WrapSum3(x: int, y: int, z: int)
    ensures Add(Add(Wrap(x), Wrap(y)), Wrap(z)) == Wrap(x + y + z)
  {
    WrapAdd(x, y);
    WrapAdd(x + y, z);
  }

  /** Java `a + b` on `int`. */
  function Add(a: int, b: int): int {
    Wrap(a + b)
  }

  /** Java `a * b` on `int`. */
  function Mul(a: int, b: int): int {
    Wrap(a * b)
  }

  /** Mathematical division rounding toward zero, as Java's `/` rounds. */
  function TruncDiv(a: int, b: int): (q: int)
    requires b != 0
    ensures a >= 0 ==> 0 <= a - q * b < Abs(b)
    ensures a < 0 ==> -Abs(b) < a - q * b <= 0
  {
    if a >= 0 && b > 0 then a / b
    else if a >= 0 then -(a / -b)
    else if b > 0 then -(-a / b)
    else -a / -b
  }

  function Abs(x: int): int {
    if x < 0 then -x else x
  }

  /**
   * Java `a / b` on `int`: throws ArithmeticException on a zero divisor;
   * otherwise truncates toward zero and wraps (`INT_MIN / -1 == INT_MIN`).
   */
  function Div(a: int, b: int): (r: Result<int>)
    ensures r.Err? <==> b == 0
    ensures r.Err? ==> r.error == ArithmeticException
    ensures r.Ok? ==> IsInt(r.value)
    ensures r.Ok? ==> r.value == Wrap(TruncDiv(a, b))
  {
    if b == 0 then Err(ArithmeticException) else Ok(Wrap(TruncDiv(a, b)))
  }
}
