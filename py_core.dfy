/**
 * The pieces of Python's own semantics that the modelled files lean on:
 * the exception kinds they raise, a failure-compatible Result, `int()` on a
 * float (truncation toward zero) and `%` on floats with a positive modulus.
 */
module PyCore {

  /** The Python exception classes raised by the modelled code. */
  datatype Error =
    | ValueError
    | AssertionError
    | IndexError
    | NotImplementedError
    | AttributeError
    | ZeroDivisionError
    | ValidationError   // pydantic rejects a field value

  datatype Option<+T> = None | Some(value: T)

  /** A value, or the exception the Python code raises instead. */
  datatype Result<+T> = Ok(value: T) | Err(error: Error) {
    predicate IsFailure() { Err? }

    function PropagateFailure<U>(): Result<U>
      requires Err?
    {
      Err(error)
    }

    function Extract(): T
      requires Ok?
    {
      value
    }
  }

  /** `int(x)` for a float `x`: truncation toward zero. */
  function Trunc(x: real): (r: int)
    ensures 0.0 <= x ==> 0 <= r && r as real <= x < r as real + 1.0
    ensures x < 0.0 ==> r <= 0 && r as real - 1.0 < x <= r as real
  {
    if x >= 0.0 then x.Floor else -((-x).Floor)
  }

  /** Python's `x % m` for a positive modulus: the remainder takes the sign of `m`. */
  function FloatMod(x: real, m: real): (r: real)
    requires m > 0.0
    ensures 0.0 <= r < m
  {
    var k := (x / m).Floor;
    FloorBounds(x, m, k);
    x - m * (k as real)
  }

  /** `k = floor(x / m)` places `x` in `[m*k, m*k + m)`. */
  lemma FloorBounds(x: real, m: real, k: int)
    requires m > 0.0 && k == (x / m).Floor
    ensures m * (k as real) <= x < m * (k as real) + m
  {
    var f := x / m - k as real;
    assert 0.0 <= f < 1.0;
    NonNegProduct(m, f);
    NonNegProduct(m, 1.0 - f);
    assert m * f == x - m * (k as real);
    assert m * (1.0 - f) == m - m * f;
    Shift(x, m, k as real, m * f, m * (1.0 - f));
  }

  lemma NonNegProduct(a: real, b: real)
    requires a > 0.0 && b >= 0.0
    ensures a * b >= 0.0 && (b > 0.0 ==> a * b > 0.0)
  {}

  lemma Shift(x: real, m: real, y: real, lo: real, hi: real)
    requires lo == x - m * y && hi == m - lo && lo >= 0.0 && hi > 0.0
    ensures m * y <= x < m * y + m
  {}
}
