/**
 * The helpers of `reviutils/common/__init__.py` that the noise modules rely
 * on: `grade` (a `bisect_left` over sorted breakpoints), the choice made by
 * `get_passrate`, and the banker's rounding of `round_half_even`.
 */
module Common {
  import opened PyCore

  // ---------------------------------------------------------------------
  // grade

  predicate Sorted(a: seq<real>) {
    forall i, j :: 0 <= i < j < |a| ==> a[i] <= a[j]
  }

  /** `bisect_left(a, x, lo, hi)`: the standard binary search, whether or not `a` is sorted. */
  function BisectLeft(a: seq<real>, x: real, lo: nat, hi: nat): (r: nat)
    requires lo <= hi <= |a|
    ensures lo <= r <= hi
    decreases hi - lo
  {
    if lo < hi then
      var mid := (lo + hi) / 2;
      if a[mid] < x then BisectLeft(a, x, mid + 1, hi) else BisectLeft(a, x, lo, mid)
    else lo
  }

  /** The number of entries of `a` strictly below `x`: the reference meaning of the search. */
  function CountBelow(a: seq<real>, x: real): (n: nat)
    ensures n <= |a|
  {
    if a == [] then 0 else (if a[0] < x then 1 else 0) + CountBelow(a[1..], x)
  }

  /**
   * On a sorted sequence the search splits it: everything before the result is
   * below `x` and everything from the result on is at least `x`.
   */
  lemma {:induction false} BisectLeftSplits(a: seq<real>, x: real, lo: nat, hi: nat)
    requires Sorted(a) && lo <= hi <= |a|
    requires forall i :: 0 <= i < lo ==> a[i] < x
    requires forall i :: hi <= i < |a| ==> x <= a[i]
    ensures var r := BisectLeft(a, x, lo, hi);
      (forall i :: 0 <= i < r ==> a[i] < x) && (forall i :: r <= i < |a| ==> x <= a[i])
    decreases hi - lo
  {
    if lo < hi {
      var mid := (lo + hi) / 2;
      if a[mid] < x {
        assert forall i :: 0 <= i < mid + 1 ==> a[i] <= a[mid];
        assert BisectLeft(a, x, lo, hi) == BisectLeft(a, x, mid + 1, hi);
        BisectLeftSplits(a, x, mid + 1, hi);
      } else {
        assert forall i :: mid <= i < |a| ==> a[mid] <= a[i];
        assert BisectLeft(a, x, lo, hi) == BisectLeft(a, x, lo, mid);
        BisectLeftSplits(a, x, lo, mid);
      }
    }
  }

  /** A split point of `a` for `x` is the count of entries below `x`. */
  lemma {:induction false} SplitIsCount(a: seq<real>, x: real, r: nat)
    requires r <= |a|
    requires forall i :: 0 <= i < r ==> a[i] < x
    requires forall i :: r <= i < |a| ==> x <= a[i]
    ensures CountBelow(a, x) == r
  {
    if a != [] {
      if r > 0 {
        SplitIsCount(a[1..], x, r - 1);
      } else {
        assert !(a[0] < x);
        SplitIsCount(a[1..], x, 0);
      }
    }
  }

  /** On sorted breakpoints the search returns the number of breakpoints below `x`. */
  lemma BisectLeftIsCount(a: seq<real>, x: real)
    requires Sorted(a)
    ensures BisectLeft(a, x, 0, |a|) == CountBelow(a, x)
  {
    BisectLeftSplits(a, x, 0, |a|);
    SplitIsCount(a, x, BisectLeft(a, x, 0, |a|));
  }

  /** Counting entries below a threshold is monotone in the threshold, sorted or not. */
  lemma {:induction false} CountBelowMonotone(a: seq<real>, x: real, y: real)
    requires x <= y
    ensures CountBelow(a, x) <= CountBelow(a, y)
  {
    if a != [] {
      CountBelowMonotone(a[1..], x, y);
    }
  }

  /** `grade(score, breakpoints, grades)`: `grades[i]`, or IndexError when `i` is past its end. */
  function Grade<G>(score: real, breakpoints: seq<real>, grades: seq<G>): (r: Result<G>)
    ensures r.Ok? <==> BisectLeft(breakpoints, score, 0, |breakpoints|) < |grades|
    ensures r.Err? ==> r.error == IndexError
  {
    var i := BisectLeft(breakpoints, score, 0, |breakpoints|);
    if i < |grades| then Ok(grades[i]) else Err(IndexError)
  }

  /** The grade index: how many sorted breakpoints lie strictly below the score. */
  lemma GradeSorted<G>(score: real, breakpoints: seq<real>, grades: seq<G>)
    requires Sorted(breakpoints)
    ensures var i := CountBelow(breakpoints, score);
      Grade(score, breakpoints, grades) == if i < |grades| then Ok(grades[i]) else Err(IndexError)
  {
    BisectLeftIsCount(breakpoints, score);
  }

  /** With one more grade than breakpoints, grading never fails. */
  lemma GradeTotal<G>(score: real, breakpoints: seq<real>, grades: seq<G>)
    requires |grades| > |breakpoints|
    ensures Grade(score, breakpoints, grades).Ok?
  {
  }

  /** A higher score never gets an earlier grade. */
  lemma GradeMonotone(s1: real, s2: real, breakpoints: seq<real>)
    requires Sorted(breakpoints) && s1 <= s2
    ensures BisectLeft(breakpoints, s1, 0, |breakpoints|) <= BisectLeft(breakpoints, s2, 0, |breakpoints|)
  {
    BisectLeftIsCount(breakpoints, s1);
    BisectLeftIsCount(breakpoints, s2);
    CountBelowMonotone(breakpoints, s1, s2);
  }

  /** The documented example, and a score on a breakpoint taking the lower grade. */
  lemma GradeExamples()
    ensures Grade(75.0, [60.0, 70.0, 80.0, 90.0], "EDCBA") == Ok('C')
    ensures Grade(60.0, [60.0, 70.0, 80.0, 90.0], "EDCBA") == Ok('E')
    ensures Grade(95.0, [60.0, 70.0, 80.0, 90.0], "EDCBA") == Ok('A')
  {
    var bps := [60.0, 70.0, 80.0, 90.0];
    GradeSorted(75.0, bps, "EDCBA");
    GradeSorted(60.0, bps, "EDCBA");
    GradeSorted(95.0, bps, "EDCBA");
    assert bps[1..] == [70.0, 80.0, 90.0];
    assert bps[2..] == [80.0, 90.0];
    assert bps[3..] == [90.0];
  }

  // ---------------------------------------------------------------------
  // get_passrate

  /** The replacement string, or the percentage that the `'{:.2f}%'` format prints. */
  datatype PassRate = Replacement(text: string) | Percentage(percent: real)

  function GetPassrate(passNum: int, total: int, rep: string, checkPass: bool): (r: PassRate)
    ensures r.Replacement? <==> total == 0 || (checkPass && passNum == 0)
    ensures r.Replacement? ==> r.text == rep
    ensures r.Percentage? ==> r.percent * (total as real) == (passNum as real) * 100.0
  {
    if checkPass && (passNum == 0 || total == 0) then Replacement(rep)
    else if !checkPass && total == 0 then Replacement(rep)
    else
      var q := passNum as real / total as real;
      assert q * (total as real) == passNum as real;
      Percentage(q * 100.0)
  }

  /** The documented examples: 10 of 20 is 50%, 0 of 20 is 0% unless zero passes are replaced. */
  lemma PassrateExamples()
    ensures GetPassrate(10, 20, "-", false) == Percentage(50.0)
    ensures GetPassrate(0, 20, "-", false) == Percentage(0.0)
    ensures GetPassrate(0, 20, "-", true) == Replacement("-")
  {
  }

  // ---------------------------------------------------------------------
  // round_half_even

  function Pow10Nat(k: nat): (r: nat)
    ensures r >= 1
  {
    if k == 0 then 1 else 10 * Pow10Nat(k - 1)
  }

  /** `10 ** e` as an exact real. */
  function Pow10(e: int): (r: real)
    ensures r > 0.0
  {
    if e >= 0 then Pow10Nat(e) as real else 1.0 / Pow10Nat(-e) as real
  }

  /**
   * The exponent of `Decimal(f'{10**(-precision)}')`: for `precision <= 0` the
   * power is an integer, so the quantum is 1; up to 323 the float prints as
   * `1e-p` or `0.0…01`; from 324 on it underflows to `0.0`, whose exponent is -1.
   */
  function QuantumExponent(precision: int): (e: int)
    ensures precision <= 0 ==> e == 0
    ensures 1 <= precision <= 323 ==> e == -precision
    ensures precision >= 324 ==> e == -1
  {
    if precision <= 0 then 0 else if precision <= 323 then -precision else -1
  }

  /** The integer nearest to `x`, ties going to the even neighbour. */
  function NearestEven(x: real): (n: int)
    ensures -0.5 <= x - n as real <= 0.5
    ensures (x - n as real == 0.5 || x - n as real == -0.5) ==> n % 2 == 0
  {
    var f := x.Floor;
    var frac := x - f as real;
    if frac < 0.5 then f
    else if frac > 0.5 then f + 1
    else if f % 2 == 0 then f
    else f + 1
  }

  /** The nearest integer is determined: any integer closer than 1/2, or an even one at 1/2, is it. */
  lemma NearestEvenUnique(x: real, k: int)
    requires -0.5 < x - k as real < 0.5 || ((x - k as real == 0.5 || x - k as real == -0.5) && k % 2 == 0)
    ensures NearestEven(x) == k
  {
  }

  /** The default decimal context keeps 28 significant digits; a longer coefficient is InvalidOperation. */
  const DecimalPrecision: nat := 28

  /** The least coefficient with more than `DecimalPrecision` digits. */
  const CoefficientLimit: nat := 10000000000000000000000000000

  lemma CoefficientLimitIsPower()
    ensures CoefficientLimit == Pow10Nat(DecimalPrecision)
  {
    assert Pow10Nat(7) == 10000000;
    Pow10NatAdd(7, 7);
    Pow10NatAdd(14, 14);
  }

  /** Powers of ten multiply by adding exponents. */
  lemma {:induction false} Pow10NatAdd(a: nat, b: nat)
    ensures Pow10Nat(a + b) == Pow10Nat(a) * Pow10Nat(b)
  {
    if a > 0 {
      Pow10NatAdd(a - 1, b);
      assert Pow10Nat(a + b) == 10 * (Pow10Nat(a - 1) * Pow10Nat(b));
    }
  }

  /** CPython's default limit on the number of digits `str()` converts from an `int`. */
  const MaxStrDigits: nat := 4300

  /**
   * `f'{10**(-precision)}'` formats without raising: a float always does, and
   * for `precision <= 0` the integer power has `1 - precision` digits.
   */
  predicate QuantumPrintable(precision: int) {
    precision <= 0 ==> 1 - precision <= MaxStrDigits
  }

  /**
   * `round_half_even(value, precision)`: a float, or `'-'` when building the
   * quantum or `quantize` raises.
   */
  datatype Rounded = Num(value: real) | Dash

  function RoundHalfEven(value: real, precision: int): (r: Rounded)
    ensures var q := Pow10(QuantumExponent(precision));
      r.Num? ==> r.value == NearestEven(value / q) as real * q
    ensures r.Dash? <==>
              (!QuantumPrintable(precision)
               || CoefficientLimit <= Abs(NearestEven(value / Pow10(QuantumExponent(precision)))))
  {
    if !QuantumPrintable(precision) then Dash
    else
      var q := Pow10(QuantumExponent(precision));
      var n := NearestEven(value / q);
      if CoefficientLimit <= Abs(n) then Dash else Num(n as real * q)
  }

  /** A rounded value lies within half a quantum of the value. */
  lemma RoundHalfEvenWithinHalfQuantum(value: real, precision: int)
    ensures var q, r := Pow10(QuantumExponent(precision)), RoundHalfEven(value, precision);
      r.Num? ==> -q / 2.0 <= r.value - value <= q / 2.0
  {
    var q := Pow10(QuantumExponent(precision));
    ScaledDistance(value, q, NearestEven(value / q));
  }

  function Abs(n: int): nat {
    if n < 0 then -n else n
  }

  /** Scaling a distance of at most 1/2 by the quantum `q`. */
  lemma ScaledDistance(v: real, q: real, n: int)
    requires q > 0.0 && -0.5 <= v / q - n as real <= 0.5
    ensures -q / 2.0 <= n as real * q - v <= q / 2.0
  {
    var d := v / q - n as real;
    assert v == (v / q) * q;
    assert n as real * q - v == -(d * q);
    assert -0.5 * q <= d * q <= 0.5 * q;
  }

  /**
   * The multiple `k * q` of a quantum nearest to `v`, a tie going to the even
   * `k`, has index `NearestEven(v / q)`: this is the multiple `RoundHalfEven` returns.
   */
  lemma NearestMultipleIndex(v: real, q: real, k: int)
    requires q > 0.0
    requires -q / 2.0 < v - k as real * q < q / 2.0 ||
      ((v - k as real * q == q / 2.0 || v - k as real * q == -q / 2.0) && k % 2 == 0)
    ensures NearestEven(v / q) == k
  {
    UnscaledDistance(v, q, k);
    NearestEvenUnique(v / q, k);
  }

  /** Dividing a distance from `k * q` by the quantum `q`. */
  lemma UnscaledDistance(v: real, q: real, k: int)
    requires q > 0.0
    ensures v / q - k as real == (v - k as real * q) / q
    ensures (v - k as real * q == q / 2.0) <==> (v / q - k as real == 0.5)
    ensures (v - k as real * q == -q / 2.0) <==> (v / q - k as real == -0.5)
    ensures (-q / 2.0 < v - k as real * q < q / 2.0) <==> (-0.5 < v / q - k as real < 0.5)
  {
    var d := v - k as real * q;
    var e := v / q - k as real;
    assert v / q - k as real == d / q;
    assert d == e * q;
    SignOfProduct(e - 0.5, q);
    SignOfProduct(e + 0.5, q);
    assert (e - 0.5) * q == d - q / 2.0;
    assert (e + 0.5) * q == d + q / 2.0;
  }

  /** Multiplying by a positive number keeps the sign. */
  lemma SignOfProduct(a: real, q: real)
    requires q > 0.0
    ensures a < 0.0 <==> a * q < 0.0
    ensures a == 0.0 <==> a * q == 0.0
  {
    if a < 0.0 {
      assert a * q == -((-a) * q);
    }
  }

  /**
   * The documented example: 3.141592653589793 to two places is 3.14; a tie
   * goes to the even digit; a power of ten of 4301 digits cannot be printed.
   */
  lemma RoundHalfEvenExamples()
    ensures RoundHalfEven(3.141592653589793, 2) == Num(3.14)
    ensures RoundHalfEven(0.25, 1) == Num(0.2)
    ensures RoundHalfEven(2.5, 0) == Num(2.0)
    ensures RoundHalfEven(2.5, -4299) == Num(2.0)
    ensures RoundHalfEven(2.5, -4300) == Dash
  {
    assert Pow10(QuantumExponent(2)) == 0.01;
    assert NearestEven(3.141592653589793 / 0.01) == 314;
    assert Pow10(QuantumExponent(1)) == 0.1;
    assert NearestEven(0.25 / 0.1) == 2;
    assert Pow10(QuantumExponent(0)) == 1.0;
    assert NearestEven(2.5 / 1.0) == 2;
  }
}
