/**
 * `is_daytime` of `reviutils/noisepollution/hourhelper.py`: a single-dispatch
 * function that decides whether an hour lies in the daytime 06:00-22:00 of
 * GB 3096-2008, for int, float, bool, datetime and string arguments.
 */
module HourHelper {
  import opened PyCore

  /** An hour of a `datetime`, always in `range(24)`. */
  type ClockHour = h: int | 0 <= h < 24

  /**
   * The argument, tagged by its Python type. A string carries the hour that
   * `strptime(s, '%Y-%m-%d %H:%M:%S')` parses from it, or `None` when parsing fails.
   */
  datatype TimeArg =
    | IntHour(i: int)
    | FloatHour(f: real)
    | BoolFlag(b: bool)
    | DateTime(hour: ClockHour)
    | TimeString(parsed: Option<ClockHour>)
    | Unsupported

  /** `_day_hours = range(6, 22)`. */
  const DayStart: int := 6
  const DayEnd: int := 22
  /** `_hour_range = range(24)`. */
  const HoursPerDay: int := 24

  predicate InDayHours(h: int) {
    h in Range(DayStart, DayEnd)
  }

  /** Which arguments re-dispatch: a float goes on to the int rule, a string to the datetime rule. */
  function DispatchDepth(t: TimeArg): nat {
    if t.FloatHour? || t.TimeString? then 1 else 0
  }

  function IsDaytime(t: TimeArg): (r: Result<bool>)
    ensures t.IntHour? ==> (r.Ok? <==> 0 <= t.i < HoursPerDay)
    ensures t.IntHour? && r.Ok? ==> (r.value <==> 6 <= t.i <= 21)
    ensures t.FloatHour? ==> (r.Ok? <==> 0 <= Trunc(t.f) < HoursPerDay)
    ensures t.FloatHour? && r.Ok? ==> (r.value <==> 6 <= Trunc(t.f) <= 21)
    ensures (t.IntHour? || t.FloatHour?) && r.Err? ==> r.error == AssertionError
    ensures t.BoolFlag? ==> r == Ok(t.b)
    ensures t.DateTime? ==> r == Ok(6 <= t.hour <= 21)
    ensures t.TimeString? ==> (r.Err? <==> t.parsed.None?) && (r.Err? ==> r.error == ValueError)
    ensures t.TimeString? && r.Ok? ==> (r.value <==> 6 <= t.parsed.value <= 21)
    ensures t.Unsupported? ==> r == Err(NotImplementedError)
    decreases DispatchDepth(t)
  {
    match t
    case IntHour(h) => if h in Range(0, HoursPerDay) then Ok(InDayHours(h)) else Err(AssertionError)
    case FloatHour(f) => IsDaytime(IntHour(Trunc(f)))
    case BoolFlag(b) => Ok(b)
    case DateTime(h) => Ok(InDayHours(h))
    case TimeString(parsed) =>
      (match parsed
       case None => Err(ValueError)
       case Some(h) => IsDaytime(DateTime(h)))
    case Unsupported => Err(NotImplementedError)
  }

  /** A float hour is accepted exactly when it lies in (-1, 24), since `int()` truncates toward zero. */
  lemma FloatHourAccepted(f: real)
    ensures IsDaytime(FloatHour(f)).Ok? <==> -1.0 < f < 24.0
  {
    var h := Trunc(f);
    if -1.0 < f < 24.0 {
      assert 0 <= h < 24;
    } else if f <= -1.0 {
      assert h <= -1;
    } else {
      assert h >= 24;
    }
  }

  /** Python's `range(lo, hi)` as a set of integers. */
  function Range(lo: int, hi: int): (r: set<int>)
    ensures forall h :: h in r <==> lo <= h < hi
    decreases hi - lo
  {
    if lo < hi then {lo} + Range(lo + 1, hi) else {}
  }

  /** `range(lo, hi)` holds `hi - lo` integers. */
  lemma {:induction false} RangeSize(lo: int, hi: int)
    requires lo <= hi
    ensures |Range(lo, hi)| == hi - lo
    decreases hi - lo
  {
    if lo < hi {
      RangeSize(lo + 1, hi);
      assert lo !in Range(lo + 1, hi);
    }
  }

  /** Of the 24 clock hours exactly 16, the hours in `range(6, 22)`, are daytime. */
  lemma SixteenDayHours()
    ensures (set h | h in Range(0, 24) && IsDaytime(IntHour(h)) == Ok(true)) == Range(6, 22)
    ensures |set h | h in Range(0, 24) && IsDaytime(IntHour(h)) == Ok(true)| == 16
  {
    RangeSize(6, 22);
    assert (set h | h in Range(0, 24) && IsDaytime(IntHour(h)) == Ok(true)) == Range(6, 22);
  }

  /** A parsed string, its datetime and its hour as an int are judged alike. */
  lemma DispatchAgrees(h: ClockHour)
    ensures IsDaytime(TimeString(Some(h))) == IsDaytime(DateTime(h)) == IsDaytime(IntHour(h))
    ensures IsDaytime(FloatHour(h as real)) == IsDaytime(IntHour(h))
  {
    assert Trunc(h as real) == h;
  }
}
