/**
 * The decision logic of `reviutils/noisepollution/splhelper.py`: the empty
 * inputs of `calc_Leq` and `calc_Lt`, the validation and day/night split of
 * `calc_Ldn`, and the assertion and keys of the loop in `calc_PSL`.
 *
 * The level arithmetic itself (log10, powers, means, quantiles over floats)
 * is a parameter: `LevelMath` gives the unrounded levels that the numpy and
 * pandas expressions compute, and the rounding is `Common.RoundHalfEven`.
 */
module SplHelper {
  import opened PyCore
  import opened Common
  import opened HourHelper

  /**
   * The unrounded level formulas: `10*log10(mean(10**(0.1*x)))` (equivalent
   * level), `10*log10(sum(10**(0.1*x)))` (total level), and the pandas
   * quantile of a series at a fraction.
   */
  datatype LevelMath = LevelMath(
    leq: seq<real> -> real,
    lt: seq<real> -> real,
    quantile: (seq<real>, real) -> real)

  // ---------------------------------------------------------------------
  // calc_Leq, calc_Lt

  /** `calc_Leq`: `None` for an empty series, otherwise the rounded equivalent level. */
  function CalcLeq(lm: LevelMath, spl: seq<real>, precision: int): (r: Option<Rounded>)
    ensures r.None? <==> |spl| == 0
    ensures r.Some? ==> r.value == RoundHalfEven(lm.leq(spl), precision)
  {
    if |spl| == 0 then None else Some(RoundHalfEven(lm.leq(spl), precision))
  }

  /** What `calc_Lt` returns: the string `"-"` or a rounded level. */
  datatype LtResult = LtDash | LtLevel(level: Rounded)

  function CalcLt(lm: LevelMath, spl: seq<real>, precision: int): (r: LtResult)
    ensures r.LtDash? <==> |spl| == 0
    ensures r.LtLevel? ==> r.level == RoundHalfEven(lm.lt(spl), precision)
  {
    if |spl| == 0 then LtDash else LtLevel(RoundHalfEven(lm.lt(spl), precision))
  }

  // ---------------------------------------------------------------------
  // calc_Ldn

  /** One row of the frame built from `hour_data` and `leq_data`. */
  datatype Row = Row(hour: int, leq: real)

  predicate HourOutOfRange(h: int) {
    h < 0 || h > 23
  }

  /** The hours reported in the error message, in input order. */
  function InvalidHours(hours: seq<int>): (r: seq<int>)
    ensures |r| == 0 <==> forall i :: 0 <= i < |hours| ==> !HourOutOfRange(hours[i])
    ensures forall h :: h in r ==> HourOutOfRange(h) && h in hours
  {
    if hours == [] then []
    else (if HourOutOfRange(hours[0]) then [hours[0]] else []) + InvalidHours(hours[1..])
  }

  /** `data['IsDay']` for a validated hour: the int rule of `is_daytime`. */
  predicate IsDayRow(r: Row) {
    IsDaytime(IntHour(r.hour)) == Ok(true)
  }

  /** `data[data['IsDay'] == day]`: the rows whose flag is `day`, in input order. */
  function Keep(rows: seq<Row>, day: bool): (r: seq<Row>)
    ensures |r| <= |rows|
    ensures forall x :: x in r ==> x in rows && IsDayRow(x) == day
  {
    if rows == [] then []
    else (if IsDayRow(rows[0]) == day then [rows[0]] else []) + Keep(rows[1..], day)
  }

  function Hours(rows: seq<Row>): (r: seq<int>)
    ensures |r| == |rows| && forall i :: 0 <= i < |rows| ==> r[i] == rows[i].hour
  {
    seq(|rows|, i requires 0 <= i < |rows| => rows[i].hour)
  }

  function Leqs(rows: seq<Row>): (r: seq<real>)
    ensures |r| == |rows| && forall i :: 0 <= i < |rows| ==> r[i] == rows[i].leq
  {
    seq(|rows|, i requires 0 <= i < |rows| => rows[i].leq)
  }

  /** The frame's rows, one per position. */
  function Rows(hours: seq<int>, leqs: seq<real>): (r: seq<Row>)
    requires |hours| == |leqs|
    ensures |r| == |hours| && forall i :: 0 <= i < |r| ==> r[i] == Row(hours[i], leqs[i])
  {
    seq(|hours|, i requires 0 <= i < |hours| => Row(hours[i], leqs[i]))
  }

  /** `pd.concat([day['Leq'], night['Leq'] + 10])`: the input of Ldn. */
  function LdnInput(day: seq<Row>, night: seq<Row>): (r: seq<real>)
    ensures |r| == |day| + |night|
    ensures forall i :: 0 <= i < |day| ==> r[i] == day[i].leq
    ensures forall i :: 0 <= i < |night| ==> r[|day| + i] == night[i].leq + 10.0
  {
    Leqs(day) + seq(|night|, i requires 0 <= i < |night| => night[i].leq + 10.0)
  }

  /** The `'result'` and `'data'` parts of the returned dictionary. */
  datatype Ldn = Ldn(
    ld: Option<Rounded>, ln: Option<Rounded>, ldn: Option<Rounded>,
    dayHours: seq<int>, dayLeqs: seq<real>, nightHours: seq<int>, nightLeqs: seq<real>)

  /**
   * `calc_Ldn` returns the dictionary, raises ValueError for one of two
   * reasons, or, for empty input, raises KeyError('Leq'): the empty `IsDay`
   * column is not a boolean mask, so `data[data['IsDay']]` selects no columns.
   */
  datatype LdnOutcome =
    | Computed(result: Ldn)
    | HoursOutOfRange(invalid: seq<int>)
    | LengthMismatch(hourCount: nat, leqCount: nat)
    | NoLeqColumn

  function CalcLdn(lm: LevelMath, hours: seq<int>, leqs: seq<real>, precision: int): (r: LdnOutcome)
    ensures r.HoursOutOfRange? <==> exists i :: 0 <= i < |hours| && HourOutOfRange(hours[i])
    ensures r.HoursOutOfRange? ==> r.invalid == InvalidHours(hours)
    ensures r.LengthMismatch? <==>
      (forall i :: 0 <= i < |hours| ==> !HourOutOfRange(hours[i])) && |hours| != |leqs|
    ensures r.NoLeqColumn? <==> |hours| == 0 && |leqs| == 0
    ensures r.Computed? ==>
      var day, night := Keep(Rows(hours, leqs), true), Keep(Rows(hours, leqs), false);
      && r.result.dayHours == Hours(day) && r.result.dayLeqs == Leqs(day)
      && r.result.nightHours == Hours(night) && r.result.nightLeqs == Leqs(night)
      && r.result.ld == CalcLeq(lm, Leqs(day), precision)
      && r.result.ln == CalcLeq(lm, Leqs(night), precision)
      && r.result.ldn == CalcLeq(lm, LdnInput(day, night), precision)
  {
    var invalid := InvalidHours(hours);
    if |invalid| > 0 then HoursOutOfRange(invalid)
    else if |hours| != |leqs| then LengthMismatch(|hours|, |leqs|)
    else if |hours| == 0 then NoLeqColumn
    else
      var rows := Rows(hours, leqs);
      var day, night := Keep(rows, true), Keep(rows, false);
      Computed(Ldn(
        CalcLeq(lm, Leqs(day), precision),
        CalcLeq(lm, Leqs(night), precision),
        CalcLeq(lm, LdnInput(day, night), precision),
        Hours(day), Leqs(day), Hours(night), Leqs(night)))
  }

  /** Filtering distributes over concatenation: the split keeps the input order. */
  lemma {:induction false} KeepAppend(a: seq<Row>, b: seq<Row>, day: bool)
    ensures Keep(a + b, day) == Keep(a, day) + Keep(b, day)
  {
    if a == [] {
      assert a + b == b;
    } else {
      assert (a + b)[1..] == a[1..] + b;
      KeepAppend(a[1..], b, day);
    }
  }

  /** The day and night parts together hold every row exactly once. */
  lemma {:induction false} KeepPartitions(rows: seq<Row>)
    ensures |Keep(rows, true)| + |Keep(rows, false)| == |rows|
    ensures multiset(Keep(rows, true)) + multiset(Keep(rows, false)) == multiset(rows)
  {
    if rows != [] {
      KeepPartitions(rows[1..]);
      assert rows == [rows[0]] + rows[1..];
    }
  }

  /** Every day row has an hour in 6..21 and every night row, for validated hours, one outside it. */
  lemma KeepClassifies(rows: seq<Row>)
    requires forall i :: 0 <= i < |rows| ==> !HourOutOfRange(rows[i].hour)
    ensures forall x :: x in Keep(rows, true) ==> 6 <= x.hour <= 21
    ensures forall x :: x in Keep(rows, false) ==> 0 <= x.hour < 6 || 21 < x.hour <= 23
  {
  }

  /** The Ldn input has one value per row: day levels, then night levels raised by 10. */
  lemma LdnInputCoversAll(hours: seq<int>, leqs: seq<real>)
    requires |hours| == |leqs|
    ensures var rows := Rows(hours, leqs);
      |LdnInput(Keep(rows, true), Keep(rows, false))| == |hours|
  {
    KeepPartitions(Rows(hours, leqs));
  }

  /**
   * Validation reports the out-of-range hours before it compares lengths;
   * empty input passes both checks and fails on the missing `Leq` column.
   */
  lemma HourCheckFirst(lm: LevelMath, precision: int)
    ensures CalcLdn(lm, [24], [], precision) == HoursOutOfRange([24])
    ensures CalcLdn(lm, [23], [], precision) == LengthMismatch(1, 0)
    ensures CalcLdn(lm, [], [], precision) == NoLeqColumn
  {
    assert InvalidHours([24]) == [24];
    assert InvalidHours([23]) == [];
  }

  // ---------------------------------------------------------------------
  // calc_PSL

  /** The decimal digits of `n`, as `str(n)` prints them. */
  function Digits(n: nat): (s: string)
    ensures |s| >= 1 && (n >= 10 <==> |s| >= 2)
    ensures forall c :: c in s ==> '0' <= c <= '9'
  {
    if n < 10 then ['0' + n as char] else Digits(n / 10) + ['0' + (n % 10) as char]
  }

  /** Different numbers print differently. */
  lemma {:induction false} DigitsInjective(m: nat, n: nat)
    requires Digits(m) == Digits(n)
    ensures m == n
  {
    if m >= 10 && n >= 10 {
      var dm, dn := Digits(m), Digits(n);
      assert dm[..|dm| - 1] == Digits(m / 10);
      assert dn[..|dn| - 1] == Digits(n / 10);
      DigitsInjective(m / 10, n / 10);
      assert dm[|dm| - 1] == dn[|dn| - 1];
    }
  }

  /** `str(n)` for any integer: a minus sign before the digits of a negative one. */
  function IntString(n: int): (s: string)
    ensures |s| >= 1 && (n >= 0 <==> s[0] != '-')
    ensures n >= 0 ==> s == Digits(n)
    ensures n < 0 ==> s == "-" + Digits(-n)
  {
    if n >= 0 then
      var d := Digits(n);
      assert d[0] in d;
      d
    else "-" + Digits(-n)
  }

  /** `f'L{percent}'`. */
  function Key(percent: int): (k: string)
    ensures |k| >= 2 && k[0] == 'L' && k[1..] == IntString(percent)
  {
    "L" + IntString(percent)
  }

  /** Different percentages get different keys. */
  lemma KeyInjective(p: int, q: int)
    requires Key(p) == Key(q)
    ensures p == q
  {
    var sp, sq := IntString(p), IntString(q);
    assert sp == Key(p)[1..] && sq == Key(q)[1..];
    assert (p >= 0) == (q >= 0) by {
      assert sp[0] == sq[0];
    }
    if p >= 0 {
      DigitsInjective(p, q);
    } else {
      assert sp[1..] == Digits(-p) && sq[1..] == Digits(-q);
      DigitsInjective(-p, -q);
    }
  }

  /** An insertion-ordered dictionary from keys to rounded levels. */
  type Dict = seq<(string, Rounded)>

  function Keys(d: Dict): (ks: seq<string>)
    ensures |ks| == |d| && forall i :: 0 <= i < |d| ==> ks[i] == d[i].0
  {
    seq(|d|, i requires 0 <= i < |d| => d[i].0)
  }

  predicate DistinctKeys(d: Dict) {
    forall i, j :: 0 <= i < j < |d| ==> d[i].0 != d[j].0
  }

  /** The value stored under `k`, if any. */
  function Lookup(d: Dict, k: string): Option<Rounded> {
    if d == [] then None
    else if d[|d| - 1].0 == k then Some(d[|d| - 1].1)
    else Lookup(d[..|d| - 1], k)
  }

  /** The position of `k` in `d`, or `|d|` when it is absent. */
  function KeyIndex(d: Dict, k: string): (i: nat)
    ensures i <= |d|
    ensures i < |d| ==> d[i].0 == k
    ensures i == |d| <==> k !in Keys(d)
  {
    if d == [] then 0
    else if d[0].0 == k then 0
    else
      assert Keys(d[1..]) == Keys(d)[1..];
      1 + KeyIndex(d[1..], k)
  }

  /** `d[k] = v`: an existing key keeps its position and takes the new value; a new key goes last. */
  function Store(d: Dict, k: string, v: Rounded): (r: Dict)
    ensures k in Keys(d) ==> Keys(r) == Keys(d)
    ensures k !in Keys(d) ==> Keys(r) == Keys(d) + [k]
  {
    var i := KeyIndex(d, k);
    if i < |d| then d[i := (k, v)] else d + [(k, v)]
  }

  /** `round_half_even(series.quantile(1 - percent/100), precision)`. */
  function PercentLevel(lm: LevelMath, spl: seq<real>, percent: int, precision: int): Rounded {
    RoundHalfEven(lm.quantile(spl, 1.0 - percent as real / 100.0), precision)
  }

  predicate ValidPercent(p: int) {
    0 < p < 100
  }

  /** The dictionary after the loop has run over `percents`, or the assertion it raises. */
  function PslDict(lm: LevelMath, spl: seq<real>, percents: seq<int>, precision: int): Result<Dict>
    decreases |percents|
  {
    if percents == [] then Ok([])
    else
      var d :- PslDict(lm, spl, percents[..|percents| - 1], precision);
      var p := percents[|percents| - 1];
      if !ValidPercent(p) then Err(AssertionError)
      else Ok(Store(d, Key(p), PercentLevel(lm, spl, p, precision)))
  }

  /** What `calc_PSL` gives: `None` (after printing) for an empty series, a raised assertion, or the levels. */
  datatype PslOutcome = NoData | Raised(error: Error) | Levels(entries: Dict)

  function Outcome(d: Result<Dict>): PslOutcome {
    match d
    case Ok(entries) => Levels(entries)
    case Err(e) => Raised(e)
  }

  method CalcPsl(lm: LevelMath, spl: seq<real>, percents: seq<int>, precision: int) returns (r: PslOutcome)
    ensures |spl| == 0 ==> r == NoData
    ensures |spl| > 0 ==> r == Outcome(PslDict(lm, spl, percents, precision))
  {
    if |spl| == 0 {
      return NoData;
    }
    var result: Dict := [];
    for i := 0 to |percents|
      invariant PslDict(lm, spl, percents[..i], precision) == Ok(result)
    {
      var p := percents[i];
      var prefix := percents[..i + 1];
      assert prefix[..i] == percents[..i] && prefix[i] == p;
      if !(0 < p && p < 100) {
        assert PslDict(lm, spl, prefix, precision) == Err(AssertionError);
        PslStaysFailed(lm, spl, percents, i + 1, precision);
        return Raised(AssertionError);
      }
      result := Store(result, Key(p), PercentLevel(lm, spl, p, precision));
      assert PslDict(lm, spl, prefix, precision) == Ok(result);
    }
    assert percents[..|percents|] == percents;
    return Levels(result);
  }

  /** Once a prefix of the percentages fails, the whole run fails with the same error. */
  lemma {:induction false} PslStaysFailed(lm: LevelMath, spl: seq<real>, percents: seq<int>, k: nat, precision: int)
    requires k <= |percents| && PslDict(lm, spl, percents[..k], precision).Err?
    ensures PslDict(lm, spl, percents, precision) == PslDict(lm, spl, percents[..k], precision)
    decreases |percents| - k
  {
    if k < |percents| {
      var prefix := percents[..k + 1];
      assert prefix[..k] == percents[..k];
      PslStaysFailed(lm, spl, percents, k + 1, precision);
    } else {
      assert percents[..k] == percents;
    }
  }

  /** The loop raises exactly when some percentage lies outside (0, 100). */
  lemma {:induction false} PslFailsIff(lm: LevelMath, spl: seq<real>, percents: seq<int>, precision: int)
    ensures PslDict(lm, spl, percents, precision).Err? <==>
      exists i :: 0 <= i < |percents| && !ValidPercent(percents[i])
    ensures PslDict(lm, spl, percents, precision).Err? ==>
      PslDict(lm, spl, percents, precision).error == AssertionError
    decreases |percents|
  {
    if percents != [] {
      var n := |percents|;
      var init := percents[..n - 1];
      var p := percents[n - 1];
      PslFailsIff(lm, spl, init, precision);
      var before := PslDict(lm, spl, init, precision);
      if before.Err? {
        assert PslDict(lm, spl, percents, precision) == before;
        var i :| 0 <= i < |init| && !ValidPercent(init[i]);
        assert percents[i] == init[i];
      } else if !ValidPercent(p) {
        assert PslDict(lm, spl, percents, precision) == Err(AssertionError);
      } else {
        assert PslDict(lm, spl, percents, precision).Ok?;
        forall i | 0 <= i < n
          ensures ValidPercent(percents[i])
        {
          if i < n - 1 {
            assert percents[i] == init[i];
          }
        }
      }
    }
  }

  /** The first occurrence of each key, in order. */
  function Dedup(ks: seq<string>): seq<string>
    decreases |ks|
  {
    if ks == [] then []
    else
      var d := Dedup(ks[..|ks| - 1]);
      if ks[|ks| - 1] in d then d else d + [ks[|ks| - 1]]
  }

  function KeysOf(percents: seq<int>): (ks: seq<string>)
    ensures |ks| == |percents| && forall i :: 0 <= i < |percents| ==> ks[i] == Key(percents[i])
  {
    seq(|percents|, i requires 0 <= i < |percents| => Key(percents[i]))
  }

  /** Looking a key up after storing it. */
  lemma LookupStore(d: Dict, k: string, v: Rounded, k': string)
    requires DistinctKeys(d)
    ensures DistinctKeys(Store(d, k, v))
    ensures Lookup(Store(d, k, v), k') == if k' == k then Some(v) else Lookup(d, k')
  {
    var r := Store(d, k, v);
    var i := KeyIndex(d, k);
    if i < |d| {
      LookupUpdate(d, i, k, v, k');
    } else {
      assert r[..|r| - 1] == d;
    }
  }

  lemma {:induction false} LookupUpdate(d: Dict, i: nat, k: string, v: Rounded, k': string)
    requires DistinctKeys(d) && i < |d| && d[i].0 == k
    ensures Lookup(d[i := (k, v)], k') == if k' == k then Some(v) else Lookup(d, k')
    decreases |d|
  {
    var r := d[i := (k, v)];
    if i == |d| - 1 {
      assert r[..|r| - 1] == d[..|d| - 1];
    } else {
      assert r[..|r| - 1] == d[..|d| - 1][i := (k, v)];
      LookupUpdate(d[..|d| - 1], i, k, v, k');
    }
  }

  /**
   * The levels are keyed `'L{percent}'` in the order the percentages first occur,
   * each key once, and each key holds the level of its percentage.
   */
  lemma {:induction false} PslKeys(lm: LevelMath, spl: seq<real>, percents: seq<int>, precision: int)
    requires forall i :: 0 <= i < |percents| ==> ValidPercent(percents[i])
    ensures PslDict(lm, spl, percents, precision).Ok?
    ensures var d := PslDict(lm, spl, percents, precision).value;
      && Keys(d) == Dedup(KeysOf(percents))
      && DistinctKeys(d)
      && forall i :: 0 <= i < |percents| ==>
           Lookup(d, Key(percents[i])) == Some(PercentLevel(lm, spl, percents[i], precision))
    decreases |percents|
  {
    if percents != [] {
      var n := |percents|;
      var init := percents[..n - 1];
      var p := percents[n - 1];
      PslKeys(lm, spl, init, precision);
      var d0 := PslDict(lm, spl, init, precision).value;
      var d := Store(d0, Key(p), PercentLevel(lm, spl, p, precision));
      assert PslDict(lm, spl, percents, precision) == Ok(d);
      assert KeysOf(percents)[..n - 1] == KeysOf(init);
      forall i | 0 <= i < n
        ensures Lookup(d, Key(percents[i])) == Some(PercentLevel(lm, spl, percents[i], precision))
      {
        LookupStore(d0, Key(p), PercentLevel(lm, spl, p, precision), Key(percents[i]));
        if Key(percents[i]) == Key(p) {
          KeyInjective(percents[i], p);
        } else {
          assert i < n - 1 && percents[i] == init[i];
        }
      }
      LookupStore(d0, Key(p), PercentLevel(lm, spl, p, precision), Key(p));
    }
  }

  lemma DefaultKeyStrings()
    ensures Key(10) == "L10" && Key(50) == "L50" && Key(90) == "L90"
  {
    assert Digits(1) == "1" && Digits(5) == "5" && Digits(9) == "9";
    assert Digits(10) == "10" && Digits(50) == "50" && Digits(90) == "90";
  }

  /** Three different keys keep their order. */
  lemma DedupThree(a: string, b: string, c: string)
    requires a != b && b != c && a != c
    ensures Dedup([a, b, c]) == [a, b, c]
  {
    assert [a, b, c][..2] == [a, b];
    assert [a, b][..1] == [a];
    assert [a][..0] == [];
    assert Dedup([a]) == [a];
    assert Dedup([a, b]) == [a, b];
  }

  /** Three different valid percentages give their three keys, in order. */
  lemma ThreePercentKeys(lm: LevelMath, spl: seq<real>, percents: seq<int>, precision: int)
    requires |percents| == 3 && forall i :: 0 <= i < 3 ==> ValidPercent(percents[i])
    requires percents[0] != percents[1] && percents[1] != percents[2] && percents[0] != percents[2]
    ensures PslDict(lm, spl, percents, precision).Ok?
    ensures Keys(PslDict(lm, spl, percents, precision).value) ==
      [Key(percents[0]), Key(percents[1]), Key(percents[2])]
  {
    PslKeys(lm, spl, percents, precision);
    var ks := KeysOf(percents);
    assert ks == [Key(percents[0]), Key(percents[1]), Key(percents[2])];
    if Key(percents[0]) == Key(percents[1]) { KeyInjective(percents[0], percents[1]); }
    if Key(percents[1]) == Key(percents[2]) { KeyInjective(percents[1], percents[2]); }
    if Key(percents[0]) == Key(percents[2]) { KeyInjective(percents[0], percents[2]); }
    DedupThree(ks[0], ks[1], ks[2]);
  }

  /** `calc_PSL`'s default percentages. */
  const DefaultPercents: seq<int> := [10, 50, 90]

  /** The default percentages give the keys L10, L50 and L90, in that order. */
  lemma DefaultPercentKeys(lm: LevelMath, spl: seq<real>, precision: int)
    ensures PslDict(lm, spl, DefaultPercents, precision).Ok?
    ensures Keys(PslDict(lm, spl, DefaultPercents, precision).value) == ["L10", "L50", "L90"]
  {
    ThreePercentKeys(lm, spl, DefaultPercents, precision);
    DefaultKeyStrings();
  }
}
