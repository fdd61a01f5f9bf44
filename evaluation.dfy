/**
 * `get_evaluation` of `src/noisepollution/evaluation.py`: grades a noise level
 * against the HJ 640-2012 tables for the overall level of urban regional
 * noise and for the intensity of road-traffic noise, day or night.
 */
module Evaluation {
  import opened PyCore
  import opened Common
  import opened HourHelper

  datatype EvaluationResultType = LEVEL | DESCRIPTION
  datatype EvaluationType = REGION | TRAFFIC

  /** The five labels of a result type, best first. */
  function Labels(rtype: EvaluationResultType): seq<string> {
    match rtype
    case LEVEL => ["一级", "二级", "三级", "四级", "五级"]
    case DESCRIPTION => ["好", "较好", "一般", "较差", "差"]
  }

  /** `etype.value[is_day]`: the four breakpoints, in dB, for day (`true`) or night. */
  function Breakpoints(etype: EvaluationType, isDay: bool): seq<real> {
    match (etype, isDay)
    case (REGION, true) => [50.0, 55.0, 60.0, 65.0]
    case (REGION, false) => [40.0, 45.0, 50.0, 55.0]
    case (TRAFFIC, true) => [68.0, 70.0, 72.0, 74.0]
    case (TRAFFIC, false) => [58.0, 60.0, 62.0, 64.0]
  }

  /** Every table has four sorted breakpoints and every result type five labels. */
  lemma TablesWellFormed(etype: EvaluationType, isDay: bool, rtype: EvaluationResultType)
    ensures |Breakpoints(etype, isDay)| == 4 && Sorted(Breakpoints(etype, isDay))
    ensures |Labels(rtype)| == 5
  {
  }

  /** The label index of a value: how many breakpoints lie strictly below it. */
  function LabelIndex(value: real, etype: EvaluationType, isDay: bool): (i: nat)
    ensures i <= 4
  {
    CountBelow(Breakpoints(etype, isDay), value)
  }

  function GetEvaluation(value: real, time: TimeArg, etype: EvaluationType, rtype: EvaluationResultType): (r: Result<string>)
    ensures r.Err? <==> IsDaytime(time).Err?
    ensures r.Err? ==> r.error == IsDaytime(time).error
    ensures r.Ok? ==> r.value == Labels(rtype)[LabelIndex(value, etype, IsDaytime(time).value)]
  {
    var isDay :- IsDaytime(time);
    TablesWellFormed(etype, isDay, rtype);
    GradeSorted(value, Breakpoints(etype, isDay), Labels(rtype));
    Grade(value, Breakpoints(etype, isDay), Labels(rtype))
  }

  /** The result is always one of the five labels of the result type. */
  lemma EvaluationIsLabel(value: real, time: TimeArg, etype: EvaluationType, rtype: EvaluationResultType)
    requires IsDaytime(time).Ok?
    ensures GetEvaluation(value, time, etype, rtype).Ok?
    ensures GetEvaluation(value, time, etype, rtype).value in Labels(rtype)
  {
  }

  /** For a fixed time and table, a louder value never gets a better label. */
  lemma EvaluationMonotone(v1: real, v2: real, etype: EvaluationType, isDay: bool)
    requires v1 <= v2
    ensures LabelIndex(v1, etype, isDay) <= LabelIndex(v2, etype, isDay)
  {
    CountBelowMonotone(Breakpoints(etype, isDay), v1, v2);
  }

  /** A value at or below the first breakpoint gets the first label. */
  lemma QuietGetsFirstLabel(value: real, etype: EvaluationType, isDay: bool)
    requires value <= Breakpoints(etype, isDay)[0]
    ensures LabelIndex(value, etype, isDay) == 0
  {
    TablesWellFormed(etype, isDay, LEVEL);
    SplitIsCount(Breakpoints(etype, isDay), value, 0);
  }

  /** The documented examples: 70 dB at noon is '二级' on the traffic scale and '差' on the regional one. */
  lemma EvaluationExamples()
    ensures GetEvaluation(70.0, TimeString(Some(12)), TRAFFIC, LEVEL) == Ok("二级")
    ensures GetEvaluation(70.0, TimeString(Some(12)), REGION, DESCRIPTION) == Ok("差")
  {
    assert LabelIndex(70.0, TRAFFIC, true) == 1;
    assert LabelIndex(70.0, REGION, true) == 4;
  }
}
