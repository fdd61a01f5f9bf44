/**
 * `audio/clipper.py`: cutting a window out of a signal by sample positions or
 * by times, and `rand_clip`, which crops a long signal to a target length at a
 * random start or zero-pads a short one around a random start.
 *
 * The random start that `np.random.randint` draws is a parameter, constrained
 * to the range `randint` draws from. A one-channel signal is a `seq<real>`; the
 * `(channels, samples)` signal of `clip_signal` is a sequence of rows.
 */
module AudioClipper {
  import opened PyCore

  // ---------------------------------------------------------------------
  // Clipping by positions and by times

  /** `_clip_signal_by_samples`: `signal[start:end]`, or ValueError when the positions are out of order or range. */
  function ClipBySamples(signal: seq<real>, start: int, end: int): (r: Result<seq<real>>)
    ensures r.Err? <==> start > end || start > |signal| || end > |signal| || start < 0
    ensures r.Err? ==> r.error == ValueError
    ensures r.Ok? ==> |r.value| == end - start
    ensures r.Ok? ==> forall k :: 0 <= k < |r.value| ==> r.value[k] == signal[start + k]
  {
    if start > end || start > |signal| || end > |signal| || start < 0 then Err(ValueError)
    else Ok(signal[start..end])
  }

  /** Adjacent windows join into the window that spans both. */
  lemma ClipJoins(signal: seq<real>, a: int, b: int, c: int)
    requires 0 <= a <= b <= c <= |signal|
    ensures ClipBySamples(signal, a, b).Ok? && ClipBySamples(signal, b, c).Ok?
    ensures ClipBySamples(signal, a, b).value + ClipBySamples(signal, b, c).value ==
      ClipBySamples(signal, a, c).value
  {
    assert signal[a..b] + signal[b..c] == signal[a..c];
  }

  /** The whole range gives the signal back. */
  lemma ClipWhole(signal: seq<real>)
    ensures ClipBySamples(signal, 0, |signal|) == Ok(signal)
  {
    assert signal[0..|signal|] == signal;
  }

  /**
   * `clip_signal`: positions `int(sr * t)` along the second axis, checked as in
   * `_clip_signal_by_samples`. The duration in the error message is computed
   * first, so a zero rate raises ZeroDivisionError before any check.
   */
  function ClipSignal(signal: seq<seq<real>>, samples: nat, sr: real, startTime: real, endTime: real)
    : (r: Result<seq<seq<real>>>)
    requires forall c :: 0 <= c < |signal| ==> |signal[c]| == samples
    ensures sr == 0.0 ==> r == Err(ZeroDivisionError)
    ensures sr != 0.0 ==> (r.Ok? <==> ClipBySamples(seq(samples, _ => 0.0), Trunc(sr * startTime), Trunc(sr * endTime)).Ok?)
    ensures r.Err? && sr != 0.0 ==> r.error == ValueError
    ensures r.Ok? ==> |r.value| == |signal|
    ensures r.Ok? ==> forall c :: 0 <= c < |signal| ==>
      Ok(r.value[c]) == ClipBySamples(signal[c], Trunc(sr * startTime), Trunc(sr * endTime))
  {
    if sr == 0.0 then Err(ZeroDivisionError)
    else
      var start, end := Trunc(sr * startTime), Trunc(sr * endTime);
      if start > end || start > samples || end > samples || start < 0 then Err(ValueError)
      else Ok(seq(|signal|, c requires 0 <= c < |signal| => signal[c][start..end]))
  }

  // ---------------------------------------------------------------------
  // Padding

  /** The padded signal: `signal` at positions `start .. start + |signal|` of `target` zeros. */
  function Padded(signal: seq<real>, target: nat, start: nat): (p: seq<real>)
    requires start + |signal| <= target
    ensures |p| == target
    ensures p[start..start + |signal|] == signal
    ensures forall i :: 0 <= i < target && !(start <= i < start + |signal|) ==> p[i] == 0.0
  {
    seq(target, i requires 0 <= i < target => if start <= i < start + |signal| then signal[i - start] else 0.0)
  }

  /** Cutting the window back out of a padded signal recovers it. */
  lemma PaddedRoundTrip(signal: seq<real>, target: nat, start: nat)
    requires start + |signal| <= target
    ensures ClipBySamples(Padded(signal, target, start), start, start + |signal|) == Ok(signal)
  {
  }

  /** `slice(lo, hi).indices(n)` for step 1: negative bounds count from the end, then both are clamped. */
  function SliceBound(n: nat, b: int): (r: nat)
    ensures r <= n
  {
    if b < 0 then (if b + n < 0 then 0 else b + n) else if b > n then n else b
  }

  function SliceLength(n: nat, lo: int, hi: int): nat {
    var l, h := SliceBound(n, lo), SliceBound(n, hi);
    if h > l then h - l else 0
  }

  /**
   * The pad step as written: `new_signal[start:start+samples-1] = signal[0:samples-1]`.
   * Both slices stop one short, and for an empty signal with `start == 0` the
   * stop `-1` counts from the end, so the target slice is longer than the
   * empty source and numpy refuses the assignment with ValueError (a
   * one-element source, the only shape numpy would stretch, never meets a
   * longer target here).
   */
  function PaddedAsWritten(signal: seq<real>, target: nat, start: nat): (r: Result<seq<real>>)
    requires |signal| < target && start < target - |signal|
    ensures r.Ok? ==> |r.value| == target
  {
    var samples := |signal|;
    var lo, hi := SliceBound(target, start), SliceBound(target, start + samples - 1);
    if SliceLength(target, start, start + samples - 1) != SliceLength(samples, 0, samples - 1) then
      Err(ValueError)
    else
      Ok(seq(target, i requires 0 <= i < target => if lo <= i < hi then signal[i - lo] else 0.0))
  }

  /** As written, the pad keeps every sample but the last, whose position stays zero. */
  lemma PadDropsLastSample(signal: seq<real>, target: nat, start: nat)
    requires 1 <= |signal| < target && start < target - |signal|
    ensures PaddedAsWritten(signal, target, start) == Ok(Padded(signal[..|signal| - 1], target, start))
    ensures PaddedAsWritten(signal, target, start).value[start + |signal| - 1] == 0.0
  {
    var n := |signal|;
    assert SliceBound(target, start) == start;
    assert SliceBound(target, start + n - 1) == start + n - 1;
    assert SliceBound(n, 0) == 0 && SliceBound(n, n - 1) == n - 1;
    assert SliceLength(target, start, start + n - 1) == n - 1 == SliceLength(n, 0, n - 1);
    var r := PaddedAsWritten(signal, target, start);
    var p := Padded(signal[..n - 1], target, start);
    assert r.Ok?;
    forall i | 0 <= i < target
      ensures r.value[i] == p[i]
    {
      if start <= i < start + n - 1 {
        assert r.value[i] == signal[i - start];
        assert p[i] == signal[..n - 1][i - start];
      }
    }
    assert r.value == p;
  }

  /** The smallest inputs that show it: one sample is lost, and an empty signal at start 0 raises. */
  lemma PadCounterexamples()
    ensures PaddedAsWritten([1.0], 2, 0) == Ok([0.0, 0.0])
    ensures Padded([1.0], 2, 0) == [1.0, 0.0]
    ensures PaddedAsWritten([], 2, 0) == Err(ValueError)
    ensures Padded([], 2, 0) == [0.0, 0.0]
  {
    PadDropsLastSample([1.0], 2, 0);
    assert Padded([1.0][..0], 2, 0) == [0.0, 0.0];
    assert Padded([1.0], 2, 0)[0] == 1.0;
  }

  /**
   * As written, an empty signal raises exactly when it is placed at 0 in a
   * target of two or more samples; otherwise the pad is all zeros, as intended.
   */
  lemma PadEmptySignal(target: nat, start: nat)
    requires start < target
    ensures PaddedAsWritten([], target, start).Err? <==> start == 0 && target >= 2
    ensures PaddedAsWritten([], target, start).Ok? ==> PaddedAsWritten([], target, start).value == Padded([], target, start)
  {
    assert SliceLength(0, 0, -1) == 0;
    if start == 0 {
      assert SliceLength(target, 0, -1) == target - 1;
    } else {
      assert SliceLength(target, start, start - 1) == 0;
    }
    var r := PaddedAsWritten([], target, start);
    if r.Ok? {
      assert SliceBound(target, start - 1) <= SliceBound(target, start);
      forall i | 0 <= i < target
        ensures r.value[i] == 0.0
      {
      }
      assert r.value == Padded([], target, start);
    }
  }

  /** The pad branch: a zero array with the whole signal written in at `start`. */
  method Pad(signal: seq<real>, target: nat, start: nat) returns (a: array<real>)
    requires start + |signal| <= target
    ensures fresh(a)
    ensures a[..] == Padded(signal, target, start)
  {
    a := new real[target](_ => 0.0);
    for k := 0 to |signal|
      invariant forall i :: 0 <= i < target ==>
        a[i] == if start <= i < start + k then signal[i - start] else 0.0
    {
      a[start + k] := signal[k];
    }
  }

  // ---------------------------------------------------------------------
  // rand_clip

  /** The signal returned, and `(start_time, end_time)` when they are returned. */
  datatype Clipped = Clipped(signal: seq<real>, times: Option<(real, real)>)

  /** `randint(0, samples - target)` when cropping and `randint(0, target - samples)` when padding. */
  predicate StartInRange(samples: nat, target: nat, start: nat) {
    (samples > target ==> start < samples - target) && (samples < target ==> start < target - samples)
  }

  /**
   * `rand_clip` with `target_samples = sr * target_len` and the drawn start;
   * the pad is the corrected one that writes the whole signal.
   */
  function RandClipSpec(signal: seq<real>, sr: nat, targetLen: nat, needTime: bool, start: nat): (r: Result<Clipped>)
    requires StartInRange(|signal|, sr * targetLen, start)
    ensures r.Err? <==> needTime && sr == 0 && |signal| > 0
    ensures r.Err? ==> r.error == ZeroDivisionError
    ensures r.Ok? ==> |r.value.signal| == sr * targetLen
    ensures r.Ok? && |signal| > sr * targetLen ==> r.value.signal == signal[start..start + sr * targetLen]
    ensures r.Ok? && |signal| < sr * targetLen ==> r.value.signal == Padded(signal, sr * targetLen, start)
    ensures r.Ok? && |signal| == sr * targetLen ==> r.value == Clipped(signal, None)
    ensures r.Ok? && |signal| != sr * targetLen ==> (r.value.times.Some? <==> needTime)
    ensures r.Ok? && r.value.times.Some? ==> sr > 0
    ensures r.Ok? && r.value.times.Some? && sr > 0 ==>
      var (t0, t1) := r.value.times.value;
      && t0 == start as real / sr as real
      && t1 == t0 + (if |signal| > sr * targetLen then targetLen as real else |signal| as real / sr as real)
  {
    var samples, target := |signal|, sr * targetLen;
    if samples > target then
      var window := signal[start..start + target];
      if needTime then
        if sr == 0 then Err(ZeroDivisionError)
        else
          var t0 := start as real / sr as real;
          Ok(Clipped(window, Some((t0, t0 + targetLen as real))))
      else Ok(Clipped(window, None))
    else if samples < target then
      var padded := Padded(signal, target, start);
      if needTime then
        var t0 := start as real / sr as real;
        Ok(Clipped(padded, Some((t0, t0 + samples as real / sr as real))))
      else Ok(Clipped(padded, None))
    else Ok(Clipped(signal, None))
  }

  /** `rand_clip`: crops through `_clip_signal_by_samples`, pads through a zero array, or returns the signal. */
  method RandClip(signal: seq<real>, sr: nat, targetLen: nat, needTime: bool, start: nat) returns (r: Result<Clipped>)
    requires StartInRange(|signal|, sr * targetLen, start)
    ensures r == RandClipSpec(signal, sr, targetLen, needTime, start)
  {
    var samples := |signal|;
    var target := sr * targetLen;
    if samples > target {
      var t0 := 0.0;
      if needTime {
        if sr == 0 {
          return Err(ZeroDivisionError);
        }
        t0 := start as real / sr as real;
      }
      var window := ClipBySamples(signal, start, start + target);
      assert window.Ok? && window.value == signal[start..start + target];
      if needTime {
        return Ok(Clipped(window.value, Some((t0, t0 + targetLen as real))));
      }
      return Ok(Clipped(window.value, None));
    }
    if samples < target {
      var a := Pad(signal, target, start);
      if needTime {
        var t0 := start as real / sr as real;
        return Ok(Clipped(a[..], Some((t0, t0 + samples as real / sr as real))));
      }
      return Ok(Clipped(a[..], None));
    }
    return Ok(Clipped(signal, None));
  }

  /**
   * Whatever branch runs, the output has `sr * target_len` samples: a crop is a
   * window of the input, a pad holds the whole input at `start`, an equal-length
   * input comes back unchanged.
   */
  lemma RandClipKeepsSamples(signal: seq<real>, sr: nat, targetLen: nat, start: nat)
    requires StartInRange(|signal|, sr * targetLen, start)
    ensures var r := RandClipSpec(signal, sr, targetLen, false, start);
      && r.Ok?
      && |r.value.signal| == sr * targetLen
      && (|signal| < sr * targetLen ==>
            ClipBySamples(r.value.signal, start, start + |signal|) == Ok(signal))
      && (|signal| > sr * targetLen ==>
            ClipBySamples(signal, start, start + sr * targetLen) == Ok(r.value.signal))
      && (|signal| == sr * targetLen ==> r.value.signal == signal)
  {
    if |signal| < sr * targetLen {
      PaddedRoundTrip(signal, sr * targetLen, start);
    }
  }
}
