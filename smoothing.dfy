/** The smoothed-data report (generate_smoothed_data_report in
    sciscripttools/smoothing.py): a one-pole smoothing filter, the error it
    leaves, and how long the error takes to settle. */
module Smoothing {
  import opened Errors
  import opened ArrayMath

  /** Each step moves the smoothed value one twentieth of the way to the datum. */
  const Factor: real := 20.0
  /** The averages look at the last 1000 samples (error[-1000:]). */
  const StableDataRange: nat := 1000
  /** Seconds between samples. */
  const SamplePeriod: real := 0.035
  /** 15 samples, about half a second. */
  const WindowSize: nat := 15

  /** The filter state after the data d have been fed in, starting from 0. */
  function State(d: seq<real>): real
  {
    if d == [] then 0.0
    else
      var s := State(d[..|d| - 1]);
      s + (d[|d| - 1] - s) / Factor
  }

  /** The filter output: the state after each datum. */
  function Smoothed(data: seq<real>): (r: seq<real>)
    ensures |r| == |data|
  {
    seq(|data|, i requires 0 <= i < |data| => State(data[..i + 1]))
  }

  /** The filter loop of the report. */
  method SmoothData(data: seq<real>) returns (smoothedData: seq<real>)
    ensures smoothedData == Smoothed(data)
  {
    var smoothedDatum := 0.0;
    smoothedData := [];
    for i := 0 to |data|
      invariant smoothedDatum == State(data[..i])
      invariant |smoothedData| == i
      invariant forall k :: 0 <= k < i ==> smoothedData[k] == State(data[..k + 1])
    {
      assert data[..i + 1][..i] == data[..i];
      smoothedDatum := smoothedDatum + (data[i] - smoothedDatum) / Factor;
      smoothedData := smoothedData + [smoothedDatum];
    }
  }

  /** The first output is data[0] / 20, and each later one follows the
      recurrence s_k = s_{k-1} + (data[k] - s_{k-1}) / 20. */
  lemma SmoothedRecurrence(data: seq<real>, k: nat)
    requires k < |data|
    ensures k == 0 ==> Smoothed(data)[0] == data[0] / 20.0
    ensures k > 0 ==> Smoothed(data)[k] == Smoothed(data)[k - 1] + (data[k] - Smoothed(data)[k - 1]) / 20.0
  {
    assert data[..k + 1][..k] == data[..k];
    if k == 0 {
      assert data[..1][..0] == [] && data[..1][0] == data[0];
      assert State(data[..1]) == data[0] / Factor;
    }
  }

  /** Each step is a convex combination of the state and the datum, so a state
      that starts at 0 stays inside any interval around 0 holding the data. */
  lemma {:induction false} StateBounded(d: seq<real>, lo: real, hi: real)
    requires lo <= 0.0 <= hi
    requires forall k :: 0 <= k < |d| ==> lo <= d[k] <= hi
    ensures lo <= State(d) <= hi
  {
    if d != [] {
      var front := d[..|d| - 1];
      assert forall k :: 0 <= k < |front| ==> front[k] == d[k];
      StateBounded(front, lo, hi);
    }
  }

  lemma SmoothedBounded(data: seq<real>, lo: real, hi: real)
    requires lo <= 0.0 <= hi
    requires forall k :: 0 <= k < |data| ==> lo <= data[k] <= hi
    ensures forall k :: 0 <= k < |data| ==> lo <= Smoothed(data)[k] <= hi
  {
    forall k | 0 <= k < |data|
      ensures lo <= Smoothed(data)[k] <= hi
    {
      var p := data[..k + 1];
      assert forall j :: 0 <= j < |p| ==> p[j] == data[j];
      StateBounded(p, lo, hi);
    }
  }

  /** error = data - smoothed_data. */
  function ErrorSeries(data: seq<real>): (error: seq<real>)
    ensures |error| == |data|
    ensures forall k :: 0 <= k < |data| ==> error[k] + Smoothed(data)[k] == data[k]
  {
    var smoothed := Smoothed(data);
    seq(|data|, k requires 0 <= k < |data| => data[k] - smoothed[k])
  }

  /** error / data * 100. A zero datum would give an infinity or a NaN, which the
      model reports as NonFinite. */
  function PercentageSeries(error: seq<real>, data: seq<real>): (r: Result<seq<real>>)
    requires |error| == |data|
    ensures r.Failure? <==> exists k :: 0 <= k < |data| && data[k] == 0.0
    ensures r.Failure? ==> r.error == NonFinite
    ensures r.Success? ==> |r.value| == |data|
    ensures r.Success? ==> forall k :: 0 <= k < |data| ==> r.value[k] * data[k] == error[k] * 100.0
  {
    if exists k :: 0 <= k < |data| && data[k] == 0.0 then Failure(NonFinite)
    else Success(seq(|data|, k requires 0 <= k < |data| => (error[k] / data[k]) * 100.0))
  }

  /** What np.average returns: a number, or nan for an empty array (numpy
      only warns about the empty slice). */
  datatype Average = Number(value: real) | NaN

  /** np.average(np.abs(s[-1000:])). */
  function StableAverage(s: seq<real>): (r: Average)
    ensures r.NaN? <==> |s| == 0
    ensures r.Number? ==> r.value >= 0.0
    ensures r.Number? ==> r.value == Mean(AbsAll(Tail(s, StableDataRange)))
  {
    if |s| == 0 then NaN
    else
      var tail := Tail(s, StableDataRange);
      MeanOfMagnitudes(tail);
      Number(Mean(AbsAll(tail)))
  }

  /** The mean of magnitudes is non-negative. */
  lemma MeanOfMagnitudes(s: seq<real>)
    requires |s| > 0
    ensures Mean(AbsAll(s)) >= 0.0
  {
    SumNonNegative(AbsAll(s));
  }

  /** When the last 1000 samples all lie within [-b, b], so does the stable average. */
  lemma StableAverageBounded(s: seq<real>, b: real)
    requires |s| > 0
    requires forall k :: |s| - |Tail(s, StableDataRange)| <= k < |s| ==> Abs(s[k]) <= b
    ensures StableAverage(s).Number? && StableAverage(s).value <= b
  {
    var tail := Tail(s, StableDataRange);
    var m := AbsAll(tail);
    forall k | 0 <= k < |m|
      ensures m[k] <= b
    {
      assert tail[k] == s[|s| - |tail| + k];
    }
    MeanAtMost(m, b);
  }

  lemma {:induction false} SumNonNegative(s: seq<real>)
    requires forall k :: 0 <= k < |s| ==> s[k] >= 0.0
    ensures Sum(s) >= 0.0
  {
    if s != [] {
      var front := s[..|s| - 1];
      assert forall k :: 0 <= k < |front| ==> front[k] == s[k];
      SumNonNegative(front);
    }
  }

  /** The sample times: num_samples points from 0 to 0.035 (num_samples - 1). */
  function TimeGrid(numSamples: nat): (time: seq<real>)
    ensures |time| == numSamples
  {
    Linspace(0.0, SamplePeriod * ((numSamples - 1) as real), numSamples)
  }

  /** Sample i is taken at 0.035 i seconds. */
  lemma TimeGridValues(numSamples: nat, i: nat)
    requires i < numSamples
    ensures TimeGrid(numSamples)[i] == SamplePeriod * (i as real)
  {
    if numSamples >= 2 {
      var n := (numSamples - 1) as real;
      LinspaceEvenlySpaced(0.0, SamplePeriod * n, numSamples, i);
      assert LinspaceStep(0.0, SamplePeriod * n, numSamples) == SamplePeriod;
    }
  }

  /** moving_average: np.convolve(v, np.ones(w) / w, mode='valid'). Over the
      reals, convolving with w weights of 1/w divides the window sum by w.
      numpy rejects an empty operand; when v is shorter than the window it
      swaps the two, so every output is then the whole of v summed and divided
      by w. */
  function MovingAverage(v: seq<real>, windowSize: nat): (r: Result<seq<real>>)
    ensures r.Failure? <==> |v| == 0 || windowSize == 0
    ensures r.Failure? ==> r.error == EmptyArray
    ensures r.Success? && |v| >= windowSize ==>
              && |r.value| == |v| - windowSize + 1
              && forall i :: 0 <= i < |r.value| ==> r.value[i] == Mean(v[i..i + windowSize])
    ensures r.Success? && |v| < windowSize ==>
              && |r.value| == windowSize - |v| + 1
              && forall i :: 0 <= i < |r.value| ==> r.value[i] * (windowSize as real) == Sum(v)
  {
    if |v| == 0 || windowSize == 0 then Failure(EmptyArray)
    else if |v| >= windowSize then
      Success(seq(|v| - windowSize + 1, i requires 0 <= i <= |v| - windowSize => Sum(v[i..i + windowSize]) / (windowSize as real)))
    else
      Success(Repeat(Sum(v) / (windowSize as real), windowSize - |v| + 1))
  }

  /** Averaging a constant signal returns the constant. */
  lemma MovingAverageOfConstant(c: real, n: nat, windowSize: nat)
    requires 0 < windowSize <= n
    ensures MovingAverage(Repeat(c, n), windowSize).Success?
    ensures forall i :: 0 <= i < |MovingAverage(Repeat(c, n), windowSize).value| ==>
              MovingAverage(Repeat(c, n), windowSize).value[i] == c
  {
    var v := Repeat(c, n);
    var r := MovingAverage(v, windowSize).value;
    forall i | 0 <= i < |r|
      ensures r[i] == c
    {
      assert v[i..i + windowSize] == Repeat(c, windowSize);
      MeanRepeat(c, windowSize);
    }
  }

  /** np.where(s < threshold)[0][0]: the first position below the threshold, if any. */
  function FirstBelow(s: seq<real>, threshold: real): (r: Option<nat>)
    ensures r.Some? ==> r.value < |s| && s[r.value] < threshold
    ensures r.Some? ==> forall j :: 0 <= j < r.value ==> s[j] >= threshold
    ensures r.None? <==> forall j :: 0 <= j < |s| ==> s[j] >= threshold
  {
    if s == [] then None
    else if s[0] < threshold then Some(0)
    else
      match FirstBelow(s[1..], threshold)
      case None => None
      case Some(k) => Some(k + 1)
  }

  /** The numbers the report computes before it plots. */
  datatype Report = Report(
    smoothedData: seq<real>,
    error: seq<real>,
    errorPercentage: seq<real>,
    errorAverage: real,
    errorPercentageAverage: real,
    time: seq<real>,
    movingAverageErrorPercentage: seq<real>,
    timeToAverageError: real)

  /** generate_smoothed_data_report up to its printing and plotting. */
  method GenerateSmoothedDataReport(data: seq<real>) returns (r: Result<Report>)
    ensures r.Success? ==> r.value.smoothedData == Smoothed(data) && r.value.error == ErrorSeries(data)
    ensures r.Success? ==> Success(r.value.errorPercentage) == PercentageSeries(ErrorSeries(data), data)
    ensures r.Success? ==> Number(r.value.errorAverage) == StableAverage(r.value.error)
    ensures r.Success? ==> Number(r.value.errorPercentageAverage) == StableAverage(r.value.errorPercentage)
    ensures r.Success? ==> r.value.time == TimeGrid(|data|)
    ensures r.Success? ==> Success(r.value.movingAverageErrorPercentage) == MovingAverage(AbsAll(r.value.errorPercentage), WindowSize)
    ensures r.Success? ==>
              var k := FirstBelow(r.value.movingAverageErrorPercentage, r.value.errorPercentageAverage);
              k.Some? && k.value < |data| && r.value.timeToAverageError == r.value.time[k.value]
    ensures r.Failure? <==>
              || |data| == 0
              || PercentageSeries(ErrorSeries(data), data).Failure?
              || var pct := PercentageSeries(ErrorSeries(data), data).value;
                 var k := FirstBelow(MovingAverage(AbsAll(pct), WindowSize).value, StableAverage(pct).value);
                 k.None? || k.value >= |data|
  {
    var smoothedData := SmoothData(data);
    var error := seq(|data|, k requires 0 <= k < |data| => data[k] - smoothedData[k]);
    assert error == ErrorSeries(data);
    var errorPercentage := PercentageSeries(error, data);
    if errorPercentage.Failure? {
      return Failure(errorPercentage.error);
    }
    var errorAverage := StableAverage(error);
    var errorPercentageAverage := StableAverage(errorPercentage.value);
    var time := TimeGrid(|data|);
    // np.convolve raises on the empty operand; the averages are nan only then
    var movingAverage := MovingAverage(AbsAll(errorPercentage.value), WindowSize);
    if movingAverage.Failure? {
      return Failure(movingAverage.error);
    }
    var k := FirstBelow(movingAverage.value, errorPercentageAverage.value);
    if k.None? || k.value >= |time| {
      return Failure(IndexOutOfRange);
    }
    r := Success(Report(smoothedData, error, errorPercentage.value, errorAverage.value,
                        errorPercentageAverage.value, time, movingAverage.value, time[k.value]));
  }

  /** The settling time is 0.035 k seconds for the first window whose average
      percentage error drops below the overall average. */
  lemma SettlingTime(data: seq<real>, rep: Report)
    requires rep.time == TimeGrid(|data|)
    requires var k := FirstBelow(rep.movingAverageErrorPercentage, rep.errorPercentageAverage);
             k.Some? && k.value < |data| && rep.timeToAverageError == rep.time[k.value]
    ensures exists k :: 0 <= k < |rep.movingAverageErrorPercentage|
              && rep.movingAverageErrorPercentage[k] < rep.errorPercentageAverage
              && (forall j :: 0 <= j < k ==> rep.movingAverageErrorPercentage[j] >= rep.errorPercentageAverage)
              && rep.timeToAverageError == SamplePeriod * (k as real)
  {
    var k := FirstBelow(rep.movingAverageErrorPercentage, rep.errorPercentageAverage).value;
    TimeGridValues(|data|, k);
  }
}
