/** The decision logic of the CO2 plotting script (legacy_files/plot.py): which
    groups get a shared colour range, the axis limits, colour-bar aspects and
    selection, and histogram weights. The matplotlib calls are not modelled. */
module LegacyPlot {
  import opened Errors
  import opened ArrayMath
  import opened DataModel
  import opened ScaleSync

  /** share_minmax_data: a list of two or three series is synchronised, and
      the results are written into the caller's own list, which is returned;
      a list of any other length comes back untouched. */
  method ShareMinMaxData(data: array<Series>) returns (r: Result<array<Series>>)
    modifies data
    ensures r.Success? ==> r.value == data
    ensures r.Failure? ==> r.error == EmptyArray && data[..] == old(data[..])
    ensures data.Length != 2 && data.Length != 3 ==> r.Success? && data[..] == old(data[..])
    ensures data.Length == 2 || data.Length == 3 ==>
              && (r.Failure? <==> !AllNonEmpty(Zs(old(data[..]))))
              && (r.Success? ==> data[..] == WithSharedRange(old(data[..])))
  {
    if data.Length == 2 {
      var e := SharePair(data);
      if e.Some? {
        return Failure(e.value);
      }
    }
    if data.Length == 3 {
      var e := ShareTriple(data);
      if e.Some? {
        return Failure(e.value);
      }
    }
    r := Success(data);
  }

  /** The two-series branch of share_minmax_data. */
  method SharePair(data: array<Series>) returns (e: Option<Error>)
    requires data.Length == 2
    modifies data
    ensures e.Some? <==> !AllNonEmpty(Zs(old(data[..])))
    ensures e.Some? ==> e.value == EmptyArray && data[..] == old(data[..])
    ensures e.None? ==> data[..] == WithSharedRange(old(data[..]))
  {
    ghost var g := data[..];
    var s1, s2 := data[0], data[1];
    assert g == [s1, s2];
    var p := AddMinMaxPoints(s1.x, s1.y, s1.z, s2.x, s2.y, s2.z);
    if p.Failure? {
      assert !AllNonEmpty(Zs(g)) by {
        assert Zs(g)[0] == s1.z && Zs(g)[1] == s2.z;
      }
      return Some(p.error);
    }
    data[0] := p.value[0];
    data[1] := p.value[1];
    assert data[..] == p.value;
    e := None;
  }

  /** The three-series branch of share_minmax_data. */
  method ShareTriple(data: array<Series>) returns (e: Option<Error>)
    requires data.Length == 3
    modifies data
    ensures e.Some? <==> !AllNonEmpty(Zs(old(data[..])))
    ensures e.Some? ==> e.value == EmptyArray && data[..] == old(data[..])
    ensures e.None? ==> data[..] == WithSharedRange(old(data[..]))
  {
    ghost var g := data[..];
    var s1, s2, s3 := data[0], data[1], data[2];
    assert g == [s1, s2, s3];
    var p := AddMinMaxPoints3Plots(s1.x, s1.y, s1.z, s2.x, s2.y, s2.z, s3.x, s3.y, s3.z);
    if p.Failure? {
      assert !AllNonEmpty(Zs(g)) by {
        assert Zs(g)[0] == s1.z && Zs(g)[1] == s2.z && Zs(g)[2] == s3.z;
      }
      return Some(p.error);
    }
    data[0] := p.value[0];
    data[1] := p.value[1];
    data[2] := p.value[2];
    assert data[..] == p.value;
    e := None;
  }

  /** The view of a pressure-temperature panel: x from 240 K, y from 0 Pa. */
  datatype Limits = Limits(xLower: real, xUpper: real, yLower: real, yUpper: real)

  /** The limits sort_xy_axes gives every panel; np.max raises on an empty array. */
  function AxisLimits(x: seq<real>, y: seq<real>): (r: Result<Limits>)
    ensures r.Failure? <==> |x| == 0 || |y| == 0
    ensures r.Failure? ==> r.error == EmptyArray
    ensures r.Success? ==> r.value.xLower == 240.0 && r.value.yLower == 0.0
    ensures r.Success? ==> r.value.xUpper in x && r.value.yUpper in y
    ensures r.Success? ==> forall i :: 0 <= i < |x| ==> x[i] <= r.value.xUpper
    ensures r.Success? ==> forall i :: 0 <= i < |y| ==> y[i] <= r.value.yUpper
  {
    if |x| == 0 || |y| == 0 then Failure(EmptyArray)
    else Success(Limits(240.0, Max(x), 0.0, Max(y)))
  }

  /** Every sentinel point of a synchronised series lies left of and below the
      view, and, as long as the data reaches the sentinel value at all, the
      appended points do not move the upper limits. */
  lemma SentinelsOutsideView(g: seq<Series>, i: nat)
    requires AllNonEmpty(Zs(g)) && i < |g|
    requires |g[i].x| > 0 && |g[i].y| > 0
    requires Max(g[i].x) >= Sentinel && Max(g[i].y) >= Sentinel
    ensures var s := WithSharedRange(g)[i];
            && AxisLimits(s.x, s.y) == AxisLimits(g[i].x, g[i].y)
            && (forall t :: |g[i].x| <= t < |s.x| ==> s.x[t] < AxisLimits(s.x, s.y).value.xLower)
            && (forall t :: |g[i].y| <= t < |s.y| ==> s.y[t] < AxisLimits(s.x, s.y).value.yLower)
  {
    var s := WithSharedRange(g)[i];
    SharedRangeAt(g, i);
    MaxAppendBelow(g[i].x, Repeat(Sentinel, 2 * |g|));
    MaxAppendBelow(g[i].y, Repeat(Sentinel, 2 * |g|));
  }

  /** The x range error_histogram shows for the log percentage errors x. */
  function ErrorHistogramXLimits(x: seq<real>): (r: Result<(real, real)>)
    ensures r.Failure? <==> |x| == 0
    ensures r.Success? ==> r.value.0 == Min(x)
    ensures r.Success? ==> r.value.1 > 0.0 && r.value.1 > r.value.0
    ensures r.Success? && Max(x) - Min(x) > 0.5 && Max(x) > 0.0 ==> r.value.1 == Max(x)
  {
    if |x| == 0 then Failure(EmptyArray)
    else
      var lower := Min(x);
      var upper := Max(x);
      assert lower <= upper by {
        var k :| 0 <= k < |x| && x[k] == upper;
      }
      var widened := if Abs(lower - upper) <= 0.5 then upper + 1.0 else upper;
      var positive := if widened <= 0.0 then 0.0 + 0.2 else widened;
      Success((lower, positive))
  }

  /** The aspect ratios of the normal and the error colour bars. */
  function Aspects(numberOfNormalPlots: nat, numberOfErrorPlots: nat): (r: (int, int))
    ensures r.0 == 15 || r.0 == 30
    ensures r.1 == 15 || r.1 == 30
    ensures r.0 == 15 <==> numberOfNormalPlots == 1 && numberOfErrorPlots == 2
    ensures r.1 == 15 <==> numberOfNormalPlots == 2 && numberOfErrorPlots == 1
  {
    var total := numberOfNormalPlots + numberOfErrorPlots;
    var defaults := (30, 30);
    var oneNormal := if total == 3 && numberOfNormalPlots == 1 && numberOfErrorPlots == 2 then (15, 30) else defaults;
    if total == 3 && numberOfNormalPlots == 2 && numberOfErrorPlots == 1 then (30, 15) else oneNormal
  }

  /** At most one of the two colour bars is ever shortened. */
  lemma AspectsNeverBothShort(numberOfNormalPlots: nat, numberOfErrorPlots: nat)
    ensures Aspects(numberOfNormalPlots, numberOfErrorPlots).0 == 30 || Aspects(numberOfNormalPlots, numberOfErrorPlots).1 == 30
  {
  }

  /** A colour-bar variable: still the integer 0 it was initialised with, or a
      colour bar (identified by a handle). */
  datatype CbarSlot = Zero | Colourbar(handle: nat)

  /** cbar_n or cbar_e: a colour bar exists only for a group with plots. */
  function CbarFor(numberOfPlots: nat, handle: nat): (c: CbarSlot)
    ensures c.Colourbar? <==> numberOfPlots > 0
    ensures c.Colourbar? ==> c.handle == handle
  {
    if numberOfPlots > 0 then Colourbar(handle) else Zero
  }

  /** The list of colour bars scatter_normals_errors hands back: the colour
      bars that exist, normal first, or the bare cbar_e when there are none. */
  function Cbars(cbarN: CbarSlot, cbarE: CbarSlot): (c: seq<CbarSlot>)
    ensures 1 <= |c| <= 2
    ensures forall k :: 0 <= k < |c| ==> c[k] == cbarN || c[k] == cbarE
    ensures cbarN != Zero ==> c[0] == cbarN && Zero !in c
    ensures cbarN in c <==> cbarN != Zero || cbarE == Zero
    ensures cbarE in c <==> cbarE != Zero || cbarN == Zero
  {
    if cbarN == Zero then [cbarE]
    else if cbarE == Zero then [cbarN]
    else [cbarN, cbarE]
  }

  /** With at least one plot, the list holds exactly the colour bars that were
      made, normal before error; with none at all it holds the bare 0. */
  lemma CbarsSelection(numberOfNormalPlots: nat, numberOfErrorPlots: nat, handleN: nat, handleE: nat)
    ensures var cbars := Cbars(CbarFor(numberOfNormalPlots, handleN), CbarFor(numberOfErrorPlots, handleE));
            && (numberOfNormalPlots == 0 ==> cbars == [CbarFor(numberOfErrorPlots, handleE)])
            && (numberOfNormalPlots > 0 && numberOfErrorPlots == 0 ==> cbars == [Colourbar(handleN)])
            && (numberOfNormalPlots > 0 && numberOfErrorPlots > 0 ==> cbars == [Colourbar(handleN), Colourbar(handleE)])
            && (numberOfNormalPlots + numberOfErrorPlots > 0 ==>
                  && Zero !in cbars
                  && |cbars| == (if numberOfNormalPlots > 0 then 1 else 0) + (if numberOfErrorPlots > 0 then 1 else 0))
            && (numberOfNormalPlots + numberOfErrorPlots == 0 ==> cbars == [Zero])
  {
  }

  /** The value of the weight normaliser n after the loop of historgrams has
      seen xs: it starts as the argument and, while it is 0, takes the length
      of the array in hand. */
  function Normaliser(xs: seq<seq<real>>, n: int): (m: int)
    ensures n != 0 ==> m == n
    ensures n == 0 ==> (m == 0 <==> forall k :: 0 <= k < |xs| ==> |xs[k]| == 0)
    ensures |xs| > 0 && |xs[|xs| - 1]| > 0 ==> m != 0
  {
    if xs == [] then n
    else
      var front := xs[..|xs| - 1];
      var m := Normaliser(front, n);
      assert forall k :: 0 <= k < |front| ==> front[k] == xs[k];
      if m == 0 then |xs[|xs| - 1]| else m
  }

  /** np.ones(len) / n; an empty array needs no normaliser. */
  function Weights(length: nat, n: int): (w: seq<real>)
    requires length == 0 || n != 0
    ensures |w| == length
    ensures forall k :: 0 <= k < length ==> w[k] * (n as real) == 1.0
  {
    if length == 0 then [] else Repeat(1.0 / (n as real), length)
  }

  /** One turn of the loop in historgrams. */
  lemma NormaliserStep(xs: seq<seq<real>>, i: nat, n: int)
    requires i < |xs|
    ensures Normaliser(xs[..i + 1], n) == if Normaliser(xs[..i], n) == 0 then |xs[i]| else Normaliser(xs[..i], n)
    ensures |xs[i]| == 0 || Normaliser(xs[..i + 1], n) != 0
  {
    assert xs[..i + 1][..i] == xs[..i];
  }

  /** The weights of the i-th histogram: its length normalised by n as it
      stands after the loop has seen arrays 0 to i. */
  function HistogramWeightsAt(xs: seq<seq<real>>, n: int, i: nat): (w: seq<real>)
    requires i < |xs|
    ensures |w| == |xs[i]|
    ensures forall k :: 0 <= k < |w| ==> w[k] * (Normaliser(xs[..i + 1], n) as real) == 1.0
  {
    NormaliserStep(xs, i, n);
    Weights(|xs[i]|, Normaliser(xs[..i + 1], n))
  }

  /** The weights of each histogram drawn by historgrams. */
  method HistogramWeights(xArray: seq<seq<real>>, n0: int) returns (weights: seq<seq<real>>)
    ensures |weights| == |xArray|
    ensures forall i :: 0 <= i < |xArray| ==> weights[i] == HistogramWeightsAt(xArray, n0, i)
  {
    var n := n0;
    weights := [];
    for i := 0 to |xArray|
      invariant n == Normaliser(xArray[..i], n0)
      invariant |weights| == i
      invariant forall k :: 0 <= k < i ==> weights[k] == HistogramWeightsAt(xArray, n0, k)
    {
      NormaliserStep(xArray, i, n0);
      if n == 0 {
        n := |xArray[i]|;
      }
      weights := weights + [Weights(|xArray[i]|, n)];
    }
  }

  /** Called with the default n = 0 on a non-empty first array, every histogram
      is normalised by the first array's length, so the first one's weights
      add up to exactly 1 (its cumulative count ends at 100%). */
  lemma {:induction false} FirstLengthNormalisesAll(xArray: seq<seq<real>>, i: nat)
    requires i < |xArray| && |xArray[0]| > 0
    ensures Normaliser(xArray[..i + 1], 0) == |xArray[0]|
    ensures Sum(Weights(|xArray[0]|, Normaliser(xArray[..1], 0))) == 1.0
  {
    if i > 0 {
      FirstLengthNormalisesAll(xArray, i - 1);
      assert xArray[..i + 1][..i] == xArray[..i];
    } else {
      assert xArray[..1][..0] == [];
    }
    var len := |xArray[0]|;
    SumRepeat(1.0 / (len as real), len);
  }
}
