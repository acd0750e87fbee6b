/** Sharing one colour range across the panels of a figure
    (add_min_max_points and add_min_max_points_3plots in legacy_files/utility.py).

    Every series of a group of k gets 2k sentinel points at (-1000, -1000)
    appended to its x and y arrays, and the min and max of every series' z
    array appended to its own z array, so that each panel's colour bar spans
    the range of the whole group. np.append builds new arrays, so the series
    are values here and the caller's arrays are never touched. */
module ScaleSync {
  import opened Errors
  import opened ArrayMath
  import opened DataModel

  /** The off-screen coordinate given to the appended points. */
  const Sentinel: real := -1000.0

  /** The z arrays of a group, in order. */
  function Zs(g: seq<Series>): (zs: seq<seq<real>>)
    ensures |zs| == |g|
    ensures forall j :: 0 <= j < |g| ==> zs[j] == g[j].z
  {
    seq(|g|, j requires 0 <= j < |g| => g[j].z)
  }

  /** np.min and np.max raise on an empty array; synchronising needs every z non-empty. */
  predicate AllNonEmpty(zs: seq<seq<real>>)
  {
    forall j :: 0 <= j < |zs| ==> |zs[j]| > 0
  }

  /** min(z_0), max(z_0), min(z_1), max(z_1), ...: what each z array receives. */
  function Extrema(zs: seq<seq<real>>): (r: seq<real>)
    requires AllNonEmpty(zs)
    ensures |r| == 2 * |zs|
  {
    if zs == [] then []
    else Extrema(zs[..|zs| - 1]) + [Min(zs[|zs| - 1]), Max(zs[|zs| - 1])]
  }

  /** Positions 2j and 2j + 1 of the extrema hold min(z_j) and max(z_j). */
  lemma {:induction false} ExtremaAt(zs: seq<seq<real>>, j: nat)
    requires AllNonEmpty(zs) && j < |zs|
    ensures Extrema(zs)[2 * j] == Min(zs[j]) && Extrema(zs)[2 * j + 1] == Max(zs[j])
  {
    var front := zs[..|zs| - 1];
    assert forall k :: 0 <= k < |front| ==> front[k] == zs[k];
    if j < |front| {
      ExtremaAt(front, j);
    }
  }

  /** The smallest value of any z array of the group. */
  function GroupMin(zs: seq<seq<real>>): (m: real)
    requires |zs| > 0 && AllNonEmpty(zs)
    ensures forall j :: 0 <= j < |zs| ==> m <= Min(zs[j])
    ensures exists j :: 0 <= j < |zs| && m == Min(zs[j])
  {
    if |zs| == 1 then Min(zs[0])
    else
      var rest := GroupMin(zs[..|zs| - 1]);
      var last := Min(zs[|zs| - 1]);
      if rest <= last then rest else last
  }

  /** The largest value of any z array of the group. */
  function GroupMax(zs: seq<seq<real>>): (m: real)
    requires |zs| > 0 && AllNonEmpty(zs)
    ensures forall j :: 0 <= j < |zs| ==> Max(zs[j]) <= m
    ensures exists j :: 0 <= j < |zs| && m == Max(zs[j])
  {
    if |zs| == 1 then Max(zs[0])
    else
      var rest := GroupMax(zs[..|zs| - 1]);
      var last := Max(zs[|zs| - 1]);
      if rest >= last then rest else last
  }

  /** The group-wide extremes bound, and occur among, the appended extrema. */
  lemma ExtremaBounds(zs: seq<seq<real>>)
    requires |zs| > 0 && AllNonEmpty(zs)
    ensures GroupMin(zs) in Extrema(zs) && GroupMax(zs) in Extrema(zs)
    ensures forall t :: 0 <= t < |Extrema(zs)| ==> GroupMin(zs) <= Extrema(zs)[t] <= GroupMax(zs)
  {
    var e := Extrema(zs);
    var lo, hi := GroupMin(zs), GroupMax(zs);
    var jl :| 0 <= jl < |zs| && lo == Min(zs[jl]);
    var jh :| 0 <= jh < |zs| && hi == Max(zs[jh]);
    ExtremaAt(zs, jl);
    ExtremaAt(zs, jh);
    assert e[2 * jl] == lo && e[2 * jh + 1] == hi;
    forall t | 0 <= t < |e|
      ensures lo <= e[t] <= hi
    {
      var j := t / 2;
      ExtremaAt(zs, j);
      MinLeMax(zs[j]);
      assert t == 2 * j || t == 2 * j + 1;
    }
  }

  /** The group after synchronisation: 2k sentinels after every x and y, and
      all 2k extrema after every z. */
  function WithSharedRange(g: seq<Series>): (r: seq<Series>)
    requires AllNonEmpty(Zs(g))
    ensures |r| == |g|
  {
    seq(|g|, i requires 0 <= i < |g| =>
      Series(g[i].x + Repeat(Sentinel, 2 * |g|),
             g[i].y + Repeat(Sentinel, 2 * |g|),
             g[i].z + Extrema(Zs(g))))
  }

  /** The synchronisation invariant: every series reports the group-wide z range. */
  lemma {:induction false} SharedRangeIsGroupRange(g: seq<Series>, i: nat)
    requires AllNonEmpty(Zs(g)) && i < |g|
    ensures Min(WithSharedRange(g)[i].z) == GroupMin(Zs(g))
    ensures Max(WithSharedRange(g)[i].z) == GroupMax(Zs(g))
  {
    var zs := Zs(g);
    var e := Extrema(zs);
    var z := WithSharedRange(g)[i].z;
    assert z == g[i].z + e;
    var lo, hi := GroupMin(zs), GroupMax(zs);
    ExtremaBounds(zs);
    assert lo <= Min(zs[i]) && Max(zs[i]) <= hi;
    forall t | 0 <= t < |z|
      ensures lo <= z[t] <= hi
    {
      if t < |g[i].z| {
        assert z[t] == zs[i][t];
      } else {
        assert z[t] == e[t - |g[i].z|];
      }
    }
    MinUnique(z, lo);
    MaxUnique(z, hi);
  }

  /** Non-corruption: the original data stays as the unchanged prefix, and only
      sentinels follow the original coordinates. */
  lemma SharedRangeKeepsData(g: seq<Series>, i: nat)
    requires AllNonEmpty(Zs(g)) && i < |g|
    ensures WithSharedRange(g)[i].x[..|g[i].x|] == g[i].x
    ensures WithSharedRange(g)[i].y[..|g[i].y|] == g[i].y
    ensures WithSharedRange(g)[i].z[..|g[i].z|] == g[i].z
    ensures forall t :: |g[i].x| <= t < |WithSharedRange(g)[i].x| ==> WithSharedRange(g)[i].x[t] == Sentinel
    ensures forall t :: |g[i].y| <= t < |WithSharedRange(g)[i].y| ==> WithSharedRange(g)[i].y[t] == Sentinel
  {
    var s := WithSharedRange(g)[i];
    assert s.x[..|g[i].x|] == g[i].x;
    assert s.y[..|g[i].y|] == g[i].y;
    assert s.z[..|g[i].z|] == g[i].z;
  }

  /** Each array grows by exactly 2k, so a series whose x, y and z had equal
      lengths still has. */
  lemma SharedRangeLengths(g: seq<Series>, i: nat)
    requires AllNonEmpty(Zs(g)) && i < |g|
    ensures |WithSharedRange(g)[i].x| == |g[i].x| + 2 * |g|
    ensures |WithSharedRange(g)[i].y| == |g[i].y| + 2 * |g|
    ensures |WithSharedRange(g)[i].z| == |g[i].z| + 2 * |g|
    ensures |g[i].x| == |g[i].y| == |g[i].z| ==>
              |WithSharedRange(g)[i].x| == |WithSharedRange(g)[i].y| == |WithSharedRange(g)[i].z|
  {
  }

  /** The first loop of both routines: append `count` sentinels to each coordinate array. */
  method AppendSentinels(xys: seq<seq<real>>, count: nat) returns (out: seq<seq<real>>)
    ensures |out| == |xys|
    ensures forall i :: 0 <= i < |xys| ==> out[i] == xys[i] + Repeat(Sentinel, count)
  {
    out := xys;
    var i := 0;
    while i < |out|
      invariant 0 <= i <= |out| == |xys|
      invariant forall m :: 0 <= m < i ==> out[m] == xys[m] + Repeat(Sentinel, count)
      invariant forall m :: i <= m < |out| ==> out[m] == xys[m]
    {
      var j := 0;
      while j < count
        invariant 0 <= j <= count && |out| == |xys|
        invariant out[i] == xys[i] + Repeat(Sentinel, j)
        invariant forall m :: 0 <= m < i ==> out[m] == xys[m] + Repeat(Sentinel, count)
        invariant forall m :: i < m < |out| ==> out[m] == xys[m]
      {
        assert Repeat(Sentinel, j + 1) == Repeat(Sentinel, j) + [Sentinel];
        out := out[i := out[i] + [Sentinel]];
        j := j + 1;
      }
      i := i + 1;
    }
  }

  /** Appending min and max of the next input extends the extrema of the
      inputs seen so far by one array. */
  lemma ExtremaStep(zOutput: seq<real>, zInputs: seq<seq<real>>, j: nat, before: seq<real>)
    requires j < |zInputs| && |zInputs[j]| > 0 && AllNonEmpty(zInputs[..j])
    requires before == zOutput + Extrema(zInputs[..j])
    ensures AllNonEmpty(zInputs[..j + 1])
    ensures before + [Min(zInputs[j])] + [Max(zInputs[j])] == zOutput + Extrema(zInputs[..j + 1])
  {
    var prefix := zInputs[..j + 1];
    assert prefix[..j] == zInputs[..j] && prefix[j] == zInputs[j];
    assert Extrema(prefix) == Extrema(zInputs[..j]) + [Min(zInputs[j]), Max(zInputs[j])];
  }

  /** The inner loop of the second loop: append min(z_j), max(z_j) of every
      input to one output; np.min raises on the first empty input. */
  method AppendGroupExtrema(zOutput: seq<real>, zInputs: seq<seq<real>>) returns (r: Result<seq<real>>)
    ensures r.Failure? <==> !AllNonEmpty(zInputs)
    ensures r.Failure? ==> r.error == EmptyArray
    ensures r.Success? ==> r.value == zOutput + Extrema(zInputs)
  {
    var out := zOutput;
    for j := 0 to |zInputs|
      invariant AllNonEmpty(zInputs[..j])
      invariant out == zOutput + Extrema(zInputs[..j])
    {
      if |zInputs[j]| == 0 {
        return Failure(EmptyArray);
      }
      ExtremaStep(zOutput, zInputs, j, out);
      out := out + [Min(zInputs[j])];
      out := out + [Max(zInputs[j])];
    }
    assert zInputs[..|zInputs|] == zInputs;
    r := Success(out);
  }

  /** The second loop of both routines: every output receives all the extrema. */
  method AppendExtrema(zOutputs: seq<seq<real>>, zInputs: seq<seq<real>>) returns (r: Result<seq<seq<real>>>)
    ensures r.Failure? <==> |zOutputs| > 0 && !AllNonEmpty(zInputs)
    ensures r.Failure? ==> r.error == EmptyArray
    ensures r.Success? ==> |r.value| == |zOutputs|
    ensures r.Success? ==> forall i :: 0 <= i < |zOutputs| ==> r.value[i] == zOutputs[i] + Extrema(zInputs)
  {
    var outs := zOutputs;
    for i := 0 to |zOutputs|
      invariant |outs| == |zOutputs|
      invariant i > 0 ==> AllNonEmpty(zInputs)
      invariant forall m :: 0 <= m < i ==> outs[m] == zOutputs[m] + Extrema(zInputs)
      invariant forall m :: i <= m < |outs| ==> outs[m] == zOutputs[m]
    {
      var out := AppendGroupExtrema(outs[i], zInputs);
      if out.Failure? {
        return Failure(out.error);
      }
      outs := outs[i := out.value];
    }
    r := Success(outs);
  }

  /** One member of the synchronised group, spelled out. */
  lemma SharedRangeAt(g: seq<Series>, i: nat)
    requires AllNonEmpty(Zs(g)) && i < |g|
    ensures WithSharedRange(g)[i] == Series(g[i].x + Repeat(Sentinel, 2 * |g|),
                                            g[i].y + Repeat(Sentinel, 2 * |g|),
                                            g[i].z + Extrema(Zs(g)))
  {
  }

  lemma ExtremaOfTwo(z1: seq<real>, z2: seq<real>)
    requires |z1| > 0 && |z2| > 0
    ensures AllNonEmpty([z1, z2])
    ensures Extrema([z1, z2]) == [Min(z1), Max(z1), Min(z2), Max(z2)]
  {
    assert [z1, z2][..1] == [z1];
    assert [z1][..0] == [];
  }

  lemma ExtremaOfThree(z1: seq<real>, z2: seq<real>, z3: seq<real>)
    requires |z1| > 0 && |z2| > 0 && |z3| > 0
    ensures AllNonEmpty([z1, z2, z3])
    ensures Extrema([z1, z2, z3]) == [Min(z1), Max(z1), Min(z2), Max(z2), Min(z3), Max(z3)]
  {
    assert [z1, z2, z3][..2] == [z1, z2];
    ExtremaOfTwo(z1, z2);
  }

  /** The synchronised pair, spelled out. */
  lemma PairSharedRange(x1: seq<real>, y1: seq<real>, z1: seq<real>,
                        x2: seq<real>, y2: seq<real>, z2: seq<real>)
    requires |z1| > 0 && |z2| > 0
    ensures AllNonEmpty(Zs([Series(x1, y1, z1), Series(x2, y2, z2)]))
    ensures WithSharedRange([Series(x1, y1, z1), Series(x2, y2, z2)])
         == [Series(x1 + Repeat(Sentinel, 4), y1 + Repeat(Sentinel, 4), z1 + [Min(z1), Max(z1), Min(z2), Max(z2)]),
             Series(x2 + Repeat(Sentinel, 4), y2 + Repeat(Sentinel, 4), z2 + [Min(z1), Max(z1), Min(z2), Max(z2)])]
  {
    var g := [Series(x1, y1, z1), Series(x2, y2, z2)];
    assert Zs(g) == [z1, z2];
    ExtremaOfTwo(z1, z2);
    var w := WithSharedRange(g);
    SharedRangeAt(g, 0);
    SharedRangeAt(g, 1);
    assert w == [w[0], w[1]];
  }

  /** The synchronised triple, spelled out. */
  lemma TripleSharedRange(x1: seq<real>, y1: seq<real>, z1: seq<real>,
                          x2: seq<real>, y2: seq<real>, z2: seq<real>,
                          x3: seq<real>, y3: seq<real>, z3: seq<real>)
    requires |z1| > 0 && |z2| > 0 && |z3| > 0
    ensures AllNonEmpty([z1, z2, z3])
    ensures AllNonEmpty(Zs([Series(x1, y1, z1), Series(x2, y2, z2), Series(x3, y3, z3)]))
    ensures WithSharedRange([Series(x1, y1, z1), Series(x2, y2, z2), Series(x3, y3, z3)])
         == [Series(x1 + Repeat(Sentinel, 6), y1 + Repeat(Sentinel, 6), z1 + Extrema([z1, z2, z3])),
             Series(x2 + Repeat(Sentinel, 6), y2 + Repeat(Sentinel, 6), z2 + Extrema([z1, z2, z3])),
             Series(x3 + Repeat(Sentinel, 6), y3 + Repeat(Sentinel, 6), z3 + Extrema([z1, z2, z3]))]
  {
    var g := [Series(x1, y1, z1), Series(x2, y2, z2), Series(x3, y3, z3)];
    assert Zs(g) == [z1, z2, z3];
    assert [z1, z2, z3][0] == z1 && [z1, z2, z3][1] == z2 && [z1, z2, z3][2] == z3;
    var w := WithSharedRange(g);
    SharedRangeAt(g, 0);
    SharedRangeAt(g, 1);
    SharedRangeAt(g, 2);
    assert w == [w[0], w[1], w[2]];
  }

  /** add_min_max_points: synchronise a group of two series. */
  method AddMinMaxPoints(x1: seq<real>, y1: seq<real>, z1: seq<real>,
                         x2: seq<real>, y2: seq<real>, z2: seq<real>)
    returns (r: Result<seq<Series>>)
    ensures r.Failure? <==> |z1| == 0 || |z2| == 0
    ensures r.Failure? ==> r.error == EmptyArray
    ensures r.Success? ==> r.value == WithSharedRange([Series(x1, y1, z1), Series(x2, y2, z2)])
    ensures r.Success? ==> (
      && |r.value| == 2
      && r.value[0] == Series(x1 + Repeat(Sentinel, 4), y1 + Repeat(Sentinel, 4), z1 + [Min(z1), Max(z1), Min(z2), Max(z2)])
      && r.value[1] == Series(x2 + Repeat(Sentinel, 4), y2 + Repeat(Sentinel, 4), z2 + [Min(z1), Max(z1), Min(z2), Max(z2)]))
  {
    var xys := AppendSentinels([x1, y1, x2, y2], 4);
    var zOutputs := AppendExtrema([z1, z2], [z1, z2]);
    if zOutputs.Failure? {
      assert |z1| == 0 || |z2| == 0 by {
        if |z1| > 0 && |z2| > 0 { ExtremaOfTwo(z1, z2); }
      }
      return Failure(zOutputs.error);
    }
    assert [z1, z2][0] == z1 && [z1, z2][1] == z2;
    ExtremaOfTwo(z1, z2);
    PairSharedRange(x1, y1, z1, x2, y2, z2);
    var sentinels := Repeat(Sentinel, 4);
    var e := [Min(z1), Max(z1), Min(z2), Max(z2)];
    var xyIn := [x1, y1, x2, y2];
    assert xyIn[0] == x1 && xyIn[1] == y1 && xyIn[2] == x2 && xyIn[3] == y2;
    var s1 := Series(xys[0], xys[1], zOutputs.value[0]);
    var s2 := Series(xys[2], xys[3], zOutputs.value[1]);
    assert s1 == Series(x1 + sentinels, y1 + sentinels, z1 + e);
    assert s2 == Series(x2 + sentinels, y2 + sentinels, z2 + e);
    r := Success([s1, s2]);
  }

  /** add_min_max_points_3plots: synchronise a group of three series. */
  method AddMinMaxPoints3Plots(x1: seq<real>, y1: seq<real>, z1: seq<real>,
                               x2: seq<real>, y2: seq<real>, z2: seq<real>,
                               x3: seq<real>, y3: seq<real>, z3: seq<real>)
    returns (r: Result<seq<Series>>)
    ensures r.Failure? <==> |z1| == 0 || |z2| == 0 || |z3| == 0
    ensures r.Failure? ==> r.error == EmptyArray
    ensures r.Success? ==> r.value == WithSharedRange([Series(x1, y1, z1), Series(x2, y2, z2), Series(x3, y3, z3)])
  {
    var xys := AppendSentinels([x1, y1, x2, y2, x3, y3], 6);
    var zOutputs := AppendExtrema([z1, z2, z3], [z1, z2, z3]);
    if zOutputs.Failure? {
      assert |z1| == 0 || |z2| == 0 || |z3| == 0 by {
        if |z1| > 0 && |z2| > 0 && |z3| > 0 { ExtremaOfThree(z1, z2, z3); }
      }
      return Failure(zOutputs.error);
    }
    assert [z1, z2, z3][0] == z1 && [z1, z2, z3][1] == z2 && [z1, z2, z3][2] == z3;
    TripleSharedRange(x1, y1, z1, x2, y2, z2, x3, y3, z3);
    ExtremaOfThree(z1, z2, z3);
    var sentinels := Repeat(Sentinel, 6);
    var e := Extrema([z1, z2, z3]);
    var xyIn := [x1, y1, x2, y2, x3, y3];
    assert xyIn[0] == x1 && xyIn[1] == y1 && xyIn[2] == x2 && xyIn[3] == y2 && xyIn[4] == x3 && xyIn[5] == y3;
    var s1 := Series(xys[0], xys[1], zOutputs.value[0]);
    var s2 := Series(xys[2], xys[3], zOutputs.value[1]);
    var s3 := Series(xys[4], xys[5], zOutputs.value[2]);
    assert s1 == Series(x1 + sentinels, y1 + sentinels, z1 + e);
    assert s2 == Series(x2 + sentinels, y2 + sentinels, z2 + e);
    assert s3 == Series(x3 + sentinels, y3 + sentinels, z3 + e);
    r := Success([s1, s2, s3]);
  }

  /** Two series with z ranges [0, 10] and [5, 20] both report [0, 20] afterwards. */
  lemma TwoSeriesShareRange()
    ensures var g := [Series([250.0, 260.0], [1.0e6, 2.0e6], [0.0, 10.0]),
                      Series([270.0, 280.0], [3.0e6, 4.0e6], [5.0, 20.0])];
            AllNonEmpty(Zs(g))
            && Min(WithSharedRange(g)[0].z) == 0.0 && Max(WithSharedRange(g)[0].z) == 20.0
            && Min(WithSharedRange(g)[1].z) == 0.0 && Max(WithSharedRange(g)[1].z) == 20.0
  {
    var g := [Series([250.0, 260.0], [1.0e6, 2.0e6], [0.0, 10.0]),
              Series([270.0, 280.0], [3.0e6, 4.0e6], [5.0, 20.0])];
    var zs := Zs(g);
    assert zs == [[0.0, 10.0], [5.0, 20.0]];
    MinUnique([0.0, 10.0], 0.0);
    MaxUnique([0.0, 10.0], 10.0);
    MinUnique([5.0, 20.0], 5.0);
    MaxUnique([5.0, 20.0], 20.0);
    assert GroupMin(zs) == 0.0 && GroupMax(zs) == 20.0;
    SharedRangeIsGroupRange(g, 0);
    SharedRangeIsGroupRange(g, 1);
  }
}
