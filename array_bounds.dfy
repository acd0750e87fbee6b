/** Clamping and filtering of data arrays (bound_array, bound_data and
    bound_data_indices in legacy_files/utility.py). */
module ArrayBounds {
  import opened Errors
  import opened DataModel

  /** One element after both masked assignments of bound_array: a value above
      `upper` becomes `upper`, and then a value below `lower` becomes `lower`. */
  function Clamp(v: real, lower: real, upper: real): real
  {
    var t := if v > upper then upper else v;
    if t < lower then lower else t
  }

  /** The array bound_array leaves behind. */
  function Bounded(s: seq<real>, lower: real, upper: real): (r: seq<real>)
    ensures |r| == |s|
    ensures lower <= upper ==> forall i :: 0 <= i < |s| ==> lower <= r[i] <= upper
    ensures forall i :: 0 <= i < |s| && lower <= s[i] <= upper ==> r[i] == s[i]
    ensures lower <= upper ==> forall i :: 0 <= i < |s| && s[i] > upper ==> r[i] == upper
    ensures forall i :: 0 <= i < |s| && s[i] < lower ==> r[i] == lower
    ensures upper < lower ==> forall i :: 0 <= i < |s| ==> r[i] == lower
  {
    seq(|s|, i requires 0 <= i < |s| => Clamp(s[i], lower, upper))
  }

  /** Clamping twice changes nothing more when the bounds are ordered. */
  lemma BoundedIdempotent(s: seq<real>, lower: real, upper: real)
    requires lower <= upper
    ensures Bounded(Bounded(s, lower, upper), lower, upper) == Bounded(s, lower, upper)
  {
  }

  /** bound_array: clamp x in place and hand back the same array. */
  method BoundArray(x: array<real>, lower: real, upper: real) returns (xBounded: array<real>)
    modifies x
    ensures xBounded == x
    ensures x[..] == Bounded(old(x[..]), lower, upper)
  {
    xBounded := x;
    var i := 0;
    while i < xBounded.Length
      invariant 0 <= i <= xBounded.Length
      invariant forall k :: 0 <= k < i ==> xBounded[k] == (if old(x[k]) > upper then upper else old(x[k]))
      invariant forall k :: i <= k < xBounded.Length ==> xBounded[k] == old(x[k])
    {
      if xBounded[i] > upper {
        xBounded[i] := upper;
      }
      i := i + 1;
    }
    i := 0;
    while i < xBounded.Length
      invariant 0 <= i <= xBounded.Length
      invariant forall k :: 0 <= k < i ==> xBounded[k] == Clamp(old(x[k]), lower, upper)
      invariant forall k :: i <= k < xBounded.Length ==> xBounded[k] == (if old(x[k]) > upper then upper else old(x[k]))
    {
      if xBounded[i] < lower {
        xBounded[i] := lower;
      }
      i := i + 1;
    }
  }

  /** np.where((z <= upper) & (z >= lower))[0]: the in-range positions, ascending. */
  function InRangeIndices(z: seq<real>, lower: real, upper: real): (r: seq<int>)
    ensures forall k :: 0 <= k < |r| ==> 0 <= r[k] < |z| && lower <= z[r[k]] <= upper
    ensures forall k, l :: 0 <= k < l < |r| ==> r[k] < r[l]
    ensures forall i :: 0 <= i < |z| && lower <= z[i] <= upper ==> i in r
  {
    if z == [] then []
    else
      var front := InRangeIndices(z[..|z| - 1], lower, upper);
      if lower <= z[|z| - 1] <= upper then front + [|z| - 1] else front
  }

  /** A reference definition: the in-range values of z, in their original order. */
  function InRangeValues(z: seq<real>, lower: real, upper: real): seq<real>
  {
    if z == [] then []
    else
      var front := InRangeValues(z[..|z| - 1], lower, upper);
      if lower <= z[|z| - 1] <= upper then front + [z[|z| - 1]] else front
  }

  /** numpy accepts an index i with -n <= i < n; a negative one counts from the end. */
  predicate ValidIndex(i: int, n: nat)
  {
    -(n as int) <= i < n
  }

  function Position(i: int, n: nat): (p: nat)
    requires ValidIndex(i, n)
    ensures p < n
  {
    if i < 0 then n + i else i
  }

  /** Fancy indexing s[indices]: IndexError as soon as one index is out of bounds. */
  function Take(s: seq<real>, indices: seq<int>): (r: Result<seq<real>>)
    ensures r.Success? <==> forall k :: 0 <= k < |indices| ==> ValidIndex(indices[k], |s|)
    ensures r.Failure? ==> r.error == IndexOutOfRange
    ensures r.Success? ==> |r.value| == |indices|
    ensures r.Success? ==> forall k :: 0 <= k < |indices| ==> r.value[k] == s[Position(indices[k], |s|)]
  {
    if forall k :: 0 <= k < |indices| ==> ValidIndex(indices[k], |s|) then
      Success(seq(|indices|, k requires 0 <= k < |indices| => s[Position(indices[k], |s|)]))
    else
      Failure(IndexOutOfRange)
  }

  /** bound_data_indices: the same selection from x, y and z. */
  function BoundDataIndices(x: seq<real>, y: seq<real>, z: seq<real>, indices: seq<int>): (r: Result<Series>)
    ensures r.Success? <==> Take(x, indices).Success? && Take(y, indices).Success? && Take(z, indices).Success?
    ensures r.Success? ==> r.value == Series(Take(x, indices).value, Take(y, indices).value, Take(z, indices).value)
  {
    match Take(x, indices)
    case Failure(e) => Failure(e)
    case Success(xOut) =>
      match Take(y, indices)
      case Failure(e) => Failure(e)
      case Success(yOut) =>
        match Take(z, indices)
        case Failure(e) => Failure(e)
        case Success(zOut) => Success(Series(xOut, yOut, zOut))
  }

  /** bound_data: keep the points whose z lies in [lower, upper]; x[i] or
      y[i] raises when an in-range position i of z lies past their end. */
  function BoundData(x: seq<real>, y: seq<real>, z: seq<real>, lower: real, upper: real): (r: Result<Series>)
    ensures r.Failure? ==> r.error == IndexOutOfRange
    ensures r.Success? ==> r.value.z == InRangeValues(z, lower, upper)
    ensures r.Success? ==> |r.value.x| == |r.value.y| == |r.value.z|
  {
    TakeInRangeIndices(z, lower, upper);
    BoundDataIndices(x, y, z, InRangeIndices(z, lower, upper))
  }

  /** Selecting z at its own in-range positions yields exactly its in-range values. */
  lemma {:induction false} TakeInRangeIndices(z: seq<real>, lower: real, upper: real)
    ensures Take(z, InRangeIndices(z, lower, upper)) == Success(InRangeValues(z, lower, upper))
  {
    if z != [] {
      var init := z[..|z| - 1];
      TakeInRangeIndices(init, lower, upper);
      var front := InRangeIndices(init, lower, upper);
      var frontValues := InRangeValues(init, lower, upper);
      assert |frontValues| == |front|;
      var idx := InRangeIndices(z, lower, upper);
      var r := Take(z, idx);
      var expected := InRangeValues(z, lower, upper);
      assert r.Success?;
      assert |r.value| == |idx| == |expected|;
      forall k | 0 <= k < |expected|
        ensures r.value[k] == expected[k]
      {
        if k < |front| {
          assert idx[k] == front[k] && expected[k] == frontValues[k];
          assert Take(init, front).value[k] == init[front[k]];
        } else {
          assert idx[k] == |z| - 1 && expected[k] == z[|z| - 1];
        }
      }
      assert r.value == expected;
    } else {
      assert Take(z, []).value == [];
    }
  }

  /** With equally long x, y and z, bound_data never fails, its z output is the
      in-range values of z, the three outputs are equally long, and output k
      is input point i_k for ascending in-range positions i_k. */
  lemma BoundDataKeepsInRangePoints(x: seq<real>, y: seq<real>, z: seq<real>, lower: real, upper: real)
    requires |x| == |y| == |z|
    ensures BoundData(x, y, z, lower, upper).Success?
    ensures var r := BoundData(x, y, z, lower, upper).value;
            && r.z == InRangeValues(z, lower, upper)
            && |r.x| == |r.y| == |r.z|
            && (forall k :: 0 <= k < |r.z| ==> lower <= r.z[k] <= upper)
            && (forall k :: 0 <= k < |r.z| ==>
                 var i := InRangeIndices(z, lower, upper)[k];
                 r.x[k] == x[i] && r.y[k] == y[i] && r.z[k] == z[i])
  {
    TakeInRangeIndices(z, lower, upper);
  }

  /** bound_data fails exactly when an in-range position of z lies past the end of x or y. */
  lemma BoundDataFailure(x: seq<real>, y: seq<real>, z: seq<real>, lower: real, upper: real)
    ensures BoundData(x, y, z, lower, upper).Failure?
        <==> exists i :: 0 <= i < |z| && lower <= z[i] <= upper && (i >= |x| || i >= |y|)
  {
    var idx := InRangeIndices(z, lower, upper);
    if exists i :: 0 <= i < |z| && lower <= z[i] <= upper && (i >= |x| || i >= |y|) {
      var i :| 0 <= i < |z| && lower <= z[i] <= upper && (i >= |x| || i >= |y|);
      var k :| 0 <= k < |idx| && idx[k] == i;
      assert !ValidIndex(idx[k], |x|) || !ValidIndex(idx[k], |y|);
    }
  }
}
