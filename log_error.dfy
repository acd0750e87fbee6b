/** The log relative error between a reference array a and a computed array b
    (compute_log_percentage_error in legacy_files/utility.py). log10 is not
    modelled: it is handed in as an arbitrary function on the reals. */
module LogError {
  import opened Errors
  import opened ArrayMath

  /** What replaces a zero so that neither log10(0) nor a division by zero occurs. */
  const Epsilon: real := 1e-16

  /** The float results the metric can produce: a finite value, or +inf where
      a positive error is divided by a zero that was left in a. */
  datatype Float = Finite(v: real) | PosInf

  /** len(a[np.where(a == 0.0)]): how many elements are zero. */
  function ZeroCount(s: seq<real>): (n: nat)
    ensures n <= |s|
    ensures n == 0 <==> forall i :: 0 <= i < |s| ==> s[i] != 0.0
  {
    if s == [] then 0
    else
      var front := s[..|s| - 1];
      var rest := ZeroCount(front);
      assert forall i :: 0 <= i < |front| ==> front[i] == s[i];
      rest + (if s[|s| - 1] == 0.0 then 1 else 0)
  }

  /** np.abs(a - b) with its zeros replaced by Epsilon. */
  function AbsoluteError(a: seq<real>, b: seq<real>): (r: seq<real>)
    requires |a| == |b|
    ensures |r| == |a|
    ensures forall i :: 0 <= i < |a| ==> r[i] > 0.0
    ensures forall i :: 0 <= i < |a| && a[i] != b[i] ==> r[i] == Abs(a[i] - b[i])
    ensures forall i :: 0 <= i < |a| && a[i] == b[i] ==> r[i] == Epsilon
  {
    seq(|a|, i requires 0 <= i < |a| => if Abs(a[i] - b[i]) == 0.0 then Epsilon else Abs(a[i] - b[i]))
  }

  /** Every zero of s replaced by Epsilon. */
  function ZerosReplaced(s: seq<real>): (r: seq<real>)
    ensures |r| == |s|
    ensures ZeroCount(r) == 0
    ensures forall i :: 0 <= i < |s| && s[i] != 0.0 ==> r[i] == s[i]
    ensures forall i :: 0 <= i < |s| && s[i] == 0.0 ==> r[i] == Epsilon
  {
    seq(|s|, i requires 0 <= i < |s| => if s[i] == 0.0 then Epsilon else s[i])
  }

  /** The denominator: a itself, unless it holds more than one zero, in which
      case every zero becomes Epsilon. */
  function AdjustedA(a: seq<real>): (r: seq<real>)
    ensures |r| == |a|
    ensures ZeroCount(a) <= 1 ==> r == a
    ensures ZeroCount(a) > 1 ==> ZeroCount(r) == 0
    ensures forall i :: 0 <= i < |a| && a[i] != 0.0 ==> r[i] == a[i]
  {
    if ZeroCount(a) > 1 then ZerosReplaced(a) else a
  }

  /** One element of the result: log10|err / den|, and +inf for a zero
      denominator. The guarded absolute error is always positive, so 0 / 0
      (nan in numpy) never arises. */
  function ErrorOf(err: real, den: real, log10: real -> real): (e: Float)
    requires err > 0.0
    ensures e.PosInf? <==> den == 0.0
  {
    if den == 0.0 then PosInf else Finite(log10(Abs(err / den)))
  }

  /** The log percentage error of b against a, element-wise. */
  function LogPercentageError(a: seq<real>, b: seq<real>, log10: real -> real): (r: seq<Float>)
    requires |a| == |b|
    ensures |r| == |a|
  {
    var err := AbsoluteError(a, b);
    var den := AdjustedA(a);
    seq(|a|, i requires 0 <= i < |a| => ErrorOf(err[i], den[i], log10))
  }

  /** The guard on a fires only when a holds two or more zeros: a lone zero in a
      makes that one position infinite, and no other position ever is. */
  lemma InfiniteExactlyAtLoneZero(a: seq<real>, b: seq<real>, log10: real -> real, i: nat)
    requires |a| == |b| && i < |a|
    ensures LogPercentageError(a, b, log10)[i] == PosInf <==> ZeroCount(a) == 1 && a[i] == 0.0
  {
    var den := AdjustedA(a);
    if ZeroCount(a) > 1 {
      assert den[i] != 0.0;
    }
  }

  /** Where b matches a non-zero a exactly, the result is log10(Epsilon / |a|)
      rather than log10(0). */
  lemma ExactMatchUsesEpsilon(a: seq<real>, b: seq<real>, log10: real -> real, i: nat)
    requires |a| == |b| && i < |a|
    requires a[i] == b[i] && a[i] != 0.0
    ensures LogPercentageError(a, b, log10)[i] == Finite(log10(Abs(Epsilon / a[i])))
  {
  }

  /** log_percentage_error([1.0], [1.0]) is log10(1e-16), not an error. */
  lemma EqualArraysGiveEpsilon(log10: real -> real)
    ensures LogPercentageError([1.0], [1.0], log10) == [Finite(log10(1e-16))]
  {
    ExactMatchUsesEpsilon([1.0], [1.0], log10, 0);
  }

  /** The metric is not symmetric: the denominator is a alone. */
  lemma NotSymmetric(log10: real -> real)
    ensures LogPercentageError([1.0], [2.0], log10) == [Finite(log10(1.0))]
    ensures LogPercentageError([2.0], [1.0], log10) == [Finite(log10(0.5))]
  {
    assert ZeroCount([1.0]) == 0 && ZeroCount([2.0]) == 0;
    assert AbsoluteError([1.0], [2.0]) == [1.0];
    assert AbsoluteError([2.0], [1.0]) == [1.0];
  }

  /** absolute_error = np.abs(a - b), then absolute_error[absolute_error == 0] = epsilon. */
  method AbsoluteErrorArray(a: array<real>, b: array<real>) returns (absoluteError: array<real>)
    requires a.Length == b.Length
    ensures fresh(absoluteError)
    ensures absoluteError[..] == AbsoluteError(a[..], b[..])
  {
    var n := a.Length;
    absoluteError := new real[n];
    var i := 0;
    while i < n
      invariant 0 <= i <= n
      invariant forall k :: 0 <= k < i ==> absoluteError[k] == Abs(a[k] - b[k])
    {
      absoluteError[i] := Abs(a[i] - b[i]);
      i := i + 1;
    }
    i := 0;
    while i < n
      invariant 0 <= i <= n
      invariant forall k :: 0 <= k < i ==> absoluteError[k] == AbsoluteError(a[..], b[..])[k]
      invariant forall k :: i <= k < n ==> absoluteError[k] == Abs(a[k] - b[k])
    {
      if absoluteError[i] == 0.0 {
        absoluteError[i] := Epsilon;
      }
      i := i + 1;
    }
  }

  /** a[a == 0] = epsilon, in place. */
  method ReplaceZeros(a: array<real>)
    modifies a
    ensures a[..] == ZerosReplaced(old(a[..]))
  {
    var i := 0;
    while i < a.Length
      invariant 0 <= i <= a.Length
      invariant forall k :: 0 <= k < i ==> a[k] == ZerosReplaced(old(a[..]))[k]
      invariant forall k :: i <= k < a.Length ==> a[k] == old(a[k])
    {
      if a[i] == 0.0 {
        a[i] := Epsilon;
      }
      i := i + 1;
    }
  }

  /** np.log10(np.abs(absolute_error / a)), element by element. */
  method ErrorArray(absoluteError: array<real>, a: array<real>, log10: real -> real) returns (error: seq<Float>)
    requires absoluteError.Length == a.Length
    requires forall k :: 0 <= k < absoluteError.Length ==> absoluteError[k] > 0.0
    ensures |error| == a.Length
    ensures forall k :: 0 <= k < a.Length ==> error[k] == ErrorOf(absoluteError[k], a[k], log10)
  {
    error := [];
    var i := 0;
    while i < a.Length
      invariant 0 <= i <= a.Length
      invariant |error| == i
      invariant forall k :: 0 <= k < i ==> error[k] == ErrorOf(absoluteError[k], a[k], log10)
    {
      var e := if a[i] == 0.0 then PosInf else Finite(log10(Abs(absoluteError[i] / a[i])));
      error := error + [e];
      i := i + 1;
    }
  }

  /** compute_log_percentage_error. a - b raises on arrays of different lengths;
      otherwise the error is returned and, when a holds more than one zero,
      those zeros are overwritten with Epsilon in the caller's array. */
  method ComputeLogPercentageError(a: array<real>, b: array<real>, log10: real -> real)
    returns (r: Result<seq<Float>>)
    modifies a
    ensures a.Length != b.Length ==> r == Failure(ShapeMismatch) && a[..] == old(a[..])
    ensures a.Length == b.Length ==>
              && r == Success(LogPercentageError(old(a[..]), old(b[..]), log10))
              && a[..] == AdjustedA(old(a[..]))
  {
    if a.Length != b.Length {
      return Failure(ShapeMismatch);
    }
    ghost var a0, b0 := a[..], b[..];
    var absoluteError := AbsoluteErrorArray(a, b);
    if ZeroCount(a[..]) > 1 {
      ReplaceZeros(a);
    }
    var error := ErrorArray(absoluteError, a, log10);
    assert error == LogPercentageError(a0, b0, log10);
    r := Success(error);
  }
}
