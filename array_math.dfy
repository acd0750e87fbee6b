/** The numpy reductions and constructors the core relies on (np.min, np.max,
    np.abs, np.sum/np.average, np.linspace, np.full), over unbounded reals. */
module ArrayMath {

  function Abs(v: real): (r: real)
    ensures r >= 0.0 && (r == v || r == -v)
  {
    if v < 0.0 then -v else v
  }

  /** np.min: the smallest element of a non-empty array. */
  function Min(s: seq<real>): (m: real)
    requires |s| > 0
    ensures m in s
    ensures forall i :: 0 <= i < |s| ==> m <= s[i]
  {
    if |s| == 1 then s[0]
    else
      var rest := Min(s[1..]);
      if s[0] <= rest then s[0] else rest
  }

  /** np.max: the largest element of a non-empty array. */
  function Max(s: seq<real>): (m: real)
    requires |s| > 0
    ensures m in s
    ensures forall i :: 0 <= i < |s| ==> s[i] <= m
  {
    if |s| == 1 then s[0]
    else
      var rest := Max(s[1..]);
      if s[0] >= rest then s[0] else rest
  }

  /** An element that is below or equal to every element is the minimum. */
  lemma MinUnique(s: seq<real>, m: real)
    requires m in s
    requires forall i :: 0 <= i < |s| ==> m <= s[i]
    ensures Min(s) == m
  {
    var k :| 0 <= k < |s| && s[k] == Min(s);
    var j :| 0 <= j < |s| && s[j] == m;
    assert Min(s) <= s[j] && m <= s[k];
  }

  /** An element that is above or equal to every element is the maximum. */
  lemma MaxUnique(s: seq<real>, m: real)
    requires m in s
    requires forall i :: 0 <= i < |s| ==> s[i] <= m
    ensures Max(s) == m
  {
    var k :| 0 <= k < |s| && s[k] == Max(s);
    var j :| 0 <= j < |s| && s[j] == m;
    assert s[j] <= Max(s) && s[k] <= m;
  }

  lemma MinLeMax(s: seq<real>)
    requires |s| > 0
    ensures Min(s) <= Max(s)
  {
    var k :| 0 <= k < |s| && s[k] == Max(s);
  }

  /** Appending values no larger than the maximum leaves the maximum unchanged. */
  lemma MaxAppendBelow(s: seq<real>, t: seq<real>)
    requires |s| > 0
    requires forall k :: 0 <= k < |t| ==> t[k] <= Max(s)
    ensures Max(s + t) == Max(s)
  {
    var m := Max(s);
    var k :| 0 <= k < |s| && s[k] == m;
    assert (s + t)[k] == m;
    forall i | 0 <= i < |s + t|
      ensures (s + t)[i] <= m
    {
      if i < |s| {
        assert (s + t)[i] == s[i];
      } else {
        assert (s + t)[i] == t[i - |s|];
      }
    }
    MaxUnique(s + t, m);
  }

  /** np.full(n, v): n copies of v. */
  function Repeat(v: real, n: nat): (r: seq<real>)
    ensures |r| == n
    ensures forall i :: 0 <= i < n ==> r[i] == v
  {
    seq(n, _ => v)
  }

  /** np.sum, adding from the front. */
  function Sum(s: seq<real>): real
  {
    if s == [] then 0.0 else Sum(s[..|s| - 1]) + s[|s| - 1]
  }

  /** Adding the elements of two arrays one after the other. */
  lemma {:induction false} SumConcat(a: seq<real>, b: seq<real>)
    ensures Sum(a + b) == Sum(a) + Sum(b)
  {
    if b == [] {
      assert a + b == a;
    } else {
      assert (a + b)[..|a + b| - 1] == a + b[..|b| - 1];
      SumConcat(a, b[..|b| - 1]);
    }
  }

  /** The sum of n copies of v is n times v. */
  lemma {:induction false} SumRepeat(v: real, n: nat)
    ensures Sum(Repeat(v, n)) == (n as real) * v
  {
    if n > 0 {
      assert Repeat(v, n)[..n - 1] == Repeat(v, n - 1);
      SumRepeat(v, n - 1);
    }
  }

  /** np.average of a non-empty array. */
  function Mean(s: seq<real>): (m: real)
    requires |s| > 0
    ensures m * (|s| as real) == Sum(s)
  {
    Sum(s) / (|s| as real)
  }

  /** Elements bounded above by b sum to at most |s| times b. */
  lemma {:induction false} SumAtMost(s: seq<real>, b: real)
    requires forall k :: 0 <= k < |s| ==> s[k] <= b
    ensures Sum(s) <= (|s| as real) * b
  {
    if s != [] {
      var front := s[..|s| - 1];
      assert forall k :: 0 <= k < |front| ==> front[k] == s[k];
      SumAtMost(front, b);
    }
  }

  /** The mean never exceeds an upper bound of the elements. */
  lemma MeanAtMost(s: seq<real>, b: real)
    requires |s| > 0
    requires forall k :: 0 <= k < |s| ==> s[k] <= b
    ensures Mean(s) <= b
  {
    SumAtMost(s, b);
    var n := |s| as real;
    assert Mean(s) * n <= b * n;
  }

  /** The mean of n copies of v is v. */
  lemma MeanRepeat(v: real, n: nat)
    requires n > 0
    ensures Mean(Repeat(v, n)) == v
  {
    SumRepeat(v, n);
  }

  /** np.abs applied element-wise. */
  function AbsAll(s: seq<real>): (r: seq<real>)
    ensures |r| == |s|
    ensures forall i :: 0 <= i < |s| ==> r[i] == Abs(s[i])
  {
    seq(|s|, i requires 0 <= i < |s| => Abs(s[i]))
  }

  /** The slice s[-n:] for n > 0: the last n elements, or all of s when it is shorter. */
  function Tail(s: seq<real>, n: nat): (r: seq<real>)
    ensures |r| == if |s| <= n then |s| else n
    ensures r == s[|s| - |r|..]
  {
    if |s| <= n then s else s[|s| - n..]
  }

  /** The spacing numpy's linspace uses between neighbouring points. */
  function LinspaceStep(start: real, stop: real, num: nat): real
    requires num >= 2
  {
    (stop - start) / ((num - 1) as real)
  }

  /** np.linspace(start, stop, num) with the endpoint included: point i is
      start + i * step, and the last point is set to stop exactly. */
  function Linspace(start: real, stop: real, num: nat): (r: seq<real>)
    ensures |r| == num
    ensures num >= 1 ==> r[0] == start
    ensures num >= 2 ==> r[num - 1] == stop
  {
    if num == 1 then [start]
    else
      seq(num, i requires 0 <= i < num =>
        if i == num - 1 then stop else start + (i as real) * LinspaceStep(start, stop, num))
  }

  /** Over the reals the pinned last point lies on the same line as the others,
      so every point, the last included, is start + i * step. */
  lemma LinspaceEvenlySpaced(start: real, stop: real, num: nat, i: nat)
    requires num >= 2 && i < num
    ensures Linspace(start, stop, num)[i] == start + (i as real) * LinspaceStep(start, stop, num)
  {
    if i == num - 1 {
      var n := (num - 1) as real;
      assert n * ((stop - start) / n) == stop - start;
    }
  }

  /** With start < stop the points strictly increase. */
  lemma LinspaceIncreasing(start: real, stop: real, num: nat, i: nat, j: nat)
    requires start < stop
    requires i < j < num
    ensures Linspace(start, stop, num)[i] < Linspace(start, stop, num)[j]
  {
    var step := LinspaceStep(start, stop, num);
    LinspaceEvenlySpaced(start, stop, num, i);
    LinspaceEvenlySpaced(start, stop, num, j);
    assert step > 0.0;
    assert (j as real) * step - (i as real) * step == ((j - i) as real) * step;
    assert ((j - i) as real) * step > 0.0;
  }
}
