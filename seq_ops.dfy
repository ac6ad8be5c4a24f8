/** The list and numpy primitives the polarimeter core is built from, over real numbers. */
module SeqOps {

  function Max(a: int, b: int): int { if a < b then b else a }

  /** Python's s[i:j] for non-negative bounds: both bounds are clipped to the
      length and an inverted range is empty. */
  function PySlice<T>(s: seq<T>, i: nat, j: nat): (r: seq<T>)
    ensures i <= j <= |s| ==> r == s[i..j]
    ensures j <= i ==> r == []
    ensures |r| <= |s|
  {
    var lo := if i < |s| then i else |s|;
    var hi := if j < |s| then j else |s|;
    if hi <= lo then [] else s[lo..hi]
  }

  /** numpy.linspace(lo, hi, n): n evenly spaced values from lo to hi, both ends included. */
  function Linspace(lo: real, hi: real, n: nat): (r: seq<real>)
    ensures |r| == n
    ensures n >= 1 ==> r[0] == lo
    ensures n >= 2 ==> r[n - 1] == hi
  {
    if n == 0 then []
    else if n == 1 then [lo]
    else
      var step := (hi - lo) / ((n - 1) as real);
      assert ((n - 1) as real) * step == hi - lo;
      seq(n, i requires 0 <= i < n => lo + (i as real) * step)
  }

  /** An increasing range gives strictly increasing samples. */
  lemma LinspaceIncreasing(lo: real, hi: real, n: nat, i: nat, j: nat)
    requires lo < hi && i < j < n
    ensures Linspace(lo, hi, n)[i] < Linspace(lo, hi, n)[j]
  {
    var step := (hi - lo) / ((n - 1) as real);
    assert step > 0.0;
    assert (j as real) * step - (i as real) * step == ((j - i) as real) * step;
  }

  /** Elementwise s - c, numpy broadcasting of a scalar. */
  function Minus(s: seq<real>, c: real): (r: seq<real>)
    ensures |r| == |s|
    ensures forall i :: 0 <= i < |s| ==> r[i] + c == s[i]
  {
    seq(|s|, i requires 0 <= i < |s| => s[i] - c)
  }

  /** Elementwise c * s. */
  function Scale(s: seq<real>, c: real): (r: seq<real>)
    ensures |r| == |s|
    ensures forall i :: 0 <= i < |s| ==> r[i] == c * s[i]
  {
    seq(|s|, i requires 0 <= i < |s| => c * s[i])
  }

  /** s[::-1]. */
  function Reverse<T>(s: seq<T>): (r: seq<T>)
    ensures |r| == |s|
    ensures forall i :: 0 <= i < |s| ==> r[i] == s[|s| - 1 - i]
  {
    seq(|s|, i requires 0 <= i < |s| => s[|s| - 1 - i])
  }

  /** Left-to-right sum, as numpy.mean accumulates it. */
  function Sum(s: seq<real>): real
  {
    if s == [] then 0.0 else Sum(s[..|s| - 1]) + s[|s| - 1]
  }

  /** numpy.mean(s) < bound; the mean of an empty array is nan and compares false. */
  predicate MeanBelow(s: seq<real>, bound: real)
  {
    |s| > 0 && Sum(s) / (|s| as real) < bound
  }

  /** Python's max(s), defined on non-empty sequences only. */
  function MaxOf(s: seq<real>): (m: real)
    requires |s| > 0
    ensures m in s
    ensures forall i :: 0 <= i < |s| ==> s[i] <= m
  {
    if |s| == 1 then s[0]
    else
      var rest := MaxOf(s[1..]);
      if s[0] < rest then rest else s[0]
  }

  /** Adjacent slices join into one. */
  lemma SliceJoin<T>(s: seq<T>, a: nat, b: nat, c: nat)
    requires a <= b <= c <= |s|
    ensures s[a..b] + s[b..c] == s[a..c]
  {
  }
}
