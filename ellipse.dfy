/** Polarization-ellipse point set of get_polarization_ellipse (swptools.py),
    with scale_by_dop = True. The square root, arctan2, arcsin, tan, cos and
    sin are uninterpreted: they are fields of a Numerics value. */
module Ellipse {
  import opened SeqOps
  import opened RealAlgebra

  /** The numpy functions the ellipse is drawn with. */
  datatype Numerics = Numerics(
    sqrt: real -> real,
    arctan2: (real, real) -> real,
    arcsin: real -> real,
    tan: real -> real,
    cos: real -> real,
    sin: real -> real)

  /** Degree of polarization, the ratio b/a of the axes (a = 1) and the rotation by psi. */
  datatype Shape = Shape(dop: real, ba: real, cosPsi: real, sinPsi: real)

  /** S1^2 + S2^2 + S3^2, the square of the DOP of a normalised vector. */
  function PolarizedPower(s1: real, s2: real, s3: real): real
  {
    s1 * s1 + s2 * s2 + s3 * s3
  }

  /** psi = arctan2(S2, S1) / 2 and chi = arcsin(S3) / 2 of the components divided by the DOP. */
  function EllipseShape(s1: real, s2: real, s3: real, num: Numerics): Shape
    requires num.sqrt(PolarizedPower(s1, s2, s3)) != 0.0
  {
    var dop := num.sqrt(PolarizedPower(s1, s2, s3));
    var psi := 0.5 * num.arctan2(s2 / dop, s1 / dop);
    var chi := 0.5 * num.arcsin(s3 / dop);
    Shape(dop, num.tan(chi) / 1.0, num.cos(psi), num.sin(psi))
  }

  /** The rotation matrix [[cos psi, -sin psi], [sin psi, cos psi]] applied to (x, y). */
  function Rotate(sh: Shape, x: real, y: real): (real, real)
  {
    (sh.cosPsi * x - sh.sinPsi * y, sh.sinPsi * x + sh.cosPsi * y)
  }

  /** The upper branch y = (b/a) sqrt(a^2 - x^2) of the unrotated ellipse, a = 1. */
  function UpperY(sh: Shape, root: real -> real, x: real): real
  {
    sh.ba * root(1.0 - x * x)
  }

  /** The ellipse point over abscissa x on the upper branch or on its
      reflection about the x-axis, rotated by psi. */
  function BranchPoint(sh: Shape, root: real -> real, x: real, upper: bool): (real, real)
  {
    var y := UpperY(sh, root, x);
    Rotate(sh, x, if upper then y else -y)
  }

  /** Point i of the joined branches before scaling: branch 1 traced forward,
      then branch 2 traced backward. */
  function JoinedPoint(xs: seq<real>, sh: Shape, root: real -> real, i: nat): (real, real)
    requires i < 2 * |xs|
  {
    var n := |xs|;
    if i < n then BranchPoint(sh, root, xs[i], true) else BranchPoint(sh, root, xs[2 * n - 1 - i], false)
  }

  /** The abscissae and ordinates of the 2n joined points. */
  function Joined(xs: seq<real>, sh: Shape, root: real -> real): (seq<real>, seq<real>)
  {
    (seq(2 * |xs|, i requires 0 <= i < 2 * |xs| => JoinedPoint(xs, sh, root, i).0),
     seq(2 * |xs|, i requires 0 <= i < 2 * |xs| => JoinedPoint(xs, sh, root, i).1))
  }

  /** The outline: all joined points scaled by the DOP. */
  function Outline(xs: seq<real>, sh: Shape, root: real -> real): (seq<real>, seq<real>)
  {
    var j := Joined(xs, sh, root);
    (Scale(j.0, sh.dop), Scale(j.1, sh.dop))
  }

  /** Where the square root vanishes the two branches meet. */
  lemma BranchesMeet(sh: Shape, root: real -> real, x: real)
    requires root(1.0 - x * x) == 0.0
    ensures BranchPoint(sh, root, x, true) == BranchPoint(sh, root, x, false)
  {
    var y := UpperY(sh, root, x);
    assert y == 0.0;
    assert BranchPoint(sh, root, x, true) == Rotate(sh, x, y);
    assert BranchPoint(sh, root, x, false) == Rotate(sh, x, -y);
  }

  /** At the vertices x = -1 and x = 1 the square root is taken of 0. */
  lemma RootVanishesAtVertex(root: real -> real, x: real)
    requires root(0.0) == 0.0 && (x == 1.0 || x == -1.0)
    ensures root(1.0 - x * x) == 0.0
  {
    if x == 1.0 {
      assert 1.0 - x * x == 0.0;
    } else {
      assert 1.0 - x * x == 0.0;
    }
  }

  /** The outline over numpy.linspace(-1, 1, n) is a closed curve: it has 2n
      points, its first and last points coincide, and the seam between the
      two branches has no jump. */
  lemma OutlineClosed(n: nat, sh: Shape, root: real -> real)
    requires n >= 1 && root(0.0) == 0.0
    ensures var o := Outline(Linspace(-1.0, 1.0, n), sh, root);
      && |o.0| == 2 * n && |o.1| == 2 * n
      && o.0[0] == o.0[2 * n - 1] && o.1[0] == o.1[2 * n - 1]
      && o.0[n - 1] == o.0[n] && o.1[n - 1] == o.1[n]
  {
    var j := Joined(Linspace(-1.0, 1.0, n), sh, root);
    JoinedClosed(n, sh, root);
    ScaleKeepsEqual(j.0, sh.dop, 0, 2 * n - 1);
    ScaleKeepsEqual(j.1, sh.dop, 0, 2 * n - 1);
    ScaleKeepsEqual(j.0, sh.dop, n - 1, n);
    ScaleKeepsEqual(j.1, sh.dop, n - 1, n);
  }

  /** The joined points over numpy.linspace(-1, 1, n) meet at both vertices. */
  lemma JoinedClosed(n: nat, sh: Shape, root: real -> real)
    requires n >= 1 && root(0.0) == 0.0
    ensures var j := Joined(Linspace(-1.0, 1.0, n), sh, root);
      && |j.0| == 2 * n && |j.1| == 2 * n
      && j.0[0] == j.0[2 * n - 1] && j.1[0] == j.1[2 * n - 1]
      && j.0[n - 1] == j.0[n] && j.1[n - 1] == j.1[n]
  {
    var xs := Linspace(-1.0, 1.0, n);
    RootVanishesAtVertex(root, xs[0]);
    BranchesMeet(sh, root, xs[0]);
    RootVanishesAtVertex(root, xs[n - 1]);
    BranchesMeet(sh, root, xs[n - 1]);
  }

  /** Scaling keeps equal entries equal. */
  lemma ScaleKeepsEqual(s: seq<real>, c: real, i: nat, k: nat)
    requires i < |s| && k < |s| && s[i] == s[k]
    ensures Scale(s, c)[i] == Scale(s, c)[k]
  {
  }

  /** Joining branch 1 with branch 2 reversed gives the joined points, so
      scaling them by the DOP gives the outline. */
  lemma JoinBranches(samples: seq<real>, sh: Shape, root: real -> real,
                     x1: seq<real>, y1: seq<real>, x2: seq<real>, y2: seq<real>)
    requires |x1| == |samples| && |y1| == |samples| && |x2| == |samples| && |y2| == |samples|
    requires forall m :: 0 <= m < |samples| ==> (x1[m], y1[m]) == BranchPoint(sh, root, samples[m], true)
    requires forall m :: 0 <= m < |samples| ==> (x2[m], y2[m]) == BranchPoint(sh, root, samples[m], false)
    ensures (Scale(x1 + Reverse(x2), sh.dop), Scale(y1 + Reverse(y2), sh.dop)) == Outline(samples, sh, root)
  {
    var j := Joined(samples, sh, root);
    forall i | 0 <= i < 2 * |samples| ensures (x1 + Reverse(x2))[i] == j.0[i] && (y1 + Reverse(y2))[i] == j.1[i] {
      JoinedAt(samples, sh, root, x1, y1, x2, y2, i);
    }
    assert x1 + Reverse(x2) == j.0 && y1 + Reverse(y2) == j.1;
  }

  /** Point i of branch 1 followed by branch 2 reversed is the joined point i. */
  lemma JoinedAt(samples: seq<real>, sh: Shape, root: real -> real,
                 x1: seq<real>, y1: seq<real>, x2: seq<real>, y2: seq<real>, i: nat)
    requires |x1| == |samples| && |y1| == |samples| && |x2| == |samples| && |y2| == |samples|
    requires forall m :: 0 <= m < |samples| ==> (x1[m], y1[m]) == BranchPoint(sh, root, samples[m], true)
    requires forall m :: 0 <= m < |samples| ==> (x2[m], y2[m]) == BranchPoint(sh, root, samples[m], false)
    requires i < 2 * |samples|
    ensures ((x1 + Reverse(x2))[i], (y1 + Reverse(y2))[i]) == JoinedPoint(samples, sh, root, i)
  {
    var n := |samples|;
    ConcatReverseAt(x1, x2, i);
    ConcatReverseAt(y1, y2, i);
    if i < n {
      assert (x1[i], y1[i]) == BranchPoint(sh, root, samples[i], true);
    } else {
      var m := 2 * n - 1 - i;
      assert (x2[m], y2[m]) == BranchPoint(sh, root, samples[m], false);
    }
  }

  /** Element i of a + b[::-1], for sequences of equal length. */
  lemma ConcatReverseAt(a: seq<real>, b: seq<real>, i: nat)
    requires |a| == |b| && i < 2 * |a|
    ensures (a + Reverse(b))[i] == if i < |a| then a[i] else b[2 * |a| - 1 - i]
  {
    if i >= |a| {
      assert (a + Reverse(b))[i] == Reverse(b)[i - |a|];
    }
  }

  /** The point loop of get_polarization_ellipse: both branches are grown one
      abscissa at a time, then joined as branch 1 followed by branch 2
      reversed and scaled by the DOP. */
  method TraceOutline(samples: seq<real>, sh: Shape, root: real -> real) returns (xs: seq<real>, ys: seq<real>)
    ensures (xs, ys) == Outline(samples, sh, root)
  {
    var x1, y1, x2, y2 := [], [], [], [];
    var k := 0;
    while k < |samples|
      invariant 0 <= k <= |samples|
      invariant |x1| == k && |y1| == k && |x2| == k && |y2| == k
      invariant forall m :: 0 <= m < k ==> (x1[m], y1[m]) == BranchPoint(sh, root, samples[m], true)
      invariant forall m :: 0 <= m < k ==> (x2[m], y2[m]) == BranchPoint(sh, root, samples[m], false)
    {
      var x := samples[k];
      var yUpper := UpperY(sh, root, x);
      var p1 := Rotate(sh, x, yUpper);
      var p2 := Rotate(sh, x, -yUpper);
      assert p1 == BranchPoint(sh, root, x, true);
      assert p2 == BranchPoint(sh, root, x, false);
      x1, y1 := x1 + [p1.0], y1 + [p1.1];
      x2, y2 := x2 + [p2.0], y2 + [p2.1];
      k := k + 1;
    }
    xs := Scale(x1 + Reverse(x2), sh.dop);
    ys := Scale(y1 + Reverse(y2), sh.dop);
    JoinBranches(samples, sh, root, x1, y1, x2, y2);
  }

  /** S /= S[0] on the four-element Stokes array. */
  method DivideByFirst(S: array<real>)
    requires S.Length == 4 && S[0] != 0.0
    modifies S
    ensures forall i :: 0 <= i < 4 ==> S[i] == old(S[i]) / old(S[0])
    ensures S[0] == 1.0
  {
    var s0 := S[0];
    S[0], S[1], S[2], S[3] := S[0] / s0, S[1] / s0, S[2] / s0, S[3] / s0;
    DivSelf(s0);
  }

  /** The clipping loop of get_polarization_ellipse: it visits the four
      normalised components and, when verbose, reports each one whose
      magnitude exceeds 1. Its clipped value is bound only to the loop
      variable, so the array is left as it is. */
  method ClipWarnings(S: array<real>, verbose: bool) returns (clipWarnings: seq<real>)
    requires S.Length == 4
    ensures clipWarnings == if verbose then OutOfRange(S[..]) else []
  {
    clipWarnings := [];
    var j := 0;
    while j < 4
      invariant 0 <= j <= 4
      invariant clipWarnings == if verbose then OutOfRange(S[..j]) else []
    {
      assert S[..j + 1] == S[..j] + [S[j]];
      if (S[j] < -1.0 || 1.0 < S[j]) && verbose {
        clipWarnings := clipWarnings + [S[j]];
      }
      j := j + 1;
    }
    assert S[..j] == S[..];
  }

  /** A component the clipping loop reports: its magnitude exceeds 1. */
  predicate Clipped(v: real)
  {
    v < -1.0 || 1.0 < v
  }

  /** The components of s whose magnitude exceeds 1, in order. */
  function OutOfRange(s: seq<real>): seq<real>
  {
    if s == [] then []
    else OutOfRange(s[..|s| - 1]) + (if Clipped(s[|s| - 1]) then [s[|s| - 1]] else [])
  }

  /** The reported values are exactly the components of magnitude above 1,
      one report per such component: none when every component is in
      [-1, 1], all of them when none is. */
  lemma {:induction false} OutOfRangeExact(s: seq<real>)
    ensures forall v :: v in OutOfRange(s) <==> v in s && Clipped(v)
    ensures |OutOfRange(s)| <= |s|
    ensures |OutOfRange(s)| == |s| <==> forall i :: 0 <= i < |s| ==> Clipped(s[i])
  {
    if s != [] {
      OutOfRangeExact(s[..|s| - 1]);
      assert s == s[..|s| - 1] + [s[|s| - 1]];
    }
  }

  /** get_polarization_ellipse: divides the caller's S by S[0] in place, runs
      the clipping loop (which only rebinds its loop variable and so leaves S
      as it is, reporting the out-of-range values when verbose), then builds
      both branches point by point. */
  method GetPolarizationEllipse(S: array<real>, numPoints: nat, num: Numerics, verbose: bool)
    returns (xs: seq<real>, ys: seq<real>, clipWarnings: seq<real>)
    requires S.Length == 4 && S[0] != 0.0
    requires num.sqrt(0.0) == 0.0
    requires num.sqrt(PolarizedPower(S[1] / S[0], S[2] / S[0], S[3] / S[0])) != 0.0
    modifies S
    ensures forall i :: 0 <= i < 4 ==> S[i] == old(S[i]) / old(S[0])
    ensures S[0] == 1.0
    ensures (xs, ys) == Outline(Linspace(-1.0, 1.0, numPoints), EllipseShape(S[1], S[2], S[3], num), num.sqrt)
    ensures |xs| == 2 * numPoints && |ys| == 2 * numPoints
    ensures numPoints >= 1 ==> xs[0] == xs[2 * numPoints - 1] && ys[0] == ys[2 * numPoints - 1]
    ensures numPoints >= 1 ==> xs[numPoints - 1] == xs[numPoints] && ys[numPoints - 1] == ys[numPoints]
    ensures clipWarnings == if verbose then OutOfRange(S[..]) else []
  {
    DivideByFirst(S);

    clipWarnings := ClipWarnings(S, verbose);

    var sh := EllipseShape(S[1], S[2], S[3], num);
    xs, ys := TraceOutline(Linspace(-1.0, 1.0, numPoints), sh, num.sqrt);
    if numPoints >= 1 {
      OutlineClosed(numPoints, sh, num.sqrt);
    }
  }
}
