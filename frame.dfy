/** The per-frame Stokes vector of animate_fun (code/polvis.py and
    polvis.py): the chunk loop summing get_stokes_from_chunk, the division by
    num_chunks and then by S[0], and the degree of polarization. */
module FrameAverage {
  import opened Wrappers
  import opened SeqOps
  import opened RealAlgebra
  import opened StokesInversion
  import opened Chunking

  // ---------------------------------------------------------- Stokes sums

  /** S = np.zeros(4). */
  const Zero := Stokes(0.0, 0.0, 0.0, 0.0)

  /** S += stokes, componentwise. */
  function Add(a: Stokes, b: Stokes): Stokes
  {
    Stokes(a.s0 + b.s0, a.s1 + b.s1, a.s2 + b.s2, a.s3 + b.s3)
  }

  /** Each component multiplied by c. */
  function Times(s: Stokes, c: real): Stokes
  {
    Stokes(c * s.s0, c * s.s1, c * s.s2, c * s.s3)
  }

  /** S = S / q, componentwise. */
  function DivBy(s: Stokes, q: real): Stokes
    requires q != 0.0
  {
    Stokes(s.s0 / q, s.s1 / q, s.s2 / q, s.s3 / q)
  }

  /** The vector get_stokes_from_chunk(chunk, verbose=False) returns for a
      chunk whose harmonic coefficients the integration harm yields; None
      where it holds inf or nan. */
  function StokesOfChunk(harm: seq<real> -> Harmonics, w: Retarder, chunk: seq<real>): Option<Stokes>
  {
    var c := GetStokesFromChunk(harm(chunk), w, false);
    if c.Some? then Some(c.value.stokes) else None
  }

  /** S += v; an inf/nan operand makes the sum inf/nan. */
  function Accumulate(sum: Option<Stokes>, v: Option<Stokes>): Option<Stokes>
  {
    if sum.Some? && v.Some? then Some(Add(sum.value, v.value)) else None
  }

  /** The componentwise sum of the vectors stokesOf gives the chunks of cs,
      finite exactly when each of them is. */
  function StokesSum(cs: seq<seq<real>>, stokesOf: seq<real> -> Option<Stokes>): (r: Option<Stokes>)
    ensures r.Some? <==> forall j :: 0 <= j < |cs| ==> stokesOf(cs[j]).Some?
  {
    if cs == [] then Some(Zero)
    else Accumulate(StokesSum(cs[..|cs| - 1], stokesOf), stokesOf(cs[|cs| - 1]))
  }

  /** One more chunk extends both the sum and the running mean by one step. */
  lemma ExtendStep(cs: seq<seq<real>>, stokesOf: seq<real> -> Option<Stokes>, k: nat)
    requires k < |cs|
    ensures StokesSum(cs[..k + 1], stokesOf) == Accumulate(StokesSum(cs[..k], stokesOf), stokesOf(cs[k]))
    ensures RunningMean(cs[..k + 1]) == MeanUpdate(RunningMean(cs[..k]), k, |cs[k]|)
  {
    assert cs[..k + 1][..k] == cs[..k];
  }

  /** The chunk loop of animate_fun: S += get_stokes_from_chunk(chunk) and
      Nroll = (Nroll*k + len(chunk))/(k+1), over the chunks between
      consecutive borders. */
  method AccumulateChunks(input: seq<real>, borders: seq<nat>, bg: real,
                          stokesOf: seq<real> -> Option<Stokes>)
    returns (sum: Option<Stokes>, nroll: real)
    ensures sum == StokesSum(Chunks(input, borders, bg), stokesOf)
    ensures nroll == RunningMean(Chunks(input, borders, bg))
  {
    ghost var cs := Chunks(input, borders, bg);
    sum := Some(Zero);
    nroll := 0.0;
    var numChunks := |borders| - 1;
    var k := 0;
    while k < numChunks
      invariant 0 <= k <= |cs|
      invariant sum == StokesSum(cs[..k], stokesOf)
      invariant nroll == RunningMean(cs[..k])
    {
      var chunk := Chunk(input, borders, bg, k);
      ExtendStep(cs, stokesOf, k);
      sum := Accumulate(sum, stokesOf(chunk));
      nroll := MeanUpdate(nroll, k, |chunk|);
      k := k + 1;
    }
    assert cs[..k] == cs;
  }


  /** S /= num_chunks followed by S /= S[0]. None where numpy divides by zero
      (no chunk, or a sum whose S0 is zero). Otherwise the division by
      num_chunks cancels and the result is the sum divided by its own S0. */
  function FrameStokes(sum: Option<Stokes>, numChunks: int): (r: Option<Stokes>)
    ensures r.Some? <==> sum.Some? && numChunks != 0 && sum.value.s0 != 0.0
    ensures r.Some? ==> r.value == Normalize(sum.value) && r.value.s0 == 1.0
  {
    if sum.None? || numChunks == 0 then None
    else
      var n := numChunks as real;
      var avg := DivBy(sum.value, n);
      assert avg.s0 == 0.0 <==> sum.value.s0 == 0.0 by {
        assert avg.s0 * n == sum.value.s0;
      }
      if avg.s0 == 0.0 then None
      else
        var s := sum.value;
        DivCommonFactor(s.s0, s.s0, n);
        DivCommonFactor(s.s1, s.s0, n);
        DivCommonFactor(s.s2, s.s0, n);
        DivCommonFactor(s.s3, s.s0, n);
        DivSelf(s.s0);
        Some(DivBy(avg, avg.s0))
  }

  /** np.sqrt(S[1]**2 + S[2]**2 + S[3]**2) with the square root root; None
      when the frame vector is not finite. */
  function Dop(stokes: Option<Stokes>, root: real -> real): Option<real>
  {
    if stokes.None? then None else Some(root(PolarizedPower(stokes.value)))
  }

  /** When every chunk yields the same vector v, the sum over n chunks is n v. */
  lemma {:induction false} UniformSum(cs: seq<seq<real>>, stokesOf: seq<real> -> Option<Stokes>, v: Stokes)
    requires forall j :: 0 <= j < |cs| ==> stokesOf(cs[j]) == Some(v)
    ensures StokesSum(cs, stokesOf) == Some(Times(v, |cs| as real))
  {
    if cs != [] {
      var prefix := cs[..|cs| - 1];
      UniformSum(prefix, stokesOf, v);
      assert StokesSum(cs, stokesOf) == Accumulate(Some(Times(v, |prefix| as real)), Some(v));
      TimesSucc(v, |prefix| as real, |cs| as real);
    } else {
      assert Times(v, 0.0) == Zero;
    }
  }

  /** c v + v == (c + 1) v. */
  lemma TimesSucc(v: Stokes, c: real, d: real)
    requires d == c + 1.0
    ensures Add(Times(v, c), v) == Times(v, d)
  {
    MulSucc(c, v.s0);
    MulSucc(c, v.s1);
    MulSucc(c, v.s2);
    MulSucc(c, v.s3);
  }

  /** Scaling a vector with S0 != 0 by a non-zero factor does not change its
      normalized form. */
  lemma NormalizeScaled(v: Stokes, c: real)
    requires v.s0 != 0.0 && c != 0.0
    ensures Normalize(Times(v, c)) == Normalize(v)
  {
    DivCancel(v.s0, v.s0, c);
    DivCancel(v.s1, v.s0, c);
    DivCancel(v.s2, v.s0, c);
    DivCancel(v.s3, v.s0, c);
  }

  /** A frame whose chunks all yield v (with S0 != 0) reports v / S0,
      whatever the number of chunks. */
  lemma UniformFrame(cs: seq<seq<real>>, stokesOf: seq<real> -> Option<Stokes>, v: Stokes)
    requires v.s0 != 0.0 && |cs| >= 1
    requires forall j :: 0 <= j < |cs| ==> stokesOf(cs[j]) == Some(v)
    ensures FrameStokes(StokesSum(cs, stokesOf), |cs|) == Some(Normalize(v))
  {
    var cr := |cs| as real;
    UniformSum(cs, stokesOf, v);
    ScaledS0(v, cr);
    NormalizeScaled(v, cr);
  }

  /** A non-zero multiple of a vector with s0 != 0 keeps s0 != 0. */
  lemma ScaledS0(v: Stokes, c: real)
    requires v.s0 != 0.0 && c != 0.0
    ensures Times(v, c).s0 != 0.0
  {
    if c * v.s0 == 0.0 {
      CancelLeft(c, v.s0, 0.0);
    }
  }

  /** End to end: when every chunk carries the coefficients that
      simulate_polarization_data gives to one Stokes vector s, the frame
      reports s / s0, the source vector, whatever the number of chunks. */
  lemma NoiselessFrameRecovered(cs: seq<seq<real>>, harm: seq<real> -> Harmonics, w: Retarder, s: Stokes)
    requires Invertible(w) && s.s0 != 0.0 && |cs| >= 1
    requires forall j :: 0 <= j < |cs| ==> harm(cs[j]) == ForwardCoefficients(s, w)
    ensures FrameStokes(StokesSum(cs, c => StokesOfChunk(harm, w, c)), |cs|) == Some(Normalize(s))
  {
    var n := Normalize(s);
    ChunkRoundTrip(s, w, false);
    var stokesOf := c => StokesOfChunk(harm, w, c);
    forall j | 0 <= j < |cs| ensures stokesOf(cs[j]) == Some(n) {
    }
    UniformFrame(cs, stokesOf, n);
    assert Normalize(n) == n;
  }

  // --------------------------------------------------- degree of polarization

  /** The Unphysical DOP test DOP - 1 > 0.03, with DOP any non-negative square
      root of the polarized power, is the square-free test S1^2+S2^2+S3^2 > 1.03^2. */
  lemma UnphysicalIffSquare(s: Stokes, dop: real)
    requires dop >= 0.0 && dop * dop == PolarizedPower(s)
    ensures dop - 1.0 > 0.03 <==> PolarizedPower(s) > 1.0609
  {
    SquareMonotone(dop, 1.03);
  }

  /** Dividing by S0 divides the polarized power by S0^2. */
  lemma NormalizedPower(s: Stokes)
    requires s.s0 != 0.0
    ensures PolarizedPower(Normalize(s)) * (s.s0 * s.s0) == PolarizedPower(s)
  {
    var n := Normalize(s);
    var q := s.s0 * s.s0;
    assert (n.s1 * n.s1) * q == s.s1 * s.s1 by {
      assert (n.s1 * n.s1) * q == (n.s1 * s.s0) * (n.s1 * s.s0);
    }
    assert (n.s2 * n.s2) * q == s.s2 * s.s2 by {
      assert (n.s2 * n.s2) * q == (n.s2 * s.s0) * (n.s2 * s.s0);
    }
    assert (n.s3 * n.s3) * q == s.s3 * s.s3 by {
      assert (n.s3 * n.s3) * q == (n.s3 * s.s0) * (n.s3 * s.s0);
    }
  }

  /** Light that is physically realisable (S1^2+S2^2+S3^2 <= S0^2, S0 > 0)
      has, after division by S0, a DOP of at most 1 and never draws the
      Unphysical DOP warning. */
  lemma PhysicalLightHasNoUnphysicalDop(s: Stokes, dop: real)
    requires s.s0 > 0.0 && PolarizedPower(s) <= s.s0 * s.s0
    requires dop >= 0.0 && dop * dop == PolarizedPower(Normalize(s))
    ensures dop <= 1.0 && !(dop - 1.0 > 0.03)
  {
    NormalizedPower(s);
    FractionBelowOne(PolarizedPower(Normalize(s)), s.s0, PolarizedPower(s));
    RootBelowOne(dop, PolarizedPower(Normalize(s)));
  }
}
