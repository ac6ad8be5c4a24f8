/** Stokes inversion of get_stokes_from_chunk and the coefficient model of
    simulate_polarization_data (swptools.py), in exact real arithmetic. The
    harmonic coefficients, which the source obtains by trapezoidal
    integration, and cos/sin of the retardance are inputs. */
module StokesInversion {
  import opened Wrappers
  import opened RealAlgebra

  /** A Stokes vector [S0, S1, S2, S3]. */
  datatype Stokes = Stokes(s0: real, s1: real, s2: real, s3: real)

  /** Harmonic coefficients of one chunk: DC term a0, the diagnostic cos 2wt
      term n0, the sin 2wt term b0 and the cos/sin 4wt terms c0 and d0. */
  datatype Harmonics = Harmonics(a0: real, n0: real, b0: real, c0: real, d0: real)

  /** cd = cos(delta) and sd = sin(delta) for the waveplate retardance delta. */
  datatype Retarder = Retarder(cd: real, sd: real)

  /** Result of one call: the returned vector, whether the S0 = 0 error is
      printed and whether the misalignment warning is printed. */
  datatype ChunkStokes = ChunkStokes(stokes: Stokes, s0Error: bool, alignmentWarning: bool)

  /** The closed forms divide by 1 - cos(delta) and by sin(delta). */
  predicate Invertible(w: Retarder)
  {
    w.cd != 1.0 && w.sd != 0.0
  }

  /** Sum of squares of the polarized components, S1^2 + S2^2 + S3^2. */
  function PolarizedPower(s: Stokes): real
  {
    s.s1 * s.s1 + s.s2 * s.s2 + s.s3 * s.s3
  }

  /** The coefficients the modulated trace a + b sin 2wt + c cos 4wt + d sin 4wt
      of simulate_polarization_data carries for Stokes vector s; it has no cos 2wt term. */
  function ForwardCoefficients(s: Stokes, w: Retarder): Harmonics
  {
    Harmonics(s.s0 / 2.0 + (1.0 + w.cd) * s.s1 / 4.0, 0.0,
              -s.s3 * w.sd / 2.0,
              (1.0 - w.cd) * s.s1 / 4.0,
              (1.0 - w.cd) * s.s2 / 4.0)
  }

  /** s explains the measured a0, b0, c0 and d0 under the forward model. */
  predicate Explains(s: Stokes, w: Retarder, h: Harmonics)
  {
    var f := ForwardCoefficients(s, w);
    f.a0 == h.a0 && f.b0 == h.b0 && f.c0 == h.c0 && f.d0 == h.d0
  }

  /** S0 as the code computes it. */
  function S0AsWritten(h: Harmonics, w: Retarder): real
    requires w.cd != 1.0
  {
    2.0 * (h.a0 - h.c0 * (1.0 + w.cd) / (1.0 - w.cd))
  }

  /** S0 in the form 2 a0 - (1 + cos delta) S1 / 2 with S1 = 4 c0 / (1 - cos delta). */
  function S0ViaS1(h: Harmonics, w: Retarder): real
    requires w.cd != 1.0
  {
    2.0 * h.a0 - (1.0 + w.cd) * (4.0 * h.c0 / (1.0 - w.cd)) / 2.0
  }

  /** The two S0 formulas agree whenever cos(delta) != 1. */
  lemma S0FormulasAgree(h: Harmonics, w: Retarder)
    requires w.cd != 1.0
    ensures S0AsWritten(h, w) == S0ViaS1(h, w)
  {
    var q := 1.0 - w.cd;
    var x := h.c0 / q;
    assert h.c0 * (1.0 + w.cd) == (1.0 + w.cd) * h.c0;
    MulDiv(1.0 + w.cd, h.c0, q);
    MulDiv(4.0, h.c0, q);
    assert (1.0 + w.cd) * (4.0 * x) / 2.0 == 2.0 * ((1.0 + w.cd) * x);
  }

  /** The closed forms S0 = 2(a0 - c0 (1 + cos d)/(1 - cos d)),
      S1 = 4 c0/(1 - cos d), S2 = 4 d0/(1 - cos d), S3 = -2 b0/sin d. */
  function Inverse(h: Harmonics, w: Retarder): Stokes
    requires Invertible(w)
  {
    Stokes(S0AsWritten(h, w), 4.0 * h.c0 / (1.0 - w.cd), 4.0 * h.d0 / (1.0 - w.cd), -2.0 * h.b0 / w.sd)
  }

  /** The closed forms solve the forward model. */
  lemma InverseExplains(h: Harmonics, w: Retarder)
    requires Invertible(w)
    ensures Explains(Inverse(h, w), w, h)
  {
    var f := ForwardCoefficients(Inverse(h, w), w);
    QuarterForward(1.0 - w.cd, h.c0);
    assert f.c0 == h.c0;
    QuarterForward(1.0 - w.cd, h.d0);
    assert f.d0 == h.d0;
    HalfForward(w.sd, h.b0);
    assert f.b0 == h.b0;
    OffsetForward(w.cd, h.a0, h.c0);
    assert f.a0 == h.a0;
  }

  /** The un-normalized vector [S0, S1, S2, S3] of swptools.py; None where numpy
      divides by zero and yields inf or nan. */
  function RawStokes(h: Harmonics, w: Retarder): (s: Option<Stokes>)
    ensures s.Some? <==> Invertible(w)
    ensures s.Some? ==> Explains(s.value, w, h)
  {
    if !Invertible(w) then None
    else
      InverseExplains(h, w);
      Some(Inverse(h, w))
  }

  /** Only one vector explains a set of coefficients: the inversion is the unique solution. */
  lemma InversionUnique(s: Stokes, w: Retarder, h: Harmonics)
    requires Invertible(w) && Explains(s, w, h)
    ensures RawStokes(h, w) == Some(s)
  {
    QuarterInverse(1.0 - w.cd, s.s1, h.c0);
    QuarterInverse(1.0 - w.cd, s.s2, h.d0);
    HalfInverse(w.sd, s.s3, h.b0);
    QuarterMix(1.0 - w.cd, 1.0 + w.cd, h.c0);
  }

  /** Round trip: inverting the coefficients of a simulated trace returns the
      Stokes vector it was generated from. */
  lemma InversionRoundTrip(s: Stokes, w: Retarder)
    requires Invertible(w)
    ensures RawStokes(ForwardCoefficients(s, w), w) == Some(s)
  {
    InversionUnique(s, w, ForwardCoefficients(s, w));
  }

  /** Division by S0, with 1 substituted for a zero S0. */
  function Normalize(raw: Stokes): (n: Stokes)
    ensures raw.s0 != 0.0 ==> n.s0 == 1.0 && n.s1 * raw.s0 == raw.s1 && n.s2 * raw.s0 == raw.s2 && n.s3 * raw.s0 == raw.s3
    ensures raw.s0 == 0.0 ==> n == raw
  {
    var f := if raw.s0 == 0.0 then 1.0 else raw.s0;
    var n := Stokes(raw.s0 / f, raw.s1 / f, raw.s2 / f, raw.s3 / f);
    assert n.s0 * f == raw.s0 && n.s1 * f == raw.s1 && n.s2 * f == raw.s2 && n.s3 * f == raw.s3;
    assert raw.s0 != 0.0 ==> n.s0 == 1.0 by {
      if raw.s0 != 0.0 {
        CancelLeft(raw.s0, n.s0, 1.0);
      }
    }
    n
  }

  /** n0 > 1e-3 * sqrt(S1^2 + S2^2 + S3^2), stated without the square root. */
  predicate LargeCos2w(n0: real, s: Stokes)
  {
    n0 > 0.0 && n0 * n0 > PolarizedPower(s) / 1000000.0
  }

  /** The misalignment test of the source, with any square root of the
      polarized power, fires exactly when LargeCos2w holds. */
  lemma LargeCos2wMatchesSqrt(n0: real, s: Stokes, root: real)
    requires root >= 0.0 && root * root == PolarizedPower(s)
    ensures LargeCos2w(n0, s) <==> n0 > root * 0.001
  {
    if n0 > 0.0 {
      SquareMonotone(n0, root * 0.001);
      assert (root * 0.001) * (root * 0.001) == PolarizedPower(s) / 1000000.0;
    }
  }

  /** get_stokes_from_chunk on given coefficients: the inverted vector divided
      by S0, the S0 = 0 error and the cos 2wt warning (both only when verbose).
      None where a retardance of cos = 1 or sin = 0 makes numpy return inf/nan. */
  function GetStokesFromChunk(h: Harmonics, w: Retarder, verbose: bool): (r: Option<ChunkStokes>)
    ensures r.Some? <==> Invertible(w)
    ensures r.Some? ==> r.value.stokes == Normalize(RawStokes(h, w).value)
    ensures r.Some? ==> (r.value.stokes.s0 == 1.0 || (r.value.stokes.s0 == 0.0 && Explains(r.value.stokes, w, h)))
    ensures r.Some? ==> (r.value.s0Error <==> verbose && r.value.stokes.s0 == 0.0)
    ensures r.Some? ==> (r.value.alignmentWarning <==> verbose && LargeCos2w(h.n0, RawStokes(h, w).value))
  {
    match RawStokes(h, w)
    case None => None
    case Some(raw) =>
      Some(ChunkStokes(Normalize(raw), verbose && raw.s0 == 0.0, verbose && LargeCos2w(h.n0, raw)))
  }

  /** Round trip of the whole call: a simulated noiseless chunk is recovered as
      its Stokes vector divided by S0, with neither error nor warning. */
  lemma ChunkRoundTrip(s: Stokes, w: Retarder, verbose: bool)
    requires Invertible(w) && s.s0 != 0.0
    ensures GetStokesFromChunk(ForwardCoefficients(s, w), w, verbose) == Some(ChunkStokes(Normalize(s), false, false))
    ensures Normalize(s).s0 == 1.0
  {
    InversionRoundTrip(s, w);
  }
}
