/** Trigger-phase calibration of calibrate_trigger_delay.py (and its copy
    under code/): for each of 1000 trial phases the cos 2wt terms of all
    chunks are summed and divided by num_chunks; the scan then lists the
    indices where that curve changes sign, newest first, and the smallest
    phase among them is kept. The trapezoidal integrals are an input. */
module PhaseCalibration {
  import opened Wrappers
  import opened SeqOps
  import opened Chunking
  import opened Triggers

  /** Python errors that end the calibration: n0/num_chunks with the integer
      0/0 when there is exactly one trigger edge, and min() of no crossing. */
  datatype CalibrationError = ZeroChunks | NoCrossing

  /** 2*np.pi as a double. */
  const TwoPi := 6.283185307179586

  /** np.linspace(0, 2*np.pi, 1000). */
  const Phases := Linspace(0.0, TwoPi, 1000)

  // ------------------------------------------------------ calculated terms

  /** n0 after the inner loop: the integrals of the first n chunks at phase
      phs, summed in chunk order. */
  function TermSum(input: seq<real>, borders: seq<nat>, integral: (seq<real>, real) -> real, phs: real, n: nat): real
    requires n <= ChunkCount(borders)
  {
    if n == 0 then 0.0
    else TermSum(input, borders, integral, phs, n - 1) + integral(PySlice(input, borders[n - 1], borders[n]), phs)
  }

  /** The term recorded for phase phs: n0 / num_chunks. */
  function Term(input: seq<real>, borders: seq<nat>, integral: (seq<real>, real) -> real, phs: real): real
    requires |borders| != 1
  {
    TermSum(input, borders, integral, phs, ChunkCount(borders)) / ((|borders| - 1) as real)
  }

  /** The inner loop: n0 = 0, then n0 += trapz(chunk * cos(2(wt - phs)), wt)
      for each chunk between consecutive borders. */
  method ChunkTermSum(input: seq<real>, borders: seq<nat>, integral: (seq<real>, real) -> real, phs: real)
    returns (n0: real)
    ensures n0 == TermSum(input, borders, integral, phs, ChunkCount(borders))
  {
    n0 := 0.0;
    var numChunks := |borders| - 1;
    var k := 0;
    while k < numChunks
      invariant 0 <= k <= ChunkCount(borders)
      invariant n0 == TermSum(input, borders, integral, phs, k)
    {
      var chunk := PySlice(input, borders[k], borders[k + 1]);
      n0 := n0 + integral(chunk, phs);
      k := k + 1;
    }
    assert k == ChunkCount(borders);
  }

  /** The outer loop over the phases, appending n0 / num_chunks for each.
      With exactly one border n0 is still the integer 0 and 0/0 raises at the
      first phase; with no border num_chunks is -1 and every term is zero. */
  method CalculatedTerms(input: seq<real>, borders: seq<nat>, integral: (seq<real>, real) -> real, phases: seq<real>)
    returns (r: Result<seq<real>, CalibrationError>)
    ensures r.Failure? <==> |borders| == 1 && |phases| > 0
    ensures r.Failure? ==> r.error == ZeroChunks
    ensures r.Success? ==> |r.value| == |phases|
    ensures r.Success? ==> forall i :: 0 <= i < |phases| ==> |borders| != 1 && r.value[i] == Term(input, borders, integral, phases[i])
  {
    var numChunks := |borders| - 1;
    var terms := [];
    var i := 0;
    while i < |phases|
      invariant 0 <= i <= |phases|
      invariant |terms| == i
      invariant i > 0 ==> numChunks != 0
      invariant forall j :: 0 <= j < i ==> |borders| != 1 && terms[j] == Term(input, borders, integral, phases[j])
    {
      var n0 := ChunkTermSum(input, borders, integral, phases[i]);
      if numChunks == 0 {
        return Failure(ZeroChunks);
      }
      terms := terms + [n0 / (numChunks as real)];
      i := i + 1;
    }
    r := Success(terms);
  }

  /** With no trigger edge the inner loop never runs and every term is 0. */
  lemma {:induction false} NoBordersZeroTerm(input: seq<real>, borders: seq<nat>, integral: (seq<real>, real) -> real, phs: real)
    requires |borders| == 0
    ensures Term(input, borders, integral, phs) == 0.0
  {
    assert ChunkCount(borders) == 0;
    assert TermSum(input, borders, integral, phs, 0) == 0.0;
  }

  // --------------------------------------------------------- zero crossings

  /** The sign-change test at k: t[k] <= 0 < t[k+1] or t[k] >= 0 > t[k+1]. */
  predicate Crosses(t: seq<real>, k: int)
    requires 0 <= k < |t| - 1
  {
    (t[k] <= 0.0 && t[k + 1] > 0.0) || (t[k] >= 0.0 && t[k + 1] < 0.0)
  }

  /** How many indices range(len(t) - 2) visits. */
  function Scanned(t: seq<real>): nat
  {
    if |t| < 2 then 0 else |t| - 2
  }

  /** zero_crossings after the scan of indices 0 .. n-1: each crossing index
      prepended, so the newest comes first. */
  function CrossingsBelow(t: seq<real>, n: nat): seq<nat>
    requires n <= Scanned(t)
  {
    if n == 0 then []
    else if Crosses(t, n - 1) then [n - 1] + CrossingsBelow(t, n - 1)
    else CrossingsBelow(t, n - 1)
  }

  /** Each index is smaller than the one before. */
  predicate StrictlyDecreasing(s: seq<nat>)
  {
    forall i, j :: 0 <= i < j < |s| ==> s[i] > s[j]
  }

  /** The scan lists exactly the crossing indices below n. */
  lemma {:induction false} CrossingsMember(t: seq<real>, n: nat, x: int)
    requires n <= Scanned(t)
    ensures x in CrossingsBelow(t, n) <==> 0 <= x < n && Crosses(t, x)
  {
    if n > 0 {
      CrossingsMember(t, n - 1, x);
    }
  }

  /** Prepending keeps the list strictly decreasing, with every entry below n. */
  lemma {:induction false} CrossingsDecreasing(t: seq<real>, n: nat)
    requires n <= Scanned(t)
    ensures StrictlyDecreasing(CrossingsBelow(t, n))
    ensures forall i :: 0 <= i < |CrossingsBelow(t, n)| ==> CrossingsBelow(t, n)[i] < n
  {
    if n > 0 {
      CrossingsDecreasing(t, n - 1);
    }
  }

  /** The scan loop of the calibration: for k in range(len(t) - 2), prepend k
      when the terms change sign between k and k + 1. */
  method ZeroCrossings(t: seq<real>) returns (zc: seq<nat>)
    ensures zc == CrossingsBelow(t, Scanned(t))
    ensures forall x :: x in zc <==> 0 <= x < |t| - 2 && Crosses(t, x)
    ensures StrictlyDecreasing(zc)
  {
    zc := [];
    var k := 0;
    while k < |t| - 2
      invariant 0 <= k <= Scanned(t)
      invariant zc == CrossingsBelow(t, k)
    {
      if (t[k] <= 0.0 && t[k + 1] > 0.0) || (t[k] >= 0.0 && t[k + 1] < 0.0) {
        zc := [k] + zc;
      }
      k := k + 1;
    }
    forall x ensures x in zc <==> 0 <= x < |t| - 2 && Crosses(t, x) {
      CrossingsMember(t, k, x);
    }
    CrossingsDecreasing(t, k);
  }

  /** The last pair (len-2, len-1) is never examined: a sign change there is
      not reported. */
  lemma LastPairNeverReported(t: seq<real>)
    requires |t| >= 2
    ensures |t| - 2 !in CrossingsBelow(t, Scanned(t))
  {
    CrossingsMember(t, Scanned(t), |t| - 2);
  }

  /** A concrete curve whose only sign change is in the last pair yields no
      crossing. */
  lemma LastPairMissed()
    ensures var t := [1.0, 1.0, -1.0];
      Crosses(t, 1) && CrossingsBelow(t, Scanned(t)) == []
  {
    var t := [1.0, 1.0, -1.0];
    assert !Crosses(t, 0);
    assert CrossingsBelow(t, 1) == CrossingsBelow(t, 0);
  }

  /** Exact zeros: a step into a zero is not reported at its start, a zero
      followed by a non-zero value is reported at the zero, so a curve that
      only touches zero is reported as crossing there. */
  lemma ExactZeros(t: seq<real>, k: nat)
    requires k < Scanned(t)
    ensures t[k + 1] == 0.0 ==> k !in CrossingsBelow(t, Scanned(t))
    ensures t[k] == 0.0 && t[k + 1] != 0.0 ==> k in CrossingsBelow(t, Scanned(t))
  {
    CrossingsMember(t, Scanned(t), k);
  }

  /** A curve that is zero everywhere has no crossing. */
  lemma FlatCurveNoCrossing(t: seq<real>)
    requires forall i :: 0 <= i < |t| ==> t[i] == 0.0
    ensures CrossingsBelow(t, Scanned(t)) == []
  {
    if CrossingsBelow(t, Scanned(t)) != [] {
      var x := CrossingsBelow(t, Scanned(t))[0];
      CrossingsMember(t, Scanned(t), x);
      assert false;
    }
  }

  // ------------------------------------------------------- phase selection

  /** phases[zero_crossings]: numpy fancy indexing. */
  function Pick(phases: seq<real>, zc: seq<nat>): (r: seq<real>)
    requires forall i :: 0 <= i < |zc| ==> zc[i] < |phases|
    ensures |r| == |zc| && forall i :: 0 <= i < |zc| ==> r[i] == phases[zc[i]]
  {
    seq(|zc|, i requires 0 <= i < |zc| => phases[zc[i]])
  }

  /** Python's min() of a sequence; it raises on an empty one. */
  function Min(xs: seq<real>): (r: Result<real, CalibrationError>)
    ensures r.Failure? <==> xs == []
    ensures r.Success? ==> r.value in xs && forall i :: 0 <= i < |xs| ==> r.value <= xs[i]
  {
    if xs == [] then Failure(NoCrossing)
    else if |xs| == 1 then Success(xs[0])
    else
      var rest := Min(xs[1..]).value;
      assert forall i :: 1 <= i < |xs| ==> xs[i] == xs[1..][i - 1];
      Success(if xs[0] <= rest then xs[0] else rest)
  }

  /** With increasing phases and a decreasing crossing list, the minimum is
      the phase of the last listed crossing, the earliest one. */
  lemma MinIsLastCrossing(phases: seq<real>, zc: seq<nat>)
    requires forall i, j :: 0 <= i < j < |phases| ==> phases[i] < phases[j]
    requires forall i :: 0 <= i < |zc| ==> zc[i] < |phases|
    requires StrictlyDecreasing(zc) && zc != []
    ensures Min(Pick(phases, zc)) == Success(phases[zc[|zc| - 1]])
  {
    var xs := Pick(phases, zc);
    var m := Min(xs);
    var last := phases[zc[|zc| - 1]];
    assert last == xs[|xs| - 1];
    var i :| 0 <= i < |xs| && xs[i] == m.value;
  }

  /** The phases are increasing. */
  lemma PhasesIncreasing()
    ensures |Phases| == 1000
    ensures forall i, j :: 0 <= i < j < |Phases| ==> Phases[i] < Phases[j]
  {
    forall i, j | 0 <= i < j < |Phases| ensures Phases[i] < Phases[j] {
      LinspaceIncreasing(0.0, TwoPi, 1000, i, j);
    }
  }

  // ------------------------------------------------------------ one trace

  /** The terms of all 1000 phases for the given borders. */
  function Terms(input: seq<real>, borders: seq<nat>, integral: (seq<real>, real) -> real): (t: seq<real>)
    requires |borders| != 1
    ensures |t| == |Phases|
  {
    seq(|Phases|, i requires 0 <= i < |Phases| => Term(input, borders, integral, Phases[i]))
  }

  /** The phase one trace contributes to phase_zeros, or the error that ends
      the calibration. */
  function TracePhase(input: seq<real>, borders: seq<nat>, integral: (seq<real>, real) -> real): (r: Result<real, CalibrationError>)
    ensures (r.Failure? && r.error == ZeroChunks) <==> |borders| == 1
  {
    if |borders| == 1 then Failure(ZeroChunks)
    else
      var t := Terms(input, borders, integral);
      var zc := CrossingsBelow(t, Scanned(t));
      CrossingsDecreasing(t, Scanned(t));
      Min(Pick(Phases, zc))
  }

  /** The phase a trace yields is the phase of a sign change of its terms,
      no later than any other sign change; it fails with NoCrossing exactly
      when the scan finds none. */
  lemma TracePhaseIsCrossing(input: seq<real>, borders: seq<nat>, integral: (seq<real>, real) -> real)
    requires |borders| != 1
    ensures var t := Terms(input, borders, integral);
      var r := TracePhase(input, borders, integral);
      && (r.Failure? <==> forall k :: 0 <= k < |Phases| - 2 ==> !Crosses(t, k))
      && (r.Success? ==> exists k :: 0 <= k < |Phases| - 2 && Crosses(t, k) && r.value == Phases[k])
      && (r.Success? ==> forall k :: 0 <= k < |Phases| - 2 && Crosses(t, k) ==> r.value <= Phases[k])
  {
    var t := Terms(input, borders, integral);
    var zc := CrossingsBelow(t, Scanned(t));
    CrossingsDecreasing(t, Scanned(t));
    var xs := Pick(Phases, zc);
    var r := Min(xs);
    assert TracePhase(input, borders, integral) == r;
    if r.Success? {
      var i :| 0 <= i < |xs| && xs[i] == r.value;
      CrossingsMember(t, Scanned(t), zc[i]);
      forall k | 0 <= k < |Phases| - 2 && Crosses(t, k) ensures r.value <= Phases[k] {
        CrossingsMember(t, Scanned(t), k);
        var j :| 0 <= j < |zc| && zc[j] == k;
        assert xs[j] == Phases[k];
      }
    } else {
      forall k | 0 <= k < |Phases| - 2 ensures !Crosses(t, k) {
        CrossingsMember(t, Scanned(t), k);
      }
    }
  }

  /** The earliest crossing decides: when the trace yields a phase, it is
      the phase of the smallest crossing index. */
  lemma TracePhaseIsEarliest(input: seq<real>, borders: seq<nat>, integral: (seq<real>, real) -> real)
    requires |borders| != 1
    ensures var t := Terms(input, borders, integral);
      var zc := CrossingsBelow(t, Scanned(t));
      zc != [] ==> zc[|zc| - 1] < |Phases| && TracePhase(input, borders, integral) == Success(Phases[zc[|zc| - 1]])
  {
    var t := Terms(input, borders, integral);
    var zc := CrossingsBelow(t, Scanned(t));
    CrossingsDecreasing(t, Scanned(t));
    if zc != [] {
      TracePhaseParts(input, borders, integral, t, zc);
      PhasesIncreasing();
      MinIsLastCrossing(Phases, zc);
    }
  }

  /** A recorded phase lies in [0, 2pi): it is one of the phases before
      the last two. */
  lemma TracePhaseInRange(input: seq<real>, borders: seq<nat>, integral: (seq<real>, real) -> real)
    ensures var r := TracePhase(input, borders, integral);
      r.Success? ==> 0.0 <= r.value < TwoPi
  {
    if TracePhase(input, borders, integral).Success? {
      TracePhaseIsCrossing(input, borders, integral);
      var t := Terms(input, borders, integral);
      var k :| 0 <= k < |Phases| - 2 && Crosses(t, k) && TracePhase(input, borders, integral).value == Phases[k];
      PhasesIncreasing();
      assert Phases[k] < Phases[999];
      if k > 0 {
        assert Phases[0] < Phases[k];
      }
    }
  }

  /** A trace without any trigger edge gives all-zero terms, no crossing, and
      min() raises. */
  lemma NoEdgeNoPhase(input: seq<real>, integral: (seq<real>, real) -> real)
    ensures TracePhase(input, [], integral) == Failure(NoCrossing)
  {
    var t := Terms(input, [], integral);
    forall i | 0 <= i < |t| ensures t[i] == 0.0 {
      NoBordersZeroTerm(input, [], integral, Phases[i]);
    }
    FlatCurveNoCrossing(t);
  }

  /** The number of traces the calibration averages. */
  const NumTraces := 9

  /** One pass of `for trace in range(num_traces)` after the traces are read:
      the trigger edges, the terms, the crossings and
      phase_zeros[trace] = min(phases[zero_crossings]). An error leaves
      phase_zeros as it was. */
  method CalibrateTrace(input: seq<real>, trigger: seq<real>, integral: (seq<real>, real) -> real,
                        phaseZeros: array<real>, trace: nat)
    returns (borders: seq<nat>, r: Result<real, CalibrationError>)
    requires trace < phaseZeros.Length
    modifies phaseZeros
    ensures IsTriggerList(trigger, DefaultThreshold, DefaultSchmidt, borders)
    ensures r == TracePhase(input, borders, integral)
    ensures r.Success? ==> phaseZeros[..] == old(phaseZeros[..])[trace := r.value]
    ensures r.Failure? ==> phaseZeros[..] == old(phaseZeros[..])
  {
    borders := ExtractTriggers(trigger, DefaultThreshold, DefaultSchmidt);
    var terms := CalculatedTerms(input, borders, integral, Phases);
    if terms.Failure? {
      return borders, Failure(terms.error);
    }
    var zc := ZeroCrossings(terms.value);
    TracePhaseParts(input, borders, integral, terms.value, zc);
    r := Min(Pick(Phases, zc));
    if r.Success? {
      phaseZeros[trace] := r.value;
    }
  }

  /** Entries 0 .. n-1 of phase_zeros hold the phases of the first n traces,
      and the remaining entries are still zero. */
  predicate Recorded(inputs: seq<seq<real>>, borders: seq<seq<nat>>, integral: (seq<real>, real) -> real,
                     zeros: seq<real>, n: nat)
    requires n <= |inputs| && n <= |borders| && n <= |zeros|
  {
    && (forall i :: 0 <= i < n ==> TracePhase(inputs[i], borders[i], integral) == Success(zeros[i]))
    && (forall i :: n <= i < |zeros| ==> zeros[i] == 0.0)
  }

  /** Recording the phase of trace n keeps the earlier entries and fills the next. */
  lemma RecordStep(inputs: seq<seq<real>>, borders: seq<seq<nat>>, integral: (seq<real>, real) -> real,
                   zeros: seq<real>, zeros': seq<real>, n: nat, v: real)
    requires n < |inputs| && n < |borders| && n < |zeros|
    requires Recorded(inputs, borders, integral, zeros, n)
    requires zeros' == zeros[n := v] && TracePhase(inputs[n], borders[n], integral) == Success(v)
    ensures Recorded(inputs, borders, integral, zeros', n + 1)
  {
  }

  /** borders[i] is the trigger list of trace i, for every trace handled. */
  predicate EdgesOf(triggers: seq<seq<real>>, borders: seq<seq<nat>>)
  {
    forall i :: 0 <= i < |borders| && i < |triggers| ==> IsTriggerList(triggers[i], DefaultThreshold, DefaultSchmidt, borders[i])
  }

  /** The loop over the traces: phase_zeros starts as zeros and entry i gets
      the phase of trace i; the first error ends the calibration. The
      readings of the traces are given as inputs. */
  method CalibrateTraces(inputs: seq<seq<real>>, triggers: seq<seq<real>>, integral: (seq<real>, real) -> real)
    returns (borders: seq<seq<nat>>, phaseZeros: array<real>, r: Result<(), CalibrationError>)
    requires |inputs| == NumTraces && |triggers| == NumTraces
    ensures fresh(phaseZeros) && phaseZeros.Length == NumTraces
    ensures 0 < |borders| <= NumTraces
    ensures EdgesOf(triggers, borders)
    ensures r.Success? ==> |borders| == NumTraces && Recorded(inputs, borders, integral, phaseZeros[..], NumTraces)
    ensures r.Failure? ==> && Recorded(inputs, borders, integral, phaseZeros[..], |borders| - 1)
                           && TracePhase(inputs[|borders| - 1], borders[|borders| - 1], integral) == Failure(r.error)
  {
    phaseZeros := new real[NumTraces](_ => 0.0);
    borders := [];
    var trace := 0;
    while trace < NumTraces
      invariant 0 <= trace <= NumTraces && |borders| == trace && phaseZeros.Length == NumTraces
      invariant EdgesOf(triggers, borders)
      invariant Recorded(inputs, borders, integral, phaseZeros[..], trace)
    {
      ghost var zeros := phaseZeros[..];
      var b, p := CalibrateTrace(inputs[trace], triggers[trace], integral, phaseZeros, trace);
      borders := borders + [b];
      if p.Failure? {
        return borders, phaseZeros, Failure(p.error);
      }
      RecordStep(inputs, borders, integral, zeros, phaseZeros[..], trace, p.value);
      trace := trace + 1;
    }
    r := Success(());
  }

  /** The terms CalculatedTerms returns and the crossings ZeroCrossings finds
      in them make up TracePhase. */
  lemma TracePhaseParts(input: seq<real>, borders: seq<nat>, integral: (seq<real>, real) -> real,
                        t: seq<real>, zc: seq<nat>)
    requires |borders| != 1 && |t| == |Phases|
    requires forall i :: 0 <= i < |Phases| ==> t[i] == Term(input, borders, integral, Phases[i])
    requires zc == CrossingsBelow(t, Scanned(t))
    ensures forall i :: 0 <= i < |zc| ==> zc[i] < |Phases|
    ensures TracePhase(input, borders, integral) == Min(Pick(Phases, zc))
  {
    assert t == Terms(input, borders, integral);
    CrossingsDecreasing(t, Scanned(t));
  }
}
