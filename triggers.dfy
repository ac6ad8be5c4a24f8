/** Chunk-boundary extraction: extract_triggers in swptools.py, which the
    visualisation scripts call under the name extract_chunks. */
module Triggers {

  /** The trace rises by more than threshold between samples d and d + 1. */
  predicate Rises(t: seq<real>, threshold: real, d: int)
    requires 0 <= d < |t| - 1
  {
    t[d + 1] - t[d] > threshold
  }

  /** Each edge index is larger than the one before. */
  predicate StrictlyIncreasing(r: seq<int>)
  {
    forall i, j :: 0 <= i < j < |r| ==> r[i] < r[j]
  }

  /** Some reported edge lies in the deadzone (d - schmidt, d) that precedes d. */
  predicate InDeadzone(r: seq<int>, schmidt: int, d: int)
  {
    exists j :: 0 <= j < |r| && d - schmidt < r[j] < d
  }

  /** Pair index d is reported in r iff it rises outside the deadzone. */
  predicate DecidedAt(t: seq<real>, threshold: real, schmidt: int, r: seq<int>, d: int)
    requires 0 <= d < |t| - 1
  {
    d in r <==> Rises(t, threshold, d) && !InDeadzone(r, schmidt, d)
  }

  /** Every pair index below n is decided as the scan decides it. */
  predicate DecidedBelow(t: seq<real>, threshold: real, schmidt: int, r: seq<int>, n: int)
  {
    forall d :: 0 <= d < n && d < |t| - 1 ==> DecidedAt(t, threshold, schmidt, r, d)
  }

  /** r is exactly the edge list of the deadzone scan over t: increasing indices
      of sample pairs, and a pair is reported iff it rises and no earlier
      reported edge is fewer than schmidt samples before it. */
  predicate IsTriggerList(t: seq<real>, threshold: real, schmidt: int, r: seq<int>)
  {
    && StrictlyIncreasing(r)
    && (forall i :: 0 <= i < |r| ==> 0 <= r[i] < |t| - 1)
    && DecidedBelow(t, threshold, schmidt, r, |t| - 1)
  }

  /** The value the deadzone counter holds after the test at index d - 1, given the edges so far. */
  function Counter(r: seq<int>, schmidt: int, d: int): int
  {
    if r == [] then 0
    else
      var last := r[|r| - 1];
      if last == d - 1 then schmidt
      else if schmidt - (d - 1 - last) < 0 then 0
      else schmidt - (d - 1 - last)
  }

  /** Against an increasing edge list below d, only the last edge can put d in a deadzone. */
  lemma DeadzoneOfLast(r: seq<int>, schmidt: int, d: int)
    requires StrictlyIncreasing(r) && r != []
    requires forall i :: 0 <= i < |r| ==> r[i] < d
    ensures InDeadzone(r, schmidt, d) <==> d - schmidt < r[|r| - 1]
  {
    if d - schmidt < r[|r| - 1] {
      assert d - schmidt < r[|r| - 1] < d;
    }
  }

  /** Appending an edge at d leaves the deadzones of earlier indices as they were. */
  lemma AppendKeepsDeadzone(r: seq<int>, schmidt: int, d: int, e: int)
    requires e <= d
    ensures InDeadzone(r + [d], schmidt, e) == InDeadzone(r, schmidt, e)
  {
    if InDeadzone(r + [d], schmidt, e) {
      var j :| 0 <= j < |r| + 1 && e - schmidt < (r + [d])[j] < e;
      assert j < |r|;
      assert (r + [d])[j] == r[j];
    }
    if InDeadzone(r, schmidt, e) {
      var j :| 0 <= j < |r| && e - schmidt < r[j] < e;
      assert (r + [d])[j] == r[j];
    }
  }

  /** One step of the scan: deciding index d extends the decided range by one. */
  lemma DecideStep(t: seq<real>, threshold: real, schmidt: int, r: seq<int>, d: int, accept: bool)
    requires 0 <= d < |t| - 1
    requires forall i :: 0 <= i < |r| ==> r[i] < d
    requires DecidedBelow(t, threshold, schmidt, r, d)
    requires accept == (Rises(t, threshold, d) && !InDeadzone(r, schmidt, d))
    ensures DecidedBelow(t, threshold, schmidt, if accept then r + [d] else r, d + 1)
  {
    var r' := if accept then r + [d] else r;
    forall e | 0 <= e < d + 1 && e < |t| - 1
      ensures DecidedAt(t, threshold, schmidt, r', e)
    {
      if accept {
        AppendKeepsDeadzone(r, schmidt, d, e);
      }
      if e < d {
        assert DecidedAt(t, threshold, schmidt, r, e);
      }
    }
  }

  /** What holds of the scan before the test at index d: the edges so far and the counter. */
  predicate ScanState(t: seq<real>, threshold: real, schmidt: int, r: seq<int>, d: int, deadzone: int)
  {
    && 0 <= d && (d <= |t| - 1 || d == 0)
    && StrictlyIncreasing(r)
    && (forall i :: 0 <= i < |r| ==> 0 <= r[i] < d)
    && (forall i, j :: 0 <= i < j < |r| ==> r[j] - r[i] >= schmidt)
    && DecidedBelow(t, threshold, schmidt, r, d)
    && deadzone == Counter(r, schmidt, d)
  }

  /** After the decrement at index d the counter is zero exactly when d lies outside every deadzone. */
  lemma CounterReadsDeadzone(t: seq<real>, threshold: real, schmidt: int, r: seq<int>, d: int, deadzone: int)
    requires ScanState(t, threshold, schmidt, r, d, deadzone)
    ensures (if deadzone - 1 < 0 then 0 else deadzone - 1) == 0 <==> !InDeadzone(r, schmidt, d)
  {
    if r != [] {
      DeadzoneOfLast(r, schmidt, d);
    }
  }

  /** Loop body, edge accepted at d. */
  lemma ScanAccept(t: seq<real>, threshold: real, schmidt: int, r: seq<int>, d: int, deadzone: int)
    requires ScanState(t, threshold, schmidt, r, d, deadzone) && d < |t| - 1
    requires Rises(t, threshold, d) && !InDeadzone(r, schmidt, d)
    ensures ScanState(t, threshold, schmidt, r + [d], d + 1, schmidt)
  {
    DecideStep(t, threshold, schmidt, r, d, true);
    if r != [] {
      DeadzoneOfLast(r, schmidt, d);
    }
    AppendSpaced(r, schmidt, d);
  }

  /** An edge at least schmidt after the last one keeps the list increasing
      and spaced by at least schmidt. */
  lemma AppendSpaced(r: seq<int>, schmidt: int, d: int)
    requires StrictlyIncreasing(r) && (forall i, j :: 0 <= i < j < |r| ==> r[j] - r[i] >= schmidt)
    requires forall i :: 0 <= i < |r| ==> r[i] < d
    requires r != [] ==> d - schmidt >= r[|r| - 1]
    ensures StrictlyIncreasing(r + [d]) && (forall i, j :: 0 <= i < j < |r + [d]| ==> (r + [d])[j] - (r + [d])[i] >= schmidt)
  {
    var r' := r + [d];
    forall i, j | 0 <= i < j < |r'| ensures r'[i] < r'[j] && r'[j] - r'[i] >= schmidt {
      assert r'[i] == r[i];
      if j < |r| {
        assert r'[j] == r[j];
      } else {
        assert r[i] <= r[|r| - 1];
      }
    }
  }

  /** Loop body, no edge at d. */
  lemma ScanReject(t: seq<real>, threshold: real, schmidt: int, r: seq<int>, d: int, deadzone: int)
    requires ScanState(t, threshold, schmidt, r, d, deadzone) && d < |t| - 1
    requires !(Rises(t, threshold, d) && !InDeadzone(r, schmidt, d))
    ensures ScanState(t, threshold, schmidt, r, d + 1, if deadzone - 1 < 0 then 0 else deadzone - 1)
  {
    DecideStep(t, threshold, schmidt, r, d, false);
  }

  /** One pass of the loop body keeps the scan state. */
  lemma ScanStep(t: seq<real>, threshold: real, schmidt: int, r: seq<int>, d: int, deadzone: int,
                  r': seq<int>, d': int, deadzone': int)
    requires ScanState(t, threshold, schmidt, r, d, deadzone) && d < |t| - 1 && d' == d + 1
    requires var dz := if deadzone - 1 < 0 then 0 else deadzone - 1;
      if t[d + 1] - t[d] > threshold && dz == 0 then r' == r + [d] && deadzone' == schmidt
      else r' == r && deadzone' == dz
    ensures ScanState(t, threshold, schmidt, r', d', deadzone')
  {
    CounterReadsDeadzone(t, threshold, schmidt, r, d, deadzone);
    if Rises(t, threshold, d) && !InDeadzone(r, schmidt, d) {
      ScanAccept(t, threshold, schmidt, r, d, deadzone);
    } else {
      ScanReject(t, threshold, schmidt, r, d, deadzone);
    }
  }

  /** The defaults of extract_triggers: a rise of more than 1 between two
      samples is an edge, and 10 samples after an edge are ignored. */
  const DefaultThreshold := 1.0
  const DefaultSchmidt := 10

  /** The scan of swptools.py: a deadzone counter is decremented (floored at 0)
      before each test and reset to schmidt when an edge is accepted. */
  method ExtractTriggers(trigger: seq<real>, threshold: real, schmidt: int) returns (triggers: seq<nat>)
    ensures IsTriggerList(trigger, threshold, schmidt, triggers)
    ensures forall i, j :: 0 <= i < j < |triggers| ==> triggers[j] - triggers[i] >= schmidt
  {
    triggers := [];
    var deadzone := 0;
    var d := 0;
    while d < |trigger| - 1
      invariant ScanState(trigger, threshold, schmidt, triggers, d, deadzone)
    {
      ghost var r0, d0, dz0 := triggers, d, deadzone;
      deadzone := if deadzone - 1 < 0 then 0 else deadzone - 1;
      if trigger[d + 1] - trigger[d] > threshold && deadzone == 0 {
        triggers := triggers + [d];
        deadzone := schmidt;
      }
      d := d + 1;
      ScanStep(trigger, threshold, schmidt, r0, d0, dz0, triggers, d, deadzone);
    }
    ScanDone(trigger, threshold, schmidt, triggers, d, deadzone);
  }

  /** When the scan stops, its edges form the trigger list of the trace. */
  lemma ScanDone(t: seq<real>, threshold: real, schmidt: int, r: seq<int>, d: int, deadzone: int)
    requires ScanState(t, threshold, schmidt, r, d, deadzone) && !(d < |t| - 1)
    ensures IsTriggerList(t, threshold, schmidt, r)
    ensures forall i, j :: 0 <= i < j < |r| ==> r[j] - r[i] >= schmidt
  {
  }

  /** Two increasing sequences with the same elements are the same sequence. */
  lemma {:induction false} IncreasingBySet(r1: seq<int>, r2: seq<int>)
    requires StrictlyIncreasing(r1) && StrictlyIncreasing(r2)
    requires forall x :: x in r1 <==> x in r2
    ensures r1 == r2
    decreases |r1|
  {
    if r1 != [] {
      assert r1[0] in r1;
    }
    if r2 != [] {
      assert r2[0] in r2;
    }
    if r1 != [] && r2 != [] {
      assert r1[0] == r2[0] by {
        var i :| 0 <= i < |r2| && r2[i] == r1[0];
        var j :| 0 <= j < |r1| && r1[j] == r2[0];
        assert r2[0] <= r1[0] && r1[0] <= r2[0];
      }
      forall x ensures x in r1[1..] <==> x in r2[1..] {
        assert x in r1[1..] <==> x in r1 && x != r1[0];
        assert x in r2[1..] <==> x in r2 && x != r2[0];
      }
      IncreasingBySet(r1[1..], r2[1..]);
      assert r1 == [r1[0]] + r1[1..] && r2 == [r2[0]] + r2[1..];
    }
  }

  /** Two trigger lists of one trace agree on every index below n. */
  lemma {:induction false} SameDecisions(t: seq<real>, threshold: real, schmidt: int, r1: seq<int>, r2: seq<int>, n: nat)
    requires IsTriggerList(t, threshold, schmidt, r1) && IsTriggerList(t, threshold, schmidt, r2)
    ensures forall d :: 0 <= d < n ==> (d in r1 <==> d in r2)
    decreases n
  {
    if n > 0 {
      SameDecisions(t, threshold, schmidt, r1, r2, n - 1);
      var d := n - 1;
      if d < |t| - 1 {
        assert DecidedAt(t, threshold, schmidt, r1, d) && DecidedAt(t, threshold, schmidt, r2, d);
        if InDeadzone(r1, schmidt, d) {
          var j :| 0 <= j < |r1| && d - schmidt < r1[j] < d;
          assert r1[j] in r2 by {
            assert DecidedAt(t, threshold, schmidt, r1, r1[j]) && DecidedAt(t, threshold, schmidt, r2, r1[j]);
          }
          var k :| 0 <= k < |r2| && r2[k] == r1[j];
        }
        if InDeadzone(r2, schmidt, d) {
          var j :| 0 <= j < |r2| && d - schmidt < r2[j] < d;
          assert r2[j] in r1 by {
            assert DecidedAt(t, threshold, schmidt, r1, r2[j]) && DecidedAt(t, threshold, schmidt, r2, r2[j]);
          }
          var k :| 0 <= k < |r1| && r1[k] == r2[j];
        }
      }
    }
  }

  /** The trigger list of a trace is unique: the scan is a deterministic function of its inputs. */
  lemma TriggerListUnique(t: seq<real>, threshold: real, schmidt: int, r1: seq<int>, r2: seq<int>)
    requires IsTriggerList(t, threshold, schmidt, r1) && IsTriggerList(t, threshold, schmidt, r2)
    ensures r1 == r2
  {
    var n := if |t| < 1 then 0 else |t| - 1;
    SameDecisions(t, threshold, schmidt, r1, r2, n);
    IncreasingBySet(r1, r2);
  }

  /** Every reported edge rises by more than the threshold; flat, falling and
      threshold-sized steps are never reported. */
  lemma ReportedEdgesRise(t: seq<real>, threshold: real, schmidt: int, r: seq<int>, i: int)
    requires IsTriggerList(t, threshold, schmidt, r) && 0 <= i < |r|
    ensures 0 <= r[i] < |t| - 1 && Rises(t, threshold, r[i])
  {
    assert r[i] in r;
    assert DecidedAt(t, threshold, schmidt, r, r[i]);
  }

  /** The first rising step of the trace is always reported. */
  lemma FirstRiseReported(t: seq<real>, threshold: real, schmidt: int, r: seq<int>, d: int)
    requires IsTriggerList(t, threshold, schmidt, r)
    requires 0 <= d < |t| - 1 && Rises(t, threshold, d)
    requires forall e :: 0 <= e < d ==> !Rises(t, threshold, e)
    ensures d in r
  {
    forall j | 0 <= j < |r| ensures r[j] >= d {
      assert r[j] in r;
      assert DecidedAt(t, threshold, schmidt, r, r[j]);
    }
    assert DecidedAt(t, threshold, schmidt, r, d);
  }

  /** A trace with no rising step, such as a flat or all-zero one, gives no triggers. */
  lemma NoRiseNoTriggers(t: seq<real>, threshold: real, schmidt: int, r: seq<int>)
    requires IsTriggerList(t, threshold, schmidt, r)
    requires forall e :: 0 <= e < |t| - 1 ==> !Rises(t, threshold, e)
    ensures r == []
  {
    if r != [] {
      ReportedEdgesRise(t, threshold, schmidt, r, 0);
      assert false;
    }
  }

  /** Of two rising steps closer together than schmidt, the later one is not
      reported when the earlier one is. */
  lemma DeadzoneSuppresses(t: seq<real>, threshold: real, schmidt: int, r: seq<int>, d1: int, d2: int)
    requires IsTriggerList(t, threshold, schmidt, r)
    requires 0 <= d1 < d2 < |t| - 1 && d2 - d1 < schmidt
    requires d1 in r
    ensures d2 !in r
  {
    var j :| 0 <= j < |r| && r[j] == d1;
    assert InDeadzone(r, schmidt, d2);
    assert DecidedAt(t, threshold, schmidt, r, d2);
  }
}
