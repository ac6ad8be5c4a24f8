/** Slicing one modulation cycle into chunks between consecutive trigger
    borders, and the running points-per-chunk mean Nroll of animate_fun
    (code/polvis.py and polvis.py). */
module Chunking {
  import opened SeqOps
  import opened RealAlgebra

  // ---------------------------------------------------------------- chunks

  /** Iterations of `for k in range(num_chunks)` with num_chunks = len(borders) - 1;
      with no border num_chunks is -1 and the loop runs zero times. */
  function ChunkCount(borders: seq<nat>): nat
  {
    if |borders| == 0 then 0 else |borders| - 1
  }

  /** Chunk k: input_data[b_k:b_{k+1}] minus bg_level elementwise. */
  function Chunk(input: seq<real>, borders: seq<nat>, bg: real, k: nat): seq<real>
    requires k + 1 < |borders|
  {
    Minus(PySlice(input, borders[k], borders[k + 1]), bg)
  }

  /** For ordered borders inside the input, chunk k holds the b_{k+1} - b_k
      samples starting at b_k, each minus the background level. */
  lemma ChunkShape(input: seq<real>, borders: seq<nat>, bg: real, k: nat)
    requires k + 1 < |borders| && borders[k] <= borders[k + 1] <= |input|
    ensures |Chunk(input, borders, bg, k)| == borders[k + 1] - borders[k]
    ensures forall i :: 0 <= i < borders[k + 1] - borders[k] ==>
              Chunk(input, borders, bg, k)[i] + bg == input[borders[k] + i]
  {
  }

  /** The chunks the loop visits, in order. */
  function Chunks(input: seq<real>, borders: seq<nat>, bg: real): (cs: seq<seq<real>>)
    ensures |cs| == ChunkCount(borders)
    ensures forall k :: 0 <= k < |cs| ==> cs[k] == Chunk(input, borders, bg, k)
  {
    seq(ChunkCount(borders), k requires 0 <= k < ChunkCount(borders) => Chunk(input, borders, bg, k))
  }

  /** Total number of samples in a list of chunks. */
  function TotalLength(cs: seq<seq<real>>): nat
  {
    if cs == [] then 0 else TotalLength(cs[..|cs| - 1]) + |cs[|cs| - 1]|
  }

  /** The first k slices input_data[b_j:b_{j+1}] laid end to end. */
  function Joined(input: seq<real>, borders: seq<nat>, k: nat): seq<real>
    requires k <= ChunkCount(borders)
  {
    if k == 0 then [] else Joined(input, borders, k - 1) + PySlice(input, borders[k - 1], borders[k])
  }

  /** The borders never decrease. */
  predicate Ordered(borders: seq<nat>)
  {
    forall i, j :: 0 <= i < j < |borders| ==> borders[i] <= borders[j]
  }

  /** Every border is at most n, the length of the input. */
  predicate Within(borders: seq<nat>, n: nat)
  {
    forall i :: 0 <= i < |borders| ==> borders[i] <= n
  }

  /** For ordered borders inside the input the slices are contiguous and do
      not overlap: the first k of them laid end to end are input_data[b_0:b_k]. */
  lemma {:induction false} ChunksTile(input: seq<real>, borders: seq<nat>, k: nat)
    requires 1 <= k < |borders| && Ordered(borders) && Within(borders, |input|)
    ensures Joined(input, borders, k) == input[borders[0]..borders[k]]
  {
    JoinedStep(input, borders, k);
    if k > 1 {
      ChunksTile(input, borders, k - 1);
      SliceJoin(input, borders[0], borders[k - 1], borders[k]);
    }
  }

  /** The k-th slice, for ordered borders inside the input, is the plain slice. */
  lemma JoinedStep(input: seq<real>, borders: seq<nat>, k: nat)
    requires 1 <= k < |borders| && Ordered(borders) && Within(borders, |input|)
    ensures borders[0] <= borders[k - 1] <= borders[k] <= |input|
    ensures k == 1 ==> Joined(input, borders, k) == input[borders[0]..borders[1]]
    ensures k > 1 ==> Joined(input, borders, k) == Joined(input, borders, k - 1) + input[borders[k - 1]..borders[k]]
  {
    if k == 1 {
      assert Joined(input, borders, 0) == [];
      assert [] + input[borders[0]..borders[1]] == input[borders[0]..borders[1]];
    }
  }

  /** Chunks whose lengths are the gaps between consecutive borders add up,
      over the first k of them, to b_k - b_0. */
  lemma {:induction false} TelescopeLengths(cs: seq<seq<real>>, borders: seq<nat>, k: nat)
    requires k < |borders| && k <= |cs|
    requires forall j :: 0 <= j < |cs| && j + 1 < |borders| ==> |cs[j]| + borders[j] == borders[j + 1]
    ensures TotalLength(cs[..k]) + borders[0] == borders[k]
  {
    if k > 0 {
      TelescopeLengths(cs, borders, k - 1);
      assert cs[..k][..k - 1] == cs[..k - 1];
    }
  }


  // ---------------------------------------------------------- running mean

  /** Nroll = (Nroll*k + len(chunk))/(k+1), the update after chunk k. */
  function MeanUpdate(mean: real, k: nat, len: nat): real
  {
    (mean * (k as real) + (len as real)) / ((k + 1) as real)
  }

  /** Nroll after visiting the chunks cs: MeanUpdate applied chunk by chunk from 0. */
  function RunningMean(cs: seq<seq<real>>): real
  {
    if cs == [] then 0.0
    else MeanUpdate(RunningMean(cs[..|cs| - 1]), |cs| - 1, |cs[|cs| - 1]|)
  }

  /** The running update computes the arithmetic mean of the chunk lengths:
      Nroll times the number of chunks is the number of samples. */
  lemma {:induction false} RunningMeanIsMean(cs: seq<seq<real>>)
    ensures RunningMean(cs) * (|cs| as real) == TotalLength(cs) as real
  {
    if cs != [] {
      var k := |cs| - 1;
      RunningMeanIsMean(cs[..k]);
      DivMul(RunningMean(cs[..k]) * (k as real) + (|cs[k]| as real), (k + 1) as real);
    }
  }


  /** For ordered borders inside the input the chunk lengths add up to
      b_last - b_0. */
  lemma ChunksSpan(input: seq<real>, borders: seq<nat>, bg: real)
    requires |borders| >= 2 && Ordered(borders) && Within(borders, |input|)
    ensures |Chunks(input, borders, bg)| == |borders| - 1
    ensures TotalLength(Chunks(input, borders, bg)) == borders[|borders| - 1] - borders[0]
  {
    var cs := Chunks(input, borders, bg);
    var c := |borders| - 1;
    forall j | 0 <= j < |cs| && j + 1 < |borders| ensures |cs[j]| + borders[j] == borders[j + 1] {
      ChunkShape(input, borders, bg, j);
    }
    TelescopeLengths(cs, borders, c);
    assert cs[..c] == cs;
  }

  /** The PPC warning fires (Nroll < 180) exactly when the chunks hold on
      average fewer than 180 samples. */
  lemma {:induction false} PpcThreshold(cs: seq<seq<real>>)
    requires |cs| >= 1
    ensures RunningMean(cs) < 180.0 <==> TotalLength(cs) < 180 * |cs|
  {
    RunningMeanIsMean(cs);
    MeanThreshold(RunningMean(cs), |cs|, TotalLength(cs), 180);
  }

  /** For ordered borders inside the input, Nroll after the loop is below 180
      exactly when the borders are on average less than 180 samples apart. */
  lemma PpcIsMeanSpacing(input: seq<real>, borders: seq<nat>, bg: real)
    requires |borders| >= 2 && Ordered(borders) && Within(borders, |input|)
    ensures RunningMean(Chunks(input, borders, bg)) < 180.0
        <==> borders[|borders| - 1] - borders[0] < 180 * (|borders| - 1)
  {
    ChunksSpan(input, borders, bg);
    PpcThreshold(Chunks(input, borders, bg));
  }
}
