/** One frame of animate_fun, shared by code/polvis.py and polvis.py: the
    trace is cut at the trigger edges, each chunk is inverted to a Stokes
    vector, the vectors are averaged and normalised, the DOP is taken and the
    warning string is built. The two scripts differ only in the voltage test,
    which code/polvis.py runs when it reads live data. */
module Animation {
  import opened Wrappers
  import opened SeqOps
  import opened Triggers
  import opened StokesInversion
  import opened Chunking
  import opened FrameAverage
  import opened FrameWarnings

  /** What one frame shows: num_chunks, the points-per-chunk mean Nroll, the
      normalised Stokes vector S and the DOP (None where numpy produces inf or
      nan), the warning entries and the warning text. */
  datatype Frame = Frame(numChunks: int, nroll: real, stokes: Option<Stokes>, dop: Option<real>,
                         warnings: seq<Warning>, text: string)

  /** get_stokes_from_chunk(chunk, wp_ret, phs_ofst, verbose=False) as a
      function of the chunk, with the integration harm and the retarder fixed. */
  function StokesPerChunk(harm: seq<real> -> Harmonics, w: Retarder): seq<real> -> Option<Stokes>
  {
    c => StokesOfChunk(harm, w, c)
  }

  /** The frame animate_fun computes from the input trace and the borders the
      trigger trace yields. It fails exactly where max() of an empty trace
      raises in the voltage test. */
  function FrameOf(input: seq<real>, borders: seq<nat>, bg: real, harm: seq<real> -> Harmonics,
                   w: Retarder, root: real -> real, fmt: real -> string, checkVoltage: bool)
    : (r: Result<Frame, FrameError>)
    ensures r.Failure? <==> checkVoltage && |input| == 0
    ensures r.Success? ==> r.value.numChunks == |borders| - 1
    ensures r.Success? ==> forall x :: x in r.value.warnings <==> Fires(x, r.value.nroll, r.value.dop, input, |borders| - 1, checkVoltage)
    ensures r.Success? ==> r.value.stokes.Some? ==> r.value.stokes.value.s0 == 1.0
  {
    var cs := Chunks(input, borders, bg);
    var numChunks := |borders| - 1;
    var nroll := RunningMean(cs);
    var stokes := FrameStokes(StokesSum(cs, StokesPerChunk(harm, w)), numChunks);
    var dop := Dop(stokes, root);
    match Warnings(nroll, dop, input, numChunks, checkVoltage)
    case Failure(e) => Failure(e)
    case Success(ws) => Success(Frame(numChunks, nroll, stokes, dop, ws, Render(ws, fmt)))
  }

  /** The body of animate_fun from fetching the traces to the warning text;
      reading the traces, saving to the CSV log and drawing are left out. */
  method AnimateFrame(input: seq<real>, trigger: seq<real>, bg: real, harm: seq<real> -> Harmonics,
                      w: Retarder, root: real -> real, fmt: real -> string, checkVoltage: bool)
    returns (borders: seq<nat>, r: Result<Frame, FrameError>)
    ensures IsTriggerList(trigger, DefaultThreshold, DefaultSchmidt, borders)
    ensures r == FrameOf(input, borders, bg, harm, w, root, fmt, checkVoltage)
  {
    borders := ExtractTriggers(trigger, DefaultThreshold, DefaultSchmidt);
    var numChunks := |borders| - 1;
    var sum, nroll := AccumulateChunks(input, borders, bg, StokesPerChunk(harm, w));
    var stokes := FrameStokes(sum, numChunks);
    var dop := Dop(stokes, root);
    var text := WarningText(nroll, dop, input, numChunks, checkVoltage, fmt);
    FrameOfParts(input, borders, bg, harm, w, root, fmt, checkVoltage, nroll, stokes, dop, text);
    if text.Failure? {
      return borders, Failure(EmptyMax);
    }
    var ws := Warnings(nroll, dop, input, numChunks, checkVoltage).value;
    r := Success(Frame(numChunks, nroll, stokes, dop, ws, text.value));
  }

  /** The steps of animate_fun, each given by its own specification, make up FrameOf. */
  lemma FrameOfParts(input: seq<real>, borders: seq<nat>, bg: real, harm: seq<real> -> Harmonics,
                     w: Retarder, root: real -> real, fmt: real -> string, checkVoltage: bool,
                     nroll: real, stokes: Option<Stokes>, dop: Option<real>, text: Result<string, FrameError>)
    requires nroll == RunningMean(Chunks(input, borders, bg))
    requires stokes == FrameStokes(StokesSum(Chunks(input, borders, bg), StokesPerChunk(harm, w)), |borders| - 1)
    requires dop == Dop(stokes, root)
    requires text.Failure? <==> checkVoltage && |input| == 0
    requires text.Success? ==> text.value == Render(Warnings(nroll, dop, input, |borders| - 1, checkVoltage).value, fmt)
    ensures FrameOf(input, borders, bg, harm, w, root, fmt, checkVoltage)
         == if text.Failure? then Failure(EmptyMax)
            else Success(Frame(|borders| - 1, nroll, stokes, dop, Warnings(nroll, dop, input, |borders| - 1, checkVoltage).value, text.value))
  {
  }

  /** Trigger edges of a trace no longer than the input plus one are ordered
      borders inside the input. */
  lemma TriggersAreBorders(trigger: seq<real>, input: seq<real>, borders: seq<nat>)
    requires IsTriggerList(trigger, DefaultThreshold, DefaultSchmidt, borders) && |trigger| <= |input| + 1
    ensures Ordered(borders) && Within(borders, |input|)
  {
  }

  /** The chunks of a frame cover the input from the first trigger edge to
      the last, each sample once and in order. */
  lemma FrameChunksTile(trigger: seq<real>, input: seq<real>, borders: seq<nat>)
    requires IsTriggerList(trigger, DefaultThreshold, DefaultSchmidt, borders) && |trigger| == |input|
    requires |borders| >= 2
    ensures Joined(input, borders, |borders| - 1) == input[borders[0]..borders[|borders| - 1]]
  {
    TriggersAreBorders(trigger, input, borders);
    ChunksTile(input, borders, |borders| - 1);
  }

  /** The PPC warning of a frame with at least two edges fires exactly when
      the edges are on average fewer than 180 samples apart. */
  lemma FramePpcWarning(trigger: seq<real>, input: seq<real>, borders: seq<nat>, bg: real,
                        harm: seq<real> -> Harmonics, w: Retarder, root: real -> real,
                        fmt: real -> string, checkVoltage: bool)
    requires IsTriggerList(trigger, DefaultThreshold, DefaultSchmidt, borders) && |trigger| == |input|
    requires |borders| >= 2
    ensures var r := FrameOf(input, borders, bg, harm, w, root, fmt, checkVoltage);
      r.Success? ==> (PpcTooLow(Trunc(r.value.nroll)) in r.value.warnings
                      <==> borders[|borders| - 1] - borders[0] < 180 * (|borders| - 1))
  {
    TriggersAreBorders(trigger, input, borders);
    PpcIsMeanSpacing(input, borders, bg);
  }

  /** A frame with fewer than two trigger edges has no chunk: no finite Stokes
      vector or DOP, and both the PPC and the insufficient-chunks warnings. */
  lemma FewEdgesNoStokes(input: seq<real>, borders: seq<nat>, bg: real, harm: seq<real> -> Harmonics,
                         w: Retarder, root: real -> real, fmt: real -> string, checkVoltage: bool)
    requires |borders| <= 1
    ensures var r := FrameOf(input, borders, bg, harm, w, root, fmt, checkVoltage);
      r.Success? ==> && r.value.stokes.None? && r.value.dop.None?
                     && PpcTooLow(0) in r.value.warnings && InsufficientChunks in r.value.warnings
  {
    var cs := Chunks(input, borders, bg);
    assert cs == [];
    assert StokesSum(cs, StokesPerChunk(harm, w)) == Some(Zero);
  }

  /** End to end: when every chunk carries the coefficients of one Stokes
      vector s with s0 != 0, and there is at least one chunk, the frame
      shows s / s0. */
  lemma FrameRecoversSource(input: seq<real>, borders: seq<nat>, bg: real, harm: seq<real> -> Harmonics,
                            w: Retarder, root: real -> real, fmt: real -> string, checkVoltage: bool, s: Stokes)
    requires Invertible(w) && s.s0 != 0.0 && |borders| >= 2
    requires forall k :: 0 <= k < |borders| - 1 ==> harm(Chunk(input, borders, bg, k)) == ForwardCoefficients(s, w)
    ensures var r := FrameOf(input, borders, bg, harm, w, root, fmt, checkVoltage);
      r.Success? ==> r.value.stokes == Some(Normalize(s))
  {
    var cs := Chunks(input, borders, bg);
    NoiselessFrameRecovered(cs, harm, w, s);
    assert StokesPerChunk(harm, w) == (c => StokesOfChunk(harm, w, c));
  }
}
