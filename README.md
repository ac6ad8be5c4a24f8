# swp-polarimeter core in Dafny

The swp-polarimeter measures the polarization of light with a spinning
waveplate. A photodiode trace is recorded together with a trigger trace
that pulses once per waveplate turn. This project models the discrete and
algebraic core of the Python code and proves properties about it. All
arithmetic is over exact reals and integers.

- **Chunk borders** (`Triggers`, triggers.dfy). `extract_triggers` in
  swptools.py scans the trigger trace with a deadzone counter. The polvis
  scripts call `swp.extract_chunks`, which swptools.py does not define; it
  is modelled as `extract_triggers` with its defaults. The calibration
  scripts call `extract_triggers` directly.
- **Stokes inversion** (`StokesInversion`, stokes.dfy).
  - The closed forms and the S0 = 0 guard of `get_stokes_from_chunk`.
  - The cos 2wt alignment warning.
  - The forward coefficients of `simulate_polarization_data`, and the
    round trip between the two.
- **Polarization ellipse** (`Ellipse`, ellipse.dfy). `get_polarization_ellipse`:
  - divides `S` by `S[0]` in place;
  - runs the clipping loop, which only prints;
  - builds two branches in a loop and joins them into a closed outline.
- **One frame of `animate_fun`**, shared by code/polvis.py and polvis.py.
  - Slicing the trace into chunks (`Chunking`).
  - Summing the per-chunk Stokes vectors, the two divisions and the DOP
    (`FrameAverage`).
  - The running points-per-chunk mean `Nroll` (`Chunking`).
  - The ordered warning string (`FrameWarnings`).
  - The whole frame (`Animation`).
  - `CodePolvis` and `Polvis` give each script its own entry point. Only
    code/polvis.py runs the voltage test, and only when it is not offline.
- **Trigger-phase calibration** (`PhaseCalibration`, calibration.dfy). This
  is the shared body of code/calibrate_trigger_delay.py (`calculated_terms`)
  and calibrate_trigger_delay.py (`enns`). `CodeCalibrateTriggerDelay` and
  `CalibrateTriggerDelay` are their entry points.
  - 1000 phase terms are collected.
  - The sign-change scan prepends indices, so the list is newest first.
  - `min` picks a phase for each of the nine traces.

Model choices:

- Numerical integration, trigonometry and square roots are function
  parameters. These are `harm`/`integral`, the `Numerics` record, and `root`.
- Python exceptions become `Result` failures:
  - the integer `0/0` with exactly one trigger edge;
  - `min` of no crossing;
  - `max` of an empty trace.
- numpy divisions that give inf or nan become `Option.None`.

Two details of the code are modelled as written.

- The zero-crossing scan runs over `range(len(terms) - 2)`, so it never
  looks at the last pair. `LastPairMissed` shows a curve whose only sign
  change is lost this way.
- A step into an exact zero is not counted, while a zero followed by a
  non-zero value is (`ExactZeros`).

## Model

| member | source | states |
|---|---|---|
| Triggers.ExtractTriggers | swptools.py:42-58 | The returned indices are strictly increasing and each lies in [0, len-2]. Every index rises by more than the threshold. A rising step is reported exactly when no reported edge lies in the deadzone before it. Consecutive edges are at least schmidt apart. |
| Triggers.CounterReadsDeadzone | swptools.py:52-53 | The counter after `max(0, deadzone-1)` is zero exactly when no reported edge lies within schmidt samples before d. |
| Triggers.DeadzoneOfLast | swptools.py:52-57 | For increasing edges below d, d is in a deadzone exactly when the last edge is closer than schmidt. |
| Triggers.DecideStep | swptools.py:53-57 | Deciding index d by the rule keeps every earlier decision and decides d. |
| Triggers.AppendSpaced | swptools.py:56-57 | Appending an edge at least schmidt after the last keeps the list increasing and spaced. |
| Triggers.ScanStep | swptools.py:51-57 | One pass of the loop body keeps the scan invariant: the decisions so far and the counter reading the deadzone. |
| Triggers.ScanDone | swptools.py:51-58 | At loop exit the invariant gives the full trigger-list specification and the spacing. |
| Triggers.TriggerListUnique | swptools.py:49-58 | Two lists that meet the trigger-list specification are equal, so it fixes the result. |
| Triggers.ReportedEdgesRise | swptools.py:53 | Every reported edge is a strict rise above the threshold. Flat, falling and equal-to-threshold steps are never reported. |
| Triggers.FirstRiseReported | swptools.py:50-57 | The first rising step of the trace is always reported. |
| Triggers.NoRiseNoTriggers | swptools.py:49-58 | A trace with no rising step yields no edge. |
| Triggers.DeadzoneSuppresses | swptools.py:52-57 | No edge is reported fewer than schmidt samples after a reported edge. |
| StokesInversion.S0FormulasAgree | swptools.py:25-26 | `2*(a0 - c0*(1+cd)/(1-cd))` equals `2*a0 - (1+cd)*S1/2` with `S1 = 4*c0/(1-cd)` whenever cd != 1. |
| StokesInversion.ForwardCoefficients | swptools.py:134-137 | Definition: the a, b, c, d coefficients of a simulated trace for a Stokes vector and retardance. InversionRoundTrip and ChunkRoundTrip state what inverting them gives. |
| StokesInversion.Inverse | swptools.py:25-28 | Definition: the four closed forms for S0..S3. InverseExplains and InversionUnique state that they are the only solution of the forward model. |
| StokesInversion.LargeCos2w | swptools.py:37 | Definition: the alignment test `n0 > 1e-3*sqrt(S1^2+S2^2+S3^2)` with the root squared away. LargeCos2wMatchesSqrt states that it agrees with the test as written. |
| StokesInversion.InverseExplains | swptools.py:25-28 | The closed forms solve the forward coefficient model for a0, b0, c0 and d0. |
| StokesInversion.RawStokes | swptools.py:22-28 | The raw vector is finite exactly when cos(delta) != 1 and sin(delta) != 0, and then it explains the coefficients. |
| StokesInversion.InversionUnique | swptools.py:25-28 | Any Stokes vector that explains the coefficients is the one the closed forms return. |
| StokesInversion.InversionRoundTrip | swptools.py:134-137 | Inverting the coefficients of a simulated trace returns the Stokes vector it was simulated from. |
| StokesInversion.Normalize | swptools.py:30-40 | With S0 != 0 the result is the vector divided by S0, with first entry 1. With S0 = 0 the vector is returned unchanged. |
| StokesInversion.LargeCos2wMatchesSqrt | swptools.py:37 | The square-root-free alignment test agrees with `n0 > 1e-3*sqrt(S1^2+S2^2+S3^2)` for the signed n0. |
| StokesInversion.GetStokesFromChunk | swptools.py:4-40 | The result is finite exactly for an invertible retardance. It is the raw closed-form vector divided by its S0, so [1, S1/S0, S2/S0, S3/S0], or the raw vector itself when S0 = 0. The error is printed only when verbose and S0 = 0. The alignment warning is printed only when verbose and the test holds. |
| StokesInversion.ChunkRoundTrip | swptools.py:22-40 | A noiseless simulated chunk is recovered as S/S0 with neither error nor warning. |
| Ellipse.DivideByFirst | swptools.py:68 | Every entry of the caller's array is divided by the old S[0], so S[0] becomes 1. |
| Ellipse.EllipseShape | swptools.py:70-89 | Definition: DOP, psi = arctan2(S2/DOP, S1/DOP)/2, chi = arcsin(S3/DOP)/2, b/a = tan(chi) with a = 1, and the rotation entries. GetPolarizationEllipse states that the outline is built from it. |
| Ellipse.Rotate | swptools.py:90-91 | Definition: the rotation matrix applied to a point. |
| Ellipse.UpperY | swptools.py:99 | Definition: the upper branch `ba*sqrt(a^2-x^2)` with a = 1. |
| Ellipse.Outline | swptools.py:96-115 | Definition: the joined, DOP-scaled outline. TraceOutline, JoinedClosed and OutlineClosed state its length and closure. |
| Ellipse.ClipWarnings | swptools.py:71-75 | When verbose, the reported values are the entries of S outside [-1, 1], one per entry, in array order. Otherwise nothing is reported. The array is not changed. |
| Ellipse.OutOfRangeExact | swptools.py:71-75 | A value is reported exactly when it is an entry of S with magnitude above 1. There are never more reports than entries, and every entry is reported exactly when all of them are out of range. |
| Ellipse.TraceOutline | swptools.py:92-115 | The appended branch lists, joined with branch 2 reversed and scaled by the DOP, are the outline. |
| Ellipse.JoinBranches | swptools.py:111-115 | `x1 + x2[::-1]` and `y1 + y2[::-1]` scaled by the DOP equal the outline point by point. |
| Ellipse.BranchesMeet | swptools.py:98-109 | Where the root vanishes, the upper and lower branch points coincide. |
| Ellipse.RootVanishesAtVertex | swptools.py:99 | At x = -1 and x = 1 the root of a^2 - x^2 is 0. |
| Ellipse.JoinedClosed | swptools.py:111-113 | The joined lists have 2n points. The first point equals the last, and the two halves meet at the seam. |
| Ellipse.OutlineClosed | swptools.py:111-115 | The returned x and y have 2n points and form a closed outline, continuous at the seam. |
| Ellipse.GetPolarizationEllipse | swptools.py:61-115 | S is divided by S[0] in place. When verbose, the clip warnings are the out-of-range entries of the divided S, in array order; otherwise there are none. The outline is closed and continuous, with 2*num_points points. |
| Chunking.ChunkShape | code/polvis.py:296 | Chunk k has length b_{k+1} - b_k, and each sample is the input sample minus bg_level. |
| Chunking.Chunks | code/polvis.py:295-296 | Definition: chunk k for each k in `range(len(borders) - 1)`, none when there are fewer than two borders. ChunkShape, ChunksTile and ChunksSpan state what the chunks are. |
| Chunking.ChunksTile | code/polvis.py:295-296 | For ordered borders the first k slices `input_data[b_j:b_{j+1}]`, before bg_level is subtracted, laid end to end, are `input_data[b_0:b_k]`: contiguous and not overlapping. |
| Chunking.TelescopeLengths | code/polvis.py:295-296 | The chunk lengths telescope: the first k sum to b_k - b_0. |
| Chunking.MeanUpdate | code/polvis.py:299 | Definition: one `Nroll = (Nroll*k + len(chunk))/(k+1)` step. |
| Chunking.RunningMean | code/polvis.py:291-299 | Definition: Nroll after every chunk. RunningMeanIsMean states that it is the mean chunk length. |
| Chunking.RunningMeanIsMean | code/polvis.py:291-299 | Nroll times the number of chunks is the total chunk length, so Nroll is the mean length, or 0 with no chunk. |
| Chunking.ChunksSpan | code/polvis.py:287-296 | There are len(borders) - 1 chunks and their lengths sum to b_last - b_0. |
| Chunking.PpcThreshold | code/polvis.py:315 | `Nroll < 180` exactly when the total length is below 180 per chunk. |
| Chunking.PpcIsMeanSpacing | code/polvis.py:315 | The PPC warning fires exactly when the borders are, on average, fewer than 180 samples apart. |
| FrameAverage.StokesSum | code/polvis.py:294-297 | The sum is finite exactly when every chunk's vector is finite. |
| FrameAverage.ExtendStep | code/polvis.py:297-299 | One more chunk adds its vector to S and updates Nroll by `(Nroll*k + len)/(k+1)`. |
| FrameAverage.AccumulateChunks | code/polvis.py:294-299 | The loop leaves S as the sum of the chunk vectors and Nroll as the running mean of the chunk lengths. |
| FrameAverage.FrameStokes | code/polvis.py:301-302 | After `S /= num_chunks; S /= S[0]` the vector is finite exactly when the sum is finite, num_chunks != 0 and sum[0] != 0. It then equals sum/sum[0], with S[0] = 1. |
| FrameAverage.UniformSum | code/polvis.py:294-297 | n chunks with the same vector v sum to n*v. |
| FrameAverage.NormalizeScaled | code/polvis.py:301-302 | Dividing by num_chunks before dividing by S[0] has no effect. |
| FrameAverage.UniformFrame | code/polvis.py:294-302 | Chunks that all yield v give the frame vector v/v0. |
| FrameAverage.NoiselessFrameRecovered | code/polvis.py:294-302 | Chunks simulated from S give the frame vector S/S0. |
| FrameAverage.UnphysicalIffSquare | code/polvis.py:317 | For a non-negative DOP, `DOP - 1 > 0.03` exactly when S1^2 + S2^2 + S3^2 > 1.03^2. |
| FrameAverage.NormalizedPower | code/polvis.py:302-305 | The polarized power of S/S0 is the power of S divided by S0^2. |
| FrameAverage.Dop | code/polvis.py:305 | Definition: the square root of S1^2+S2^2+S3^2 of a finite frame vector, and None otherwise. |
| FrameAverage.PhysicalLightHasNoUnphysicalDop | code/polvis.py:305-317 | A physical source (S1^2+S2^2+S3^2 <= S0^2, S0 > 0) has DOP <= 1 and never draws the Unphysical DOP entry. |
| FrameWarnings.Trunc | code/polvis.py:316 | `int(Nroll)` truncates toward zero. |
| FrameWarnings.VoltageOff | code/polvis.py:323 | Definition: the mean is below 2 or the maximum is above 10. The mean of an empty trace is nan and compares false. VoltageTest states when `max` raises instead. |
| FrameWarnings.Message | code/polvis.py:316-324 | Each entry text is at least five characters. The five texts themselves are its definition. |
| FrameWarnings.NatStringRoundTrip | code/polvis.py:316 | The decimal text of a count reads back as the count. |
| FrameWarnings.ChainMember | code/polvis.py:315-324 | An entry is in the chain exactly when its condition was selected. |
| FrameWarnings.ChainSorted | code/polvis.py:315-324 | The entries appear in the order PPC, Unphysical DOP, Light level, Insufficient chunks, Voltage, each at most once. |
| FrameWarnings.EntriesExact | code/polvis.py:315-324 | Each entry appears exactly when its test fires, in test order. |
| FrameWarnings.Warnings | code/polvis.py:315-324 | The entries fail only when the voltage test takes `max` of an empty trace. Otherwise they are exactly the firing tests, in order. |
| FrameWarnings.Render | code/polvis.py:280 | The text starts with 'warnings: ' and is exactly that prefix when no test fires. |
| FrameWarnings.MessagesAppend | code/polvis.py:316-324 | Appending an entry appends its text. |
| FrameWarnings.AppendEntry | code/polvis.py:315-324 | `if c: estr += entry` turns the text of the entries into the text of the entries with that entry pushed. |
| FrameWarnings.VoltageTest | code/polvis.py:323 | The test raises exactly when it runs on an empty trace. Otherwise it reports `not run_offline and (mean < 2 or max > 10)`. |
| FrameWarnings.ChainText | code/polvis.py:315-324 | The five conditional appends build the rendered chain of selected entries. |
| FrameWarnings.WarningText | code/polvis.py:315-324 | estr is the rendering of exactly the firing tests, in order. It raises only for `max` of an empty trace. |
| Animation.FrameOf | code/polvis.py:283-324 | The frame fails only when the voltage test runs on an empty trace. num_chunks is len(borders) - 1. The warnings are exactly the firing tests. A finite frame vector has S[0] = 1. |
| Animation.AnimateFrame | code/polvis.py:286-324 | The borders are the trigger list of the trigger trace, and the frame equals its specification. |
| Animation.TriggersAreBorders | code/polvis.py:286-287 | Trigger edges are ordered borders inside the input trace. |
| Animation.FrameChunksTile | code/polvis.py:295-296 | With two or more edges, the frame's slices (before bg_level is subtracted) tile the input from the first edge to the last. |
| Animation.FramePpcWarning | code/polvis.py:315-316 | The PPC entry of a frame fires exactly when its edges are on average fewer than 180 samples apart. |
| Animation.FewEdgesNoStokes | code/polvis.py:287-302 | With fewer than two edges there is no finite vector or DOP, and both the PPC (0) and the Insufficient chunks entries appear. |
| Animation.FrameRecoversSource | code/polvis.py:294-302 | A frame of chunks simulated from S shows S/S0. |
| CodePolvis.AnimateFun | code/polvis.py:283-324 | The frame with the voltage test on when online. Offline it never fails and never shows the voltage entry. Online it fails exactly for an empty trace. |
| Polvis.AnimateFun | polvis.py:214-251 | The same frame without the voltage test. It never fails and never shows the voltage entry. |
| PhaseCalibration.ChunkTermSum | code/calibrate_trigger_delay.py:68-72 | n0 is the sum of the chunk integrals at the phase, in chunk order. |
| PhaseCalibration.TermSum | code/calibrate_trigger_delay.py:68-72 | Definition: the sum of the first n chunk integrals at a phase. |
| PhaseCalibration.Term | code/calibrate_trigger_delay.py:68-74 | Definition: n0/num_chunks for one phase. CalculatedTerms states when the division raises. |
| PhaseCalibration.CalculatedTerms | code/calibrate_trigger_delay.py:64-74 | It raises ZeroChunks exactly when there is one edge and at least one phase. Otherwise there is one term per phase, in phase order, each n0/num_chunks. |
| PhaseCalibration.NoBordersZeroTerm | code/calibrate_trigger_delay.py:58-74 | With no edge num_chunks is -1, the inner loop never runs and every term is 0. |
| PhaseCalibration.ZeroCrossings | code/calibrate_trigger_delay.py:86-91 | k is listed exactly when 0 <= k <= len-3 and the terms change sign by the <=/> or >=/< test. The list is strictly decreasing. |
| PhaseCalibration.CrossingsBelow | code/calibrate_trigger_delay.py:87-89 | Definition: the crossings among the first n pairs, latest first. CrossingsMember and CrossingsDecreasing state its contents and order. |
| PhaseCalibration.CrossingsMember | code/calibrate_trigger_delay.py:87-89 | An index is in the list exactly when it was scanned and crosses. |
| PhaseCalibration.CrossingsDecreasing | code/calibrate_trigger_delay.py:89 | Prepending keeps the list strictly decreasing, so there are no duplicates. |
| PhaseCalibration.LastPairNeverReported | code/calibrate_trigger_delay.py:87 | Index len-2, the last pair, is never listed. |
| PhaseCalibration.LastPairMissed | code/calibrate_trigger_delay.py:87-89 | A curve whose only sign change is in the last pair yields no crossing. |
| PhaseCalibration.ExactZeros | code/calibrate_trigger_delay.py:88 | A step into an exact zero is not listed at its start. A zero followed by a non-zero value is listed at the zero. |
| PhaseCalibration.FlatCurveNoCrossing | code/calibrate_trigger_delay.py:88 | An all-zero curve has no crossing. |
| PhaseCalibration.Min | code/calibrate_trigger_delay.py:94 | `min` raises exactly on an empty sequence. Otherwise it returns a member no larger than any other. |
| PhaseCalibration.MinIsLastCrossing | code/calibrate_trigger_delay.py:94 | With increasing phases, the minimum over the crossing phases is the phase of the last listed crossing. |
| PhaseCalibration.PhasesIncreasing | code/calibrate_trigger_delay.py:65 | The 1000 phases of `linspace(0, 2*pi, 1000)` are strictly increasing. |
| SeqOps.Linspace | code/calibrate_trigger_delay.py:65 | n points, the first `lo` and, for n >= 2, the last `hi`. The even spacing is its definition. PhasesIncreasing states that the calibration phases increase. |
| PhaseCalibration.TracePhase | code/calibrate_trigger_delay.py:57-94 | A trace fails with ZeroChunks exactly when it has one trigger edge. |
| PhaseCalibration.TracePhaseIsCrossing | code/calibrate_trigger_delay.py:86-94 | The phase is that of a scanned crossing and no later than any other. It fails with NoCrossing exactly when no scanned pair crosses. |
| PhaseCalibration.TracePhaseIsEarliest | code/calibrate_trigger_delay.py:89-94 | The recorded phase is that of the smallest crossing index, the last one prepended. |
| PhaseCalibration.TracePhaseInRange | code/calibrate_trigger_delay.py:65-94 | A recorded phase lies in [0, 2*pi). |
| PhaseCalibration.NoEdgeNoPhase | code/calibrate_trigger_delay.py:57-94 | A trace without trigger edges has all-zero terms and no crossing, so `min` raises. |
| PhaseCalibration.CalibrateTrace | code/calibrate_trigger_delay.py:57-94 | The borders are the trigger list. The result is the trace's phase or error. `phase_zeros[trace]` is set on success and nothing else changes. |
| PhaseCalibration.RecordStep | code/calibrate_trigger_delay.py:94 | Storing trace n's phase keeps entries 0..n-1 and leaves the rest zero. |
| PhaseCalibration.CalibrateTraces | code/calibrate_trigger_delay.py:47-94 | phase_zeros starts at zero. After the loop each entry holds its trace's phase, or the first failing trace's error is returned. |
| PhaseCalibration.TracePhaseParts | code/calibrate_trigger_delay.py:64-94 | The collected terms and the scanned crossings make up the trace's phase. |
| CodeCalibrateTriggerDelay.Calibrate | code/calibrate_trigger_delay.py:47-94 | All nine phases are recorded, each in [0, 2*pi), or the first failing trace's error is returned. |
| CalibrateTriggerDelay.Calibrate | calibrate_trigger_delay.py:42-88 | The same loop with `enns`. All nine phases are recorded, each in [0, 2*pi), or the first failing trace's error is returned. |

## Left out

- Hardware acquisition (the daqhats MCC 118 scans), reading the traces, the JSON settings and the CSV/text logs are I/O. The traces are parameters.
- Plotting and animation (matplotlib, the Poincaré sphere, `txt_err` with its rounded mean, the DOP label, the bar plots) are display only.
- The `print` calls in the calibration scripts and the printed texts in swptools.py are output only. They appear as flags or lists (`s0Error`, `alignmentWarning`, `clipWarnings`).
- Floating point: everything is exact reals. Rounding is not modelled. The phases use the double value of 2*pi (6.283185307179586) as an exact real, so `linspace` is computed without rounding. A numpy result that would be inf or nan becomes `None`.
- FrameWarnings.Warnings: a frame whose vector is not finite has no DOP in the model, so no Unphysical DOP entry fires. numpy differs when the summed S0 is zero while S1..S3 are not: `S /= S[0]` gives infinite components, DOP is inf, and `DOP-1 > .03` appends 'Unphysical DOP (inf)'. A nan DOP draws no entry, as modelled.
- Animation.FrameOf: for the same reason its dop is None and its warnings lack the Unphysical DOP entry that numpy's infinite DOP would add.
- `np.trapz` of `cos`/`sin` products (swptools.py:14-20, the inner calibration loop) is passed in as `harm` or `integral`. Retardance cos/sin are inputs. `arctan2`, `arcsin`, `tan`, `cos`, `sin` and `sqrt` in the ellipse are the `Numerics` record.
- The noise and digitizing of `simulate_polarization_data` (swptools.py:139-143) are random or float rounding. Only its coefficients (swptools.py:134-137) are modelled.
- The `TEST` parameter of `extract_triggers` is unused. `extract_chunks`, which the polvis scripts call, is not defined in swptools.py. It is modelled as `extract_triggers` with its defaults.
- `bg_level`, `wp_phi` and `trigger_phase` are parameters. `round(DOP, 3)` in the Unphysical DOP entry is the formatter `fmt`.
- FrameAverage.Dop: the DOP is the given square root of S1^2+S2^2+S3^2. Its non-negativity is a precondition of the lemmas that use it, not derived.
- FrameWarnings.Message: its contract states only a length bound. The exact texts appear in its body and in `Render`.
- Ellipse.GetPolarizationEllipse: only `scale_by_dop=True` is modelled, because False leaves S1..S3 unbound. S[0] != 0 and a non-zero DOP are required because numpy would produce inf/nan there. The index printed in the clip warning is not modelled, only the value.
- The mean, standard deviation and standard error of `phase_zeros` after the calibration loop are float statistics.
- PhaseCalibration.CalibrateTraces: the nine traces are given as inputs rather than read from the scope.
