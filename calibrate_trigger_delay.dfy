/** The trigger-delay calibration of calibrate_trigger_delay.py: nine
    traces, each reduced to the phase of its earliest enns zero
    crossing. */
module CalibrateTriggerDelay {
  import opened Wrappers
  import opened PhaseCalibration

  /** The script's loop over the traces. Every phase it records lies in
      [0, 2pi). The same loop is in code/calibrate_trigger_delay.py (module CodeCalibrateTriggerDelay); both share PhaseCalibration. */
  method Calibrate(inputs: seq<seq<real>>, triggers: seq<seq<real>>, integral: (seq<real>, real) -> real)
    returns (borders: seq<seq<nat>>, phaseZeros: array<real>, r: Result<(), CalibrationError>)
    requires |inputs| == NumTraces && |triggers| == NumTraces
    ensures fresh(phaseZeros) && phaseZeros.Length == NumTraces
    ensures 0 < |borders| <= NumTraces
    ensures EdgesOf(triggers, borders)
    ensures r.Success? ==> |borders| == NumTraces && Recorded(inputs, borders, integral, phaseZeros[..], NumTraces)
    ensures r.Success? ==> forall i :: 0 <= i < NumTraces ==> 0.0 <= phaseZeros[i] < TwoPi
    ensures r.Failure? ==> && Recorded(inputs, borders, integral, phaseZeros[..], |borders| - 1)
                           && TracePhase(inputs[|borders| - 1], borders[|borders| - 1], integral) == Failure(r.error)
  {
    borders, phaseZeros, r := CalibrateTraces(inputs, triggers, integral);
    if r.Success? {
      forall i | 0 <= i < NumTraces ensures 0.0 <= phaseZeros[i] < TwoPi {
        TracePhaseInRange(inputs[i], borders[i], integral);
      }
    }
  }
}
