/** animate_fun of code/polvis.py: the shared frame computation, with the
    voltage test switched on when the scope is read live (run_offline false). */
module CodePolvis {
  import opened Wrappers
  import opened Triggers
  import opened StokesInversion
  import opened FrameWarnings
  import opened Animation

  /** One frame. Offline, no voltage entry is ever shown and nothing raises;
      live, an empty input trace makes max() raise. */
  method AnimateFun(input: seq<real>, trigger: seq<real>, bg: real, harm: seq<real> -> Harmonics,
                    w: Retarder, root: real -> real, fmt: real -> string, runOffline: bool)
    returns (borders: seq<nat>, r: Result<Frame, FrameError>)
    ensures IsTriggerList(trigger, DefaultThreshold, DefaultSchmidt, borders)
    ensures r == FrameOf(input, borders, bg, harm, w, root, fmt, !runOffline)
    ensures r.Failure? <==> !runOffline && |input| == 0
    ensures runOffline ==> r.Success? && VoltageOutOfRange !in r.value.warnings
  {
    borders, r := AnimateFrame(input, trigger, bg, harm, w, root, fmt, !runOffline);
  }
}
