/** animate_fun of polvis.py: the shared frame computation without the
    voltage test. */
module Polvis {
  import opened Wrappers
  import opened Triggers
  import opened StokesInversion
  import opened FrameWarnings
  import opened Animation

  /** One frame. It never raises and never shows a voltage entry. */
  method AnimateFun(input: seq<real>, trigger: seq<real>, bg: real, harm: seq<real> -> Harmonics,
                    w: Retarder, root: real -> real, fmt: real -> string)
    returns (borders: seq<nat>, r: Result<Frame, FrameError>)
    ensures IsTriggerList(trigger, DefaultThreshold, DefaultSchmidt, borders)
    ensures r == FrameOf(input, borders, bg, harm, w, root, fmt, false)
    ensures r.Success? && VoltageOutOfRange !in r.value.warnings
  {
    borders, r := AnimateFrame(input, trigger, bg, harm, w, root, fmt, false);
  }
}
