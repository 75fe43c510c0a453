/**
 * What can become of one effect on the outside world. A program decides what to do next from the
 * outcome it sees; a power cut or a killed process shows it no outcome at all.
 */
module Faults {

  /** How far the effect had come: not begun, partly done, or complete. */
  datatype Point = Before | Midway | After

  datatype Fate = Done | Throw(at: Point) | Crash(at: Point)

  /** The fate of the next effect; a list that has run out means no more faults. */
  function First(fates: seq<Fate>): Fate {
    if fates == [] then Done else fates[0]
  }

  function Rest(fates: seq<Fate>): seq<Fate> {
    if fates == [] then [] else fates[1..]
  }
}
