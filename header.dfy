/** A small Option type for results that may be absent (a distance that falls in no zone). */
module Wrappers {
  datatype Option<+T> = None | Some(value: T)
}

/**
 * The constants, integer widths and run states declared by the driver's header
 * (HCSR04.h). On the AVR boards the driver targets, `short` is 16 bits and
 * `long` is 32 bits; both are modelled as bounded subsets of `int`.
 */
module Header {

  /** C `short`: a 16-bit signed integer. Zone bounds and classified distances have this type. */
  type Short = x: int | -0x8000 <= x < 0x8000

  /** C `long`: a 32-bit signed integer. The echo duration has this type. */
  type Long = x: int | -0x8000_0000 <= x < 0x8000_0000

  // Run-state codes
  const RUNSTATE_UNKNOWN: int := 0
  const RUNSTATE_CREATED: int := 1
  const RUNSTATE_RUNNING: int := 2
  const RUNSTATE_PAUSED: int := 3
  const RUNSTATE_STOPPED: int := 4
  const RUNSTATE_ENDED: int := 5

  // Zone bounds: "undefined" sentinel and the preset three-band default (millimetres)
  const DISTANCE_UNDEF: Short := -1
  const DISTANCE_RED_FROM: Short := 1
  const DISTANCE_RED_TO: Short := 30
  const DISTANCE_YELLOW_FROM: Short := 30
  const DISTANCE_YELLOW_TO: Short := 50
  const DISTANCE_GREEN_FROM: Short := 50
  const DISTANCE_GREEN_TO: Short := 200

  /** Pin number meaning "no pin assigned". */
  const NO_LED: int := -1

  // Status and error codes
  const ERR_OK: int := 0
  const ERR_BASE: int := -150
  const ERR_NULLP: int := ERR_BASE - 1
  const ERR_RUNSTATE: int := ERR_BASE - 2
  const ERR_DISTANCES: int := ERR_BASE - 3

  /** The driver's operating mode; `Code` gives the integer the driver stores and returns. */
  datatype RunState = Unknown | Created | Running | Paused | Stopped | Ended

  function Code(s: RunState): (c: int)
    ensures RUNSTATE_UNKNOWN <= c <= RUNSTATE_ENDED
    ensures c == RUNSTATE_RUNNING <==> s == Running
  {
    match s
    case Unknown => RUNSTATE_UNKNOWN
    case Created => RUNSTATE_CREATED
    case Running => RUNSTATE_RUNNING
    case Paused => RUNSTATE_PAUSED
    case Stopped => RUNSTATE_STOPPED
    case Ended => RUNSTATE_ENDED
  }

  /** Distinct run states have distinct codes. */
  lemma CodesDistinct(s: RunState, t: RunState)
    ensures Code(s) == Code(t) ==> s == t
  {
  }

  /** The run-state error is negative and differs from every other status code. */
  lemma ErrorCodesDistinct()
    ensures ERR_RUNSTATE == -152 && ERR_RUNSTATE < 0
    ensures ERR_RUNSTATE != ERR_OK && ERR_RUNSTATE != ERR_NULLP && ERR_RUNSTATE != ERR_DISTANCES
    ensures ERR_NULLP != ERR_OK && ERR_DISTANCES != ERR_OK && ERR_NULLP != ERR_DISTANCES
  {
  }
}
