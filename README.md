# HC-SR04 ultrasonic sensor driver — Dafny model

A model of the Arduino driver class `HCSR04` (HCSR04.h, HCSR04.cpp), with the
hardware calls replaced by their effect on an abstract state.

The driver has four parts:

- A run-state machine. `pause`, `run` and `stop` set the state unconditionally and
  return its code. `ping` measures only while Running.
- Three indicator zones (red, yellow, green). Each is a pair of 16-bit bounds.
  `signalOn`, which the constructor and `run` call, enables signalling only when all six
  bounds are defined and positive; the setters leave the flag as it was.
- Classification. The distance is cast to `short` and tested against the zones in
  red → yellow → green order. The test is inclusive and ignores which bound is larger.
  The first matching zone's output goes High and the other two go Low. With
  signalling off, all three go Low. When no zone matches, the outputs are left as they were.
- Measurement. `ping` returns `(duration / 2) * 0.3432` millimetres when Running.
  Otherwise it returns the run-state error sentinel −152. Either way it first
  hands the value to the classification.

Layout:

- `header.dfy`: modules `Wrappers` (an `Option` type) and `Header`. `Header` holds the
  header's constants, the `short`/`long` widths and the run states.
- `ranges.dfy`: module `Ranges`. It holds `IsInRange`, `DistancesSet`, the classification
  `Classify`, and `Drive`, the output levels `checkRange` leaves.
- `conversion.dfy`: module `Conversion`. It holds C's truncating `long` halving, the scale to
  millimetres and the float-to-`short` cast.
- `driver.dfy`: module `Driver`. The class `Sensor` keeps the C++ fields and updates them
  in place. `State`, `Op` and `Step` give the same object as a value, with one
  function per operation. Every public mutating method ensures `Model() == Step(old(Model()), op)`.
  The private `CheckRange` instead ensures that the three outputs become `Drive(...)`.
  Its frame is limited to those three fields.
- `traces.dfy`: module `Traces`. It holds properties of arbitrary sequences of operations,
  proved by induction.

Modelling choices:

- Each indicator output is modelled as the level last written to it: `Unwritten`, `Low` or `High`.
- The trigger pin is modelled as a count of the trigger sequences sent.
- The echo pulse width that `pulseIn` would measure is a parameter of `Ping`.
- `float` values are modelled as exact reals.

Two behaviours of the code worth noting:

- The constructor does not write the indicator outputs (HCSR04.cpp:56-95). It only
  configures the pins, so after construction every output is `Unwritten`.
- `checkRange` writes all three indicator outputs even when a pin is `HCSR04_NO_LED`
  (HCSR04.cpp:232-259). The model records the commanded level regardless of assignment.

## Model

| member | source | states |
|---|---|---|
| Header.Code | HCSR04.h:50-55 | each run state's code lies in 0..5, and only Running has the Running code |
| Header.CodesDistinct | HCSR04.h:50-55 | distinct run states have distinct codes |
| Header.ErrorCodesDistinct | HCSR04.h:70-75 | the run-state error is −152: negative, and distinct from OK, NULLP and DISTANCES |
| Ranges.IsInRange | HCSR04.cpp:192-212 | true exactly when the distance lies between min(from,to) and max(from,to), inclusive |
| Ranges.IsInRangeSymmetric | HCSR04.cpp:192-212 | swapping the bounds never changes the answer, and both bounds are always in range |
| Ranges.DistancesSet | HCSR04.cpp:165-180 | true exactly when all six bounds are positive; "defined" adds nothing because the undefined sentinel is negative |
| Ranges.OneBadBoundUnsets | HCSR04.cpp:165-180 | any single undefined or non-positive bound makes the configuration unset |
| Ranges.DefaultZonesSet | HCSR04.h:58-63 | the header's default bounds satisfy DistancesSet |
| Ranges.Classify | HCSR04.cpp:226-253 | the chosen zone contains the distance and no higher-priority zone does; no zone is chosen exactly when none contains it |
| Ranges.NegativeOutsideConfiguredZones | HCSR04.cpp:226-253 | a non-positive distance, such as the −152 sentinel, falls in no zone of a fully configured set |
| Ranges.DefaultSharedEndpoints | HCSR04.h:58-63 | under the defaults 30 is red and 50 is yellow; 25, 40 and 200 go to red, yellow and green; 0 and 1000 match nothing |
| Ranges.InvertedBoundsMatch | HCSR04.cpp:203-209 | an inverted zone (50, 10) still contains 30 |
| Ranges.Drive | HCSR04.cpp:224-261 | signalling off: every output Low; a zone matches: exactly that output High and the others Low; no match: outputs unchanged; never lights two outputs from a state with at most one lit |
| Conversion.HalfDuration | HCSR04.cpp:291 | C's `duration/2` truncates toward zero: twice the quotient is within one step of the duration, on the side of zero |
| Conversion.EchoToDistance | HCSR04.cpp:291 | an echo of 0 or 1 µs gives 0 mm; a non-negative echo gives a distance between 0 and duration·0.1716; a negative one gives at most 0 |
| Conversion.EchoToDistanceMonotone | HCSR04.cpp:291 | a longer echo never gives a shorter distance |
| Conversion.Trunc | HCSR04.cpp:228 | the integer part toward zero: within 1 of the value, and never further from zero than the value |
| Conversion.WrapShort | HCSR04.cpp:228 | the identity on the short range, and congruent to the input modulo 2^16 |
| Conversion.ToShort | HCSR04.cpp:228 | for a value the short range can hold, the cast is truncation toward zero |
| Conversion.ToShortIntegral | HCSR04.cpp:295-298 | an integral short value such as the sentinel survives the cast unchanged |
| Driver.LifecycleFromAnyState | HCSR04.cpp:107-153 | pause, stop and run reach Paused, Stopped and Running from any state, and repeating one changes nothing |
| Driver.SignalChangedOnlyBySignalOps | HCSR04.cpp:126-134 | only run, signalOn and signalOff change the signalling flag |
| Driver.SignalOffThenOn | HCSR04.cpp:373-392 | after signalOff the flag is false; a following signalOn makes it DistancesSet of the zones |
| Driver.SettersIsolated | HCSR04.cpp:313-361 | each setter stores exactly (from, to) in its own zone and changes nothing else |
| Driver.InitialSignals | HCSR04.cpp:85-93 | after construction the state is Created, the zones are the defaults and signalling is on |
| Driver.NotRunningPingHoldsOutputs | HCSR04.cpp:278-298 | when not Running, with signalling on and all six bounds configured, ping yields −152 and leaves the whole state unchanged: no trigger, outputs held |
| Driver.RunningPingNotSentinel | HCSR04.cpp:278-292 | when Running with a non-negative echo, ping yields a non-negative distance, never the sentinel |
| Driver.Sensor.constructor | HCSR04.cpp:56-95 | stores the pins (the three indicator pins default to NO_LED, as HCSR04.h:81-82 declares), leaves outputs unwritten, installs the default zones, signalling on, state Created |
| Driver.Sensor.Pause | HCSR04.cpp:107-114 | sets Paused, returns 3, changes nothing else |
| Driver.Sensor.Run | HCSR04.cpp:126-134 | re-evaluates signalling as DistancesSet, sets Running, returns 2, changes nothing else |
| Driver.Sensor.Stop | HCSR04.cpp:146-153 | sets Stopped, returns 4, changes nothing else |
| Driver.Sensor.CheckRange | HCSR04.cpp:224-261 | the outputs become Drive of the flag, the value cast to short, the zones and the previous outputs |
| Driver.Sensor.Ping | HCSR04.cpp:273-301 | returns the scaled echo when Running, else −152; sends a trigger only when Running; passes the returned value to the classification |
| Driver.Sensor.SetGreenRange | HCSR04.cpp:313-321 | stores (from, to) as the green zone, returns OK, changes nothing else |
| Driver.Sensor.SetYellowRange | HCSR04.cpp:333-341 | stores (from, to) as the yellow zone, returns OK, changes nothing else |
| Driver.Sensor.SetRedRange | HCSR04.cpp:353-361 | stores (from, to) as the red zone, returns OK, changes nothing else |
| Driver.Sensor.SignalOn | HCSR04.cpp:373-377 | the flag becomes DistancesSet of the current zones, so it cannot enable signalling over unset bounds |
| Driver.Sensor.SignalOff | HCSR04.cpp:389-392 | the flag becomes false; nothing else changes |
| Driver.Sensor.Signal | HCSR04.cpp:404-407 | returns the flag and changes nothing |
| Traces.TraceKeepsAssignableRunState | HCSR04.cpp:93-150 | from Created, Running, Paused or Stopped, every sequence of operations stays among those four |
| Traces.NeverUnknownOrEnded | HCSR04.h:50-55 | no sequence of operations after construction reaches Unknown or Ended |
| Traces.TraceKeepsAtMostOneLit | HCSR04.cpp:230-259 | every sequence of operations keeps at most one indicator output High |
| Traces.NeverTwoLit | HCSR04.cpp:224-261 | after construction and any operations, at most one indicator output is High |
| Traces.NoTriggerWithoutRun | HCSR04.cpp:278-296 | a driver that is not Running sends no trigger and does not become Running until run is called |
| Traces.SignalOnlyWhenConfigured | HCSR04.cpp:373-377 | starting from a state where signalling on implies fully configured zones, and while no setter is called, that implication keeps holding and the zones do not change |
| Traces.SetterLeavesSignalStale | HCSR04.cpp:353-361 | a setter does not re-evaluate signalling: undefining a red bound leaves signalling on until the next run, which turns it off |
| Traces.RunRestoresSignalInvariant | HCSR04.cpp:126-134 | after run, the flag equals DistancesSet of the zones |
| Traces.PausedPingReturnsSentinel | HCSR04.cpp:273-301 | construct, run, pause: the state is Paused, and a ping returns −152 and changes nothing |
| Driver.PausedPingScenario | HCSR04.cpp:56-153 | on the class: construct with default indicator pins, run, pause; a ping then returns −152 and the trigger count is still 0 |

## Left out

- Pin configuration (`pinMode`), `delayMicroseconds` and the timing of the trigger sequence (HCSR04.cpp:62-82, 280-285). These are hardware calls. A trigger sequence is modelled as one increment of `triggers`.
- `pulseIn` (HCSR04.cpp:286) is hardware. Its result is the `duration` parameter of `Ping`, and its timeout is not modelled.
- What the hardware does when the driver writes to an unassigned pin (−1) is platform-defined. The model records the commanded level whatever the pin number.
- Indicator outputs are tracked per role (red, yellow, green), not per pin number. Aliased pins are not modelled. If two indicator pins share a number, the later of `checkRange`'s writes decides that pin's level (HCSR04.cpp:232-259), but the model keeps a separate level for each role.
- The pin numbers are stored but play no further part. The platform's `int` width for pins and run-state codes is not modelled, since every value used fits in 16 bits.
- Conversion.EchoToDistance: uses exact real arithmetic for `(duration/2) * 0.3432`. It does not model single-precision rounding of the conversion or the product.
- Conversion.ToShort: a cast of a float outside the `short` range is undefined behaviour in C++. The model wraps to 16 bits. Echoes of an HC-SR04 (at most about 38 ms) give distances well inside the range.
- `HCSR04_ERR_NULLP` and `HCSR04_ERR_DISTANCES` are defined but never returned (HCSR04.h:73, 75). They appear only in Header.ErrorCodesDistinct.
- The commented-out alternative formulas (HCSR04.cpp:288-289) and the `extern "C"` wrapper (HCSR04.h:45-47, 122-124) have no behaviour to model.
