# roboant servo gait, modelled in Dafny

The roboant firmware drives a three-servo walking ant from an Arduino. Three
output pins carry the servo signals: d2 for servo0 (front legs), d3 for
servo1 (middle leg) and d4 for servo2 (back legs). `set_servo_position`
sends one 20 ms frame: the pin is high for the pulse width, then low for the
rest of the frame. The four motion primitives are `run_forward`,
`run_backward`, `turn_right` and `turn_left`. For each step, each primitive
runs four 10-iteration phases:

1. lift: servo1 alone;
2. swing: servo0 and servo2 in turn, both at one extreme;
3. lower: servo1 alone, at an extreme or at the midpoint `(MIN + MAX) / 2`;
4. push: servo0 and servo2 at the opposite extreme.

The endless main loop runs forward, left, right and backward in that order,
5 steps each, with a 3000 ms pause after each one.

The model is split into four modules:

- `Calibration` (`calibration.dfy`): the `u32` pulse constants, the three
  channels, their extremes and the midpoint.
- `Signals` (`signals.dfy`): the hardware actions as an event trace
  (`SetHigh`, `SetLow`, `DelayUs`, `DelayMs`). It also holds the four events
  of one pulse frame (`Frame`, `Expand`) and their meaning: time taken
  (`Duration`), pin levels (`Level`), high time (`HighUs`) and rising edges
  (`Rises`). A decoder (`Decode`) reads a trace back as frames.
- `Gait` (`gait.dfy`): the frames each primitive emits, as pure sequences
  (`StepPulses`, `MotionPulses`), and the lemmas that state what the gait
  promises about them.
- `Robot` (`robot.dfy`): class `Ant`. It holds the three pin levels, the
  trace of actions issued so far and a virtual microsecond clock. Its methods
  update that state in place with the same nested loops as the firmware. Each
  method is proved to append exactly the frames `Gait` specifies.

Each paired iteration calls `set_servo_position` twice (src/main.rs:51-54,
64-67), so a step is 60 frames, 20 per channel, and lasts 1.2 s.

## Model

| member | source | states |
|---|---|---|
| Calibration.MaxPulse | src/main.rs:11-18 | each channel's maximum is above its minimum and below the 20000 µs frame |
| Calibration.MidPulse | src/main.rs:117 | the midpoint `(1300 + 1800) / 2` lies strictly between servo1's extremes and is their mean rounded down |
| Calibration.Swapped | src/main.rs:11-18 | exchanges a channel's minimum and maximum in both directions and leaves other widths alone |
| Calibration.SwappedTarget | src/main.rs:11-18 | swapping the width of one extreme gives the width of the opposite extreme |
| Signals.IdleUs | src/main.rs:37 | `20000 - width` in `u32`: with the width it makes exactly one frame, or wraps by 2^32 when the width is larger |
| Signals.Frame | src/main.rs:34-37 | the four actions of one `set_servo_position` call: set high, wait the width, set low, wait `20000 - width` |
| Signals.FrameTiming | src/main.rs:30-38 | a frame of width at most 20000 takes 20000 µs and keeps its pin high for exactly the width; the pin ends low, rises once, and other pins are untouched |
| Signals.FrameSteps | src/main.rs:34-37 | the four actions of a frame, one at a time: the clock advances by width plus idle time, with level, high time and rises for every channel |
| Signals.ExpandAppend | src/main.rs:30-38 | the events of consecutive frames are the concatenation of each frame's events |
| Signals.ExpandLength | src/main.rs:30-38 | every frame is four hardware actions |
| Signals.ExpandDuration | src/main.rs:30-38 | `n` frames that fit the frame length take `n * 20000` µs |
| Signals.ExpandLevel | src/main.rs:34-36 | after a run of frames, a channel that received a frame is low; otherwise it keeps its level |
| Signals.ExpandHighUs | src/main.rs:34-37 | from all-low, each channel is high for exactly the sum of its own widths |
| Signals.ExpandRises | src/main.rs:34 | each channel rises once per frame sent to it |
| Signals.Decode | src/main.rs:30-38 | whatever the decoder accepts expands back to the same trace |
| Signals.DecodeExpand | src/main.rs:30-38 | decoding the events of any frame sequence returns that sequence |
| Signals.DecodeIff | src/main.rs:30-38 | a trace decodes to `ps` if and only if it is the events of `ps` |
| Gait.LiftWidth | src/main.rs:45-47 | the servo1 width of each primitive's lift phase (lines 46, 77, 106, 132) |
| Gait.SwingExtreme | src/main.rs:51-54 | the extreme each primitive's swing phase sends the pair to (lines 52-53, 83-84, 111-112, 137-138); the push phase uses the opposite one (lines 65-66, 96-97, 122-123, 148-149) |
| Gait.LowerWidth | src/main.rs:58-60 | the servo1 width of each primitive's lowering phase (lines 59, 90, 117, 143) |
| Gait.PrimitiveTargets | src/main.rs:40-152 | each primitive's lift width, swing extreme and lowering width are the constants its Rust function passes |
| Gait.StepPulses | src/main.rs:42-67 | the 60 frames of one step of a primitive: its four phases with its own targets |
| Gait.MotionPulses | src/main.rs:41-68 | the frames of `steps` steps: the step's frames repeated `steps` times |
| Gait.ForwardStepFrames | src/main.rs:40-69 | one forward step in numbers: frames 0, 10, 11, 30, 40 and 59 are 1800 on servo1, 1100 on servo0 and servo2, 1300 on servo1, and 2100 on servo0 and servo2 |
| Gait.PhaseOrder | src/main.rs:41-67 | frame `i` of any run is frame `i % 60` of the four-phase step |
| Gait.StepPhases | src/main.rs:45-67 | step `q` is 10 servo1 lift frames, 10 (servo0, servo2) pairs at one extreme, 10 servo1 lowering frames, then 10 pairs at the opposite extreme |
| Gait.MotionCounts | src/main.rs:40-152 | `steps` steps are `60 * steps` frames, `20 * steps` per channel; zero steps emit nothing |
| Gait.MotionWidths | src/main.rs:40-152 | every width is within its own channel's calibrated range and below the frame; servo0 and servo2 only get extremes; only the turns send the midpoint, and only to servo1; `20000 - width` never wraps |
| Gait.StepMidpoints | src/main.rs:115-118 | one step of a turn sends the midpoint 10 times; forward and backward steps never send it |
| Gait.MidpointCount | src/main.rs:102-152 | the turns send the midpoint exactly `10 * steps` times; forward and backward never send it |
| Gait.MotionTiming | src/main.rs:40-152 | `steps` steps take `steps * 60 * 20000` µs and raise each pin `20 * steps` times |
| Gait.MotionHighUs | src/main.rs:40-152 | from all-low, servo1 is high for 10 lift and 10 lowering widths per step, and the pair for 10 frames at each extreme per step |
| Gait.BackwardMirrorsForward | src/main.rs:40-100 | `run_backward` is `run_forward` with servo0 and servo2 swapped between MIN and MAX; their servo1 frames are identical |
| Gait.TurnLeftMirrorsTurnRight | src/main.rs:102-152 | `turn_left` is `turn_right` with MIN and MAX swapped on every channel; the midpoint frames coincide |
| Gait.TurnRightMatchesForward | src/main.rs:40-126 | `turn_right` is `run_forward` except in the lowering phase, which sends the midpoint instead of servo1's minimum |
| Robot.Routine | src/main.rs:155-162 | the events of one loop body: each primitive's frames followed by its pause, forward, left, right, backward |
| Robot.CycleTrace | src/main.rs:154-163 | the loop body with the firmware's 5 steps and 3000 ms pauses |
| Robot.Ant.constructor | src/main.rs:25-27 | the three pins start as low outputs; nothing has been issued and no time has passed |
| Robot.Ant.DriveHigh | src/main.rs:34 | appends `SetHigh`, raises only that pin, and leaves the clock alone |
| Robot.Ant.DriveLow | src/main.rs:36 | appends `SetLow`, lowers only that pin, and leaves the clock alone |
| Robot.Ant.WaitUs | src/main.rs:35-37 | appends the delay and advances the clock by it; pins unchanged |
| Robot.Ant.WaitMs | src/main.rs:156 | appends the pause and advances the clock by 1000 µs per ms; pins unchanged |
| Robot.Ant.SetServoPosition | src/main.rs:30-38 | appends exactly one frame; the driven pin ends low and the others keep their level; the clock advances by the width plus the wrapped idle time, which is 20000 µs for widths within the frame |
| Robot.Ant.HoldPhase | src/main.rs:45-47 | the servo1 phase loop appends the frames of 10 servo1 pulses at one width |
| Robot.Ant.SweepPhase | src/main.rs:51-54 | the paired phase loop appends 10 (servo0, servo2) pairs at one extreme |
| Robot.Ant.Step | src/main.rs:42-67 | one step appends exactly the primitive's four-phase step, `StepPulses(m)` |
| Robot.Ant.Walk | src/main.rs:41-68 | `steps` steps append exactly `MotionPulses(m, steps)` and advance the clock by `steps * 1.2` s; the pins end low unless `steps` is 0 |
| Robot.Ant.RunForward | src/main.rs:40-69 | `run_forward(steps)` appends exactly the forward frames; clock and pins as for `Walk` |
| Robot.Ant.RunBackward | src/main.rs:71-100 | `run_backward(steps)` appends exactly the backward frames; clock and pins as for `Walk` |
| Robot.Ant.TurnRight | src/main.rs:102-126 | `turn_right(steps)` appends exactly the right-turn frames; clock and pins as for `Walk` |
| Robot.Ant.TurnLeft | src/main.rs:128-152 | `turn_left(steps)` appends exactly the left-turn frames; clock and pins as for `Walk` |
| Robot.Ant.RunRoutine | src/main.rs:155-162 | the loop body with its step count and pause as parameters appends forward, pause, left, pause, right, pause, backward, pause, in that order |
| Robot.Ant.CycleOnce | src/main.rs:154-163 | one iteration of the main loop appends `CycleTrace()`, takes 36 s and leaves every pin low |
| Robot.Ant.RunCycles | src/main.rs:154-163 | `k` iterations append `k` copies of the same trace and take `k * 36` s; the primitives carry no state between iterations |
| Robot.PauseSignals | src/main.rs:156 | a pause takes its length, changes no pin and raises none |
| Robot.LegSignals | src/main.rs:155-156 | a primitive followed by its pause ends with every pin low; the pause adds time but no rises or high time |
| Robot.RoutineDuration | src/main.rs:155-162 | one routine takes four primitive runs plus four pauses |
| Robot.RoutinePins | src/main.rs:155-162 | a routine ends with every pin low and raises each pin 20 times per step of each primitive |
| Robot.RoutineHighUs | src/main.rs:155-162 | a routine's high time per channel is the sum of the four primitives' pulse widths; no pin is high during a pause |
| Robot.CycleSignals | src/main.rs:154-163 | one iteration of the loop takes 36 s; each pin rises 400 times; servo1 is high 620 ms and servo0 and servo2 640 ms each |
| Robot.CycleNumbers | src/main.rs:154-163 | the loop's 5 steps and 3000 ms pauses with the calibration constants of lines 11-18 give 36 s per iteration and 620 ms / 640 ms of pulses |

## Left out

- Peripheral set-up is not modelled: `Peripherals::take().unwrap()`, `pins!` and `into_output`. The constructor starts from three low pins.
- The unused serial port is not modelled.
- Real timing, the physical servo response and `panic_halt` are not modelled. Delays are trace events and additions to a virtual clock.
- The `Result` values of `set_high` and `set_low`, which the firmware ignores, are not modelled; pin operations cannot fail.
- The non-terminating main loop is modelled as one iteration (`CycleOnce`) and as `k` iterations (`RunCycles`), not as divergence.
- In a debug build, `20000 - pulse_width` would panic on underflow instead of wrapping. The model wraps as a release build does. `Gait.MotionWidths` shows that no width the firmware sends ever reaches that case.
- Robot.Ant.SetServoPosition: its contract does not state the frame's high time. That is stated over the appended frame by `Signals.FrameTiming`, and over whole runs by `Gait.MotionHighUs` and `Robot.RoutineHighUs`.
- The four gait functions share one loop nest (`Walk`, `Step`, `HoldPhase`, `SweepPhase`). Each passes its own constants, which `Walk`'s precondition checks against the primitive's targets. The model does not repeat the nest four times.
- `steps` is a `u32` in the firmware. The loops count up to it, so no arithmetic on it can overflow. The virtual clock is an unbounded `nat`.
- The calibration-loop variant of the firmware is not part of this model.
