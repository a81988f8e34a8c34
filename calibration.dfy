/** Compile-time calibration of the three servo channels of the walking ant. */
module Calibration {

  /** Rust's `u32`: every width and delay in the firmware has this type. */
  const U32_LIMIT: int := 0x1_0000_0000
  type U32 = x: int | 0 <= x < U32_LIMIT

  /** Length of one pulse frame in microseconds (the 50 Hz servo refresh period). */
  const FRAME_US: U32 := 20000

  const SERVO0_MIN_PULSE: U32 := 1100
  const SERVO0_MAX_PULSE: U32 := 2100

  const SERVO1_MIN_PULSE: U32 := 1300
  const SERVO1_MAX_PULSE: U32 := 1800

  const SERVO2_MIN_PULSE: U32 := 1100
  const SERVO2_MAX_PULSE: U32 := 2100

  /** The middle-leg target the turns use to lower the body: `(MIN + MAX) / 2` in `u32`. */
  const SERVO1_MID_PULSE: U32 := (SERVO1_MIN_PULSE + SERVO1_MAX_PULSE) / 2

  /** servo0 drives the front legs (pin d2), servo1 the middle leg (d3), servo2 the back legs (d4). */
  datatype Channel = Servo0 | Servo1 | Servo2

  /** One of the two calibrated ends of a channel's travel. */
  datatype Extreme = Min | Max

  function Opposite(e: Extreme): (o: Extreme)
    ensures o != e
  {
    match e
    case Min => Max
    case Max => Min
  }

  function MinPulse(ch: Channel): (w: U32)
    ensures 0 < w
  {
    match ch
    case Servo0 => SERVO0_MIN_PULSE
    case Servo1 => SERVO1_MIN_PULSE
    case Servo2 => SERVO2_MIN_PULSE
  }

  /** Every channel's travel is a proper interval strictly inside one frame. */
  function MaxPulse(ch: Channel): (w: U32)
    ensures MinPulse(ch) < w < FRAME_US
  {
    match ch
    case Servo0 => SERVO0_MAX_PULSE
    case Servo1 => SERVO1_MAX_PULSE
    case Servo2 => SERVO2_MAX_PULSE
  }

  /** The width that sends channel `ch` to extreme `e`. */
  function Target(ch: Channel, e: Extreme): U32
  {
    if e == Min then MinPulse(ch) else MaxPulse(ch)
  }

  /** The midpoint is strictly between servo1's extremes, so it is neither of them. */
  function MidPulse(): (w: U32)
    ensures MinPulse(Servo1) < w < MaxPulse(Servo1)
    ensures 2 * w <= MinPulse(Servo1) + MaxPulse(Servo1) < 2 * w + 2
  {
    SERVO1_MID_PULSE
  }

  /** Exchanges a channel's two extremes and leaves every other width alone. */
  function Swapped(ch: Channel, w: U32): (s: U32)
    ensures w == MinPulse(ch) <==> s == MaxPulse(ch)
    ensures w == MaxPulse(ch) <==> s == MinPulse(ch)
    ensures w != MinPulse(ch) && w != MaxPulse(ch) ==> s == w
  {
    if w == MinPulse(ch) then MaxPulse(ch)
    else if w == MaxPulse(ch) then MinPulse(ch)
    else w
  }

  lemma SwappedTarget(ch: Channel, e: Extreme)
    ensures Swapped(ch, Target(ch, e)) == Target(ch, Opposite(e))
  {
  }
}
