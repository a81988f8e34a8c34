/**
 * The firmware as the servo code drives it: three output pins, the trace of
 * hardware actions issued so far and a virtual microsecond clock, updated in
 * place by the pulse driver, the four motion primitives and the main loop.
 */
module Robot {
  import opened Calibration
  import opened Signals
  import opened Gait

  /** Steps each primitive takes in one iteration of the main loop. */
  const CYCLE_STEPS: U32 := 5

  /** The pause after each primitive in the main loop, in milliseconds. */
  const PAUSE_MS: U32 := 3000

  /** Microseconds one iteration of the main loop takes: four runs of 5 steps and four pauses. */
  const CYCLE_US: nat := 4 * (CYCLE_STEPS * STEP_FRAMES * FRAME_US + 1000 * PAUSE_MS)

  /** The events of primitive `m` run for `steps` steps, followed by a pause of `pauseMs`. */
  function Leg(m: Motion, steps: nat, pauseMs: U32): seq<Event>
  {
    Expand(MotionPulses(m, steps)) + [DelayMs(pauseMs)]
  }

  /**
   * The events of one iteration of the main loop with `steps` steps per
   * primitive and `pauseMs` between primitives: forward, left, right, back.
   */
  function Routine(steps: nat, pauseMs: U32): seq<Event>
  {
    Leg(Forward, steps, pauseMs) + Leg(LeftTurn, steps, pauseMs)
    + Leg(RightTurn, steps, pauseMs) + Leg(Backward, steps, pauseMs)
  }

  /** The events of one iteration of the firmware's main loop. */
  function CycleTrace(): seq<Event>
  {
    Routine(CYCLE_STEPS, PAUSE_MS)
  }

  /** Effect on the clock and the pins of appending a primitive's frames to a trace. */
  lemma AppendMotion(t: seq<Event>, m: Motion, steps: nat, ch: Channel)
    ensures Duration(t + Expand(MotionPulses(m, steps))) == Duration(t) + steps * STEP_FRAMES * FRAME_US
    ensures Level(t + Expand(MotionPulses(m, steps)), ch, false) == (Level(t, ch, false) && steps == 0)
  {
    DurationAppend(t, Expand(MotionPulses(m, steps)));
    MotionTiming(m, steps);
    LevelAppend(t, Expand(MotionPulses(m, steps)), ch, false);
    ExpandLevel(MotionPulses(m, steps), ch, Level(t, ch, false));
    MotionCounts(m, steps);
  }

  /** The frames of a step are those of its four phases, in order. */
  lemma ExpandPhases(lift: U32, swing: Extreme, lower: U32, push: Extreme)
    ensures Expand(Phases(lift, swing, lower, push))
            == Expand(Hold(Servo1, lift)) + Expand(Sweep(swing)) + Expand(Hold(Servo1, lower)) + Expand(Sweep(push))
  {
    var h1, s1, h2, s2 := Hold(Servo1, lift), Sweep(swing), Hold(Servo1, lower), Sweep(push);
    ExpandAppend(h1, s1);
    ExpandAppend(h1 + s1, h2);
    ExpandAppend(h1 + s1 + h2, s2);
  }

  /** Sequence concatenation regrouped; kept as one small fact so each use stays cheap. */
  lemma Regroup<T>(a: seq<T>, b: seq<T>, c: seq<T>)
    ensures a + (b + c) == a + b + c
  {
  }

  /** The traces of a step's four phase loops, appended in order, are the expansion of its phases. */
  lemma StepTrace(t0: seq<Event>, t1: seq<Event>, t2: seq<Event>, t3: seq<Event>, t4: seq<Event>,
                  lift: U32, swing: Extreme, lower: U32, push: Extreme)
    requires t1 == t0 + Expand(Hold(Servo1, lift))
    requires t2 == t1 + Expand(Sweep(swing))
    requires t3 == t2 + Expand(Hold(Servo1, lower))
    requires t4 == t3 + Expand(Sweep(push))
    ensures t4 == t0 + Expand(Phases(lift, swing, lower, push))
  {
    var e1, e2, e3, e4 := Expand(Hold(Servo1, lift)), Expand(Sweep(swing)), Expand(Hold(Servo1, lower)), Expand(Sweep(push));
    ExpandPhases(lift, swing, lower, push);
    Regroup(t0, e1, e2);
    Regroup(t0, e1 + e2, e3);
    Regroup(t0, e1 + e2 + e3, e4);
  }

  /** A trace extended by one more step's frames is the expansion of one more step. */
  lemma StepMore(t: seq<Event>, m: Motion, s: nat, t0: seq<Event>, t4: seq<Event>)
    requires t0 == t + Expand(MotionPulses(m, s))
    requires t4 == t0 + Expand(StepPulses(m))
    ensures t4 == t + Expand(MotionPulses(m, s + 1))
  {
    ExpandAppend(MotionPulses(m, s), StepPulses(m));
    Regroup(t, Expand(MotionPulses(m, s)), Expand(StepPulses(m)));
  }

  /** A trace extended by one more frame is the expansion of one more pulse. */
  lemma FrameMore(t: seq<Event>, ps: seq<Pulse>, p: Pulse)
    ensures t + Expand(ps) + Frame(p) == t + Expand(ps + [p])
  {
    ExpandSnoc(ps, p);
    Regroup(t, Expand(ps), Frame(p));
  }

  /** One more pass of a paired phase's loop appends the frames of one more `Pair(e)`. */
  lemma PairMore(t: seq<Event>, e: Extreme, i: nat, t0: seq<Event>, t1: seq<Event>)
    requires t0 == t + Expand(Repeat(Pair(e), i))
    requires t1 == t0 + Frame(Pulse(Servo0, Target(Servo0, e))) + Frame(Pulse(Servo2, Target(Servo2, e)))
    ensures t1 == t + Expand(Repeat(Pair(e), i + 1))
  {
    var f0, f2 := Frame(Pulse(Servo0, Target(Servo0, e))), Frame(Pulse(Servo2, Target(Servo2, e)));
    assert Expand(Pair(e)) == f0 + f2 by {
      ExpandSnoc([Pulse(Servo0, Target(Servo0, e))], Pulse(Servo2, Target(Servo2, e)));
      ExpandOne(Pulse(Servo0, Target(Servo0, e)));
    }
    ExpandAppend(Repeat(Pair(e), i), Pair(e));
    Regroup(t0, f0, f2);
    Regroup(t, Expand(Repeat(Pair(e), i)), f0 + f2);
  }

  lemma RepeatMore(t: seq<Event>, c: seq<Event>, n: nat, t0: seq<Event>, t1: seq<Event>)
    requires t0 == t + Repeat(c, n)
    requires t1 == t0 + c
    ensures t1 == t + Repeat(c, n + 1)
  {
    Regroup(t, Repeat(c, n), c);
  }

  /** A trace that has run the legs `c` and then runs leg `m` has run `c + Leg(m, steps, pauseMs)`. */
  lemma LegAfter(t: seq<Event>, c: seq<Event>, m: Motion, steps: nat, pauseMs: U32,
                 t0: seq<Event>, t1: seq<Event>, t2: seq<Event>)
    requires t0 == t + c
    requires t1 == t0 + Expand(MotionPulses(m, steps))
    requires t2 == t1 + [DelayMs(pauseMs)]
    ensures t2 == t + (c + Leg(m, steps, pauseMs))
  {
    Regroup(t + c, Expand(MotionPulses(m, steps)), [DelayMs(pauseMs)]);
    Regroup(t, c, Leg(m, steps, pauseMs));
  }

  /** The traces of the main loop's eight calls, appended in order, make up its routine. */
  lemma RoutineChain(steps: nat, pauseMs: U32, t0: seq<Event>, t1: seq<Event>, t2: seq<Event>, t3: seq<Event>,
                     t4: seq<Event>, t5: seq<Event>, t6: seq<Event>, t7: seq<Event>, t8: seq<Event>)
    requires t1 == t0 + Expand(MotionPulses(Forward, steps))
    requires t2 == t1 + [DelayMs(pauseMs)]
    requires t3 == t2 + Expand(MotionPulses(LeftTurn, steps))
    requires t4 == t3 + [DelayMs(pauseMs)]
    requires t5 == t4 + Expand(MotionPulses(RightTurn, steps))
    requires t6 == t5 + [DelayMs(pauseMs)]
    requires t7 == t6 + Expand(MotionPulses(Backward, steps))
    requires t8 == t7 + [DelayMs(pauseMs)]
    ensures t8 == t0 + Routine(steps, pauseMs)
  {
    var f, l, r := Leg(Forward, steps, pauseMs), Leg(LeftTurn, steps, pauseMs), Leg(RightTurn, steps, pauseMs);
    Regroup(t0, Expand(MotionPulses(Forward, steps)), [DelayMs(pauseMs)]);
    LegAfter(t0, f, LeftTurn, steps, pauseMs, t2, t3, t4);
    LegAfter(t0, f + l, RightTurn, steps, pauseMs, t4, t5, t6);
    LegAfter(t0, f + l + r, Backward, steps, pauseMs, t6, t7, t8);
  }

  /** A pause lasts its length, leaves every pin where it was and raises none. */
  lemma PauseSignals(ms: U32, ch: Channel, init: bool)
    ensures Duration([DelayMs(ms)]) == 1000 * ms
    ensures Level([DelayMs(ms)], ch, init) == init
    ensures HighUs([DelayMs(ms)], ch, init) == if init then 1000 * ms else 0
    ensures Rises([DelayMs(ms)], ch) == 0
  {
    assert [DelayMs(ms)][..0] == [];
  }

  /**
   * A leg takes its frames plus its pause, leaves every pin low, and the
   * pause after the primitive adds no high time: every pin is low throughout it.
   */
  lemma LegSignals(m: Motion, steps: nat, pauseMs: U32, ch: Channel)
    ensures Duration(Leg(m, steps, pauseMs)) == Duration(Expand(MotionPulses(m, steps))) + 1000 * pauseMs
    ensures !Level(Leg(m, steps, pauseMs), ch, false)
    ensures Rises(Leg(m, steps, pauseMs), ch) == Rises(Expand(MotionPulses(m, steps)), ch)
    ensures HighUs(Leg(m, steps, pauseMs), ch, false) == HighUs(Expand(MotionPulses(m, steps)), ch, false)
  {
    var motion := Expand(MotionPulses(m, steps));
    var pause := [DelayMs(pauseMs)];
    DurationAppend(motion, pause);
    LevelAppend(motion, pause, ch, false);
    HighUsAppend(motion, pause, ch, false);
    RisesAppend(motion, pause, ch);
    ExpandLevel(MotionPulses(m, steps), ch, false);
    PauseSignals(pauseMs, ch, false);
  }

  /** Appending a trace `u` that starts and ends with `ch` low to one that ends with it low. */
  lemma AppendLow(t: seq<Event>, u: seq<Event>, ch: Channel)
    requires !Level(t, ch, false) && !Level(u, ch, false)
    ensures Duration(t + u) == Duration(t) + Duration(u)
    ensures !Level(t + u, ch, false)
    ensures Rises(t + u, ch) == Rises(t, ch) + Rises(u, ch)
    ensures HighUs(t + u, ch, false) == HighUs(t, ch, false) + HighUs(u, ch, false)
  {
    DurationAppend(t, u);
    LevelAppend(t, u, ch, false);
    HighUsAppend(t, u, ch, false);
    RisesAppend(t, u, ch);
  }

  /** A routine's clock, rises and high time are the sums of its four legs'. */
  lemma RoutineLegs(steps: nat, pauseMs: U32, ch: Channel)
    ensures var f, l, r, b := Leg(Forward, steps, pauseMs), Leg(LeftTurn, steps, pauseMs),
                              Leg(RightTurn, steps, pauseMs), Leg(Backward, steps, pauseMs);
      && Duration(Routine(steps, pauseMs)) == Duration(f) + Duration(l) + Duration(r) + Duration(b)
      && !Level(Routine(steps, pauseMs), ch, false)
      && Rises(Routine(steps, pauseMs), ch) == Rises(f, ch) + Rises(l, ch) + Rises(r, ch) + Rises(b, ch)
      && HighUs(Routine(steps, pauseMs), ch, false)
         == HighUs(f, ch, false) + HighUs(l, ch, false) + HighUs(r, ch, false) + HighUs(b, ch, false)
  {
    var f, l, r, b := Leg(Forward, steps, pauseMs), Leg(LeftTurn, steps, pauseMs),
                      Leg(RightTurn, steps, pauseMs), Leg(Backward, steps, pauseMs);
    LegSignals(Forward, steps, pauseMs, ch);
    LegSignals(LeftTurn, steps, pauseMs, ch);
    LegSignals(RightTurn, steps, pauseMs, ch);
    LegSignals(Backward, steps, pauseMs, ch);
    AppendLow(f, l, ch);
    AppendLow(f + l, r, ch);
    AppendLow(f + l + r, b, ch);
  }

  /** One routine takes four times a primitive's frames and one pause. */
  lemma RoutineDuration(steps: nat, pauseMs: U32)
    ensures Duration(Routine(steps, pauseMs)) == 4 * (steps * STEP_FRAMES * FRAME_US + 1000 * pauseMs)
  {
    RoutineLegs(steps, pauseMs, Servo0);
    LegSignals(Forward, steps, pauseMs, Servo0);
    LegSignals(LeftTurn, steps, pauseMs, Servo0);
    LegSignals(RightTurn, steps, pauseMs, Servo0);
    LegSignals(Backward, steps, pauseMs, Servo0);
    MotionTiming(Forward, steps);
    MotionTiming(LeftTurn, steps);
    MotionTiming(RightTurn, steps);
    MotionTiming(Backward, steps);
  }

  /** A routine ends with every pin low, and every channel rises once per frame it is driven in. */
  lemma RoutinePins(steps: nat, pauseMs: U32, ch: Channel)
    ensures !Level(Routine(steps, pauseMs), ch, false)
    ensures Rises(Routine(steps, pauseMs), ch) == 80 * steps
  {
    RoutineLegs(steps, pauseMs, ch);
    LegSignals(Forward, steps, pauseMs, ch);
    LegSignals(LeftTurn, steps, pauseMs, ch);
    LegSignals(RightTurn, steps, pauseMs, ch);
    LegSignals(Backward, steps, pauseMs, ch);
    MotionTiming(Forward, steps);
    MotionTiming(LeftTurn, steps);
    MotionTiming(RightTurn, steps);
    MotionTiming(Backward, steps);
  }

  /**
   * The high time of a routine: servo1 for the lift and lower widths of the
   * four primitives, the pair for one minimum and one maximum per step and
   * primitive. The pauses add nothing: every pin is low throughout them.
   */
  lemma RoutineHighUs(steps: nat, pauseMs: U32, ch: Channel)
    ensures HighUs(Routine(steps, pauseMs), ch, false) == steps * PHASE_REPEATS *
      (if ch == Servo1 then 3 * (MinPulse(Servo1) + MaxPulse(Servo1)) + 2 * MidPulse()
       else 4 * (MinPulse(ch) + MaxPulse(ch)))
  {
    RoutineLegs(steps, pauseMs, ch);
    LegSignals(Forward, steps, pauseMs, ch);
    LegSignals(LeftTurn, steps, pauseMs, ch);
    LegSignals(RightTurn, steps, pauseMs, ch);
    LegSignals(Backward, steps, pauseMs, ch);
    MotionPhaseWidth(Forward, steps, ch);
    MotionPhaseWidth(LeftTurn, steps, ch);
    MotionPhaseWidth(RightTurn, steps, ch);
    MotionPhaseWidth(Backward, steps, ch);
    PhaseWidthSum(ch);
    Distribute(steps, PHASE_REPEATS, PhaseWidth(Forward, ch), PhaseWidth(LeftTurn, ch),
               PhaseWidth(RightTurn, ch), PhaseWidth(Backward, ch),
               if ch == Servo1 then 3 * (MinPulse(Servo1) + MaxPulse(Servo1)) + 2 * MidPulse()
               else 4 * (MinPulse(ch) + MaxPulse(ch)));
  }

  /** The widths `ch` receives in one pass of each of the four phase loops of a step of `m`. */
  function PhaseWidth(m: Motion, ch: Channel): nat
  {
    if ch == Servo1 then LiftWidth(m) + LowerWidth(m) else MinPulse(ch) + MaxPulse(ch)
  }

  lemma MotionPhaseWidth(m: Motion, steps: nat, ch: Channel)
    ensures HighUs(Expand(MotionPulses(m, steps)), ch, false) == steps * (PHASE_REPEATS * PhaseWidth(m, ch))
  {
    MotionHighUs(m, steps, ch);
  }

  /** Over the four primitives servo1 is lifted and lowered to each extreme three times and to the midpoint twice. */
  lemma PhaseWidthSum(ch: Channel)
    ensures PhaseWidth(Forward, ch) + PhaseWidth(LeftTurn, ch) + PhaseWidth(RightTurn, ch) + PhaseWidth(Backward, ch)
      == if ch == Servo1 then 3 * (MinPulse(Servo1) + MaxPulse(Servo1)) + 2 * MidPulse() else 4 * (MinPulse(ch) + MaxPulse(ch))
  {
  }

  lemma Distribute(n: nat, k: nat, a: nat, b: nat, c: nat, d: nat, w: nat)
    requires a + b + c + d == w
    ensures n * (k * a) + n * (k * b) + n * (k * c) + n * (k * d) == n * k * w
  {
  }

  /**
   * One iteration of the firmware's main loop takes 36 s; servo1 is high for
   * 620 ms of it, servo0 and servo2 for 640 ms each, and each pin rises
   * 400 times, once per frame it is driven in.
   *
   * The step count and pause are parameters pinned to the loop's constants
   * rather than written as literals: stated over `CycleTrace()` directly, the
   * verifier would unfold the 1200 literal frames of the loop body.
   */
  lemma CycleSignals(steps: nat, pauseMs: U32, ch: Channel)
    requires steps == CYCLE_STEPS && pauseMs == PAUSE_MS
    ensures Duration(Routine(steps, pauseMs)) == CYCLE_US == 36_000_000
    ensures !Level(Routine(steps, pauseMs), ch, false)
    ensures Rises(Routine(steps, pauseMs), ch) == 400
    ensures HighUs(Routine(steps, pauseMs), ch, false) == if ch == Servo1 then 620_000 else 640_000
  {
    RoutineDuration(steps, pauseMs);
    RoutinePins(steps, pauseMs, ch);
    RoutineHighUs(steps, pauseMs, ch);
    CycleNumbers(ch);
  }

  /** The main loop's constants: 36 s per iteration, 620 ms of servo1 pulses and 640 ms of each other channel's. */
  lemma CycleNumbers(ch: Channel)
    ensures CYCLE_US == 36_000_000
    ensures CYCLE_STEPS * PHASE_REPEATS *
      (if ch == Servo1 then 3 * (MinPulse(Servo1) + MaxPulse(Servo1)) + 2 * MidPulse()
       else 4 * (MinPulse(ch) + MaxPulse(ch)))
      == if ch == Servo1 then 620_000 else 640_000
  {
    assert MidPulse() == 1550;
  }

  class Ant {
    /** Levels of the output pins d2, d3 and d4 (servo0, servo1, servo2); true is high. */
    var pin0: bool
    var pin1: bool
    var pin2: bool
    /** Every hardware action issued so far, oldest first. */
    var trace: seq<Event>
    /** Microseconds spent in delays so far. */
    var elapsedUs: nat

    function IsHigh(ch: Channel): bool
      reads this
    {
      match ch
      case Servo0 => pin0
      case Servo1 => pin1
      case Servo2 => pin2
    }

    /** The pins and the clock are what replaying the trace from all-low at time 0 gives. */
    ghost predicate Valid()
      reads this
    {
      && elapsedUs == Duration(trace)
      && pin0 == Level(trace, Servo0, false)
      && pin1 == Level(trace, Servo1, false)
      && pin2 == Level(trace, Servo2, false)
    }

    /** The three pins just configured as outputs: all low, nothing issued yet. */
    constructor ()
      ensures Valid()
      ensures trace == [] && elapsedUs == 0
      ensures forall ch :: !IsHigh(ch)
    {
      pin0, pin1, pin2 := false, false, false;
      trace := [];
      elapsedUs := 0;
    }

    /** The `set_high` capability of a pin. */
    method DriveHigh(ch: Channel)
      requires Valid()
      modifies this
      ensures Valid()
      ensures trace == old(trace) + [SetHigh(ch)] && elapsedUs == old(elapsedUs)
      ensures IsHigh(ch) && forall c :: c != ch ==> IsHigh(c) == old(IsHigh(c))
    {
      match ch {
        case Servo0 => pin0 := true;
        case Servo1 => pin1 := true;
        case Servo2 => pin2 := true;
      }
      trace := trace + [SetHigh(ch)];
      assert trace[..|trace| - 1] == old(trace);
    }

    /** The `set_low` capability of a pin. */
    method DriveLow(ch: Channel)
      requires Valid()
      modifies this
      ensures Valid()
      ensures trace == old(trace) + [SetLow(ch)] && elapsedUs == old(elapsedUs)
      ensures !IsHigh(ch) && forall c :: c != ch ==> IsHigh(c) == old(IsHigh(c))
    {
      match ch {
        case Servo0 => pin0 := false;
        case Servo1 => pin1 := false;
        case Servo2 => pin2 := false;
      }
      trace := trace + [SetLow(ch)];
      assert trace[..|trace| - 1] == old(trace);
    }

    /** `delay_us`: blocks for `us` microseconds, pins unchanged. */
    method WaitUs(us: U32)
      requires Valid()
      modifies this
      ensures Valid()
      ensures trace == old(trace) + [DelayUs(us)] && elapsedUs == old(elapsedUs) + us
      ensures forall c :: IsHigh(c) == old(IsHigh(c))
    {
      trace := trace + [DelayUs(us)];
      elapsedUs := elapsedUs + us;
      assert trace[..|trace| - 1] == old(trace);
    }

    /** `delay_ms`: blocks for `ms` milliseconds, pins unchanged. */
    method WaitMs(ms: U32)
      requires Valid()
      modifies this
      ensures Valid()
      ensures trace == old(trace) + [DelayMs(ms)] && elapsedUs == old(elapsedUs) + 1000 * ms
      ensures forall c :: IsHigh(c) == old(IsHigh(c))
    {
      trace := trace + [DelayMs(ms)];
      elapsedUs := elapsedUs + 1000 * ms;
      assert trace[..|trace| - 1] == old(trace);
    }

    /**
     * `set_servo_position`: one frame on `ch` (its high time is in
     * `FrameTiming`). The pin ends low and the others keep their level; the
     * clock advances by the width plus the `u32` difference `20000 - width`,
     * which is exactly 20000 µs for a width within the frame.
     */
    method SetServoPosition(ch: Channel, pulseWidth: U32)
      requires Valid()
      modifies this
      ensures Valid()
      ensures trace == old(trace) + Frame(Pulse(ch, pulseWidth))
      ensures !IsHigh(ch) && forall c :: c != ch ==> IsHigh(c) == old(IsHigh(c))
      ensures elapsedUs == old(elapsedUs) + pulseWidth + IdleUs(pulseWidth)
      ensures pulseWidth <= FRAME_US ==> elapsedUs == old(elapsedUs) + FRAME_US
    {
      DriveHigh(ch);
      WaitUs(pulseWidth);
      DriveLow(ch);
      WaitUs(IdleUs(pulseWidth));
      assert trace == old(trace) + Frame(Pulse(ch, pulseWidth));
    }

    /**
     * A servo1 phase of a gait function: its `for _ in 0..10` loop of
     * frames at width `w`.
     */
    method HoldPhase(w: U32)
      requires Valid()
      modifies this
      ensures Valid()
      ensures trace == old(trace) + Expand(Hold(Servo1, w))
    {
      ghost var done: seq<Pulse> := [];
      for i := 0 to PHASE_REPEATS
        invariant Valid() && trace == old(trace) + Expand(done)
        invariant done == Repeat([Pulse(Servo1, w)], i)
      {
        SetServoPosition(Servo1, w);
        FrameMore(old(trace), done, Pulse(Servo1, w));
        done := done + [Pulse(Servo1, w)];
      }
    }

    /**
     * A paired phase of a gait function: its `for _ in 0..10` loop that
     * sends servo0 and then servo2 to extreme `e`.
     */
    method SweepPhase(e: Extreme)
      requires Valid()
      modifies this
      ensures Valid()
      ensures trace == old(trace) + Expand(Sweep(e))
    {
      for i := 0 to PHASE_REPEATS
        invariant Valid() && trace == old(trace) + Expand(Repeat(Pair(e), i))
      {
        ghost var t0 := trace;
        SetServoPosition(Servo0, Target(Servo0, e));
        SetServoPosition(Servo2, Target(Servo2, e));
        PairMore(old(trace), e, i, t0, trace);
      }
    }

    /**
     * One step of gait `m`: its four phase loops in order, lifting servo1
     * to `lift`, swinging the pair to `swing`, lowering servo1 to `lower`
     * and pushing the pair to `push`, the targets `m`'s code writes.
     */
    method Step(lift: U32, swing: Extreme, lower: U32, push: Extreme, ghost m: Motion)
      requires Valid()
      requires lift == LiftWidth(m) && swing == SwingExtreme(m)
      requires lower == LowerWidth(m) && push == Opposite(swing)
      modifies this
      ensures Valid()
      ensures trace == old(trace) + Expand(StepPulses(m))
    {
      ghost var t0 := trace;
      HoldPhase(lift);
      ghost var t1 := trace;
      SweepPhase(swing);
      ghost var t2 := trace;
      HoldPhase(lower);
      ghost var t3 := trace;
      SweepPhase(push);
      StepTrace(t0, t1, t2, t3, trace, lift, swing, lower, push);
    }

    /**
     * The loop nest the four gait functions share: `steps` iterations of
     * `Step` with one gait's targets.
     */
    method Walk(steps: U32, lift: U32, swing: Extreme, lower: U32, push: Extreme, ghost m: Motion)
      requires Valid()
      requires lift == LiftWidth(m) && swing == SwingExtreme(m)
      requires lower == LowerWidth(m) && push == Opposite(swing)
      modifies this
      ensures Valid()
      ensures trace == old(trace) + Expand(MotionPulses(m, steps))
      ensures elapsedUs == old(elapsedUs) + steps * STEP_FRAMES * FRAME_US
      ensures forall ch :: IsHigh(ch) == (old(IsHigh(ch)) && steps == 0)
    {
      for s := 0 to steps
        invariant Valid() && trace == old(trace) + Expand(MotionPulses(m, s))
      {
        ghost var t0 := trace;
        Step(lift, swing, lower, push, m);
        StepMore(old(trace), m, s, t0, trace);
      }
      forall ch
        ensures Level(trace, ch, false) == (Level(old(trace), ch, false) && steps == 0)
      {
        AppendMotion(old(trace), m, steps, ch);
      }
      AppendMotion(old(trace), m, steps, Servo0);
    }

    /** `run_forward`: lift servo1 to its maximum, swing the pair to minimum, lower servo1 to its minimum, push the pair to maximum. */
    method RunForward(steps: U32)
      requires Valid()
      modifies this
      ensures Valid()
      ensures trace == old(trace) + Expand(MotionPulses(Forward, steps))
      ensures elapsedUs == old(elapsedUs) + steps * STEP_FRAMES * FRAME_US
      ensures forall ch :: IsHigh(ch) == (old(IsHigh(ch)) && steps == 0)
    {
      Walk(steps, SERVO1_MAX_PULSE, Min, SERVO1_MIN_PULSE, Max, Forward);
    }

    /** `run_backward`: as `run_forward` with the pair's swing and push exchanged. */
    method RunBackward(steps: U32)
      requires Valid()
      modifies this
      ensures Valid()
      ensures trace == old(trace) + Expand(MotionPulses(Backward, steps))
      ensures elapsedUs == old(elapsedUs) + steps * STEP_FRAMES * FRAME_US
      ensures forall ch :: IsHigh(ch) == (old(IsHigh(ch)) && steps == 0)
    {
      Walk(steps, SERVO1_MAX_PULSE, Max, SERVO1_MIN_PULSE, Min, Backward);
    }

    /** `turn_right`: as `run_forward` but servo1 is lowered only to its midpoint. */
    method TurnRight(steps: U32)
      requires Valid()
      modifies this
      ensures Valid()
      ensures trace == old(trace) + Expand(MotionPulses(RightTurn, steps))
      ensures elapsedUs == old(elapsedUs) + steps * STEP_FRAMES * FRAME_US
      ensures forall ch :: IsHigh(ch) == (old(IsHigh(ch)) && steps == 0)
    {
      Walk(steps, SERVO1_MAX_PULSE, Min, SERVO1_MID_PULSE, Max, RightTurn);
    }

    /** `turn_left`: servo1 lifted with its minimum, the pair swung to maximum, servo1 lowered to its midpoint, the pair pushed to minimum. */
    method TurnLeft(steps: U32)
      requires Valid()
      modifies this
      ensures Valid()
      ensures trace == old(trace) + Expand(MotionPulses(LeftTurn, steps))
      ensures elapsedUs == old(elapsedUs) + steps * STEP_FRAMES * FRAME_US
      ensures forall ch :: IsHigh(ch) == (old(IsHigh(ch)) && steps == 0)
    {
      Walk(steps, SERVO1_MIN_PULSE, Max, SERVO1_MID_PULSE, Min, LeftTurn);
    }

    /**
     * The body of the main loop with its step count and pause as parameters:
     * each primitive for `steps` steps, each followed by a `pauseMs` pause.
     */
    method RunRoutine(steps: U32, pauseMs: U32)
      requires Valid()
      modifies this
      ensures Valid()
      ensures trace == old(trace) + Routine(steps, pauseMs)
      ensures elapsedUs == old(elapsedUs) + 4 * (steps * STEP_FRAMES * FRAME_US + 1000 * pauseMs)
      ensures forall ch :: IsHigh(ch) == (old(IsHigh(ch)) && steps == 0)
    {
      ghost var t0 := trace;
      RunForward(steps);
      ghost var t1 := trace;
      WaitMs(pauseMs);
      ghost var t2 := trace;
      TurnLeft(steps);
      ghost var t3 := trace;
      WaitMs(pauseMs);
      ghost var t4 := trace;
      TurnRight(steps);
      ghost var t5 := trace;
      WaitMs(pauseMs);
      ghost var t6 := trace;
      RunBackward(steps);
      ghost var t7 := trace;
      WaitMs(pauseMs);
      RoutineChain(steps, pauseMs, t0, t1, t2, t3, t4, t5, t6, t7, trace);
    }

    /** One iteration of the main loop: each primitive for five steps, each followed by a 3 s pause. */
    method CycleOnce()
      requires Valid()
      modifies this
      ensures Valid()
      ensures trace == old(trace) + CycleTrace()
      ensures elapsedUs == old(elapsedUs) + CYCLE_US
      ensures forall ch :: !IsHigh(ch)
    {
      RunRoutine(CYCLE_STEPS, PAUSE_MS);
    }

    /** `k` iterations of the main loop: every iteration issues the same events. */
    method RunCycles(k: nat)
      requires Valid()
      modifies this
      ensures Valid()
      ensures trace == old(trace) + Repeat(CycleTrace(), k)
      ensures elapsedUs == old(elapsedUs) + k * CYCLE_US
      ensures forall ch :: IsHigh(ch) == (old(IsHigh(ch)) && k == 0)
    {
      for n := 0 to k
        invariant Valid()
        invariant trace == old(trace) + Repeat(CycleTrace(), n)
        invariant elapsedUs == old(elapsedUs) + n * CYCLE_US
        invariant forall ch :: IsHigh(ch) == (old(IsHigh(ch)) && n == 0)
      {
        ghost var t0 := trace;
        CycleOnce();
        RepeatMore(old(trace), CycleTrace(), n, t0, trace);
        assert (n + 1) * CYCLE_US == n * CYCLE_US + CYCLE_US;
      }
    }
  }
}
