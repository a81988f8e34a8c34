/**
 * The pulse frames each motion primitive emits, as pure sequences, and what
 * the gait promises about them.
 */
module Gait {
  import opened Calibration
  import opened Signals

  /** The four motion primitives. */
  datatype Motion = Forward | Backward | RightTurn | LeftTurn

  /** Iterations of every inner phase loop. */
  const PHASE_REPEATS: nat := 10

  /** Frames in one step: two single-servo phases of 10 and two paired phases of 20. */
  const STEP_FRAMES: nat := 60

  /** `s` emitted `n` times in a row. */
  function Repeat<T>(s: seq<T>, n: nat): (r: seq<T>)
    ensures |r| == n * |s|
  {
    if n == 0 then [] else Repeat(s, n - 1) + s
  }

  lemma {:induction false} RepeatAt<T>(s: seq<T>, n: nat, q: nat, k: nat)
    requires q < n && k < |s|
    ensures q * |s| + k < |Repeat(s, n)|
    ensures Repeat(s, n)[q * |s| + k] == s[k]
  {
    if q < n - 1 {
      RepeatAt(s, n - 1, q, k);
      assert q * |s| + k < (n - 1) * |s|;
    } else {
      assert q * |s| == |Repeat(s, n - 1)|;
    }
  }

  /** Every position of a repetition holds the element at the same offset of the block. */
  lemma RepeatIndex<T>(s: seq<T>, n: nat, i: nat)
    requires i < n * |s|
    ensures |s| > 0 && Repeat(s, n)[i] == s[i % |s|]
  {
    RepeatAt(s, n, i / |s|, i % |s|);
  }

  lemma {:induction false} RepeatCountOn(s: seq<Pulse>, n: nat, ch: Channel)
    ensures CountOn(Repeat(s, n), ch) == n * CountOn(s, ch)
  {
    if n > 0 {
      RepeatCountOn(s, n - 1, ch);
      CountOnAppend(Repeat(s, n - 1), s, ch);
      assert n * CountOn(s, ch) == (n - 1) * CountOn(s, ch) + CountOn(s, ch);
    }
  }

  lemma {:induction false} RepeatMultiset<T>(s: seq<T>, n: nat, x: T)
    ensures multiset(Repeat(s, n))[x] == n * multiset(s)[x]
  {
    if n > 0 {
      RepeatMultiset(s, n - 1, x);
      assert Repeat(s, n) == Repeat(s, n - 1) + s;
      assert multiset(Repeat(s, n))[x] == multiset(Repeat(s, n - 1))[x] + multiset(s)[x];
      assert n * multiset(s)[x] == (n - 1) * multiset(s)[x] + multiset(s)[x];
    }
  }

  /** A block holding `x` exactly `k` times, repeated `n` times, holds it `k * n` times. */
  lemma RepeatScaled<T>(s: seq<T>, n: nat, x: T, k: nat)
    requires multiset(s)[x] == k
    ensures multiset(Repeat(s, n))[x] == k * n
  {
    RepeatMultiset(s, n, x);
  }

  lemma {:induction false} RepeatWidthSum(s: seq<Pulse>, n: nat, ch: Channel)
    ensures WidthSum(Repeat(s, n), ch) == n * WidthSum(s, ch)
  {
    if n > 0 {
      RepeatWidthSum(s, n - 1, ch);
      WidthSumAppend(Repeat(s, n - 1), s, ch);
      assert n * WidthSum(s, ch) == (n - 1) * WidthSum(s, ch) + WidthSum(s, ch);
    }
  }

  /** A phase that drives one servo: ten frames at the same width. */
  function Hold(ch: Channel, w: U32): seq<Pulse>
  {
    Repeat([Pulse(ch, w)], PHASE_REPEATS)
  }

  /** The two frames of one paired iteration: servo0 then servo2, both to extreme `e`. */
  function Pair(e: Extreme): seq<Pulse>
  {
    [Pulse(Servo0, Target(Servo0, e)), Pulse(Servo2, Target(Servo2, e))]
  }

  /** A phase that drives the front and back servos together: ten paired iterations. */
  function Sweep(e: Extreme): seq<Pulse>
  {
    Repeat(Pair(e), PHASE_REPEATS)
  }

  /**
   * The four 10-iteration phases of a step: lift (servo1 alone), swing
   * (servo0 and servo2 paired), lower (servo1 alone), push (paired again).
   */
  function Phases(lift: U32, swing: Extreme, lower: U32, push: Extreme): seq<Pulse>
  {
    Hold(Servo1, lift) + Sweep(swing) + Hold(Servo1, lower) + Sweep(push)
  }

  /** The frames of one step of a primitive: its four phases with its own targets. */
  function StepPulses(m: Motion): seq<Pulse>
  {
    Phases(LiftWidth(m), SwingExtreme(m), LowerWidth(m), Opposite(SwingExtreme(m)))
  }

  /** The frames a primitive emits for `steps` steps. */
  function MotionPulses(m: Motion, steps: nat): seq<Pulse>
  {
    Repeat(StepPulses(m), steps)
  }

  // The targets of each primitive: the servo1 width of the lift, the extreme
  // the front/back pair swings to, and the servo1 width of the lowering; the
  // push drives the pair to the opposite extreme.

  function LiftWidth(m: Motion): U32
  {
    if m == LeftTurn then MinPulse(Servo1) else MaxPulse(Servo1)
  }

  function SwingExtreme(m: Motion): Extreme
  {
    if m == Forward || m == RightTurn then Min else Max
  }

  function LowerWidth(m: Motion): U32
  {
    if m == Forward || m == Backward then MinPulse(Servo1) else MidPulse()
  }

  /**
   * Each primitive's targets are the firmware's constants: `run_forward`
   * lifts with servo1's MAX, swings the pair to MIN and lowers with servo1's
   * MIN; `run_backward` swings to MAX instead; `turn_right` lowers to the
   * midpoint; `turn_left` lifts with servo1's MIN, swings to MAX and lowers
   * to the midpoint.
   */
  lemma PrimitiveTargets()
    ensures LiftWidth(Forward) == SERVO1_MAX_PULSE && SwingExtreme(Forward) == Min && LowerWidth(Forward) == SERVO1_MIN_PULSE
    ensures LiftWidth(Backward) == SERVO1_MAX_PULSE && SwingExtreme(Backward) == Max && LowerWidth(Backward) == SERVO1_MIN_PULSE
    ensures LiftWidth(RightTurn) == SERVO1_MAX_PULSE && SwingExtreme(RightTurn) == Min
    ensures LowerWidth(RightTurn) == (SERVO1_MIN_PULSE + SERVO1_MAX_PULSE) / 2
    ensures LiftWidth(LeftTurn) == SERVO1_MIN_PULSE && SwingExtreme(LeftTurn) == Max
    ensures LowerWidth(LeftTurn) == (SERVO1_MIN_PULSE + SERVO1_MAX_PULSE) / 2
  {
  }

  /**
   * One forward step in numbers: servo1 at 1800 for frames 0-9, the pair at
   * 1100 for frames 10-29, servo1 at 1300 for frames 30-39 and the pair at
   * 2100 for frames 40-59.
   */
  lemma ForwardStepFrames()
    ensures |MotionPulses(Forward, 1)| == 60
    ensures MotionPulses(Forward, 1)[0] == Pulse(Servo1, 1800)
    ensures MotionPulses(Forward, 1)[10] == Pulse(Servo0, 1100)
    ensures MotionPulses(Forward, 1)[11] == Pulse(Servo2, 1100)
    ensures MotionPulses(Forward, 1)[30] == Pulse(Servo1, 1300)
    ensures MotionPulses(Forward, 1)[40] == Pulse(Servo0, 2100)
    ensures MotionPulses(Forward, 1)[59] == Pulse(Servo2, 2100)
  {
    StepPhases(Forward, 1, 0);
  }

  /** Member `k` of the alternating front/back sequence: servo0 on even `k`, servo2 on odd. */
  function PairMember(k: nat, e: Extreme): Pulse
  {
    var ch := if k % 2 == 0 then Servo0 else Servo2;
    Pulse(ch, Target(ch, e))
  }

  /** Frame `j` of a step, read off the four phases by index. */
  function ExpectedPulse(m: Motion, j: nat): Pulse
    requires j < STEP_FRAMES
  {
    if j < 10 then Pulse(Servo1, LiftWidth(m))
    else if j < 30 then PairMember(j - 10, SwingExtreme(m))
    else if j < 40 then Pulse(Servo1, LowerWidth(m))
    else PairMember(j - 40, Opposite(SwingExtreme(m)))
  }

  lemma HoldAt(ch: Channel, w: U32, j: nat)
    requires j < PHASE_REPEATS
    ensures |Hold(ch, w)| == PHASE_REPEATS && Hold(ch, w)[j] == Pulse(ch, w)
  {
    RepeatIndex([Pulse(ch, w)], PHASE_REPEATS, j);
  }

  lemma SweepAt(e: Extreme, j: nat)
    requires j < 2 * PHASE_REPEATS
    ensures |Sweep(e)| == 2 * PHASE_REPEATS && Sweep(e)[j] == PairMember(j, e)
  {
    RepeatIndex(Pair(e), PHASE_REPEATS, j);
  }

  lemma PhasesAt(lift: U32, swing: Extreme, lower: U32, push: Extreme, j: nat)
    requires j < STEP_FRAMES
    ensures |Phases(lift, swing, lower, push)| == STEP_FRAMES
    ensures Phases(lift, swing, lower, push)[j] ==
      if j < 10 then Pulse(Servo1, lift)
      else if j < 30 then PairMember(j - 10, swing)
      else if j < 40 then Pulse(Servo1, lower)
      else PairMember(j - 40, push)
  {
    var a, b, c, d := Hold(Servo1, lift), Sweep(swing), Hold(Servo1, lower), Sweep(push);
    HoldAt(Servo1, lift, 0);
    SweepAt(swing, 0);
    if j < 10 {
      HoldAt(Servo1, lift, j);
    } else if j < 30 {
      SweepAt(swing, j - 10);
    } else if j < 40 {
      HoldAt(Servo1, lower, j - 30);
    } else {
      SweepAt(push, j - 40);
    }
  }

  /** The code's four phase loops produce exactly the indexed step, frame by frame. */
  lemma StepPulsesAt(m: Motion, j: nat)
    requires j < STEP_FRAMES
    ensures |StepPulses(m)| == STEP_FRAMES
    ensures StepPulses(m)[j] == ExpectedPulse(m, j)
  {
    PhasesAt(LiftWidth(m), SwingExtreme(m), LowerWidth(m), Opposite(SwingExtreme(m)), j);
  }

  /**
   * Phase order: frame `i` of any run of a primitive is frame `i % 60` of the
   * four-phase step (10 servo1 frames, 10 servo0/servo2 pairs at one extreme,
   * 10 servo1 frames, 10 pairs at the opposite extreme).
   */
  lemma PhaseOrder(m: Motion, steps: nat, i: nat)
    requires i < |MotionPulses(m, steps)|
    ensures MotionPulses(m, steps)[i] == ExpectedPulse(m, i % STEP_FRAMES)
  {
    StepPulsesAt(m, 0);
    RepeatIndex(StepPulses(m), steps, i);
    StepPulsesAt(m, i % STEP_FRAMES);
  }

  /**
   * The layout of step `q` of a run: 10 servo1 frames at the lift target,
   * 10 (servo0, servo2) pairs whose members share one extreme, 10 servo1
   * frames at the lowering target, then 10 pairs at the opposite extreme.
   * Within a paired phase the frames alternate servo0, servo2 (PairMember),
   * so each pair drives both channels to the same extreme.
   */
  lemma StepPhases(m: Motion, steps: nat, q: nat)
    requires q < steps
    ensures |MotionPulses(m, steps)| >= q * STEP_FRAMES + STEP_FRAMES
    ensures forall i :: q * STEP_FRAMES <= i < q * STEP_FRAMES + 10 ==>
      MotionPulses(m, steps)[i] == Pulse(Servo1, LiftWidth(m))
    ensures forall i :: q * STEP_FRAMES + 10 <= i < q * STEP_FRAMES + 30 ==>
      MotionPulses(m, steps)[i] == PairMember(i - q * STEP_FRAMES - 10, SwingExtreme(m))
    ensures forall i :: q * STEP_FRAMES + 30 <= i < q * STEP_FRAMES + 40 ==>
      MotionPulses(m, steps)[i] == Pulse(Servo1, LowerWidth(m))
    ensures forall i :: q * STEP_FRAMES + 40 <= i < q * STEP_FRAMES + 60 ==>
      MotionPulses(m, steps)[i] == PairMember(i - q * STEP_FRAMES - 40, Opposite(SwingExtreme(m)))
  {
    StepLayout(m, steps, q);
  }

  /** Step `q` of a run is the four-phase step, frame by frame. */
  lemma StepLayout(m: Motion, steps: nat, q: nat)
    requires q < steps
    ensures |MotionPulses(m, steps)| >= q * STEP_FRAMES + STEP_FRAMES
    ensures forall i :: q * STEP_FRAMES <= i < q * STEP_FRAMES + STEP_FRAMES ==>
      MotionPulses(m, steps)[i] == ExpectedPulse(m, i - q * STEP_FRAMES)
  {
    var step := StepPulses(m);
    StepPulsesAt(m, 0);
    assert |step| == STEP_FRAMES;
    RepeatAt(step, steps, q, STEP_FRAMES - 1);
    forall i | q * STEP_FRAMES <= i < q * STEP_FRAMES + STEP_FRAMES
      ensures MotionPulses(m, steps)[i] == ExpectedPulse(m, i - q * STEP_FRAMES)
    {
      var k := i - q * STEP_FRAMES;
      RepeatAt(step, steps, q, k);
      StepPulsesAt(m, k);
    }
  }

  lemma HoldCountOn(ch: Channel, w: U32, c: Channel)
    ensures CountOn(Hold(ch, w), c) == if ch == c then PHASE_REPEATS else 0
  {
    RepeatCountOn([Pulse(ch, w)], PHASE_REPEATS, c);
    assert [Pulse(ch, w)][..0] == [];
  }

  lemma SweepCountOn(e: Extreme, c: Channel)
    ensures CountOn(Sweep(e), c) == if c == Servo1 then 0 else PHASE_REPEATS
  {
    RepeatCountOn(Pair(e), PHASE_REPEATS, c);
    assert Pair(e)[..1][..0] == [];
  }

  lemma PhasesCountOn(lift: U32, swing: Extreme, lower: U32, push: Extreme, ch: Channel)
    ensures CountOn(Phases(lift, swing, lower, push), ch) == 20
  {
    var a, b, c, d := Hold(Servo1, lift), Sweep(swing), Hold(Servo1, lower), Sweep(push);
    CountOnAppend(a + b + c, d, ch);
    CountOnAppend(a + b, c, ch);
    CountOnAppend(a, b, ch);
    HoldCountOn(Servo1, lift, ch);
    HoldCountOn(Servo1, lower, ch);
    SweepCountOn(swing, ch);
    SweepCountOn(push, ch);
  }

  /**
   * A run of `steps` steps is 60 frames per step, 20 on each channel;
   * zero steps emit nothing.
   */
  lemma MotionCounts(m: Motion, steps: nat)
    ensures |MotionPulses(m, steps)| == STEP_FRAMES * steps
    ensures forall ch :: CountOn(MotionPulses(m, steps), ch) == 20 * steps
    ensures steps == 0 ==> MotionPulses(m, steps) == []
  {
    StepPulsesAt(m, 0);
    forall ch
      ensures CountOn(MotionPulses(m, steps), ch) == 20 * steps
    {
      assert CountOn(StepPulses(m), ch) == 20 by {
        PhasesCountOn(LiftWidth(m), SwingExtreme(m), LowerWidth(m), Opposite(SwingExtreme(m)), ch);
      }
      RepeatCountOn(StepPulses(m), steps, ch);
    }
  }

  /**
   * Every width a primitive sends lies in its own channel's calibrated range;
   * servo0 and servo2 only ever get an extreme, the midpoint only ever goes to
   * servo1 and only in the turns, and no width reaches a frame, so
   * `20000 - width` never wraps.
   */
  lemma MotionWidths(m: Motion, steps: nat)
    ensures FitsFrame(MotionPulses(m, steps))
    ensures forall i :: 0 <= i < |MotionPulses(m, steps)| ==>
      var p := MotionPulses(m, steps)[i];
      && 0 < MinPulse(p.ch) <= p.width <= MaxPulse(p.ch) < FRAME_US
      && (p.ch != Servo1 ==> p.width == MinPulse(p.ch) || p.width == MaxPulse(p.ch))
      && (p.width == MidPulse() ==> p.ch == Servo1 && (m == RightTurn || m == LeftTurn))
      && IdleUs(p.width) == FRAME_US - p.width
  {
    forall i | 0 <= i < |MotionPulses(m, steps)|
      ensures var p := MotionPulses(m, steps)[i];
        && 0 < MinPulse(p.ch) <= p.width <= MaxPulse(p.ch) < FRAME_US
        && (p.ch != Servo1 ==> p.width == MinPulse(p.ch) || p.width == MaxPulse(p.ch))
        && (p.width == MidPulse() ==> p.ch == Servo1 && (m == RightTurn || m == LeftTurn))
    {
      PhaseOrder(m, steps, i);
    }
  }

  lemma HoldMultiset(ch: Channel, w: U32, x: Pulse)
    ensures multiset(Hold(ch, w))[x] == if x == Pulse(ch, w) then PHASE_REPEATS else 0
  {
    RepeatMultiset([Pulse(ch, w)], PHASE_REPEATS, x);
  }

  lemma PairMultiset(e: Extreme, x: Pulse)
    requires x.ch == Servo1
    ensures multiset(Sweep(e))[x] == 0
  {
    RepeatMultiset(Pair(e), PHASE_REPEATS, x);
  }

  lemma PhasesMultiset(lift: U32, swing: Extreme, lower: U32, push: Extreme, x: Pulse)
    requires x.ch == Servo1
    ensures multiset(Phases(lift, swing, lower, push))[x] ==
      (if x.width == lift then PHASE_REPEATS else 0) + (if x.width == lower then PHASE_REPEATS else 0)
  {
    var a, b, c, d := Hold(Servo1, lift), Sweep(swing), Hold(Servo1, lower), Sweep(push);
    assert multiset(a + b + c + d)[x] == multiset(a)[x] + multiset(b)[x] + multiset(c)[x] + multiset(d)[x];
    HoldMultiset(Servo1, lift, x);
    HoldMultiset(Servo1, lower, x);
    PairMultiset(swing, x);
    PairMultiset(push, x);
  }

  /** One step of a turn sends the midpoint in its 10 lowering frames; other steps never send it. */
  lemma StepMidpoints(m: Motion)
    ensures multiset(StepPulses(m))[Pulse(Servo1, MidPulse())] ==
      if m == RightTurn || m == LeftTurn then PHASE_REPEATS else 0
  {
    var mid := Pulse(Servo1, MidPulse());
    var lift, swing, lower := LiftWidth(m), SwingExtreme(m), LowerWidth(m);
    assert MinPulse(Servo1) < mid.width < MaxPulse(Servo1);
    assert mid.width != lift;
    assert mid.width == lower <==> m == RightTurn || m == LeftTurn by {
      if m == RightTurn || m == LeftTurn {
        assert lower == MidPulse();
      } else {
        assert lower == MinPulse(Servo1);
      }
    }
    PhasesMultiset(lift, swing, lower, Opposite(swing), mid);
  }

  /** The turns send the midpoint in exactly 10 frames of every step; forward and backward never do. */
  lemma MidpointCount(m: Motion, steps: nat)
    ensures multiset(MotionPulses(m, steps))[Pulse(Servo1, MidPulse())] ==
      if m == RightTurn || m == LeftTurn then PHASE_REPEATS * steps else 0
  {
    StepMidpoints(m);
    if m == RightTurn || m == LeftTurn {
      RepeatScaled(StepPulses(m), steps, Pulse(Servo1, MidPulse()), PHASE_REPEATS);
    } else {
      RepeatScaled(StepPulses(m), steps, Pulse(Servo1, MidPulse()), 0);
    }
  }

  /** A run of `steps` steps takes 1.2 s per step and raises each pin 20 times per step. */
  lemma MotionTiming(m: Motion, steps: nat)
    ensures Duration(Expand(MotionPulses(m, steps))) == steps * STEP_FRAMES * FRAME_US
    ensures forall ch :: Rises(Expand(MotionPulses(m, steps)), ch) == 20 * steps
  {
    MotionWidths(m, steps);
    MotionCounts(m, steps);
    ExpandDuration(MotionPulses(m, steps));
    forall ch
      ensures Rises(Expand(MotionPulses(m, steps)), ch) == 20 * steps
    {
      ExpandRises(MotionPulses(m, steps), ch);
    }
  }

  lemma HoldWidthSum(w: U32, ch: Channel)
    ensures WidthSum(Hold(Servo1, w), ch) == if ch == Servo1 then PHASE_REPEATS * w else 0
  {
    RepeatWidthSum([Pulse(Servo1, w)], PHASE_REPEATS, ch);
    assert [Pulse(Servo1, w)][..0] == [];
  }

  lemma SweepWidthSum(e: Extreme, ch: Channel)
    ensures WidthSum(Sweep(e), ch) == if ch == Servo1 then 0 else PHASE_REPEATS * Target(ch, e)
  {
    RepeatWidthSum(Pair(e), PHASE_REPEATS, ch);
    assert Pair(e)[..1][..0] == [];
  }

  lemma PhasesWidthSum(lift: U32, swing: Extreme, lower: U32, push: Extreme, ch: Channel)
    ensures WidthSum(Phases(lift, swing, lower, push), ch) ==
      if ch == Servo1 then PHASE_REPEATS * (lift + lower)
      else PHASE_REPEATS * (Target(ch, swing) + Target(ch, push))
  {
    var a, b, c, d := Hold(Servo1, lift), Sweep(swing), Hold(Servo1, lower), Sweep(push);
    WidthSumAppend(a + b + c, d, ch);
    WidthSumAppend(a + b, c, ch);
    WidthSumAppend(a, b, ch);
    HoldWidthSum(lift, ch);
    HoldWidthSum(lower, ch);
    SweepWidthSum(swing, ch);
    SweepWidthSum(push, ch);
  }

  /**
   * Starting with all pins low, servo1 is high for 10 lift frames and 10
   * lowering frames per step, and servo0 and servo2 for 10 frames at each
   * of their extremes; nothing else raises a pin.
   */
  lemma MotionHighUs(m: Motion, steps: nat, ch: Channel)
    ensures HighUs(Expand(MotionPulses(m, steps)), ch, false) ==
      steps * (PHASE_REPEATS * (if ch == Servo1 then LiftWidth(m) + LowerWidth(m) else MinPulse(ch) + MaxPulse(ch)))
  {
    var w := if ch == Servo1 then LiftWidth(m) + LowerWidth(m) else MinPulse(ch) + MaxPulse(ch);
    assert WidthSum(StepPulses(m), ch) == PHASE_REPEATS * w by {
      PhasesWidthSum(LiftWidth(m), SwingExtreme(m), LowerWidth(m), Opposite(SwingExtreme(m)), ch);
    }
    assert WidthSum(MotionPulses(m, steps), ch) == steps * (PHASE_REPEATS * w) by {
      RepeatWidthSum(StepPulses(m), steps, ch);
    }
    ExpandHighUs(MotionPulses(m, steps), ch);
  }

  /** Exchanges MIN and MAX on servo0 and servo2 and leaves servo1 alone. */
  function MirrorFrontBack(p: Pulse): Pulse
  {
    if p.ch == Servo1 then p else Pulse(p.ch, Swapped(p.ch, p.width))
  }

  /** Exchanges MIN and MAX on every channel; the midpoint is its own mirror. */
  function MirrorAll(p: Pulse): Pulse
  {
    Pulse(p.ch, Swapped(p.ch, p.width))
  }

  /**
   * `run_backward` is `run_forward` with the servo0/servo2 targets exchanged;
   * the servo1 frames of the two are identical.
   */
  lemma BackwardMirrorsForward(steps: nat)
    ensures |MotionPulses(Backward, steps)| == |MotionPulses(Forward, steps)|
    ensures forall i :: 0 <= i < |MotionPulses(Forward, steps)| ==>
      MotionPulses(Backward, steps)[i] == MirrorFrontBack(MotionPulses(Forward, steps)[i])
    ensures forall i :: 0 <= i < |MotionPulses(Forward, steps)| && MotionPulses(Forward, steps)[i].ch == Servo1 ==>
      MotionPulses(Backward, steps)[i] == MotionPulses(Forward, steps)[i]
  {
    MotionCounts(Forward, steps);
    MotionCounts(Backward, steps);
    forall i | 0 <= i < |MotionPulses(Forward, steps)|
      ensures MotionPulses(Backward, steps)[i] == MirrorFrontBack(MotionPulses(Forward, steps)[i])
    {
      PhaseOrder(Forward, steps, i);
      PhaseOrder(Backward, steps, i);
      SwappedTarget(Servo0, Min);
      SwappedTarget(Servo0, Max);
      SwappedTarget(Servo2, Min);
      SwappedTarget(Servo2, Max);
    }
  }

  /** `turn_left` is `turn_right` with MIN and MAX exchanged; the midpoint frames coincide. */
  lemma TurnLeftMirrorsTurnRight(steps: nat)
    ensures |MotionPulses(LeftTurn, steps)| == |MotionPulses(RightTurn, steps)|
    ensures forall i :: 0 <= i < |MotionPulses(RightTurn, steps)| ==>
      MotionPulses(LeftTurn, steps)[i] == MirrorAll(MotionPulses(RightTurn, steps)[i])
  {
    MotionCounts(RightTurn, steps);
    MotionCounts(LeftTurn, steps);
    forall i | 0 <= i < |MotionPulses(RightTurn, steps)|
      ensures MotionPulses(LeftTurn, steps)[i] == MirrorAll(MotionPulses(RightTurn, steps)[i])
    {
      PhaseOrder(RightTurn, steps, i);
      PhaseOrder(LeftTurn, steps, i);
      SwappedTarget(Servo0, Min);
      SwappedTarget(Servo0, Max);
      SwappedTarget(Servo2, Min);
      SwappedTarget(Servo2, Max);
    }
  }

  /**
   * `turn_right` is `run_forward` except in the lowering phase, where it
   * sends servo1 the midpoint instead of MIN.
   */
  lemma TurnRightMatchesForward(steps: nat)
    ensures |MotionPulses(RightTurn, steps)| == |MotionPulses(Forward, steps)|
    ensures forall i :: 0 <= i < |MotionPulses(Forward, steps)| ==>
      if 30 <= i % STEP_FRAMES < 40 then
        MotionPulses(Forward, steps)[i] == Pulse(Servo1, MinPulse(Servo1))
        && MotionPulses(RightTurn, steps)[i] == Pulse(Servo1, MidPulse())
      else
        MotionPulses(RightTurn, steps)[i] == MotionPulses(Forward, steps)[i]
  {
    MotionCounts(Forward, steps);
    MotionCounts(RightTurn, steps);
    forall i | 0 <= i < |MotionPulses(Forward, steps)|
      ensures if 30 <= i % STEP_FRAMES < 40 then
        MotionPulses(Forward, steps)[i] == Pulse(Servo1, MinPulse(Servo1))
        && MotionPulses(RightTurn, steps)[i] == Pulse(Servo1, MidPulse())
      else
        MotionPulses(RightTurn, steps)[i] == MotionPulses(Forward, steps)[i]
    {
      PhaseOrder(Forward, steps, i);
      PhaseOrder(RightTurn, steps, i);
    }
  }
}
