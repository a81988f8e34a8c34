/**
 * The hardware actions the firmware performs, as an event trace, and the
 * pulse frames that `set_servo_position` turns into such events.
 */
module Signals {
  import opened Calibration

  datatype Option<T> = None | Some(value: T)

  /** One call into the pin or timing capability. */
  datatype Event =
    | SetHigh(ch: Channel)
    | SetLow(ch: Channel)
    | DelayUs(us: U32)
    | DelayMs(ms: U32)

  /** One `set_servo_position(ch, width)` call, seen as a single frame. */
  datatype Pulse = Pulse(ch: Channel, width: U32)

  /**
   * The low time of a frame, `20000 - width` computed in `u32` without
   * overflow checks: it wraps modulo 2^32 when the width exceeds the frame.
   */
  function IdleUs(w: U32): (idle: U32)
    ensures w <= FRAME_US ==> w + idle == FRAME_US
    ensures w > FRAME_US ==> w + idle == FRAME_US + U32_LIMIT
  {
    (FRAME_US - w) % U32_LIMIT
  }

  /** The four hardware actions of one pulse frame. */
  function Frame(p: Pulse): seq<Event>
  {
    [SetHigh(p.ch), DelayUs(p.width), SetLow(p.ch), DelayUs(IdleUs(p.width))]
  }

  /** The events of a sequence of pulse frames, emitted one after the other. */
  function Expand(ps: seq<Pulse>): seq<Event>
  {
    if ps == [] then [] else Expand(ps[..|ps| - 1]) + Frame(ps[|ps| - 1])
  }

  /** Microseconds an event blocks for. */
  function EventUs(e: Event): nat
  {
    match e
    case DelayUs(n) => n
    case DelayMs(n) => 1000 * n
    case _ => 0
  }

  /** Total virtual time a trace takes, in microseconds. */
  function Duration(t: seq<Event>): nat
  {
    if t == [] then 0 else Duration(t[..|t| - 1]) + EventUs(t[|t| - 1])
  }

  /** Level of `ch` after event `e`, when it was `level` before. */
  function After(e: Event, ch: Channel, level: bool): bool
  {
    match e
    case SetHigh(c) => if c == ch then true else level
    case SetLow(c) => if c == ch then false else level
    case _ => level
  }

  /** Level of `ch` (true for high) after trace `t`, starting from `init`. */
  function Level(t: seq<Event>, ch: Channel, init: bool): bool
  {
    if t == [] then init else After(t[|t| - 1], ch, Level(t[..|t| - 1], ch, init))
  }

  /** Microseconds during which `ch` is held high while trace `t` runs from level `init`. */
  function HighUs(t: seq<Event>, ch: Channel, init: bool): nat
  {
    if t == [] then 0
    else
      var before := t[..|t| - 1];
      HighUs(before, ch, init) + (if Level(before, ch, init) then EventUs(t[|t| - 1]) else 0)
  }

  /** Number of rising edges commanded on `ch`. */
  function Rises(t: seq<Event>, ch: Channel): nat
  {
    if t == [] then 0 else Rises(t[..|t| - 1], ch) + (if t[|t| - 1] == SetHigh(ch) then 1 else 0)
  }

  /** Number of pulses sent to `ch`. */
  function CountOn(ps: seq<Pulse>, ch: Channel): nat
  {
    if ps == [] then 0 else CountOn(ps[..|ps| - 1], ch) + (if ps[|ps| - 1].ch == ch then 1 else 0)
  }

  /** Sum of the widths of the pulses sent to `ch`. */
  function WidthSum(ps: seq<Pulse>, ch: Channel): nat
  {
    if ps == [] then 0
    else WidthSum(ps[..|ps| - 1], ch) + (if ps[|ps| - 1].ch == ch then ps[|ps| - 1].width else 0)
  }

  /** No pulse asks for more than a frame, so none of the idle-time subtractions wraps. */
  ghost predicate FitsFrame(ps: seq<Pulse>)
  {
    forall i :: 0 <= i < |ps| ==> ps[i].width <= FRAME_US
  }

  /**
   * Reads a trace back as pulse frames: it succeeds exactly on traces made of
   * whole, well-formed frames.
   */
  function Decode(t: seq<Event>): (r: Option<seq<Pulse>>)
    ensures r.Some? ==> Expand(r.value) == t
    decreases |t|
  {
    if t == [] then Some([])
    else if |t| < 4 then None
    else
      match (t[0], t[1], t[2], t[3])
      case (SetHigh(c), DelayUs(w), SetLow(c'), DelayUs(idle)) =>
        if c == c' && idle == IdleUs(w) then
          match Decode(t[4..])
          case Some(rest) =>
            ExpandAppend([Pulse(c, w)], rest);
            assert t == t[..4] + t[4..];
            Some([Pulse(c, w)] + rest)
          case None => None
        else None
      case _ => None
  }

  lemma {:induction false} ExpandAppend(a: seq<Pulse>, b: seq<Pulse>)
    ensures Expand(a + b) == Expand(a) + Expand(b)
    decreases |b|
  {
    if b == [] {
      assert a + b == a;
    } else {
      var b' := b[..|b| - 1];
      assert (a + b)[..|a + b| - 1] == a + b';
      ExpandAppend(a, b');
    }
  }

  lemma ExpandSnoc(ps: seq<Pulse>, p: Pulse)
    ensures Expand(ps + [p]) == Expand(ps) + Frame(p)
  {
    assert (ps + [p])[..|ps|] == ps;
  }

  lemma ExpandOne(p: Pulse)
    ensures Expand([p]) == Frame(p)
  {
    assert [p][..0] == [];
  }

  /** Every frame is as long as its pulses, so a trace has exactly four events per pulse. */
  lemma {:induction false} ExpandLength(ps: seq<Pulse>)
    ensures |Expand(ps)| == 4 * |ps|
  {
    if ps != [] {
      ExpandLength(ps[..|ps| - 1]);
    }
  }

  lemma {:induction false} DurationAppend(a: seq<Event>, b: seq<Event>)
    ensures Duration(a + b) == Duration(a) + Duration(b)
    decreases |b|
  {
    if b == [] {
      assert a + b == a;
    } else {
      var b' := b[..|b| - 1];
      assert (a + b)[..|a + b| - 1] == a + b';
      DurationAppend(a, b');
    }
  }

  lemma {:induction false} LevelAppend(a: seq<Event>, b: seq<Event>, ch: Channel, init: bool)
    ensures Level(a + b, ch, init) == Level(b, ch, Level(a, ch, init))
    decreases |b|
  {
    if b == [] {
      assert a + b == a;
    } else {
      var b' := b[..|b| - 1];
      assert (a + b)[..|a + b| - 1] == a + b';
      LevelAppend(a, b', ch, init);
    }
  }

  lemma {:induction false} HighUsAppend(a: seq<Event>, b: seq<Event>, ch: Channel, init: bool)
    ensures HighUs(a + b, ch, init) == HighUs(a, ch, init) + HighUs(b, ch, Level(a, ch, init))
    decreases |b|
  {
    if b == [] {
      assert a + b == a;
    } else {
      var b' := b[..|b| - 1];
      assert (a + b)[..|a + b| - 1] == a + b';
      HighUsAppend(a, b', ch, init);
      LevelAppend(a, b', ch, init);
    }
  }

  lemma {:induction false} RisesAppend(a: seq<Event>, b: seq<Event>, ch: Channel)
    ensures Rises(a + b, ch) == Rises(a, ch) + Rises(b, ch)
    decreases |b|
  {
    if b == [] {
      assert a + b == a;
    } else {
      var b' := b[..|b| - 1];
      assert (a + b)[..|a + b| - 1] == a + b';
      RisesAppend(a, b', ch);
    }
  }

  lemma {:induction false} CountOnAppend(a: seq<Pulse>, b: seq<Pulse>, ch: Channel)
    ensures CountOn(a + b, ch) == CountOn(a, ch) + CountOn(b, ch)
    decreases |b|
  {
    if b == [] {
      assert a + b == a;
    } else {
      var b' := b[..|b| - 1];
      assert (a + b)[..|a + b| - 1] == a + b';
      CountOnAppend(a, b', ch);
    }
  }

  lemma {:induction false} WidthSumAppend(a: seq<Pulse>, b: seq<Pulse>, ch: Channel)
    ensures WidthSum(a + b, ch) == WidthSum(a, ch) + WidthSum(b, ch)
    decreases |b|
  {
    if b == [] {
      assert a + b == a;
    } else {
      var b' := b[..|b| - 1];
      assert (a + b)[..|a + b| - 1] == a + b';
      WidthSumAppend(a, b', ch);
    }
  }

  /**
   * One frame: the pin goes high for exactly `width` µs, then low for the
   * rest of the 20000 µs frame, and ends low whatever its level before;
   * every other pin keeps its level and stays idle.
   */
  lemma FrameTiming(p: Pulse, init: bool)
    requires p.width <= FRAME_US
    ensures Duration(Frame(p)) == FRAME_US
    ensures HighUs(Frame(p), p.ch, init) == p.width
    ensures !Level(Frame(p), p.ch, init)
    ensures Rises(Frame(p), p.ch) == 1
    ensures forall c :: c != p.ch ==> Level(Frame(p), c, init) == init
    ensures forall c :: c != p.ch ==> HighUs(Frame(p), c, init) == if init then FRAME_US else 0
    ensures forall c :: c != p.ch ==> Rises(Frame(p), c) == 0
  {
    forall c
      ensures Level(Frame(p), c, init) == (if c == p.ch then false else init)
      ensures HighUs(Frame(p), c, init) == (if c == p.ch then p.width else if init then FRAME_US else 0)
      ensures Rises(Frame(p), c) == (if c == p.ch then 1 else 0)
    {
      FrameSteps(p, c, init);
    }
    FrameSteps(p, p.ch, init);
  }

  /** Replays the four events of a frame one at a time. */
  lemma FrameSteps(p: Pulse, c: Channel, init: bool)
    ensures Duration(Frame(p)) == p.width + IdleUs(p.width)
    ensures Level(Frame(p), c, init) == (if c == p.ch then false else init)
    ensures HighUs(Frame(p), c, init) ==
      (if c == p.ch then p.width else if init then p.width + IdleUs(p.width) else 0)
    ensures Rises(Frame(p), c) == (if c == p.ch then 1 else 0)
  {
    var f1 := [SetHigh(p.ch)];
    var f2 := f1 + [DelayUs(p.width)];
    var f3 := f2 + [SetLow(p.ch)];
    var f4 := f3 + [DelayUs(IdleUs(p.width))];
    assert f4 == Frame(p);
    assert f1[..0] == [];
    assert f2[..1] == f1;
    assert f3[..2] == f2;
    assert f4[..3] == f3;
    assert Level(f1, c, init) == (c == p.ch || init);
    assert Level(f2, c, init) == (c == p.ch || init);
    assert Level(f3, c, init) == (c != p.ch && init);
    assert HighUs(f1, c, init) == 0;
    assert HighUs(f2, c, init) == if c == p.ch || init then p.width else 0;
    assert HighUs(f3, c, init) == HighUs(f2, c, init);
    assert Duration(f1) == 0;
    assert Duration(f3) == Duration(f2) == p.width;
    assert Rises(f1, c) == Rises(f3, c);
  }

  /** A run of frames that fit takes exactly one frame period per pulse. */
  lemma {:induction false} ExpandDuration(ps: seq<Pulse>)
    requires FitsFrame(ps)
    ensures Duration(Expand(ps)) == |ps| * FRAME_US
  {
    if ps != [] {
      var ps' := ps[..|ps| - 1];
      ExpandDuration(ps');
      DurationAppend(Expand(ps'), Frame(ps[|ps| - 1]));
      FrameTiming(ps[|ps| - 1], false);
    }
  }

  /** After a run of frames, a pin that received a pulse is low and every other pin is as before. */
  lemma {:induction false} ExpandLevel(ps: seq<Pulse>, ch: Channel, init: bool)
    ensures Level(Expand(ps), ch, init) == (if CountOn(ps, ch) > 0 then false else init)
  {
    if ps != [] {
      var ps' := ps[..|ps| - 1];
      var p := ps[|ps| - 1];
      ExpandLevel(ps', ch, init);
      LevelAppend(Expand(ps'), Frame(p), ch, init);
      FrameSteps(p, ch, Level(Expand(ps'), ch, init));
    }
  }

  /**
   * Starting with the pin low, the time it spends high over a run of frames
   * is the sum of the widths sent to it: the other channels' frames never
   * raise it.
   */
  lemma {:induction false} ExpandHighUs(ps: seq<Pulse>, ch: Channel)
    ensures HighUs(Expand(ps), ch, false) == WidthSum(ps, ch)
  {
    if ps != [] {
      var ps' := ps[..|ps| - 1];
      var p := ps[|ps| - 1];
      ExpandHighUs(ps', ch);
      HighUsAppend(Expand(ps'), Frame(p), ch, false);
      ExpandLevel(ps', ch, false);
      FrameSteps(p, ch, false);
    }
  }

  /** Each pulse is one rising edge on its own pin and on no other. */
  lemma {:induction false} ExpandRises(ps: seq<Pulse>, ch: Channel)
    ensures Rises(Expand(ps), ch) == CountOn(ps, ch)
  {
    if ps != [] {
      var ps' := ps[..|ps| - 1];
      var p := ps[|ps| - 1];
      ExpandRises(ps', ch);
      RisesAppend(Expand(ps'), Frame(p), ch);
      FrameSteps(p, ch, false);
    }
  }

  /** Decoding undoes the expansion: the pulse frames are recoverable from the trace. */
  lemma {:induction false} DecodeExpand(ps: seq<Pulse>)
    ensures Decode(Expand(ps)) == Some(ps)
    decreases |ps|
  {
    if ps != [] {
      var t := Expand(ps);
      ExpandAppend([ps[0]], ps[1..]);
      assert [ps[0]] + ps[1..] == ps;
      ExpandOne(ps[0]);
      assert t[4..] == Expand(ps[1..]);
      DecodeExpand(ps[1..]);
    }
  }

  /** A trace decodes to `ps` exactly when it is the expansion of `ps`. */
  lemma DecodeIff(t: seq<Event>, ps: seq<Pulse>)
    ensures Decode(t) == Some(ps) <==> t == Expand(ps)
  {
    if t == Expand(ps) {
      DecodeExpand(ps);
    }
  }
}
