/**
 * One iteration of the controller loop as a value: from the mode, the loop's
 * remembered state, the mapping, a controller snapshot and the cursor
 * position to the new mode, the new loop state and the calls made into the
 * operating system, in the order the loop makes them.
 */
module Tick {
  import opened Wrappers
  import opened Events
  import opened Sensitivity
  import opened Dispatch
  import opened EdgeDetector
  import opened Motion

  /** The loop's own variables: remembered buttons, trigger latches and sub-pixel remainders. */
  datatype LoopState = LoopState(
    buttons: map<nat, bool>, leftLatch: bool, rightLatch: bool, xRest: real, yRest: real)

  /** The loop's variables when a new loop starts. */
  const FreshLoop: LoopState := LoopState(map[], false, false, 0.0, 0.0)

  /**
   * One read of the controller: axes 0, 1, 3, 4 and 5 in [-1, 1] as pygame
   * reports them, and the state of buttons `0 .. |buttons| - 1`.
   */
  datatype Snapshot = Snapshot(
    leftX: real, leftY: real, rightY: real,
    leftTrigger: real, rightTrigger: real,
    buttons: seq<bool>)

  /** The handler run for one transition. */
  function Handle(mode: Mode, m: Mapping, t: Transition, console: bool): (Mode, seq<Event>) {
    match t
    case Pressed(i) => PressStep(mode, m, i, console)
    case Released(i) => (mode, ReleaseEvents(m, i))
  }

  /** The handlers for transitions `ts`, run in order, each seeing the mode the previous one left. */
  function DispatchAll(mode: Mode, m: Mapping, ts: seq<Transition>, console: bool): (Mode, seq<Event>)
    decreases |ts|
  {
    if ts == [] then (mode, [])
    else
      var before := DispatchAll(mode, m, ts[..|ts| - 1], console);
      var step := Handle(before.0, m, ts[|ts| - 1], console);
      (step.0, before.1 + step.1)
  }

  /** Running one more handler after a run of them. */
  lemma DispatchStep(mode: Mode, m: Mapping, ts: seq<Transition>, t: seq<Transition>, console: bool)
    requires |t| <= 1
    ensures var before := DispatchAll(mode, m, ts, console);
            DispatchAll(mode, m, ts + t, console)
              == if t == [] then before
                 else (Handle(before.0, m, t[0], console).0, before.1 + Handle(before.0, m, t[0], console).1)
  {
    if t == [] {
      assert ts + t == ts;
    } else {
      assert (ts + t)[..|ts|] == ts;
    }
  }

  /** The speed stays the base speed times the multiplier through any run of handlers. */
  lemma {:induction false} DispatchKeepsSpeedConsistent(mode: Mode, m: Mapping, ts: seq<Transition>, console: bool)
    requires SpeedConsistent(mode)
    ensures SpeedConsistent(DispatchAll(mode, m, ts, console).0)
    decreases |ts|
  {
    if ts != [] {
      var before := DispatchAll(mode, m, ts[..|ts| - 1], console);
      DispatchKeepsSpeedConsistent(mode, m, ts[..|ts| - 1], console);
      PressKeepsSpeedConsistent(before.0, m, ts[|ts| - 1].idx, console);
    }
  }

  /** The multiplier after any run of handlers is the one before or one of the three tiers. */
  lemma {:induction false} DispatchMultiplier(mode: Mode, m: Mapping, ts: seq<Transition>, console: bool)
    ensures var r := DispatchAll(mode, m, ts, console).0;
            r.multiplier == mode.multiplier || IsTier(r.multiplier)
    decreases |ts|
  {
    if ts != [] {
      DispatchMultiplier(mode, m, ts[..|ts| - 1], console);
    }
  }

  /** Releases alone never change the mode. */
  lemma {:induction false} ReleasesKeepMode(mode: Mode, m: Mapping, ts: seq<Transition>, console: bool)
    requires forall k :: 0 <= k < |ts| ==> ts[k].Released?
    ensures DispatchAll(mode, m, ts, console).0 == mode
    decreases |ts|
  {
    if ts != [] {
      ReleasesKeepMode(mode, m, ts[..|ts| - 1], console);
    }
  }

  /** One trigger: the new latch and the key event, if any, of its slot. */
  function TriggerStep(latched: bool, axis: real, slot: string): (r: (bool, seq<Event>))
    ensures r.0 == (Rescale(axis) > TriggerThreshold)
    ensures r.1 != [] ==> r.0 != latched
    ensures |r.1| <= 1
  {
    var s := LatchStep(latched, Rescale(axis));
    (s.0, if s.1.Some? then TriggerEvents(slot, s.1.value) else [])
  }

  /**
   * A trigger runs its handler exactly when the latch changes, with the new
   * latch as the direction: a press past the threshold, a release at or below it.
   */
  lemma TriggerStepEmits(latched: bool, axis: real, slot: string)
    ensures var r := TriggerStep(latched, axis, slot);
            r.1 == (if r.0 != latched then TriggerEvents(slot, r.0) else [])
  {
  }

  /**
   * The stick part of an enabled tick: the cursor call, then the scroll call
   * if any, and the new sub-pixel remainders.
   */
  function SticksStep(snap: Snapshot, cx: int, cy: int, dx: real, dy: real,
                      xRest: real, yRest: real): (seq<Event>, real, real)
  {
    var d := Displacement(snap.leftX * AxisScale, snap.leftY * AxisScale, dx, dy);
    var mx := Carry(cx, d.0, xRest);
    var my := Carry(cy, d.1, yRest);
    ([MoveTo(mx.0, my.0)] + ScrollEvents(snap.rightY * AxisScale), mx.1, my.1)
  }

  /** The trigger part of an enabled tick: the left trigger, then the right one. */
  function TriggersStep(leftLatch: bool, rightLatch: bool, snap: Snapshot, m: Mapping): (bool, bool, seq<Event>)
    requires WellFormed(m)
  {
    var lt := TriggerStep(leftLatch, snap.leftTrigger, m.keyboard[LeftTriggerSlot]);
    var rt := TriggerStep(rightLatch, snap.rightTrigger, m.keyboard[RightTriggerSlot]);
    (lt.0, rt.0, lt.1 + rt.1)
  }

  /**
   * The body of `while self.running`: nothing at all while input is
   * disabled or no controller is open; otherwise move the cursor (with
   * `dx, dy` the displacement of the speed formula), scroll, run the button
   * handlers, then check the left and the right trigger.
   */
  function TickSpec(mode: Mode, ls: LoopState, m: Mapping, joystick: bool, snap: Snapshot,
                    cx: int, cy: int, dx: real, dy: real, console: bool): (Mode, LoopState, seq<Event>)
    requires WellFormed(m)
  {
    if mode.disabled || !joystick then (mode, ls, [])
    else
      var sticks := SticksStep(snap, cx, cy, dx, dy, ls.xRest, ls.yRest);
      var buttons := DispatchAll(mode, m, Edges(ls.buttons, snap.buttons), console);
      var triggers := TriggersStep(ls.leftLatch, ls.rightLatch, snap, m);
      (buttons.0,
       LoopState(Commit(ls.buttons, snap.buttons), triggers.0, triggers.1, sticks.1, sticks.2),
       sticks.0 + (buttons.1 + triggers.2))
  }

  /** An enabled tick, part by part: the form the loop body is proved against. */
  lemma EnabledTickParts(mode: Mode, ls: LoopState, m: Mapping, joystick: bool, snap: Snapshot,
                         cx: int, cy: int, dx: real, dy: real, console: bool)
    requires WellFormed(m) && !mode.disabled && joystick
    ensures var sticks := SticksStep(snap, cx, cy, dx, dy, ls.xRest, ls.yRest);
            var buttons := DispatchAll(mode, m, Edges(ls.buttons, snap.buttons), console);
            var triggers := TriggersStep(ls.leftLatch, ls.rightLatch, snap, m);
            TickSpec(mode, ls, m, joystick, snap, cx, cy, dx, dy, console)
              == (buttons.0,
                  LoopState(Commit(ls.buttons, snap.buttons), triggers.0, triggers.1, sticks.1, sticks.2),
                  sticks.0 + (buttons.1 + triggers.2))
  {
  }

  /**
   * While disabled, or with no controller, a tick does nothing: no event, and
   * mode (so `disabled` itself) and loop state unchanged. Input cannot be
   * re-enabled from the controller.
   */
  lemma GateIsInert(mode: Mode, ls: LoopState, m: Mapping, joystick: bool, snap: Snapshot,
                    cx: int, cy: int, dx: real, dy: real, console: bool)
    requires WellFormed(m)
    requires mode.disabled || !joystick
    ensures TickSpec(mode, ls, m, joystick, snap, cx, cy, dx, dy, console) == (mode, ls, [])
  {
  }

  /**
   * An enabled tick first sets the cursor, which with the new remainders is
   * the old position plus the displacement plus the old remainders; the
   * displacement is zero inside the dead zone.
   */
  lemma EnabledTickMoves(mode: Mode, ls: LoopState, m: Mapping, snap: Snapshot,
                         cx: int, cy: int, dx: real, dy: real, console: bool)
    requires WellFormed(m) && !mode.disabled
    ensures var (_, ls', ev) := TickSpec(mode, ls, m, true, snap, cx, cy, dx, dy, console);
            var d := Displacement(snap.leftX * AxisScale, snap.leftY * AxisScale, dx, dy);
            && |ev| >= 1 && ev[0].MoveTo?
            && ev[0].x as real + ls'.xRest == cx as real + d.0 + ls.xRest
            && ev[0].y as real + ls'.yRest == cy as real + d.1 + ls.yRest
            && -1.0 < ls'.xRest < 1.0 && -1.0 < ls'.yRest < 1.0
            && (!OutsideDeadZone(snap.leftX * AxisScale, snap.leftY * AxisScale) ==> d == (0.0, 0.0))
  {
    EnabledTickParts(mode, ls, m, true, snap, cx, cy, dx, dy, console);
    var sticks := SticksStep(snap, cx, cy, dx, dy, ls.xRest, ls.yRest);
    SticksStepMoves(snap, cx, cy, dx, dy, ls.xRest, ls.yRest);
    var rest := DispatchAll(mode, m, Edges(ls.buttons, snap.buttons), console).1
                + TriggersStep(ls.leftLatch, ls.rightLatch, snap, m).2;
    assert (sticks.0 + rest)[0] == sticks.0[0];
  }

  /** The stick part on its own: the cursor call comes first and loses nothing. */
  lemma SticksStepMoves(snap: Snapshot, cx: int, cy: int, dx: real, dy: real, xRest: real, yRest: real)
    ensures var (ev, xr, yr) := SticksStep(snap, cx, cy, dx, dy, xRest, yRest);
            var d := Displacement(snap.leftX * AxisScale, snap.leftY * AxisScale, dx, dy);
            && |ev| >= 1 && ev[0].MoveTo?
            && ev[0].x as real + xr == cx as real + d.0 + xRest
            && ev[0].y as real + yr == cy as real + d.1 + yRest
            && -1.0 < xr < 1.0 && -1.0 < yr < 1.0
  {
  }

  /**
   * An enabled tick remembers every button it read and latches each trigger
   * exactly when its rescaled value is past the threshold.
   */
  lemma EnabledTickRemembers(mode: Mode, ls: LoopState, m: Mapping, snap: Snapshot,
                             cx: int, cy: int, dx: real, dy: real, console: bool)
    requires WellFormed(m) && !mode.disabled
    ensures var (_, ls', _) := TickSpec(mode, ls, m, true, snap, cx, cy, dx, dy, console);
            && (forall i: nat :: i < |snap.buttons| ==> i in ls'.buttons && ls'.buttons[i] == snap.buttons[i])
            && (forall i :: i in ls.buttons && i >= |snap.buttons| ==> i in ls'.buttons && ls'.buttons[i] == ls.buttons[i])
            && ls'.leftLatch == (Rescale(snap.leftTrigger) > TriggerThreshold)
            && ls'.rightLatch == (Rescale(snap.rightTrigger) > TriggerThreshold)
  {
  }

  /** Every tick keeps the speed at the base speed times the multiplier. */
  lemma TickKeepsSpeedConsistent(mode: Mode, ls: LoopState, m: Mapping, joystick: bool, snap: Snapshot,
                                 cx: int, cy: int, dx: real, dy: real, console: bool)
    requires WellFormed(m) && SpeedConsistent(mode)
    ensures SpeedConsistent(TickSpec(mode, ls, m, joystick, snap, cx, cy, dx, dy, console).0)
  {
    DispatchKeepsSpeedConsistent(mode, m, Edges(ls.buttons, snap.buttons), console);
  }

  /** A tick in which no button changes leaves the mode as it was. */
  lemma SteadyTickKeepsMode(mode: Mode, ls: LoopState, m: Mapping, joystick: bool, snap: Snapshot,
                            cx: int, cy: int, dx: real, dy: real, console: bool)
    requires WellFormed(m)
    requires forall i: nat :: i < |snap.buttons| ==> Previous(ls.buttons, i) == snap.buttons[i]
    ensures TickSpec(mode, ls, m, joystick, snap, cx, cy, dx, dy, console).0 == mode
  {
    SteadyStatesRunNothing(ls.buttons, snap.buttons);
  }
}
