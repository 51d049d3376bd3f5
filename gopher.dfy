/**
 * The application object: the fields the controller loop and its handlers
 * update, the loop's own variables, the mapping entries' text, and the log of
 * calls made into the operating system. Each method is proved to have the
 * effect the matching function of modules Dispatch and Tick describes.
 */
module Gopher {
  import opened Wrappers
  import opened HexCodes
  import opened KeyCodes
  import opened Events
  import opened Sensitivity
  import opened Dispatch
  import opened EdgeDetector
  import opened Motion
  import opened Tick

  /** Appending the events of one handler to a log that already holds the earlier ones. */
  lemma Regroup(log: seq<Event>, earlier: seq<Event>, later: seq<Event>)
    ensures log + earlier + later == log + (earlier + later)
  {
  }

  class App {
    var running: bool
    var disabled: bool
    var hidden: bool
    /** Whether a controller is open (`self.joystick` is not None). */
    var joystick: bool
    var sensitivity: real
    var currentSpeed: real
    /** What the mapping entry widgets hold. */
    var mapping: Mapping
    /** Whether the process has a console window to hide and show. */
    const console: bool

    // The controller loop's variables, reset whenever a new loop starts.
    var buttonStates: map<nat, bool>
    var leftLatch: bool
    var rightLatch: bool
    var xRest: real
    var yRest: real

    /** Every call made into the operating system so far, oldest first. */
    var events: seq<Event>

    ghost predicate Valid()
      reads this
    {
      WellFormed(mapping) && currentSpeed == BaseSpeed * sensitivity
    }

    function ModeOf(): Mode
      reads this`disabled, this`hidden, this`sensitivity, this`currentSpeed
    {
      Mode(disabled, hidden, sensitivity, currentSpeed)
    }

    function LoopOf(): LoopState
      reads this`buttonStates, this`leftLatch, this`rightLatch, this`xRest, this`yRest
    {
      LoopState(buttonStates, leftLatch, rightLatch, xRest, yRest)
    }

    /**
     * A stopped, enabled application with the mapping and the multiplier the
     * configuration gave, connected to a controller if one was found.
     */
    constructor (mapping: Mapping, multiplier: real, deviceCount: nat, console: bool)
      requires WellFormed(mapping)
      ensures Valid()
      ensures !running && !disabled && !hidden && joystick == (deviceCount > 0)
      ensures this.mapping == mapping && sensitivity == multiplier && this.console == console
      ensures LoopOf() == FreshLoop && events == []
    {
      running, disabled, hidden := false, false, false;
      sensitivity := multiplier;
      currentSpeed := BaseSpeed * multiplier;
      this.mapping := mapping;
      this.console := console;
      joystick := deviceCount > 0;
      buttonStates, leftLatch, rightLatch, xRest, yRest := map[], false, false, 0.0, 0.0;
      events := [];
    }

    /** `connect_controller`: opens the first controller if there is one. */
    method ConnectController(deviceCount: nat)
      modifies this`joystick
      ensures joystick == (deviceCount > 0)
    {
      joystick := deviceCount > 0;
    }

    /**
     * `start_gopher`: without a controller, or when already running, nothing
     * changes; otherwise the loop starts with fresh variables.
     */
    method Start()
      modifies this`running, this`buttonStates, this`leftLatch, this`rightLatch, this`xRest, this`yRest
      ensures running == (old(running) || joystick)
      ensures !old(running) && joystick ==> LoopOf() == FreshLoop
      ensures old(running) || !joystick ==> LoopOf() == old(LoopOf()) && running == old(running)
    {
      if !joystick {
        return;
      }
      if !running {
        running := true;
        buttonStates, leftLatch, rightLatch, xRest, yRest := map[], false, false, 0.0, 0.0;
      }
    }

    /** `stop_gopher`: clears `running` if it was set; stopping a stopped loop changes nothing. */
    method Stop()
      modifies this`running
      ensures !running
    {
      if running {
        running := false;
      }
    }

    /** `adjust_sensitivity`: the clamped multiplier and the speed that goes with it. */
    method AdjustSensitivity(delta: real)
      requires Valid()
      modifies this`sensitivity, this`currentSpeed
      ensures Valid()
      ensures sensitivity == Clamp(old(sensitivity), delta)
    {
      sensitivity := Max(MinMultiplier, Min(MaxMultiplier, sensitivity + delta));
      currentSpeed := BaseSpeed * sensitivity;
    }

    /** `_toggle_window_visibility`. */
    method ToggleWindowVisibility()
      modifies this`hidden, this`events
      ensures ModeOf() == ToggleWindow(old(ModeOf()), console).0
      ensures events == old(events) + ToggleWindow(old(ModeOf()), console).1
    {
      if console {
        if hidden {
          events := events + [SetConsoleVisible(true)];
          hidden := false;
        } else {
          events := events + [SetConsoleVisible(false)];
          hidden := true;
        }
      }
    }

    /** `_handle_button_press`: the first matching chain slot acts, then every matching keyboard slot. */
    method HandlePress(idx: nat)
      requires Valid()
      modifies this`disabled, this`hidden, this`sensitivity, this`currentSpeed, this`events
      ensures Valid()
      ensures ModeOf() == PressStep(old(ModeOf()), mapping, idx, console).0
      ensures events == old(events) + PressStep(old(ModeOf()), mapping, idx, console).1
    {
      var buttonHex := Hex(idx);
      if buttonHex == mapping.mouseLeft {
        events := events + [MouseDown(LeftButton)];
      } else if buttonHex == mapping.mouseRight {
        events := events + [MouseDown(RightButton)];
      } else if buttonHex == mapping.mouseMiddle {
        events := events + [MouseDown(MiddleButton)];
      } else if buttonHex == mapping.hideWindow {
        ToggleWindowVisibility();
      } else if buttonHex == mapping.disableGopher {
        disabled := !disabled;
      } else if buttonHex == mapping.speedChange {
        if sensitivity <= SpeedLow {
          sensitivity := SpeedMed;
        } else if sensitivity <= SpeedMed {
          sensitivity := SpeedHigh;
        } else {
          sensitivity := SpeedLow;
        }
        currentSpeed := BaseSpeed * sensitivity;
      }
      assert ModeOf() == ChainPress(old(ModeOf()), mapping, buttonHex, console).0;
      assert events == old(events) + ChainPress(old(ModeOf()), mapping, buttonHex, console).1;
      SendKeys(buttonHex, true);
      Regroup(old(events), ChainPress(old(ModeOf()), mapping, buttonHex, console).1, KeyEvents(mapping.keyboard, buttonHex, true));
    }

    /** `_handle_button_release`: the first matching mouse slot lets go, then every matching keyboard slot. */
    method HandleRelease(idx: nat)
      modifies this`events
      ensures events == old(events) + ReleaseEvents(mapping, idx)
    {
      var buttonHex := Hex(idx);
      if buttonHex == mapping.mouseLeft {
        events := events + [MouseUp(LeftButton)];
      } else if buttonHex == mapping.mouseRight {
        events := events + [MouseUp(RightButton)];
      } else if buttonHex == mapping.mouseMiddle {
        events := events + [MouseUp(MiddleButton)];
      }
      SendKeys(buttonHex, false);
      Regroup(old(events), ChainRelease(mapping, buttonHex), KeyEvents(mapping.keyboard, buttonHex, false));
    }

    /**
     * The keyboard loop of both button handlers: a key event for every
     * keyboard slot whose text is `buttonHex` and is not the sentinel.
     */
    method SendKeys(buttonHex: string, down: bool)
      modifies this`events
      ensures events == old(events) + KeyEvents(mapping.keyboard, buttonHex, down)
    {
      var keys := mapping.keyboard;
      for k := 0 to |keys|
        invariant events == old(events) + KeyEvents(keys[..k], buttonHex, down)
      {
        var value := keys[k];
        KeyEventsStep(keys, buttonHex, down, k);
        if buttonHex == value && value != NullCode {
          if down {
            events := events + [KeyDown(KeyFromHex(value))];
          } else {
            events := events + [KeyUp(KeyFromHex(value))];
          }
        }
      }
      assert keys[..|keys|] == keys;
    }

    /** `_handle_trigger`: the key of the trigger's slot goes down or up, if the slot names one. */
    method HandleTrigger(left: bool, pressed: bool)
      requires WellFormed(mapping)
      modifies this`events
      ensures events == old(events)
                + TriggerEvents(mapping.keyboard[if left then LeftTriggerSlot else RightTriggerSlot], pressed)
    {
      var keyHex := if left then mapping.keyboard[LeftTriggerSlot] else mapping.keyboard[RightTriggerSlot];
      if keyHex != NullCode {
        var key := KeyFromHex(keyHex);
        if key.Some? {
          if pressed {
            events := events + [KeyDown(key)];
          } else {
            events := events + [KeyUp(key)];
          }
        }
      }
    }

    /**
     * The body of the button loop for index `idx` read as `current`: the
     * handler for a change, if any. After the handlers for `done`, it leaves
     * the mode and the log as the handlers for `done` and this change leave them.
     */
    method HandleEdge(idx: nat, current: bool, ghost mode0: Mode, ghost log0: seq<Event>, ghost done: seq<Transition>)
      requires Valid()
      requires ModeOf() == DispatchAll(mode0, mapping, done, console).0
      requires events == log0 + DispatchAll(mode0, mapping, done, console).1
      modifies this`disabled, this`hidden, this`sensitivity, this`currentSpeed, this`events
      ensures Valid()
      ensures var r := DispatchAll(mode0, mapping, done + EdgeAt(buttonStates, idx, current), console);
              ModeOf() == r.0 && events == log0 + r.1
    {
      ghost var before := DispatchAll(mode0, mapping, done, console);
      DispatchStep(mode0, mapping, done, EdgeAt(buttonStates, idx, current), console);
      var prevState := if idx in buttonStates then buttonStates[idx] else false;
      if current && !prevState {
        HandlePress(idx);
        Regroup(log0, before.1, PressStep(before.0, mapping, idx, console).1);
      } else if !current && prevState {
        HandleRelease(idx);
        Regroup(log0, before.1, ReleaseEvents(mapping, idx));
      }
    }

    /** The button loop: each read index runs its handler on a change and is remembered. */
    method ScanButtons(buttons: seq<bool>, ghost mode0: Mode, ghost prev: map<nat, bool>, ghost log0: seq<Event>)
      requires Valid() && ModeOf() == mode0 && buttonStates == prev && events == log0
      modifies this`disabled, this`hidden, this`sensitivity, this`currentSpeed, this`events, this`buttonStates
      ensures Valid()
      ensures buttonStates == Commit(prev, buttons)
      ensures var r := DispatchAll(mode0, mapping, Edges(prev, buttons), console);
              ModeOf() == r.0 && events == log0 + r.1
    {
      var numButtons := |buttons|;
      for idx := 0 to numButtons
        invariant Valid()
        invariant buttonStates == Commit(prev, buttons[..idx])
        invariant ModeOf() == DispatchAll(mode0, mapping, Edges(prev, buttons[..idx]), console).0
        invariant events == log0 + DispatchAll(mode0, mapping, Edges(prev, buttons[..idx]), console).1
      {
        EdgesStep(prev, buttons, idx);
        var currentState := buttons[idx];
        HandleEdge(idx, currentState, mode0, log0, Edges(prev, buttons[..idx]));
        buttonStates := buttonStates[idx := currentState];
      }
      assert buttons[..numButtons] == buttons;
    }

    /** The left stick: the cursor is set to the carried target, `dx, dy` away unless in the dead zone. */
    method MoveCursor(stickX: real, stickY: real, cx: int, cy: int, dx: real, dy: real)
      modifies this`xRest, this`yRest, this`events
      ensures var d := Displacement(stickX * AxisScale, stickY * AxisScale, dx, dy);
              var mx := Carry(cx, d.0, old(xRest));
              var my := Carry(cy, d.1, old(yRest));
              xRest == mx.1 && yRest == my.1 && events == old(events) + [MoveTo(mx.0, my.0)]
    {
      var axisX := stickX * AxisScale;
      var axisY := stickY * AxisScale;
      var moveX, moveY := 0.0, 0.0;
      if axisX * axisX + axisY * axisY > (DeadZone * DeadZone) as real {
        moveX, moveY := dx, dy;
      }
      var newX := cx as real + moveX + xRest;
      var newY := cy as real + moveY + yRest;
      xRest := newX - Trunc(newX) as real;
      yRest := newY - Trunc(newY) as real;
      events := events + [MoveTo(Trunc(newX), Trunc(newY))];
    }

    /** The right stick: one scroll call outside its dead zone. */
    method ScrollWheel(stickY: real)
      modifies this`events
      ensures events == old(events) + ScrollEvents(stickY * AxisScale)
    {
      var scrollAxis := stickY * AxisScale;
      if Abs(scrollAxis) > ScrollDeadZone as real {
        events := events + [Scroll(Trunc(scrollAxis * ScrollFactor))];
      }
    }

    /** One trigger (the left one when `left`): its latch follows the threshold and a change runs the handler. */
    method CheckTrigger(left: bool, axis: real)
      requires WellFormed(mapping)
      modifies this`leftLatch, this`rightLatch, this`events
      ensures var r := TriggerStep(old(if left then leftLatch else rightLatch), axis,
                                   mapping.keyboard[if left then LeftTriggerSlot else RightTriggerSlot]);
              (if left then leftLatch == r.0 && rightLatch == old(rightLatch)
               else rightLatch == r.0 && leftLatch == old(leftLatch))
              && events == old(events) + r.1
    {
      var value := (axis + 1.0) / 2.0;
      var latched := if left then leftLatch else rightLatch;
      if value > TriggerThreshold && !latched {
        if left { leftLatch := true; } else { rightLatch := true; }
        HandleTrigger(left, true);
      } else if value <= TriggerThreshold && latched {
        if left { leftLatch := false; } else { rightLatch := false; }
        HandleTrigger(left, false);
      }
    }

    /** The two sticks: the cursor move, then the scroll. */
    method Sticks(snap: Snapshot, cx: int, cy: int, dx: real, dy: real)
      modifies this`xRest, this`yRest, this`events
      ensures var s := SticksStep(snap, cx, cy, dx, dy, old(xRest), old(yRest));
              xRest == s.1 && yRest == s.2 && events == old(events) + s.0
    {
      ghost var d := Displacement(snap.leftX * AxisScale, snap.leftY * AxisScale, dx, dy);
      ghost var move := [MoveTo(Carry(cx, d.0, xRest).0, Carry(cy, d.1, yRest).0)];
      MoveCursor(snap.leftX, snap.leftY, cx, cy, dx, dy);
      ScrollWheel(snap.rightY);
      Regroup(old(events), move, ScrollEvents(snap.rightY * AxisScale));
    }

    /** The two triggers, left then right. */
    method Triggers(snap: Snapshot)
      requires WellFormed(mapping)
      modifies this`leftLatch, this`rightLatch, this`events
      ensures var t := TriggersStep(old(leftLatch), old(rightLatch), snap, mapping);
              leftLatch == t.0 && rightLatch == t.1 && events == old(events) + t.2
    {
      ghost var lt := TriggerStep(leftLatch, snap.leftTrigger, mapping.keyboard[LeftTriggerSlot]);
      ghost var rt := TriggerStep(rightLatch, snap.rightTrigger, mapping.keyboard[RightTriggerSlot]);
      CheckTrigger(true, snap.leftTrigger);
      CheckTrigger(false, snap.rightTrigger);
      Regroup(old(events), lt.1, rt.1);
    }

    /** The first two parts of a loop body: the sticks, then the buttons. */
    method SticksThenButtons(snap: Snapshot, cx: int, cy: int, dx: real, dy: real,
                             ghost mode0: Mode, ghost ls0: LoopState, ghost log0: seq<Event>)
      requires Valid() && ModeOf() == mode0 && LoopOf() == ls0 && events == log0
      modifies this`disabled, this`hidden, this`sensitivity, this`currentSpeed, this`events,
               this`buttonStates, this`xRest, this`yRest
      ensures Valid()
      ensures var sticks := SticksStep(snap, cx, cy, dx, dy, ls0.xRest, ls0.yRest);
              var buttons := DispatchAll(mode0, mapping, Edges(ls0.buttons, snap.buttons), console);
              && ModeOf() == buttons.0
              && LoopOf() == LoopState(Commit(ls0.buttons, snap.buttons), ls0.leftLatch, ls0.rightLatch, sticks.1, sticks.2)
              && events == log0 + sticks.0 + buttons.1
    {
      Sticks(snap, cx, cy, dx, dy);
      ghost var log1 := events;
      ScanButtons(snap.buttons, mode0, ls0.buttons, log1);
    }

    /**
     * The body of the controller loop while input is enabled and a controller
     * is open, from mode `mode0`, loop state `ls0` and log `log0`.
     */
    method Poll(snap: Snapshot, cx: int, cy: int, dx: real, dy: real,
                ghost mode0: Mode, ghost ls0: LoopState, ghost log0: seq<Event>)
      requires Valid() && ModeOf() == mode0 && LoopOf() == ls0 && events == log0
      modifies this`disabled, this`hidden, this`sensitivity, this`currentSpeed, this`events,
               this`buttonStates, this`leftLatch, this`rightLatch, this`xRest, this`yRest
      ensures Valid()
      ensures var sticks := SticksStep(snap, cx, cy, dx, dy, ls0.xRest, ls0.yRest);
              var buttons := DispatchAll(mode0, mapping, Edges(ls0.buttons, snap.buttons), console);
              var triggers := TriggersStep(ls0.leftLatch, ls0.rightLatch, snap, mapping);
              && ModeOf() == buttons.0
              && LoopOf() == LoopState(Commit(ls0.buttons, snap.buttons), triggers.0, triggers.1, sticks.1, sticks.2)
              && events == log0 + (sticks.0 + (buttons.1 + triggers.2))
    {
      ghost var s := SticksStep(snap, cx, cy, dx, dy, ls0.xRest, ls0.yRest);
      ghost var b := DispatchAll(mode0, mapping, Edges(ls0.buttons, snap.buttons), console);
      ghost var t := TriggersStep(ls0.leftLatch, ls0.rightLatch, snap, mapping);
      SticksThenButtons(snap, cx, cy, dx, dy, mode0, ls0, log0);
      Triggers(snap);
      Regroup(log0 + s.0, b.1, t.2);
      Regroup(log0, s.0, b.1 + t.2);
    }

    /** One iteration of the controller loop, with `dx, dy` the displacement the speed formula gives. */
    method Tick(snap: Snapshot, cx: int, cy: int, dx: real, dy: real)
      requires Valid() && running
      modifies this`disabled, this`hidden, this`sensitivity, this`currentSpeed, this`events,
               this`buttonStates, this`leftLatch, this`rightLatch, this`xRest, this`yRest
      ensures Valid()
      ensures var r := TickSpec(old(ModeOf()), old(LoopOf()), mapping, joystick, snap, cx, cy, dx, dy, console);
              ModeOf() == r.0 && LoopOf() == r.1 && events == old(events) + r.2
    {
      if !disabled && joystick {
        EnabledTickParts(ModeOf(), LoopOf(), mapping, joystick, snap, cx, cy, dx, dy, console);
        Poll(snap, cx, cy, dx, dy, ModeOf(), LoopOf(), events);
      }
    }
  }
}
