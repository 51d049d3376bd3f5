# Gopher360 input translation, modelled in Dafny

PYGopher's `Gopher360App` turns a game controller into a mouse and a
keyboard. A background loop polls the controller about 150 times a second:

- the left stick moves the cursor, carrying sub-pixel remainders between polls;
- the right stick scrolls;
- a button that changes state runs a press or a release handler;
- a trigger that crosses half travel runs the trigger handler.

The press handler matches `hex(button_index)` against the text of the
configured slots:

- The six mouse and function slots form a first-match chain: left, right and
  middle mouse button, console window toggle, input disable, and speed change.
- Every matching keyboard slot then presses the key named by the table of
  Windows virtual-key codes.

This project models that core. The calls into the operating system (cursor,
scroll, mouse buttons, keys, console window) become `Events.Event` values
appended to a log.

The modules, in dependency order:

- `Wrappers`: `Option`.
- `HexCodes`: Python's `hex(n)`, and the supported subset of `int(s, 16)`.
- `KeyCodes`: the virtual-key table and `_get_key_from_hex`.
- `Events`: the operating-system calls, as values.
- `Sensitivity`: the three-tier speed cycle and the clamped adjustment.
- `Dispatch`: the effect of the press, release and trigger handlers, as functions.
- `EdgeDetector`: button edges, the remembered button states, and the trigger latch.
- `Motion`: truncation toward zero, the remainder carry, and scrolling.
- `Tick`: the whole loop body as a function, `TickSpec`.
- `Gopher`: class `App`. It has the application's fields. Its methods do what
  the loop body and the handlers do, step by step: a `for` loop over the
  buttons, a loop over the keyboard slots, and in-place updates of the
  remembered states, the latches and the remainders. Each method is proved
  to have the effect that the matching function of `Dispatch` or `Tick` states.

How the code behaves at these points:

- The mouse and function slots are an `if/elif` chain: only the first slot
  that holds the button's text acts. Every matching keyboard slot then fires.
- A keyboard slot holding `"0x0"` never fires.
- Outside the dead zone the displacement is added. Inside it, the code still
  re-truncates `x + rest`, so a cursor that has crossed 0 since its remainder
  was made moves by one pixel (`Motion.DeadZoneAcrossZeroMoves`).
- Matching is exact string equality with `hex`'s lower-case, no-leading-zero
  form. So the default `start`, `back`, `left_shoulder`, `right_shoulder` and
  `right_trigger` texts (`"0x0D"`, `"0x08"`,
  `"0xA0"`, `"0xA1"`) are never fired by a button
  (`HexCodes.MatchableIffCanonical`, `Dispatch.DefaultSlotsNeverMatch`).
- While input is disabled the loop reads no buttons, so the disable button
  cannot re-enable input (`Tick.GateIsInert`).

## Model

| member | source | states |
|---|---|---|
| HexCodes.DigitChar | ControllerToMouse.py:566 | a digit value below 16 is written as a lower-case hex digit, and only 0 as `'0'` |
| HexCodes.DigitValue | ControllerToMouse.py:637 | `int(·, 16)` reads a hex digit of either case as a value below 16 |
| HexCodes.Value | ControllerToMouse.py:637 | reads a run of hex digits most significant first, as `int(·, 16)` does; specified by `HexCodes.ValueOfDigits` (it inverts `Digits`) and `HexCodes.DigitsOfValue` (canonical digits are the digits of their value) |
| HexCodes.ParseHex | ControllerToMouse.py:637 | the supported part of `int(s, 16)`: an optional `0x`/`0X` prefix then at least one hex digit, and no value otherwise; specified by `HexCodes.HexRoundTrip`, `KeyCodes.ParseTwoDigits` and `KeyCodes.InvalidFromHex` |
| HexCodes.Digits | ControllerToMouse.py:566 | the base-16 digits of `n` are at least one, all lower-case, and start with `0` only for `n == 0` |
| HexCodes.Hex | ControllerToMouse.py:566 | `hex(n)` starts with `0x` and has at least one digit |
| HexCodes.Unprefixed | ControllerToMouse.py:637 | dropping an optional `0x`/`0X` prefix never lengthens the text |
| HexCodes.ValueOfDigits | ControllerToMouse.py:566 | reading the digits of `n` back in base 16 gives `n` |
| HexCodes.HexRoundTrip | ControllerToMouse.py:566 | `int(hex(n), 16) == n` for every button index |
| HexCodes.HexInjective | ControllerToMouse.py:566 | two button indices have the same hex text if and only if they are equal |
| HexCodes.HexIsCanonical | ControllerToMouse.py:566 | every `hex(n)` is `0x` followed by lower-case digits with no leading zero |
| HexCodes.ValuePositive | ControllerToMouse.py:637 | digits that do not start with `0` have a positive value |
| HexCodes.DigitsOfValue | ControllerToMouse.py:566 | canonical digits are the hex digits of their own value |
| HexCodes.MatchableIffCanonical | ControllerToMouse.py:569-576 | a slot text equals `hex(i)` for some button index exactly when it is in canonical form |
| KeyCodes.Lower | ControllerToMouse.py:632 | `lower()` keeps the length of the text |
| KeyCodes.KeyName | ControllerToMouse.py:641-679 | the virtual-key table, code by code; sampled by `KeyCodes.SpaceFromHex`, `KeyCodes.F11FromHex` and `KeyCodes.UnmappedFromHex` |
| KeyCodes.Lookup | ControllerToMouse.py:680 | `key_map.get(key_code, None)`: a parsed code names its table entry, and no parse names no key; tied to `_get_key_from_hex` by `KeyCodes.KeyFromHexIsTableLookup` |
| KeyCodes.KeyFromHex | ControllerToMouse.py:630-683 | empty text and the sentinel `0x0`/`0X0` name no key |
| KeyCodes.NullCodeCases | ControllerToMouse.py:632 | the case-insensitive sentinel test accepts exactly `"0x0"` and `"0X0"` |
| KeyCodes.KeyFromHexIsTableLookup | ControllerToMouse.py:630-683 | the lookup is the table entry for the parsed code when the text parses, and no key otherwise |
| KeyCodes.ParseTwoDigits | ControllerToMouse.py:637 | a prefixed two-digit code is parsed most significant digit first |
| KeyCodes.SpaceFromHex | ControllerToMouse.py:646 | `"0x20"` names `space` |
| KeyCodes.F11FromHex | ControllerToMouse.py:666 | `"0x7A"`, `"0x7a"` and `"7A"` all name `f11` |
| KeyCodes.UnmappedFromHex | ControllerToMouse.py:680 | a well-formed code missing from the table (`0xFF`) names no key |
| KeyCodes.InvalidFromHex | ControllerToMouse.py:681-683 | text that `int(·, 16)` rejects (`"0xZZ"`, `"0x"`) names no key |
| Sensitivity.NextMultiplier | ControllerToMouse.py:583-588 | a speed-change press always lands on one of the three tiers |
| Sensitivity.NextMultiplierTiers | ControllerToMouse.py:583-588 | `<= 0.5` goes to 1.0, `(0.5, 1.0]` goes to 2.0, and above 1.0 wraps to 0.5 |
| Sensitivity.SpeedCycleFromMedium | ControllerToMouse.py:583-588 | from 1.0, three presses give 2.0, then 0.5, then 1.0 |
| Sensitivity.SpeedCyclePeriod | ControllerToMouse.py:583-588 | after one press the multiplier cycles with period three through three distinct tiers |
| Sensitivity.Clamp | ControllerToMouse.py:423 | the adjusted multiplier is in [0.001, 10.0], equals `m + delta` when that is in range, and sticks to the bound it passes |
| Sensitivity.ClampExamples | ControllerToMouse.py:423 | concrete adjustments above the top, below the bottom and inside the range |
| Dispatch.Rank | ControllerToMouse.py:569-591 | each chain slot has its position in the chain order |
| Dispatch.FirstMatch | ControllerToMouse.py:569-591 | the slot found holds `h` and no earlier slot in chain order does; no slot is found only when none holds `h` |
| Dispatch.ToggleWindow | ControllerToMouse.py:685-696 | with a console the hidden flag flips and the window is shown exactly when it was hidden; without one nothing changes |
| Dispatch.ChainPress | ControllerToMouse.py:569-591 | at most one action. `disabled` flips if and only if the disable slot is the first match. `hidden` flips if and only if the window slot is the first match and there is a console. The speed changes only for the speed slot, which moves one tier and keeps the speed consistent. A mouse-down comes exactly from a first-matching mouse slot. A first-matching window slot does exactly what `Dispatch.ToggleWindow` does; a first-matching disable or speed slot emits no event |
| Dispatch.ChainRelease | ControllerToMouse.py:603-608 | at most one mouse-up |
| Dispatch.PressStep | ControllerToMouse.py:564-596 | the press handler: the first-match chain, then every keyboard slot; specified by `Dispatch.ChainPress`, `Dispatch.KeyEvents`, `Dispatch.KeyEventsCount` and `Dispatch.PressKeepsSpeedConsistent` |
| Dispatch.ReleaseEvents | ControllerToMouse.py:598-613 | the release handler: the chain's mouse-up, then the key-ups; specified by `Dispatch.ReleaseMirrorsPress` and `Dispatch.ReleaseOnlyLetsGo` |
| Dispatch.KeyEvents | ControllerToMouse.py:594-596 | every emitted event is the key event for `_get_key_from_hex(h)`; nothing is emitted for the sentinel; at most one event per slot |
| Dispatch.KeyEventsStep | ControllerToMouse.py:594-596 | the keyboard loop one slot further appends that slot's event exactly when the slot holds `h` and is not the sentinel |
| Dispatch.KeyEventsCount | ControllerToMouse.py:594-596 | the keyboard loop emits exactly one event per matching non-sentinel slot |
| Dispatch.ReleaseMirrorsPress | ControllerToMouse.py:569-574 | a release lets go of exactly the mouse button the press held down, and of none when the press held none |
| Dispatch.ReleaseOnlyLetsGo | ControllerToMouse.py:598-613 | a release emits only mouse-ups and key-ups |
| Dispatch.PressKeepsSpeedConsistent | ControllerToMouse.py:589 | the speed stays the base speed times the multiplier across every press |
| Dispatch.ButtonZeroIsLeftClick | ControllerToMouse.py:566-570 | with `mouse_left` at `"0x0"`, button 0 presses and releases the left button and never a key |
| Dispatch.DefaultSlotsNeverMatch | ControllerToMouse.py:65-76 | under the default mapping, the `start`, `back`, `left_shoulder`, `right_shoulder` and `right_trigger` texts equal no `hex(n)` |
| Dispatch.Hex38 | ControllerToMouse.py:566 | `hex(38)` is `"0x26"` |
| Dispatch.DefaultUpSlot | ControllerToMouse.py:61 | under the default mapping, `"0x26"` fires only the `dpad_up` slot, once, naming `up` |
| Dispatch.DefaultButton38PressesUp | ControllerToMouse.py:564-596 | under the default mapping, button 38 presses the up arrow and nothing else, and leaves the mode unchanged |
| Dispatch.DefaultButton38ReleasesUp | ControllerToMouse.py:598-613 | under the default mapping, releasing button 38 lets go of the up arrow and nothing else |
| Dispatch.TriggerEvents | ControllerToMouse.py:615-628 | a trigger emits one key event exactly when its slot names a key, and none for the sentinel or a slot that names no key |
| EdgeDetector.Previous | ControllerToMouse.py:515 | `button_states.get(i, False)`: an index never read counts as released; used by `EdgeDetector.EdgesSound` and `EdgeDetector.EdgesComplete` |
| EdgeDetector.EdgeAt | ControllerToMouse.py:517-522 | a press for a change to pressed, a release for a change to released, nothing otherwise; specified by `EdgeDetector.EdgesSound`, `EdgeDetector.EdgesComplete` and `EdgeDetector.SteadyStatesRunNothing` |
| EdgeDetector.Edges | ControllerToMouse.py:513-522 | the button loop runs at most one handler per index read |
| EdgeDetector.Commit | ControllerToMouse.py:524 | every index read is remembered with its current state; other remembered indices keep their state; nothing else is added |
| EdgeDetector.EdgesStep | ControllerToMouse.py:513-524 | one more index appends that index's handler, if any, and its remembered state, judged against the state before the loop |
| EdgeDetector.EdgesSound | ControllerToMouse.py:517-522 | every handler run is for an index read whose state changed. A press is exactly a change to pressed. Indices increase |
| EdgeDetector.EdgesComplete | ControllerToMouse.py:517-522 | every index whose state changed runs its press or release handler |
| EdgeDetector.SteadyStatesRunNothing | ControllerToMouse.py:517-522 | equal states run no handler |
| EdgeDetector.HeldButtonFiresOnce | ControllerToMouse.py:513-524 | the poll after a loop runs no handler for buttons that stayed as they were |
| EdgeDetector.LatchStep | ControllerToMouse.py:535-540 | the new latch is `value > 0.5`. A press fires exactly when past 0.5 and unlatched. A release fires exactly when at or below 0.5 and latched. Otherwise nothing fires |
| EdgeDetector.Rescale | ControllerToMouse.py:529-530 | maps the axis range [-1, 1] onto [0, 1], so a trigger at rest sits at 0.5; specified by `EdgeDetector.ThresholdIsStrict` |
| EdgeDetector.LatchRun | ControllerToMouse.py:535-540 | the latch over a run of polls; specified by `EdgeDetector.LatchRunAlternates` and `EdgeDetector.HeldTriggerFiresOnce` |
| EdgeDetector.ThresholdIsStrict | ControllerToMouse.py:529-535 | a trigger at rest (0.5 after rescaling) is not pressed; 0.51 is |
| EdgeDetector.LatchRunAlternates | ControllerToMouse.py:535-540 | over a run of polls the handlers alternate, the first one flips the starting latch, and the final latch is the last one's direction |
| EdgeDetector.HeldTriggerFiresOnce | ControllerToMouse.py:535-540 | holding a trigger past the threshold from rest fires exactly one press |
| Motion.Trunc | ControllerToMouse.py:500-503 | `int(r)` truncates toward zero: within one below a non-negative `r`, within one above a negative one |
| Motion.Carry | ControllerToMouse.py:497-503 | position plus new remainder is exactly `x + d + rest`; the remainder is below one in size and has the target's sign |
| Motion.Displacement | ControllerToMouse.py:485-495 | the displacement outside the dead zone and none inside it; specified by `Tick.EnabledTickMoves` |
| Motion.DeadZoneKeepsCursor | ControllerToMouse.py:486-503 | with no displacement and a remainder of the coordinate's sign, the cursor and the remainder stay |
| Motion.DeadZoneAcrossZeroMoves | ControllerToMouse.py:497-503 | at x = -3 with remainder 0.5 and no displacement the cursor still moves to -2 |
| Motion.Glide | ControllerToMouse.py:497-503 | the cursor and remainder after `n` polls with one displacement; specified by `Motion.GlideLosesNothing` and `Motion.GlideFromOrigin` |
| Motion.GlideLosesNothing | ControllerToMouse.py:497-501 | after `n` polls with the same displacement, position plus remainder is the start plus `n` displacements exactly |
| Motion.SmallStepMovesZeroOrOne | ControllerToMouse.py:497-503 | a forward step under one pixel moves a cursor at x >= 0 by 0 or 1 pixel |
| Motion.GlideFromOrigin | ControllerToMouse.py:497-503 | from the origin with displacement `d >= 0`, after `n` polls the cursor is at `int(n * d)` |
| Motion.ScrollEvents | ControllerToMouse.py:506-509 | a scroll is emitted exactly when the axis is past 5000 in size, at most once per poll |
| Motion.ScrollFollowsStick | ControllerToMouse.py:507-509 | a scroll goes at least 25 clicks in the stick's direction |
| Tick.Handle | ControllerToMouse.py:513-522 | one button edge runs the press handler (`Dispatch.PressStep`) or the release handler, which keeps the mode (`Tick.ReleasesKeepMode`) |
| Tick.DispatchAll | ControllerToMouse.py:513-522 | the handlers of a run of edges, each from the mode the previous one left; specified by `Tick.DispatchStep`, `Tick.DispatchKeepsSpeedConsistent`, `Tick.DispatchMultiplier` and `Tick.ReleasesKeepMode` |
| Tick.DispatchStep | ControllerToMouse.py:513-522 | running one more handler continues from the mode the earlier ones left and appends its events |
| Tick.DispatchKeepsSpeedConsistent | ControllerToMouse.py:589 | any run of handlers keeps the speed at the base speed times the multiplier |
| Tick.DispatchMultiplier | ControllerToMouse.py:583-588 | after any run of handlers the multiplier is the one before or one of the tiers |
| Tick.ReleasesKeepMode | ControllerToMouse.py:598-613 | release handlers never change the mode |
| Tick.TriggerStep | ControllerToMouse.py:529-547 | the new latch is the rescaled value past 0.5; an event only on a change of latch; at most one event (the events themselves: `Tick.TriggerStepEmits`) |
| Tick.TriggerStepEmits | ControllerToMouse.py:535-547 | a trigger whose latch changes runs its handler with the new latch as the direction, emitting `Dispatch.TriggerEvents` for its slot; a trigger whose latch stays emits nothing |
| Tick.SticksStep | ControllerToMouse.py:481-509 | the stick part of an enabled poll: the cursor call, then the scrolls; specified by `Tick.SticksStepMoves` |
| Tick.TriggersStep | ControllerToMouse.py:529-547 | the left then the right trigger, each by `Tick.TriggerStep`; specified by `Tick.TriggerStep`, `Tick.TriggerStepEmits` and `Tick.EnabledTickRemembers` |
| Tick.TickSpec | ControllerToMouse.py:479-547 | one pass of the loop body; specified by `Tick.GateIsInert`, `Tick.EnabledTickMoves`, `Tick.EnabledTickRemembers`, `Tick.TickKeepsSpeedConsistent` and `Tick.SteadyTickKeepsMode` |
| Tick.GateIsInert | ControllerToMouse.py:479 | while disabled or with no controller, a poll emits nothing and changes neither the mode nor the loop state |
| Tick.EnabledTickMoves | ControllerToMouse.py:481-503 | an enabled poll first sets the cursor. With the new remainders this is exactly the old position plus the displacement plus the old remainders. The remainders stay below one in size. The displacement is zero inside the dead zone |
| Tick.SticksStepMoves | ControllerToMouse.py:481-509 | the stick part starts with the cursor call and loses no motion |
| Tick.EnabledTickRemembers | ControllerToMouse.py:513-547 | an enabled poll remembers every button read, keeps the others, and latches each trigger exactly when it is past the threshold |
| Tick.TickKeepsSpeedConsistent | ControllerToMouse.py:479-547 | every poll keeps the speed at the base speed times the multiplier |
| Tick.SteadyTickKeepsMode | ControllerToMouse.py:513-524 | a poll in which no button changes leaves the mode as it was |
| Gopher.App.constructor | ControllerToMouse.py:30-39 | a new application is stopped and enabled, with the configured mapping, the multiplier and a consistent speed, an open controller if one was found, fresh loop variables and an empty log |
| Gopher.App.ConnectController | ControllerToMouse.py:250-272 | a controller is open exactly when at least one device is found |
| Gopher.App.Start | ControllerToMouse.py:441-450 | the loop runs afterwards exactly when it ran before or a controller is open. A new loop starts with fresh variables. Otherwise nothing changes |
| Gopher.App.Stop | ControllerToMouse.py:457-460 | the loop is stopped afterwards |
| Gopher.App.AdjustSensitivity | ControllerToMouse.py:420-424 | the multiplier becomes the clamped sum and the speed stays consistent |
| Gopher.App.ToggleWindowVisibility | ControllerToMouse.py:685-696 | the `hidden` flag and the log change as `Dispatch.ToggleWindow` says |
| Gopher.App.HandlePress | ControllerToMouse.py:564-596 | the mode and the log change as `Dispatch.PressStep` says: the first-match chain, then the keyboard slots |
| Gopher.App.HandleRelease | ControllerToMouse.py:598-613 | the log grows by `Dispatch.ReleaseEvents` |
| Gopher.App.SendKeys | ControllerToMouse.py:594-596 | the keyboard loop appends exactly `Dispatch.KeyEvents` for the button's text |
| Gopher.App.HandleTrigger | ControllerToMouse.py:615-628 | the log grows by `Dispatch.TriggerEvents` for the trigger's slot |
| Gopher.App.HandleEdge | ControllerToMouse.py:515-522 | one index of the button loop extends the run of handlers by that index's handler, if any |
| Gopher.App.ScanButtons | ControllerToMouse.py:512-524 | from the mode, remembered states and log it starts with, the button loop leaves the mode and the log as the handlers for `Edges` of those states leave them, and the remembered states as `Commit` of them |
| Gopher.App.MoveCursor | ControllerToMouse.py:481-503 | the cursor is set to the carried target and the remainders are kept, as `Motion.Carry` says |
| Gopher.App.ScrollWheel | ControllerToMouse.py:506-509 | the log grows by `Motion.ScrollEvents` |
| Gopher.App.CheckTrigger | ControllerToMouse.py:535-547 | one trigger's latch and log change as `Tick.TriggerStep` says; the other latch is unchanged |
| Gopher.App.Sticks | ControllerToMouse.py:481-509 | the stick part of a poll, as `Tick.SticksStep` |
| Gopher.App.Triggers | ControllerToMouse.py:529-547 | the left then the right trigger, as `Tick.TriggersStep` |
| Gopher.App.SticksThenButtons | ControllerToMouse.py:481-524 | the sticks and then the buttons, each from the state the previous part left |
| Gopher.App.Poll | ControllerToMouse.py:479-547 | the mode, the loop variables and the log change as the three parts of an enabled poll say |
| Gopher.App.Tick | ControllerToMouse.py:475-547 | one pass of the loop changes the mode, the loop variables and the log exactly as `Tick.TickSpec` says, and keeps the speed consistent |

## Left out

- The Tk interface is not modelled: widgets, status and speed texts, message
  boxes, and the rebuild of the entry widgets. The text of the entry widgets
  is the `Mapping` value held by the application.
- Configuration files are not modelled: `load_config`, `save_config` and
  `load_defaults` are file I/O. So are the saves after a speed change and
  after an adjustment. `configparser` never lists `DEFAULT` among its
  sections, so `has_section('DEFAULT')` (ControllerToMouse.py:287) is always
  false and `load_config` always rewrites every slot with its default and the
  multiplier with 1.0 (ControllerToMouse.py:300-305); the saved-settings
  branch (ControllerToMouse.py:324) never runs. The program therefore always
  starts with `Dispatch.DefaultMapping` and multiplier 1.0. The application is
  constructed with any well-formed mapping and any multiplier instead, because
  the entry widgets can be edited and saved afterwards.
- An exception raised inside the loop body (ControllerToMouse.py:475-547 has
  no `try`; a pygame error after the controller is unplugged, say) ends the
  thread while `running` stays true. `Tick` always completes and does not
  model that.
- pygame device enumeration and axis and button reads are inputs:
  `ConnectController` takes the device count, and a poll takes a `Snapshot`.
- The current cursor position (`GetCursorPos`) is an input of each poll.
  Whether a console window exists (`GetConsoleWindow`) is a constant of the application.
- The stick displacement (the square-root speed formula) is an input `dx, dy` of each poll.
- Floating point is not modelled: reals stand in for Python floats exactly,
  without rounding.
- The thread, `join(timeout=1)`, `on_closing` and the 150 Hz sleep are
  concurrency and timing. The loop is modelled as a sequence of `Tick` calls
  while `running` holds.
- What pyautogui does with `keyDown(None)` is not modelled. The handlers can
  pass `None`; the model records it as `KeyDown(None)`.
- KeyCodes.KeyFromHex: reads only the subset of `int(s, 16)` made of an
  optional `0x`/`0X` prefix and hex digits. Surrounding whitespace, a sign
  and `_` separators, which Python also accepts, are read as invalid.
- KeyCodes.Lower: lower-cases ASCII letters only. That is enough for the
  sentinel test, which compares against an ASCII string of the same length.
- KeyCodes.KeyFromHex: the status message shown for an invalid code is an
  interface side effect and is not modelled.
- Motion.ScrollEvents: the scroll amount is `int(axis * 0.005)` on exact reals, not floats.
