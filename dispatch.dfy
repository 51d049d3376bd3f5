/**
 * What a button press, a button release and a trigger crossing do: the
 * configured slot strings, the first-match chain of the six mouse and
 * function slots, and the keyboard slots, every matching one of which fires.
 * The handlers themselves, which change the application's fields, are in
 * module Gopher; this module states their effect as values.
 */
module Dispatch {
  import opened Wrappers
  import opened HexCodes
  import opened KeyCodes
  import opened Events
  import opened Sensitivity

  /** The keyboard slots, in the order the handlers visit them. */
  const KeyboardSlotNames: seq<string> := [
    "dpad_up", "dpad_down", "dpad_left", "dpad_right",
    "start", "back", "left_thumb", "right_thumb",
    "left_shoulder", "right_shoulder",
    "a_button", "b_button", "x_button", "y_button",
    "left_trigger", "right_trigger"
  ]
  const LeftTriggerSlot: nat := 14
  const RightTriggerSlot: nat := 15

  /** The text of every mapping entry: six chain slots and the keyboard slots in order. */
  datatype Mapping = Mapping(
    mouseLeft: string, mouseRight: string, mouseMiddle: string,
    hideWindow: string, disableGopher: string, speedChange: string,
    keyboard: seq<string>)

  predicate WellFormed(m: Mapping) {
    |m.keyboard| == |KeyboardSlotNames|
  }

  /** The mapping written when no configuration file can be read. */
  const DefaultMapping: Mapping := Mapping(
    "0x0", "0x1", "0x2", "0x7A", "0x24", "0x21",
    ["0x26", "0x28", "0x25", "0x27", "0x0D", "0x08", "0x71", "0x72",
     "0xA0", "0xA1", "0x0", "0x0", "0x0", "0x0", "0x20", "0x08"])

  /** The fields the handlers change: input disabled, console hidden, multiplier and speed. */
  datatype Mode = Mode(disabled: bool, hidden: bool, multiplier: real, speed: real)

  predicate SpeedConsistent(mode: Mode) {
    mode.speed == BaseSpeed * mode.multiplier
  }

  datatype ChainSlot =
    MouseLeftSlot | MouseRightSlot | MouseMiddleSlot | HideWindowSlot | DisableSlot | SpeedSlot

  /** The order in which the press handler tries the chain slots. */
  const ChainOrder: seq<ChainSlot> :=
    [MouseLeftSlot, MouseRightSlot, MouseMiddleSlot, HideWindowSlot, DisableSlot, SpeedSlot]

  function Rank(s: ChainSlot): (k: nat)
    ensures k < |ChainOrder| && ChainOrder[k] == s
  {
    match s
    case MouseLeftSlot => 0
    case MouseRightSlot => 1
    case MouseMiddleSlot => 2
    case HideWindowSlot => 3
    case DisableSlot => 4
    case SpeedSlot => 5
  }

  function SlotValue(m: Mapping, s: ChainSlot): string {
    match s
    case MouseLeftSlot => m.mouseLeft
    case MouseRightSlot => m.mouseRight
    case MouseMiddleSlot => m.mouseMiddle
    case HideWindowSlot => m.hideWindow
    case DisableSlot => m.disableGopher
    case SpeedSlot => m.speedChange
  }

  /** The `if/elif` chain: the first slot, in chain order, whose text is `h`. */
  function FirstMatch(m: Mapping, h: string): (r: Option<ChainSlot>)
    ensures r.Some? ==> SlotValue(m, r.value) == h
    ensures r.Some? ==> forall k :: 0 <= k < Rank(r.value) ==> SlotValue(m, ChainOrder[k]) != h
    ensures r.None? ==> forall k :: 0 <= k < |ChainOrder| ==> SlotValue(m, ChainOrder[k]) != h
  {
    if h == m.mouseLeft then Some(MouseLeftSlot)
    else if h == m.mouseRight then Some(MouseRightSlot)
    else if h == m.mouseMiddle then Some(MouseMiddleSlot)
    else if h == m.hideWindow then Some(HideWindowSlot)
    else if h == m.disableGopher then Some(DisableSlot)
    else if h == m.speedChange then Some(SpeedSlot)
    else None
  }

  predicate IsMouseSlot(s: ChainSlot) {
    s == MouseLeftSlot || s == MouseRightSlot || s == MouseMiddleSlot
  }

  function SlotButton(s: ChainSlot): MouseButton
    requires IsMouseSlot(s)
  {
    match s
    case MouseLeftSlot => LeftButton
    case MouseRightSlot => RightButton
    case MouseMiddleSlot => MiddleButton
  }

  /**
   * `_toggle_window_visibility`: with a console window, show it if hidden
   * and hide it otherwise; without one, nothing happens.
   */
  function ToggleWindow(mode: Mode, console: bool): (r: (Mode, seq<Event>))
    ensures r.0.disabled == mode.disabled && r.0.multiplier == mode.multiplier && r.0.speed == mode.speed
    ensures console ==> r.0.hidden == !mode.hidden && r.1 == [SetConsoleVisible(!r.0.hidden)]
    ensures !console ==> r == (mode, [])
  {
    if !console then (mode, [])
    else if mode.hidden then (mode.(hidden := false), [SetConsoleVisible(true)])
    else (mode.(hidden := true), [SetConsoleVisible(false)])
  }

  /**
   * The press handler's chain: at most one action, that of the first
   * matching slot. A mouse slot presses its button; the window slot toggles
   * the console; the disable slot flips `disabled`; the speed slot moves the
   * multiplier one tier and recomputes the speed.
   */
  function ChainPress(mode: Mode, m: Mapping, h: string, console: bool): (r: (Mode, seq<Event>))
    ensures |r.1| <= 1
    ensures FirstMatch(m, h).None? ==> r == (mode, [])
    ensures r.0.disabled != mode.disabled <==> FirstMatch(m, h) == Some(DisableSlot)
    ensures r.0.hidden != mode.hidden <==> FirstMatch(m, h) == Some(HideWindowSlot) && console
    ensures r.0.multiplier != mode.multiplier || r.0.speed != mode.speed ==> FirstMatch(m, h) == Some(SpeedSlot)
    ensures FirstMatch(m, h) == Some(SpeedSlot) ==>
              r.0.multiplier == NextMultiplier(mode.multiplier) && SpeedConsistent(r.0)
    ensures forall b :: r.1 == [MouseDown(b)] <==>
              FirstMatch(m, h).Some? && IsMouseSlot(FirstMatch(m, h).value) && SlotButton(FirstMatch(m, h).value) == b
    ensures FirstMatch(m, h) == Some(HideWindowSlot) ==> r == ToggleWindow(mode, console)
    ensures FirstMatch(m, h) == Some(DisableSlot) || FirstMatch(m, h) == Some(SpeedSlot) ==> r.1 == []
  {
    match FirstMatch(m, h)
    case None => (mode, [])
    case Some(MouseLeftSlot) => (mode, [MouseDown(LeftButton)])
    case Some(MouseRightSlot) => (mode, [MouseDown(RightButton)])
    case Some(MouseMiddleSlot) => (mode, [MouseDown(MiddleButton)])
    case Some(HideWindowSlot) => ToggleWindow(mode, console)
    case Some(DisableSlot) => (mode.(disabled := !mode.disabled), [])
    case Some(SpeedSlot) =>
      var next := NextMultiplier(mode.multiplier);
      (mode.(multiplier := next, speed := BaseSpeed * next), [])
  }

  /** The release handler's chain: the first matching mouse slot releases its button. */
  function ChainRelease(m: Mapping, h: string): (r: seq<Event>)
    ensures |r| <= 1
  {
    if h == m.mouseLeft then [MouseUp(LeftButton)]
    else if h == m.mouseRight then [MouseUp(RightButton)]
    else if h == m.mouseMiddle then [MouseUp(MiddleButton)]
    else []
  }

  /**
   * The keyboard loop of both handlers over the slots `keys`: one key event,
   * with the name `_get_key_from_hex` gives for the slot's text, for every
   * slot whose text is `h` and is not the sentinel `"0x0"`.
   */
  function KeyEvents(keys: seq<string>, h: string, down: bool): (r: seq<Event>)
    ensures forall k :: 0 <= k < |r| ==> r[k] == KeyEvent(down, KeyFromHex(h))
    ensures h == NullCode ==> r == []
    ensures |r| <= |keys|
    decreases |keys|
  {
    if keys == [] then []
    else
      var v := keys[|keys| - 1];
      KeyEvents(keys[..|keys| - 1], h, down)
        + (if h == v && v != NullCode then [KeyEvent(down, KeyFromHex(v))] else [])
  }

  /** The keyboard loop one slot further on. */
  lemma KeyEventsStep(keys: seq<string>, h: string, down: bool, k: nat)
    requires k < |keys|
    ensures KeyEvents(keys[..k + 1], h, down) == KeyEvents(keys[..k], h, down)
              + (if h == keys[k] && keys[k] != NullCode then [KeyEvent(down, KeyFromHex(keys[k]))] else [])
  {
    assert keys[..k + 1][..k] == keys[..k];
  }

  /** The keyboard slots that fire for `h`. */
  ghost function MatchingSlots(keys: seq<string>, h: string): set<nat> {
    set i: nat | i < |keys| && keys[i] == h && keys[i] != NullCode
  }

  /** The keyboard loop emits exactly one event per matching slot. */
  lemma {:induction false} KeyEventsCount(keys: seq<string>, h: string, down: bool)
    ensures |KeyEvents(keys, h, down)| == |MatchingSlots(keys, h)|
    decreases |keys|
  {
    if keys != [] {
      var n := |keys| - 1;
      var init := keys[..n];
      KeyEventsCount(init, h, down);
      KeyEventsStep(keys, h, down, n);
      assert keys[..n + 1] == keys;
      var fires := keys[n] == h && keys[n] != NullCode;
      var earlier := MatchingSlots(init, h);
      forall i: nat
        ensures i in MatchingSlots(keys, h) <==> i in earlier || (fires && i == n)
      {
        if i < n {
          assert init[i] == keys[i];
        }
      }
      if fires {
        assert n !in earlier;
        assert MatchingSlots(keys, h) == earlier + {n};
      } else {
        assert MatchingSlots(keys, h) == earlier;
      }
    }
  }

  /** `_handle_button_press(idx)`: the chain, then the keyboard slots. */
  function PressStep(mode: Mode, m: Mapping, idx: nat, console: bool): (Mode, seq<Event>) {
    var chain := ChainPress(mode, m, Hex(idx), console);
    (chain.0, chain.1 + KeyEvents(m.keyboard, Hex(idx), true))
  }

  /** `_handle_button_release(idx)`: the mouse part of the chain, then the keyboard slots. */
  function ReleaseEvents(m: Mapping, idx: nat): seq<Event> {
    ChainRelease(m, Hex(idx)) + KeyEvents(m.keyboard, Hex(idx), false)
  }

  /**
   * A release lets go of exactly the mouse button the press of the same
   * button pressed, and of none if the press did not press one.
   */
  lemma ReleaseMirrorsPress(mode: Mode, m: Mapping, h: string, console: bool)
    ensures forall b :: ChainRelease(m, h) == [MouseUp(b)] <==> ChainPress(mode, m, h, console).1 == [MouseDown(b)]
    ensures ChainRelease(m, h) == [] <==> forall b :: ChainPress(mode, m, h, console).1 != [MouseDown(b)]
  {
  }

  /** A release never toggles the window, the disable flag or the speed, and never presses. */
  lemma ReleaseOnlyLetsGo(m: Mapping, idx: nat)
    ensures forall k :: 0 <= k < |ReleaseEvents(m, idx)| ==>
              ReleaseEvents(m, idx)[k].MouseUp? || ReleaseEvents(m, idx)[k].KeyUp?
  {
  }

  /** The speed stays the base speed times the multiplier through every press. */
  lemma PressKeepsSpeedConsistent(mode: Mode, m: Mapping, idx: nat, console: bool)
    requires SpeedConsistent(mode)
    ensures SpeedConsistent(PressStep(mode, m, idx, console).0)
  {
  }

  /**
   * With `mouse_left` bound to `"0x0"`, button 0 gives exactly one left
   * press and one left release, and never a keyboard event: `hex(0)` is the
   * sentinel, which the keyboard loop skips.
   */
  lemma ButtonZeroIsLeftClick(mode: Mode, m: Mapping, console: bool)
    requires m.mouseLeft == "0x0"
    ensures PressStep(mode, m, 0, console) == (mode, [MouseDown(LeftButton)])
    ensures ReleaseEvents(m, 0) == [MouseUp(LeftButton)]
  {
    assert Hex(0) == "0x0";
    assert FirstMatch(m, "0x0") == Some(MouseLeftSlot);
    assert ChainPress(mode, m, "0x0", console) == (mode, [MouseDown(LeftButton)]);
    assert KeyEvents(m.keyboard, "0x0", true) == [];
    assert KeyEvents(m.keyboard, "0x0", false) == [];
    var p := PressStep(mode, m, 0, console);
    assert p.1 == [MouseDown(LeftButton)] + [];
    assert p.0 == mode;
    assert p.1 == [MouseDown(LeftButton)];
  }

  /**
   * Under the default mapping the `start`, `back`, `left_shoulder`,
   * `right_shoulder` and `right_trigger` slots never fire from a button:
   * their texts are not in the form `hex` writes.
   */
  lemma DefaultSlotsNeverMatch(n: nat, k: nat)
    requires k in {4, 5, 8, 9, 15}
    ensures Hex(n) != DefaultMapping.keyboard[k]
  {
    HexIsCanonical(n);
  }

  /** `hex(38)` is `"0x26"`, the text of the default `dpad_up` slot. */
  lemma Hex38()
    ensures Hex(38) == "0x26"
  {
    assert Digits(38) == Digits(2) + [DigitChar(6)];
  }

  /** Under the default mapping only the `dpad_up` slot holds `"0x26"`, and it names the up-arrow key. */
  lemma DefaultUpSlot(down: bool)
    ensures KeyEvents(DefaultMapping.keyboard, "0x26", down) == [KeyEvent(down, Some("up"))]
  {
    var keys := DefaultMapping.keyboard;
    assert MatchingSlots(keys, "0x26") == {0} by {
      forall i: nat | 0 < i < |keys| ensures keys[i] != "0x26" {
      }
    }
    KeyEventsCount(keys, "0x26", down);
    ParseTwoDigits("0x26");
    var ev := KeyEvents(keys, "0x26", down);
    assert |ev| == 1 && ev[0] == KeyEvent(down, Some("up"));
  }

  /** Under the default mapping button 38 (`0x26`) presses the up-arrow key and nothing else. */
  lemma DefaultButton38PressesUp(mode: Mode, console: bool)
    ensures PressStep(mode, DefaultMapping, 38, console) == (mode, [KeyDown(Some("up"))])
  {
    Hex38();
    DefaultUpSlot(true);
    assert KeyEvent(true, Some("up")) == KeyDown(Some("up"));
    assert FirstMatch(DefaultMapping, "0x26").None?;
    assert ChainPress(mode, DefaultMapping, "0x26", console) == (mode, []);
    var p := PressStep(mode, DefaultMapping, 38, console);
    assert p.0 == mode;
    assert p.1 == [] + [KeyDown(Some("up"))];
    assert p.1 == [KeyDown(Some("up"))];
  }

  /** And its release lets go of the up-arrow key and of nothing else. */
  lemma DefaultButton38ReleasesUp()
    ensures ReleaseEvents(DefaultMapping, 38) == [KeyUp(Some("up"))]
  {
    Hex38();
    DefaultUpSlot(false);
    assert KeyEvent(false, Some("up")) == KeyUp(Some("up"));
    assert ChainRelease(DefaultMapping, "0x26") == [];
    assert ReleaseEvents(DefaultMapping, 38) == [] + [KeyUp(Some("up"))];
  }

  /**
   * `_handle_trigger`: a key event for the trigger's slot unless the slot is
   * the sentinel `"0x0"` or names no key.
   */
  function TriggerEvents(slot: string, pressed: bool): (r: seq<Event>)
    ensures slot == NullCode || KeyFromHex(slot).None? ==> r == []
    ensures r != [] <==> KeyFromHex(slot).Some?
    ensures r != [] ==> r == [KeyEvent(pressed, KeyFromHex(slot))]
  {
    if slot != NullCode then
      var key := KeyFromHex(slot);
      if key.Some? then [KeyEvent(pressed, key)] else []
    else []
  }
}
