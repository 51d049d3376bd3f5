/**
 * The calls the controller loop makes into the operating system (pyautogui
 * and the Windows cursor and console functions), recorded as values instead
 * of being performed.
 */
module Events {
  import opened Wrappers

  datatype MouseButton = LeftButton | RightButton | MiddleButton

  datatype Event =
    | MouseDown(button: MouseButton)
    | MouseUp(button: MouseButton)
    | KeyDown(key: Option<string>)       // pyautogui.keyDown; the handlers may pass None
    | KeyUp(key: Option<string>)
    | SetConsoleVisible(visible: bool)   // ShowWindow(console, 1) or ShowWindow(console, 0)
    | Scroll(amount: int)
    | MoveTo(x: int, y: int)             // SetCursorPos

  function KeyEvent(down: bool, key: Option<string>): Event {
    if down then KeyDown(key) else KeyUp(key)
  }
}
