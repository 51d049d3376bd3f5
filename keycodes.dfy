/**
 * The Windows virtual-key table and the lookup `_get_key_from_hex`, which
 * turns a configured code string into the key name pyautogui expects.
 */
module KeyCodes {
  import opened Wrappers
  import opened HexCodes

  /** `key_map.get(code, None)`: the pyautogui name of a Windows virtual-key code. */
  function KeyName(code: nat): Option<string> {
    match code
    case 0x08 => Some("backspace")
    case 0x09 => Some("tab")
    case 0x0C => Some("clear")
    case 0x0D => Some("enter")
    case 0x10 => Some("shift")
    case 0x11 => Some("ctrl")
    case 0x12 => Some("alt")
    case 0x13 => Some("pause")
    case 0x14 => Some("capslock")
    case 0x1B => Some("esc")
    case 0x20 => Some("space")
    case 0x21 => Some("pgup")
    case 0x22 => Some("pgdn")
    case 0x23 => Some("end")
    case 0x24 => Some("home")
    case 0x25 => Some("left")
    case 0x26 => Some("up")
    case 0x27 => Some("right")
    case 0x28 => Some("down")
    case 0x2D => Some("insert")
    case 0x2E => Some("delete")
    case 0x30 => Some("0")
    case 0x31 => Some("1")
    case 0x32 => Some("2")
    case 0x33 => Some("3")
    case 0x34 => Some("4")
    case 0x35 => Some("5")
    case 0x36 => Some("6")
    case 0x37 => Some("7")
    case 0x38 => Some("8")
    case 0x39 => Some("9")
    case 0x41 => Some("a")
    case 0x42 => Some("b")
    case 0x43 => Some("c")
    case 0x44 => Some("d")
    case 0x45 => Some("e")
    case 0x46 => Some("f")
    case 0x47 => Some("g")
    case 0x48 => Some("h")
    case 0x49 => Some("i")
    case 0x4A => Some("j")
    case 0x4B => Some("k")
    case 0x4C => Some("l")
    case 0x4D => Some("m")
    case 0x4E => Some("n")
    case 0x4F => Some("o")
    case 0x50 => Some("p")
    case 0x51 => Some("q")
    case 0x52 => Some("r")
    case 0x53 => Some("s")
    case 0x54 => Some("t")
    case 0x55 => Some("u")
    case 0x56 => Some("v")
    case 0x57 => Some("w")
    case 0x58 => Some("x")
    case 0x59 => Some("y")
    case 0x5A => Some("z")
    case 0x5B => Some("winleft")
    case 0x5C => Some("winright")
    case 0x60 => Some("num0")
    case 0x61 => Some("num1")
    case 0x62 => Some("num2")
    case 0x63 => Some("num3")
    case 0x64 => Some("num4")
    case 0x65 => Some("num5")
    case 0x66 => Some("num6")
    case 0x67 => Some("num7")
    case 0x68 => Some("num8")
    case 0x69 => Some("num9")
    case 0x6A => Some("multiply")
    case 0x6B => Some("add")
    case 0x6C => Some("separator")
    case 0x6D => Some("subtract")
    case 0x6E => Some("decimal")
    case 0x6F => Some("divide")
    case 0x70 => Some("f1")
    case 0x71 => Some("f2")
    case 0x72 => Some("f3")
    case 0x73 => Some("f4")
    case 0x74 => Some("f5")
    case 0x75 => Some("f6")
    case 0x76 => Some("f7")
    case 0x77 => Some("f8")
    case 0x78 => Some("f9")
    case 0x79 => Some("f10")
    case 0x7A => Some("f11")
    case 0x7B => Some("f12")
    case 0x90 => Some("numlock")
    case 0x91 => Some("scrolllock")
    case 0xA0 => Some("shiftleft")
    case 0xA1 => Some("shiftright")
    case 0xA2 => Some("ctrlleft")
    case 0xA3 => Some("ctrlright")
    case 0xA4 => Some("altleft")
    case 0xA5 => Some("altright")
    case 0xA6 => Some("browser_back")
    case 0xA7 => Some("browser_forward")
    case 0xA8 => Some("browser_refresh")
    case 0xA9 => Some("browser_stop")
    case 0xAA => Some("browser_search")
    case 0xAB => Some("browser_favorites")
    case 0xAC => Some("browser_home")
    case 0xAD => Some("volumemute")
    case 0xAE => Some("volumedown")
    case 0xAF => Some("volumeup")
    case 0xB0 => Some("nexttrack")
    case 0xB1 => Some("prevtrack")
    case 0xB2 => Some("stop")
    case 0xB3 => Some("playpause")
    case 0xB4 => Some("launchmail")
    case 0xB5 => Some("launchmediaselect")
    case 0xB6 => Some("launchapp1")
    case 0xB7 => Some("launchapp2")
    case 0xBA => Some(";")
    case 0xBB => Some("=")
    case 0xBC => Some(",")
    case 0xBD => Some("-")
    case 0xBE => Some(".")
    case 0xBF => Some("/")
    case 0xC0 => Some("`")
    case 0xDB => Some("[")
    case 0xDC => Some("\\")
    case 0xDD => Some("]")
    case 0xDE => Some("'")
    case _ => None
  }

  /** The unbound sentinel of every mapping slot. */
  const NullCode: string := "0x0"

  function LowerChar(c: char): char {
    if 'A' <= c <= 'Z' then (c as int - 'A' as int + 'a' as int) as char else c
  }

  /** `str.lower()` on the ASCII letters, the only ones that can turn into `"0x0"`. */
  function Lower(s: string): (r: string)
    ensures |r| == |s|
  {
    seq(|s|, i requires 0 <= i < |s| => LowerChar(s[i]))
  }

  /** What `table.get(code)` gives for the code `int(s, 16)` reads, if any. */
  function Lookup(code: Option<nat>): Option<string> {
    match code
    case Some(c) => KeyName(c)
    case None => None
  }

  /**
   * `_get_key_from_hex`: `None` for the empty string and the sentinel in
   * either case, for text `int(s, 16)` rejects, and for codes without a key
   * name; otherwise the table's name for the code.
   */
  function KeyFromHex(s: string): (r: Option<string>)
    ensures s == "" || s == "0x0" || s == "0X0" ==> r == None
  {
    if s == "" || Lower(s) == NullCode then None else Lookup(ParseHex(s))
  }

  /** The case-insensitive sentinel test accepts exactly `"0x0"` and `"0X0"`. */
  lemma NullCodeCases(s: string)
    ensures Lower(s) == NullCode <==> s == "0x0" || s == "0X0"
  {
    if Lower(s) == NullCode {
      assert Lower(s)[0] == '0' && Lower(s)[1] == 'x' && Lower(s)[2] == '0';
    }
  }

  /**
   * The sentinel and empty-string guards agree with the table: the lookup is
   * the table's entry for `int(s, 16)` whenever that parses, and `None`
   * otherwise (the sentinel parses to 0, which has no key name).
   */
  lemma KeyFromHexIsTableLookup(s: string)
    ensures KeyFromHex(s) == Lookup(ParseHex(s))
  {
    NullCodeCases(s);
    if s == "0x0" || s == "0X0" {
      assert Unprefixed(s) == "0";
      assert ParseHex(s) == Some(0);
    }
  }

  /** A two-digit code is read most significant digit first. */
  lemma ParseTwoDigits(s: string)
    requires |s| == 4 && s[0] == '0' && (s[1] == 'x' || s[1] == 'X')
    requires IsHexDigit(s[2]) && IsHexDigit(s[3])
    ensures ParseHex(s) == Some(DigitValue(s[2]) * 16 + DigitValue(s[3]))
  {
    var body := s[2..];
    assert Unprefixed(s) == body;
    assert AllHexDigits(body);
    assert body[..|body| - 1] == [s[2]];
    assert [s[2]][..0] == [];
    assert Value([s[2]]) == DigitValue(s[2]);
    assert Value(body) == Value([s[2]]) * 16 + DigitValue(s[3]);
  }

  /** The first configured trigger key: `"0x20"` names the space bar. */
  lemma SpaceFromHex()
    ensures KeyFromHex("0x20") == Some("space")
  {
    ParseTwoDigits("0x20");
  }

  /** The code is read in either case and with or without the prefix. */
  lemma F11FromHex()
    ensures KeyFromHex("0x7A") == Some("f11")
    ensures KeyFromHex("0x7a") == Some("f11")
    ensures KeyFromHex("7A") == Some("f11")
  {
    ParseTwoDigits("0x7A");
    ParseTwoDigits("0x7a");
    assert Unprefixed("7A") == "7A";
    assert "7A"[..1][..0] == [] && "7A"[..1] == "7";
    assert ParseHex("7A") == Some(0x7A);
  }

  /** A well-formed code without a key name. */
  lemma UnmappedFromHex()
    ensures KeyFromHex("0xFF") == None
  {
    ParseTwoDigits("0xFF");
    assert DigitValue('F') == 15;
    assert ParseHex("0xFF") == Some(255);
    assert |Lower("0xFF")| != |NullCode|;
  }

  /** Text that is not a code: a non-digit after the prefix, and the bare prefix. */
  lemma InvalidFromHex()
    ensures KeyFromHex("0xZZ") == None
    ensures KeyFromHex("0x") == None
  {
    assert Unprefixed("0xZZ") == "ZZ";
    assert !IsHexDigit("ZZ"[0]);
    assert Unprefixed("0x") == "";
  }
}
