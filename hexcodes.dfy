/**
 * The two conversions between numbers and hexadecimal text that the
 * controller loop relies on: Python's `hex(n)` for a button index, and
 * `int(s, 16)` for a configured key code (its documented subset: an optional
 * `0x`/`0X` prefix followed by one or more hexadecimal digits of either case).
 */
module HexCodes {
  import opened Wrappers

  predicate IsHexDigit(c: char) {
    ('0' <= c <= '9') || ('a' <= c <= 'f') || ('A' <= c <= 'F')
  }

  /** A digit as Python's `hex` writes it: `0`-`9` and lower-case `a`-`f`. */
  predicate IsLowerHexDigit(c: char) {
    ('0' <= c <= '9') || ('a' <= c <= 'f')
  }

  predicate AllHexDigits(s: string) {
    forall i :: 0 <= i < |s| ==> IsHexDigit(s[i])
  }

  function DigitChar(d: nat): (c: char)
    requires d < 16
    ensures IsLowerHexDigit(c)
    ensures c == '0' <==> d == 0
  {
    if d < 10 then ('0' as int + d) as char else ('a' as int + d - 10) as char
  }

  function DigitValue(c: char): (v: nat)
    requires IsHexDigit(c)
    ensures v < 16
  {
    if '0' <= c <= '9' then (c as int - '0' as int) as nat
    else if 'a' <= c <= 'f' then (c as int - 'a' as int + 10) as nat
    else (c as int - 'A' as int + 10) as nat
  }

  /** The digits of `n` in base 16, most significant first, without leading zeros. */
  function Digits(n: nat): (s: string)
    ensures |s| >= 1
    ensures forall i :: 0 <= i < |s| ==> IsLowerHexDigit(s[i])
    ensures s[0] == '0' ==> n == 0 && |s| == 1
    decreases n
  {
    if n < 16 then [DigitChar(n)] else Digits(n / 16) + [DigitChar(n % 16)]
  }

  /** Python's `hex(n)` for a non-negative integer, e.g. `hex(160) == "0xa0"`. */
  function Hex(n: nat): (s: string)
    ensures |s| >= 3 && s[0] == '0' && s[1] == 'x'
  {
    "0x" + Digits(n)
  }

  /** The value of a string of hexadecimal digits, most significant first. */
  function Value(s: string): nat
    requires AllHexDigits(s)
    decreases |s|
  {
    if s == [] then 0 else Value(s[..|s| - 1]) * 16 + DigitValue(s[|s| - 1])
  }

  /** The text `int(s, 16)` reads digits from: `s` without an `0x`/`0X` prefix. */
  function Unprefixed(s: string): (body: string)
    ensures |body| <= |s|
  {
    if |s| >= 2 && s[0] == '0' && (s[1] == 'x' || s[1] == 'X') then s[2..] else s
  }

  /** `int(s, 16)`; `None` where Python raises `ValueError`. */
  function ParseHex(s: string): (r: Option<nat>)
  {
    var body := Unprefixed(s);
    if |body| > 0 && AllHexDigits(body) then Some(Value(body)) else None
  }

  /** The strings `hex` can produce: `0x`, then lower-case digits with no leading zero. */
  predicate IsCanonicalHex(s: string) {
    && |s| >= 3 && s[0] == '0' && s[1] == 'x'
    && (forall i :: 2 <= i < |s| ==> IsLowerHexDigit(s[i]))
    && (s[2] == '0' ==> |s| == 3)
  }

  lemma {:induction false} ValueOfDigits(n: nat)
    ensures AllHexDigits(Digits(n)) && Value(Digits(n)) == n
    decreases n
  {
    var s := Digits(n);
    if n >= 16 {
      var a := Digits(n / 16);
      ValueOfDigits(n / 16);
      assert s[..|s| - 1] == a;
      assert s[|s| - 1] == DigitChar(n % 16);
    }
  }

  /** `int(hex(n), 16) == n`. */
  lemma HexRoundTrip(n: nat)
    ensures ParseHex(Hex(n)) == Some(n)
  {
    ValueOfDigits(n);
    assert Unprefixed(Hex(n)) == Digits(n);
  }

  /** Distinct button indices have distinct hex forms. */
  lemma HexInjective(a: nat, b: nat)
    ensures Hex(a) == Hex(b) <==> a == b
  {
    if Hex(a) == Hex(b) {
      HexRoundTrip(a);
      HexRoundTrip(b);
    }
  }

  lemma HexIsCanonical(n: nat)
    ensures IsCanonicalHex(Hex(n))
  {
    var s := Hex(n);
    assert s[2..] == Digits(n);
  }

  lemma {:induction false} ValuePositive(s: string)
    requires AllHexDigits(s) && |s| > 0 && s[0] != '0' && IsLowerHexDigit(s[0])
    ensures Value(s) > 0
    decreases |s|
  {
    if |s| > 1 {
      ValuePositive(s[..|s| - 1]);
    }
  }

  lemma {:induction false} DigitsOfValue(s: string)
    requires |s| > 0
    requires forall i :: 0 <= i < |s| ==> IsLowerHexDigit(s[i])
    requires s[0] == '0' ==> |s| == 1
    ensures AllHexDigits(s) && Digits(Value(s)) == s
    decreases |s|
  {
    var c := s[|s| - 1];
    assert DigitChar(DigitValue(c)) == c;
    if |s| > 1 {
      var init := s[..|s| - 1];
      DigitsOfValue(init);
      ValuePositive(init);
      var v := Value(s);
      assert v == Value(init) * 16 + DigitValue(c);
      SplitBase16(Value(init), DigitValue(c), v);
      assert Digits(v) == Digits(Value(init)) + [DigitChar(DigitValue(c))];
      assert init + [c] == s;
    }
  }

  /** The last base-16 digit and the rest of `q * 16 + d`. */
  lemma SplitBase16(q: nat, d: nat, v: nat)
    requires d < 16 && v == q * 16 + d
    ensures v / 16 == q && v % 16 == d
  {
  }

  /**
   * A configured string equals `hex(i)` for some button index `i` exactly
   * when it is in the canonical form `hex` writes; for example `"0x0D"` and
   * `"0xA0"` never equal any `hex(i)`.
   */
  lemma MatchableIffCanonical(s: string)
    ensures (exists n: nat :: Hex(n) == s) <==> IsCanonicalHex(s)
  {
    if IsCanonicalHex(s) {
      var body := s[2..];
      DigitsOfValue(body);
      assert Hex(Value(body)) == s;
    } else {
      forall n: nat ensures Hex(n) != s {
        HexIsCanonical(n);
      }
    }
  }
}
