/** The text form of colours in a theme file: "0x" and eight hexadecimal digits. */
module HexColors {
  import opened Themes

  function Digit(v: nat): char
    requires v < 16
  {
    if v < 10 then '0' + v as char else 'a' + (v - 10) as char
  }

  /** What a character is worth to toUInt(nullptr, 16); 16 if it is not a digit. */
  function DigitValue(c: char): nat {
    if '0' <= c <= '9' then (c - '0') as nat
    else if 'a' <= c <= 'f' then (c - 'a') as nat + 10
    else if 'A' <= c <= 'F' then (c - 'A') as nat + 10
    else 16
  }

  /** The last `n` digits of `c`. */
  function Digits(c: nat, n: nat): (s: string)
    ensures |s| == n
  {
    if n == 0 then "" else Digits(c / 16, n - 1) + [Digit(c % 16)]
  }

  function ToHex(c: Color): string {
    "0x" + Digits(c, 8)
  }

  predicate AllDigits(s: string) {
    forall i :: 0 <= i < |s| ==> DigitValue(s[i]) < 16
  }

  function HexValue(s: string): nat
    requires AllDigits(s)
  {
    if s == "" then 0 else 16 * HexValue(s[..|s| - 1]) + DigitValue(s[|s| - 1])
  }

  /** toUInt(nullptr, 16): 0 if the text is not a number of 32 bits. */
  function FromHex(s: string): Color {
    var t := if |s| >= 2 && s[0] == '0' && (s[1] == 'x' || s[1] == 'X') then s[2..] else s;
    if t != "" && AllDigits(t) && HexValue(t) < 0x1_0000_0000 then HexValue(t) else 0
  }

  function Power16(n: nat): nat {
    if n == 0 then 1 else 16 * Power16(n - 1)
  }

  lemma {:induction false} DigitRoundTrip(v: nat)
    requires v < 16
    ensures DigitValue(Digit(v)) == v
  {
  }

  lemma {:induction false} DigitsRoundTrip(c: nat, n: nat)
    requires c < Power16(n)
    ensures AllDigits(Digits(c, n)) && HexValue(Digits(c, n)) == c
  {
    if n == 0 {
    } else {
      DigitsRoundTrip(c / 16, n - 1);
      DigitRoundTrip(c % 16);
      var s := Digits(c, n);
      assert s[..n - 1] == Digits(c / 16, n - 1);
    }
  }

  /* Texts that were not written by the program. */

  /** Capital digits are worth what small ones are. */
  lemma {:induction false} CapitalDigits(v: nat)
    requires 10 <= v < 16
    ensures DigitValue('A' + (v - 10) as char) == DigitValue('a' + (v - 10) as char) == v
  {
  }

  /** Exactly these characters are digits. */
  lemma {:induction false} DigitCharacters(c: char)
    ensures DigitValue(c) < 16 <==> '0' <= c <= '9' || 'a' <= c <= 'f' || 'A' <= c <= 'F'
  {
  }

  /** A text without prefix, and with either prefix. */
  predicate Bare(t: string) {
    !(|t| >= 2 && t[0] == '0' && t[1] in "xX")
  }

  /** The prefix is optional and may be capital; a text that is empty, holds a character that is not a digit, or
      is too large for 32 bits is black with no opacity; any other text is worth the value of its digits. */
  lemma {:induction false} TextIsRead(t: string)
    requires Bare(t)
    ensures FromHex(t) == FromHex("0x" + t) == FromHex("0X" + t)
    ensures t == "" || (exists i :: 0 <= i < |t| && DigitValue(t[i]) == 16) ==> FromHex(t) == 0
    ensures t != "" && AllDigits(t) ==> FromHex(t) == if HexValue(t) < 0x1_0000_0000 then HexValue(t) else 0
  {
    assert ("0x" + t)[2..] == t && ("0X" + t)[2..] == t;
  }

  /** A colour written to a theme file is read back unchanged. */
  lemma {:induction false} HexRoundTrip(c: Color)
    ensures FromHex(ToHex(c)) == c
  {
    assert Power16(8) == 0x1_0000_0000 by {
      assert Power16(4) == 0x1_0000;
    }
    DigitsRoundTrip(c, 8);
    assert ToHex(c)[2..] == Digits(c, 8);
  }
}
