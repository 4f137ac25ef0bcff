/**
 * System.Drawing.Color reduced to what the SDK reads (Empty, or alpha and the
 * three channels) and the `ToHexString` extension of both projects.
 */
module HexColors {
  import opened Wrappers

  type byte = x: int | 0 <= x < 256

  /** `Color.Empty` is a value of its own, distinct from every ARGB colour (black included). */
  datatype Color = Empty | Argb(a: byte, r: byte, g: byte, b: byte)

  function Red(c: Color): byte { if c.Empty? then 0 else c.r }
  function Green(c: Color): byte { if c.Empty? then 0 else c.g }
  function Blue(c: Color): byte { if c.Empty? then 0 else c.b }

  /** `Color.Black`. */
  const Black: Color := Argb(255, 0, 0, 0)

  /** `Color.FromArgb(r, g, b)`: an opaque colour. */
  function FromRgb(r: byte, g: byte, b: byte): Color { Argb(255, r, g, b) }

  /** The digits of format specifier `X`: 0-9 and upper-case A-F. */
  predicate IsUpperHex(c: char) { ('0' <= c <= '9') || ('A' <= c <= 'F') }

  function HexDigit(n: nat): (c: char)
    requires n < 16
    ensures IsUpperHex(c)
  {
    if n < 10 then (n + '0' as int) as char else (n - 10 + 'A' as int) as char
  }

  /** The value of an upper-case hex digit. */
  function HexValue(c: char): (n: nat)
    requires IsUpperHex(c)
    ensures n < 16 && HexDigit(n) == c
  {
    if '0' <= c <= '9' then c as int - '0' as int else c as int - 'A' as int + 10
  }

  /** Format specifier `X2`: two upper-case hex digits, high nibble first. */
  function Hex2(v: byte): (s: string)
    ensures |s| == 2 && IsUpperHex(s[0]) && IsUpperHex(s[1])
    ensures 16 * HexValue(s[0]) + HexValue(s[1]) == v
  {
    HexDigitRoundTrip(v / 16);
    HexDigitRoundTrip(v % 16);
    [HexDigit(v / 16), HexDigit(v % 16)]
  }

  lemma HexDigitRoundTrip(n: nat)
    requires n < 16
    ensures HexValue(HexDigit(n)) == n
  {
  }

  /** `color.ToHexString(withHash)`: an optional '#', then R, G and B as two hex digits each. */
  function ToHexString(c: Color, withHash: bool): (s: string)
    ensures |s| == if withHash then 7 else 6
    ensures withHash ==> s[0] == '#' && s[1..] == ToHexString(c, false)
    ensures forall i :: (if withHash then 1 else 0) <= i < |s| ==> IsUpperHex(s[i])
  {
    var rgb := RgbDigits(c);
    if withHash then
      assert ("#" + rgb)[1..] == rgb;
      "#" + rgb
    else rgb
  }

  /** The six digits: R, G and B, in that order. */
  function RgbDigits(c: Color): (s: string)
    ensures |s| == 6 && forall i :: 0 <= i < 6 ==> IsUpperHex(s[i])
    ensures s[0..2] == Hex2(Red(c)) && s[2..4] == Hex2(Green(c)) && s[4..6] == Hex2(Blue(c))
  {
    var r, g, b := Hex2(Red(c)), Hex2(Green(c)), Hex2(Blue(c));
    [r[0], r[1], g[0], g[1], b[0], b[1]]
  }

  /** The nullable overload: "" for null, otherwise the non-nullable one. */
  function ToHexStringOrEmpty(c: Option<Color>, withHash: bool): (s: string)
    ensures c.None? <==> s == ""
    ensures c.Some? ==> s == ToHexString(c.value, withHash)
  {
    match c
    case None => ""
    case Some(v) => ToHexString(v, withHash)
  }

  /** Reads R, G and B back from six upper-case hex digits. */
  function ParseRgb(s: string): Option<(int, int, int)>
  {
    if |s| == 6 && forall i :: 0 <= i < 6 ==> IsUpperHex(s[i]) then
      Some((16 * HexValue(s[0]) + HexValue(s[1]),
            16 * HexValue(s[2]) + HexValue(s[3]),
            16 * HexValue(s[4]) + HexValue(s[5])))
    else None
  }

  /** The hex string determines the three channels exactly, with or without the hash. */
  lemma ToHexStringRoundTrip(c: Color, withHash: bool)
    ensures var s := ToHexString(c, withHash);
            ParseRgb(if withHash then s[1..] else s) == Some((Red(c), Green(c), Blue(c)))
  {
    var s := RgbDigits(c);
    assert ToHexString(c, withHash) == if withHash then "#" + s else s;
    assert (if withHash then ToHexString(c, withHash)[1..] else ToHexString(c, withHash)) == s;
    var h0, h1, h2 := s[0..2], s[2..4], s[4..6];
    assert s[0] == h0[0] && s[1] == h0[1] && s[2] == h1[0] && s[3] == h1[1] && s[4] == h2[0] && s[5] == h2[1];
  }

  /** Alpha never reaches the string. */
  lemma ToHexStringIgnoresAlpha(a1: byte, a2: byte, r: byte, g: byte, b: byte, withHash: bool)
    ensures ToHexString(Argb(a1, r, g, b), withHash) == ToHexString(Argb(a2, r, g, b), withHash)
  {
  }
}
