/**
 * Team colours: a "#rrggbb" colour turned into a CSS rgba() string with a given alpha,
 * by reading each two-character channel as a hexadecimal number.
 */
module Colors {
  import opened Wrappers
  import opened Text

  /** String.prototype.slice for non-negative indices: both ends are cut down to the length. */
  function Slice(s: string, start: nat, end: nat): (r: string)
    ensures start <= end <= |s| ==> r == s[start..end]
    ensures |s| <= start ==> r == []
    ensures start < |s| <= end ==> r == s[start..]
    ensures end < start ==> r == []
  {
    var a := if start < |s| then start else |s|;
    var b := if end < |s| then end else |s|;
    if a <= b then s[a..b] else []
  }

  /** The text `${v}` gives a parsed channel: its numeral, or "NaN". */
  function NumberText(v: Option<int>): string
  {
    match v
    case None => "NaN"
    case Some(n) => IntToString(n)
  }

  /** parseInt(hex.slice(start, start + 2), 16). */
  function Channel(hex: string, start: nat): Option<int>
  {
    ParseInt(Slice(hex, start, start + 2), 16)
  }

  /** hexToRgba: the three channels of "#rrggbb" and the alpha, as rgba(r, g, b, alpha). */
  function HexToRgba(hex: string, alpha: string): string
  {
    "rgba(" + NumberText(Channel(hex, 1)) + ", " + NumberText(Channel(hex, 3)) + ", "
      + NumberText(Channel(hex, 5)) + ", " + alpha + ")"
  }

  function HexDigit(d: nat): (c: char)
    requires d < 16
    ensures DigitValue(c) == d
  {
    if d < 10 then ('0' as int + d) as char else ('a' as int + d - 10) as char
  }

  /** A channel value written as two lower-case hexadecimal digits. */
  function Hex2(n: nat): (r: string)
    requires n < 256
    ensures |r| == 2 && AllDigits(r, 16)
  {
    [HexDigit(n / 16), HexDigit(n % 16)]
  }

  /** The colour "#rrggbb" of three channel values, as a colour input reports it. */
  function HexColor(r: nat, g: nat, b: nat): (hex: string)
    requires r < 256 && g < 256 && b < 256
    ensures |hex| == 7
  {
    "#" + Hex2(r) + Hex2(g) + Hex2(b)
  }

  /** Two hexadecimal digits parse back to the channel value they were written from. */
  lemma Hex2RoundTrip(n: nat)
    requires n < 256
    ensures ParseInt(Hex2(n), 16) == Some(n)
  {
    var s := Hex2(n);
    TwoDigitValue(s, 16);
    assert DigitValue(s[0]) == n / 16 && DigitValue(s[1]) == n % 16;
    ParseIntOfDigits(s, 16);
  }

  lemma TwoDigitValue(s: string, radix: nat)
    requires |s| == 2
    ensures Value(s, radix) == DigitValue(s[0]) * radix + DigitValue(s[1])
  {
    var a := s[..1];
    assert a == [s[0]] && a[..0] == [];
    assert Value(a, radix) == Value(a[..0], radix) * radix + DigitValue(a[0]);
    assert Value(s, radix) == Value(a, radix) * radix + DigitValue(s[1]);
  }

  lemma ColorParts(a: string, b: string, c: string)
    requires |a| == 2 && |b| == 2 && |c| == 2
    ensures var hex := "#" + a + b + c; hex[1..3] == a && hex[3..5] == b && hex[5..7] == c
  {
  }

  /** Each channel of a well-formed colour is read back as the value it was written from. */
  lemma ChannelsOfColor(r: nat, g: nat, b: nat)
    requires r < 256 && g < 256 && b < 256
    ensures Channel(HexColor(r, g, b), 1) == Some(r)
    ensures Channel(HexColor(r, g, b), 3) == Some(g)
    ensures Channel(HexColor(r, g, b), 5) == Some(b)
  {
    ColorParts(Hex2(r), Hex2(g), Hex2(b));
    Hex2RoundTrip(r);
    Hex2RoundTrip(g);
    Hex2RoundTrip(b);
  }

  /** hexToRgba of a well-formed colour prints its three channel values in decimal. */
  lemma HexToRgbaOfColor(r: nat, g: nat, b: nat, alpha: string)
    requires r < 256 && g < 256 && b < 256
    ensures HexToRgba(HexColor(r, g, b), alpha)
      == "rgba(" + IntToString(r) + ", " + IntToString(g) + ", " + IntToString(b) + ", " + alpha + ")"
  {
    ChannelsOfColor(r, g, b);
  }

  /** A colour string too short to hold a blue channel prints NaN for it. */
  lemma ShortColorBlueIsNaN(hex: string)
    requires |hex| <= 5
    ensures Channel(hex, 5) == None
  {
    assert Slice(hex, 5, 7) == [];
    assert TrimStart([]) == [];
  }
}
