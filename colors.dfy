/**
 * `hexToRgba`, which both the emotion wheel and the trace view use to turn a
 * `#RRGGBB` colour into its three channels, reading each pair of hex digits
 * with `parseInt(pair, 16)`.
 */
module Colors {
  import opened Text

  predicate IsHexDigit(c: char)
  {
    ('0' <= c <= '9') || ('a' <= c <= 'f') || ('A' <= c <= 'F')
  }

  function HexDigitValue(c: char): (d: nat)
    requires IsHexDigit(c)
    ensures d < 16
  {
    if '0' <= c <= '9' then c as int - '0' as int
    else if 'a' <= c <= 'f' then c as int - 'a' as int + 10
    else c as int - 'A' as int + 10
  }

  /** `s.slice(a, b)` for non-negative bounds: both are clamped to the length. */
  function Slice(s: string, a: nat, b: nat): (r: string)
    ensures |r| <= |s|
  {
    var lo := if a < |s| then a else |s|;
    var hi := if b < |s| then b else |s|;
    if lo <= hi then s[lo..hi] else ""
  }

  /** Length of the longest prefix of `s` made of hex digits. */
  function HexPrefixLength(s: string): (n: nat)
    ensures n <= |s|
    ensures forall i :: 0 <= i < n ==> IsHexDigit(s[i])
    ensures n < |s| ==> !IsHexDigit(s[n])
  {
    if s == [] || !IsHexDigit(s[0]) then 0 else 1 + HexPrefixLength(s[1..])
  }

  /** Value of a string of hex digits, most significant first. */
  function HexValue(s: string): nat
    requires forall i :: 0 <= i < |s| ==> IsHexDigit(s[i])
  {
    if s == [] then 0 else HexValue(s[..|s| - 1]) * 16 + HexDigitValue(s[|s| - 1])
  }

  /** The part of `t` after one leading sign, if any. */
  function DropSign(t: string): string
  {
    if |t| > 0 && (t[0] == '-' || t[0] == '+') then t[1..] else t
  }

  /** The part of `u` after one leading `0x` or `0X`, if any. */
  function DropHexPrefix(u: string): string
  {
    if |u| >= 2 && u[0] == '0' && (u[1] == 'x' || u[1] == 'X') then u[2..] else u
  }

  /** The longest leading run of hex digits of `v`, read; `None` when there is none. */
  function ReadHexDigits(v: string): Option<nat>
  {
    var n := HexPrefixLength(v);
    if n == 0 then None else Some(HexValue(v[..n]))
  }

  /**
   * `parseInt(s, 16)`: leading white space is skipped, one sign and then one
   * `0x`/`0X` prefix are accepted, and the longest run of hex digits that
   * follows is read; `None` stands for `NaN` (no digit at all).
   */
  function ParseIntHex(s: string): (r: Option<int>)
  {
    var t := s[SkipSpaces(s, 0)..];
    match ReadHexDigits(DropHexPrefix(DropSign(t)))
    case None => None
    case Some(v) => Some(if |t| > 0 && t[0] == '-' then -(v as int) else v)
  }

  /** The channels `hexToRgba(hex, alpha)` writes into its `rgba(...)` string. */
  datatype Rgba = Rgba(r: Option<int>, g: Option<int>, b: Option<int>, alpha: real)

  function HexToRgba(hex: string, alpha: real): (c: Rgba)
    ensures c.alpha == alpha
  {
    Rgba(ParseIntHex(Slice(hex, 1, 3)), ParseIntHex(Slice(hex, 3, 5)), ParseIntHex(Slice(hex, 5, 7)), alpha)
  }

  /** A `#RRGGBB` colour: a hash followed by exactly six hex digits. */
  predicate IsHexColor(hex: string)
  {
    |hex| == 7 && hex[0] == '#' && forall i :: 1 <= i < 7 ==> IsHexDigit(hex[i])
  }

  /** Reading one two-digit pair with `parseInt(·, 16)`. */
  lemma ParsePair(hi: char, lo: char)
    requires IsHexDigit(hi) && IsHexDigit(lo)
    ensures ParseIntHex([hi, lo]) == Some(16 * HexDigitValue(hi) + HexDigitValue(lo))
  {
    var s := [hi, lo];
    assert !IsSpace(hi);
    assert SkipSpaces(s, 0) == 0;
    assert s[0..] == s;
    assert DropHexPrefix(DropSign(s)) == s;
    assert s[1..] == [lo];
    assert [lo][1..] == [];
    assert HexPrefixLength([lo]) == 1;
    assert HexPrefixLength(s) == 2;
    assert s[..2] == s;
    assert s[..|s| - 1] == [hi];
    assert [hi][..0] == [];
    assert HexValue([hi]) == HexDigitValue(hi);
    assert HexValue(s) == 16 * HexDigitValue(hi) + HexDigitValue(lo);
  }

  /** The value of the two hex digits at `hex[i]` and `hex[i + 1]`. */
  function ChannelValue(hex: string, i: nat): nat
    requires IsHexColor(hex) && 1 <= i <= 5
  {
    16 * HexDigitValue(hex[i]) + HexDigitValue(hex[i + 1])
  }

  /** The channel whose digits sit at `hex[i]` and `hex[i + 1]`. */
  lemma Channel(hex: string, i: nat)
    requires IsHexColor(hex) && 1 <= i <= 5
    ensures ParseIntHex(Slice(hex, i, i + 2)) == Some(ChannelValue(hex, i))
    ensures ChannelValue(hex, i) <= 255
  {
    assert Slice(hex, i, i + 2) == [hex[i], hex[i + 1]];
    ParsePair(hex[i], hex[i + 1]);
  }

  /**
   * On a well-formed `#RRGGBB` colour every channel is read, and each is the
   * value of its two digits, between 0 and 255.
   */
  lemma HexToRgbaChannels(hex: string, alpha: real)
    requires IsHexColor(hex)
    ensures HexToRgba(hex, alpha) == Rgba(Some(ChannelValue(hex, 1)), Some(ChannelValue(hex, 3)), Some(ChannelValue(hex, 5)), alpha)
    ensures ChannelValue(hex, 1) <= 255 && ChannelValue(hex, 3) <= 255 && ChannelValue(hex, 5) <= 255
  {
    Channel(hex, 1);
    Channel(hex, 3);
    Channel(hex, 5);
  }

  /** Upper-case hex digit for `d < 16`. */
  function HexDigitChar(d: nat): (c: char)
    requires d < 16
    ensures IsHexDigit(c) && HexDigitValue(c) == d
  {
    if d < 10 then ('0' as int + d) as char else ('A' as int + d - 10) as char
  }

  /** `#RRGGBB` for three channels in 0..255: the inverse of `HexToRgba`. */
  function RgbToHex(r: nat, g: nat, b: nat): (hex: string)
    requires r < 256 && g < 256 && b < 256
    ensures IsHexColor(hex)
  {
    ['#', HexDigitChar(r / 16), HexDigitChar(r % 16), HexDigitChar(g / 16),
     HexDigitChar(g % 16), HexDigitChar(b / 16), HexDigitChar(b % 16)]
  }

  /** Two hex digits written for `v < 256` read back as `v`. */
  lemma DigitPairValue(v: nat)
    requires v < 256
    ensures 16 * HexDigitValue(HexDigitChar(v / 16)) + HexDigitValue(HexDigitChar(v % 16)) == v
  {
  }

  /** Writing three channels as `#RRGGBB` and reading them back gives them again. */
  lemma RgbRoundTrip(r: nat, g: nat, b: nat, alpha: real)
    requires r < 256 && g < 256 && b < 256
    ensures HexToRgba(RgbToHex(r, g, b), alpha) == Rgba(Some(r), Some(g), Some(b), alpha)
  {
    var hex := RgbToHex(r, g, b);
    HexToRgbaChannels(hex, alpha);
    DigitPairValue(r);
    DigitPairValue(g);
    DigitPairValue(b);
    assert ChannelValue(hex, 1) == r;
    assert ChannelValue(hex, 3) == g;
    assert ChannelValue(hex, 5) == b;
  }

  /** A digit pair that does not start with a hex digit reads as `NaN`. */
  lemma NonHexPairIsNaN(hi: char, lo: char)
    requires !IsHexDigit(hi) && !IsSpace(hi) && hi != '-' && hi != '+'
    ensures ParseIntHex([hi, lo]) == None
  {
    var s := [hi, lo];
    assert SkipSpaces(s, 0) == 0;
    assert s[0..] == s;
    assert DropHexPrefix(DropSign(s)) == s;
  }
}
