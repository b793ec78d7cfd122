/** The colour half of the plotting library (vis/js/lib/mlbook/main.js):
    the `#rrggbb` codec, per-channel interpolation, the two theme tables and
    the palette accessors that blend a named colour with the theme's
    foreground or background. */
module Colors {
  import opened Wrappers
  import opened Text

  /** An RGB triple as the library's three-element arrays. */
  type Rgb = c: seq<int> | |c| == 3 witness [0, 0, 0]

  // ---------------------------------------------------------------------
  // Hexadecimal digits

  predicate IsHexDigit(c: char)
  {
    '0' <= c <= '9' || 'a' <= c <= 'f' || 'A' <= c <= 'F'
  }

  predicate IsLowerHexDigit(c: char)
  {
    '0' <= c <= '9' || 'a' <= c <= 'f'
  }

  function DigitValue(c: char): (v: nat)
    requires IsHexDigit(c)
    ensures v < 16
  {
    if '0' <= c <= '9' then c as int - '0' as int
    else if 'a' <= c <= 'f' then c as int - 'a' as int + 10
    else c as int - 'A' as int + 10
  }

  /** The lower-case digit that `Number.prototype.toString(16)` prints. */
  function DigitChar(d: nat): (c: char)
    requires d < 16
    ensures IsLowerHexDigit(c) && IsHexDigit(c) && DigitValue(c) == d
  {
    if d < 10 then ('0' as int + d) as char else ('a' as int + d - 10) as char
  }

  /** Longest prefix of `s` made of hexadecimal digits. */
  function HexPrefix(s: string): (d: string)
    ensures |d| <= |s| && d == s[..|d|]
    ensures forall k :: 0 <= k < |d| ==> IsHexDigit(d[k])
    ensures |d| < |s| ==> !IsHexDigit(s[|d|])
    decreases |s|
  {
    if s != [] && IsHexDigit(s[0]) then [s[0]] + HexPrefix(s[1..]) else ""
  }

  /** Value of a string of hexadecimal digits, most significant first. */
  function HexValue(d: string): nat
    requires forall k :: 0 <= k < |d| ==> IsHexDigit(d[k])
    decreases |d|
  {
    if d == [] then 0 else 16 * HexValue(d[..|d| - 1]) + DigitValue(d[|d| - 1])
  }

  /** `parseInt(s, 16)` on text without sign or leading blanks: the value of
      the leading run of hexadecimal digits, or `None` (NaN) when there is none. */
  function ParseHex(s: string): Option<nat>
  {
    var d := HexPrefix(s);
    if d == [] then None else Some(HexValue(d))
  }

  /** `hex2rgb`: parses characters 1-2, 3-4 and 5-6; `None` when any channel
      is NaN. */
  function Hex2Rgb(hex: string): Option<Rgb>
  {
    match (ParseHex(Slice(hex, 1, 3)), ParseHex(Slice(hex, 3, 5)), ParseHex(Slice(hex, 5, 7)))
    case (Some(r), Some(g), Some(b)) => Some([r, g, b])
    case _ => None
  }

  /** A well-formed colour string: `#` followed by six hexadecimal digits. */
  predicate IsHexColor(s: string)
  {
    |s| == 7 && s[0] == '#' && forall k :: 1 <= k < 7 ==> IsHexDigit(s[k])
  }

  /** What `rgb2hex` produces for in-range channels. */
  predicate IsLowerHexColor(s: string)
  {
    |s| == 7 && s[0] == '#' && forall k :: 1 <= k < 7 ==> IsLowerHexDigit(s[k])
  }

  // ---------------------------------------------------------------------
  // rgb2hex

  /** Digits of `n.toString(16)` for a non-negative integer. */
  function NatToHex(n: nat): (s: string)
    ensures |s| >= 1
    decreases n
  {
    if n < 16 then [DigitChar(n)] else NatToHex(n / 16) + [DigitChar(n % 16)]
  }

  /** `x.toString(16)` for an integer `x`. */
  function ToString16(x: int): string
  {
    if x < 0 then "-" + NatToHex(-x) else NatToHex(x)
  }

  /** `s.padStart(2, "0")`. */
  function PadStart2(s: string): (r: string)
    ensures |r| >= 2
  {
    if |s| >= 2 then s else if |s| == 1 then "0" + s else "00"
  }

  function HexChannels(c: seq<int>): string
    decreases |c|
  {
    if c == [] then "" else PadStart2(ToString16(c[0])) + HexChannels(c[1..])
  }

  /** `rgb2hex`: `#` and each channel as two-digit (at least) hexadecimal. */
  function Rgb2Hex(c: seq<int>): string
  {
    "#" + HexChannels(c)
  }

  predicate InByteRange(c: seq<int>)
  {
    forall k :: 0 <= k < |c| ==> 0 <= c[k] <= 255
  }

  /** A channel in 0..255 becomes exactly two lower-case digits. */
  lemma ByteToHex(x: int)
    requires 0 <= x <= 255
    ensures PadStart2(ToString16(x)) == [DigitChar(x / 16), DigitChar(x % 16)]
  {
    if x >= 16 {
      assert NatToHex(x / 16) == [DigitChar(x / 16)];
    }
  }

  /** `rgb2hex` of in-range channels, digit by digit. */
  lemma Rgb2HexDigits(c: Rgb)
    requires InByteRange(c)
    ensures Rgb2Hex(c) == ['#', DigitChar(c[0] / 16), DigitChar(c[0] % 16), DigitChar(c[1] / 16),
                           DigitChar(c[1] % 16), DigitChar(c[2] / 16), DigitChar(c[2] % 16)]
  {
    ByteToHex(c[0]);
    ByteToHex(c[1]);
    ByteToHex(c[2]);
    var c1, c2 := c[1..], c[1..][1..];
    assert c1[0] == c[1] && c2[0] == c[2] && c2[1..] == [];
    assert HexChannels(c) == PadStart2(ToString16(c[0])) + HexChannels(c1);
    assert HexChannels(c1) == PadStart2(ToString16(c[1])) + HexChannels(c2);
    assert HexChannels(c2) == PadStart2(ToString16(c[2])) + HexChannels(c2[1..]);
  }

  /** For channels in 0..255, `rgb2hex` yields `#` and six lower-case digits. */
  lemma Rgb2HexShape(c: Rgb)
    requires InByteRange(c)
    ensures IsLowerHexColor(Rgb2Hex(c))
    ensures IsHexColor(Rgb2Hex(c))
  {
    Rgb2HexDigits(c);
  }

  lemma TwoDigits(a: char, b: char)
    requires IsHexDigit(a) && IsHexDigit(b)
    ensures ParseHex([a, b]) == Some(16 * DigitValue(a) + DigitValue(b))
  {
    assert [a, b][1..] == [b];
    assert [b][1..] == [];
    assert HexPrefix([b]) == [b];
    assert HexPrefix([a, b]) == [a, b];
    assert [a, b][..1] == [a];
    assert [a][..0] == [];
    assert HexValue([a]) == DigitValue(a);
    assert HexValue([a, b]) == 16 * HexValue([a]) + DigitValue(b);
  }

  /** `hex2rgb` undoes `rgb2hex` on channels in 0..255. */
  lemma {:induction false} Hex2RgbOfRgb2Hex(c: Rgb)
    requires InByteRange(c)
    ensures Hex2Rgb(Rgb2Hex(c)) == Some(c)
  {
    var h := Rgb2Hex(c);
    Rgb2HexDigits(c);
    TwoDigits(h[1], h[2]);
    TwoDigits(h[3], h[4]);
    TwoDigits(h[5], h[6]);
    assert Slice(h, 1, 3) == [h[1], h[2]];
    assert Slice(h, 3, 5) == [h[3], h[4]];
    assert Slice(h, 5, 7) == [h[5], h[6]];
    assert ParseHex(Slice(h, 1, 3)) == Some(c[0]);
    assert ParseHex(Slice(h, 3, 5)) == Some(c[1]);
    assert ParseHex(Slice(h, 5, 7)) == Some(c[2]);
    assert [c[0], c[1], c[2]] == c;
  }

  /** The channels the digit pairs of a well-formed colour string denote. */
  function DigitChannels(h: string): Rgb
    requires IsHexColor(h)
  {
    [16 * DigitValue(h[1]) + DigitValue(h[2]),
     16 * DigitValue(h[3]) + DigitValue(h[4]),
     16 * DigitValue(h[5]) + DigitValue(h[6])]
  }

  /** The channels `hex2rgb` reads from a well-formed colour string. */
  lemma ParseHexColor(h: string)
    requires IsHexColor(h)
    ensures Hex2Rgb(h) == Some(DigitChannels(h))
  {
    assert IsHexDigit(h[1]) && IsHexDigit(h[2]) && IsHexDigit(h[3]);
    assert IsHexDigit(h[4]) && IsHexDigit(h[5]) && IsHexDigit(h[6]);
    assert Slice(h, 1, 3) == [h[1], h[2]];
    assert Slice(h, 3, 5) == [h[3], h[4]];
    assert Slice(h, 5, 7) == [h[5], h[6]];
    TwoDigits(h[1], h[2]);
    TwoDigits(h[3], h[4]);
    TwoDigits(h[5], h[6]);
  }

  lemma SplitByte(a: nat, b: nat)
    requires a < 16 && b < 16
    ensures (16 * a + b) / 16 == a && (16 * a + b) % 16 == b && 16 * a + b <= 255
  {
  }

  /** Channels read from digits `d1 .. d6` print back as those digits,
      lower-cased. */
  lemma {:induction false} Rgb2HexOfDigits(h: string)
    requires IsHexColor(h)
    ensures InByteRange(DigitChannels(h))
    ensures Rgb2Hex(DigitChannels(h)) == Lower(h)
  {
    var c := DigitChannels(h);
    var d1, d2, d3, d4, d5, d6 := DigitValue(h[1]), DigitValue(h[2]), DigitValue(h[3]),
                                  DigitValue(h[4]), DigitValue(h[5]), DigitValue(h[6]);
    SplitByte(d1, d2);
    SplitByte(d3, d4);
    SplitByte(d5, d6);
    assert InByteRange(c);
    Rgb2HexDigits(c);
    LowerDigit(h[1]); LowerDigit(h[2]); LowerDigit(h[3]);
    LowerDigit(h[4]); LowerDigit(h[5]); LowerDigit(h[6]);
    var l := Lower(h);
    assert Rgb2Hex(c) == [l[0], l[1], l[2], l[3], l[4], l[5], l[6]];
  }

  /** A well-formed colour string parses into channels in 0..255, and
      `rgb2hex` gives it back lower-cased. */
  lemma Rgb2HexOfHex2Rgb(h: string)
    requires IsHexColor(h)
    ensures Hex2Rgb(h).Some? && InByteRange(Hex2Rgb(h).value)
    ensures Rgb2Hex(Hex2Rgb(h).value) == Lower(h)
  {
    ParseHexColor(h);
    Rgb2HexOfDigits(h);
  }

  lemma LowerDigit(ch: char)
    requires IsHexDigit(ch)
    ensures DigitChar(DigitValue(ch)) == LowerChar(ch)
  {
  }

  // ---------------------------------------------------------------------
  // interpolateColors

  /** `Math.round`: halves round up. */
  function Round(v: real): int
  {
    (v + 0.5).Floor
  }

  /** Channel `i` of `interpolateColors(c1, c2, f)`. */
  function Blend(a: int, b: int, f: real): int
  {
    Round(a as real + f * (b - a) as real)
  }

  /** The colour `interpolateColors` returns, channel by channel. */
  function Interpolated(c1: Rgb, c2: Rgb, f: real): Rgb
  {
    [Blend(c1[0], c2[0], f), Blend(c1[1], c2[1], f), Blend(c1[2], c2[2], f)]
  }

  /** `interpolateColors`: copies `color1` and overwrites each channel in turn. */
  method InterpolateColors(color1: Rgb, color2: Rgb, factor: real) returns (result: Rgb)
    ensures result == Interpolated(color1, color2, factor)
  {
    result := color1;
    for i := 0 to 3
      invariant forall k :: 0 <= k < i ==> result[k] == Blend(color1[k], color2[k], factor)
      invariant forall k :: i <= k < 3 ==> result[k] == color1[k]
    {
      result := result[i := Round(result[i] as real + factor * (color2[i] - color1[i]) as real)];
    }
  }

  /** Factor 0 gives the first colour and factor 1 the second, as the
      library's documentation of `interpolateColors` states. */
  lemma InterpolatedEndpoints(c1: Rgb, c2: Rgb)
    ensures Interpolated(c1, c2, 0.0) == c1
    ensures Interpolated(c1, c2, 1.0) == c2
  {
    assert Interpolated(c1, c2, 0.0) == [c1[0], c1[1], c1[2]];
    assert Interpolated(c1, c2, 1.0) == [c2[0], c2[1], c2[2]];
  }

  /** A blended channel lies between the two input channels for f in [0, 1]. */
  lemma BlendBetween(a: int, b: int, f: real)
    requires 0.0 <= f <= 1.0
    ensures (if a <= b then a else b) <= Blend(a, b, f) <= (if a <= b then b else a)
  {
    var d := (b - a) as real;
    var v := a as real + f * d;
    if a <= b {
      assert 0.0 <= f * d <= d;
    } else {
      assert d <= f * d <= 0.0;
    }
  }

  lemma InterpolatedBetween(c1: Rgb, c2: Rgb, f: real)
    requires 0.0 <= f <= 1.0
    ensures forall k :: 0 <= k < 3 ==>
      (if c1[k] <= c2[k] then c1[k] else c2[k]) <= Interpolated(c1, c2, f)[k] <= (if c1[k] <= c2[k] then c2[k] else c1[k])
  {
    BlendBetween(c1[0], c2[0], f);
    BlendBetween(c1[1], c2[1], f);
    BlendBetween(c1[2], c2[2], f);
  }

  // ---------------------------------------------------------------------
  // Colour tables

  /** The keys of `common_colors`. */
  datatype CommonName =
    | Blue | Indigo | Purple | Pink | Red | Orange | Yellow | Green | Teal | Cyan | White | Black

  /** The names `Palette.prototype` has an accessor for: `fg`, `bg` and the
      keys of the common, semantic and ordered tables. */
  datatype ColorName =
    | Fg | Bg
    | Common(c: CommonName)
    | Primary | Good | Bad | Caution
    | C0 | C1 | C2 | C3 | C4 | C5 | C6 | C7 | C8

  /** `common_colors`. */
  function CommonColor(c: CommonName): string
  {
    match c
    case Blue => "#0D6EFD"
    case Indigo => "#6610f2"
    case Purple => "#6f42c1"
    case Pink => "#d63384"
    case Red => "#dc3545"
    case Orange => "#fd7e14"
    case Yellow => "#ffc107"
    case Green => "#198754"
    case Teal => "#20c997"
    case Cyan => "#0dcaf0"
    case White => "#ffffff"
    case Black => "#000000"
  }

  /** The common colour whose value `semantic_colors` and `ordered_colors`
      copy for each of their keys; a common name stands for itself. */
  function Alias(n: ColorName): CommonName
    requires n != Fg && n != Bg
  {
    match n
    case Common(c) => c
    case Primary => Blue
    case Good => Green
    case Bad => Red
    case Caution => Yellow
    case C0 => Blue
    case C1 => Red
    case C2 => Green
    case C3 => Yellow
    case C4 => Purple
    case C5 => Orange
    case C6 => Teal
    case C7 => Pink
    case C8 => Indigo
  }

  /** The two tables `getColors` chooses between. */
  datatype Theme = Light | Dark

  /** `light_theme[n]` and `dark_theme[n]` after `Object.assign` has added the
      common, semantic and ordered colours (no key occurs twice, so the order
      of assignment does not matter). */
  function ThemeColor(t: Theme, n: ColorName): string
  {
    match n
    case Fg => if t == Light then "#000000" else "#ffffff"
    case Bg => if t == Light then "#ffffff" else "#212529"
    case _ => CommonColor(Alias(n))
  }

  lemma CommonColorWellFormed(c: CommonName)
    ensures IsHexColor(CommonColor(c))
  {
    if c in {Blue, Indigo, Purple, Pink, Red, Orange} {
      WarmColorsWellFormed(c);
    } else {
      CoolColorsWellFormed(c);
    }
  }

  lemma WarmColorsWellFormed(c: CommonName)
    requires c in {Blue, Indigo, Purple, Pink, Red, Orange}
    ensures IsHexColor(CommonColor(c))
  {
    match c
    case Blue => assert IsHexColor("#0D6EFD");
    case Indigo => assert IsHexColor("#6610f2");
    case Purple => assert IsHexColor("#6f42c1");
    case Pink => assert IsHexColor("#d63384");
    case Red => assert IsHexColor("#dc3545");
    case Orange => assert IsHexColor("#fd7e14");
  }

  lemma CoolColorsWellFormed(c: CommonName)
    requires c !in {Blue, Indigo, Purple, Pink, Red, Orange}
    ensures IsHexColor(CommonColor(c))
  {
    match c
    case Yellow => assert IsHexColor("#ffc107");
    case Green => assert IsHexColor("#198754");
    case Teal => assert IsHexColor("#20c997");
    case Cyan => assert IsHexColor("#0dcaf0");
    case White => assert IsHexColor("#ffffff");
    case Black => assert IsHexColor("#000000");
  }

  /** The two tables differ exactly in `fg` and `bg`, and every entry is a
      well-formed colour string. */
  lemma ThemeTables(n: ColorName)
    ensures ThemeColor(Light, n) == ThemeColor(Dark, n) <==> n != Fg && n != Bg
    ensures IsHexColor(ThemeColor(Light, n)) && IsHexColor(ThemeColor(Dark, n))
  {
    if n == Fg || n == Bg {
      assert "#000000"[1] != "#ffffff"[1];
      assert "#ffffff"[1] != "#212529"[1];
      assert IsHexColor("#000000") && IsHexColor("#ffffff") && IsHexColor("#212529");
    } else {
      CommonColorWellFormed(Alias(n));
    }
  }

  /** `Palette.getColors`: the light table exactly when the theme getter
      returns "light"; anything else (including null, `None`) is dark. */
  function GetColors(theme: Option<string>): (t: Theme)
    ensures t == Light <==> theme == Some("light")
  {
    if theme == Some("light") then Light else Dark
  }

  /** The accessor `palette.<name>(factor)` built by `interpolatedColorFactory`:
      a non-negative factor blends from `bg` towards the named colour; a
      negative factor blends from `fg` with weight `1 + factor`. */
  function PaletteColor(theme: Option<string>, name: ColorName, factor: real := 1.0): string
  {
    var t := GetColors(theme);
    var main := ThemeColor(t, name);
    var other := if factor < 0.0 then ThemeColor(t, Fg) else ThemeColor(t, Bg);
    var f := if factor < 0.0 then 1.0 + factor else factor;
    ThemeTables(name);
    ThemeTables(Fg);
    ThemeTables(Bg);
    Rgb2HexOfHex2Rgb(main);
    Rgb2HexOfHex2Rgb(other);
    Rgb2Hex(Interpolated(Hex2Rgb(other).value, Hex2Rgb(main).value, f))
  }

  /** Factor 1 (the default) gives the named colour, lower-cased. */
  lemma PaletteDefaultFactor(theme: Option<string>, name: ColorName)
    ensures PaletteColor(theme, name) == Lower(ThemeColor(GetColors(theme), name))
  {
    var t := GetColors(theme);
    ThemeTables(name);
    ThemeTables(Bg);
    var main, other := ThemeColor(t, name), ThemeColor(t, Bg);
    Rgb2HexOfHex2Rgb(main);
    Rgb2HexOfHex2Rgb(other);
    InterpolatedEndpoints(Hex2Rgb(other).value, Hex2Rgb(main).value);
  }

  /** Factor 0 gives the theme's background and factor -1 its foreground. */
  lemma PaletteZeroAndMinusOne(theme: Option<string>, name: ColorName)
    ensures PaletteColor(theme, name, 0.0) == Lower(ThemeColor(GetColors(theme), Bg))
    ensures PaletteColor(theme, name, -1.0) == Lower(ThemeColor(GetColors(theme), Fg))
  {
    var t := GetColors(theme);
    ThemeTables(name);
    ThemeTables(Bg);
    ThemeTables(Fg);
    var main, bg, fg := ThemeColor(t, name), ThemeColor(t, Bg), ThemeColor(t, Fg);
    Rgb2HexOfHex2Rgb(main);
    Rgb2HexOfHex2Rgb(bg);
    Rgb2HexOfHex2Rgb(fg);
    InterpolatedEndpoints(Hex2Rgb(bg).value, Hex2Rgb(main).value);
    InterpolatedEndpoints(Hex2Rgb(fg).value, Hex2Rgb(main).value);
  }

  /** For factors in [-1, 1] every accessor returns a well-formed lower-case
      colour string. */
  lemma PaletteColorWellFormed(theme: Option<string>, name: ColorName, factor: real)
    requires -1.0 <= factor <= 1.0
    ensures IsLowerHexColor(PaletteColor(theme, name, factor))
  {
    var t := GetColors(theme);
    ThemeTables(name);
    ThemeTables(Fg);
    ThemeTables(Bg);
    var main := ThemeColor(t, name);
    var other := if factor < 0.0 then ThemeColor(t, Fg) else ThemeColor(t, Bg);
    var f := if factor < 0.0 then 1.0 + factor else factor;
    Rgb2HexOfHex2Rgb(main);
    Rgb2HexOfHex2Rgb(other);
    var a := Hex2Rgb(other).value;
    var b := Hex2Rgb(main).value;
    assert PaletteColor(theme, name, factor) == Rgb2Hex(Interpolated(a, b, f));
    BlendWellFormed(a, b, f);
  }

  /** Blending two byte colours with a weight in [0, 1] prints as a
      well-formed lower-case colour. */
  lemma BlendWellFormed(a: Rgb, b: Rgb, f: real)
    requires InByteRange(a) && InByteRange(b) && 0.0 <= f <= 1.0
    ensures IsLowerHexColor(Rgb2Hex(Interpolated(a, b, f)))
  {
    InterpolatedBetween(a, b, f);
    Rgb2HexShape(Interpolated(a, b, f));
  }
}
