/** The hex colour codec of brand_processor.py: `_is_valid_hex_color`,
    `_hex_to_rgb` and `_rgb_to_hex`. */
module HexColor {
  import opened Common

  predicate IsHexDigit(c: char) {
    '0' <= c <= '9' || 'a' <= c <= 'f' || 'A' <= c <= 'F'
  }

  /** `re.match(r'^#[0-9A-Fa-f]{6}$', s)`. Python's `$` also matches just
      before a single final newline, so "#a1b2c3\n" is accepted too. */
  predicate IsHexColorText(s: string) {
    && (|s| == 7 || (|s| == 8 && s[7] == '\n'))
    && s[0] == '#'
    && forall i :: 1 <= i < 7 ==> IsHexDigit(s[i])
  }

  /** `_is_valid_hex_color`: never true of a value that is not a `str`. */
  predicate IsValidHexColor(v: Value) {
    v.Str? && IsHexColorText(v.s)
  }

  function DigitValue(c: char): (d: nat)
    requires IsHexDigit(c)
    ensures d < 16
  {
    if '0' <= c <= '9' then c as int - '0' as int
    else if 'a' <= c <= 'f' then c as int - 'a' as int + 10
    else c as int - 'A' as int + 10
  }

  /** The lower-case digit `format` uses for `d`. */
  function DigitChar(d: nat): (c: char)
    requires d < 16
    ensures IsHexDigit(c) && DigitValue(c) == d
  {
    if d < 10 then ('0' as int + d) as char else ('a' as int + d - 10) as char
  }

  datatype Rgb = Rgb(r: int, g: int, b: int)

  /** `s.lstrip(c)` */
  function LStrip(s: string, c: char): (r: string)
    ensures |r| <= |s| && r == s[|s| - |r|..]
    ensures r != [] ==> r[0] != c
  {
    if s != [] && s[0] == c then LStrip(s[1..], c) else s
  }

  /** `int(hi + lo, 16)` for two hex digits. */
  function ParseByte(hi: char, lo: char): nat
    requires IsHexDigit(hi) && IsHexDigit(lo)
  {
    16 * DigitValue(hi) + DigitValue(lo)
  }

  /** `_hex_to_rgb`: strips the leading '#'s and reads three two-digit pairs.
      Every caller in the source checks `_is_valid_hex_color` first. */
  function HexToRgb(hex: string): (c: Rgb)
    requires IsHexColorText(hex)
    ensures 0 <= c.r < 256 && 0 <= c.g < 256 && 0 <= c.b < 256
  {
    var h := LStrip(hex, '#');
    LStripHash(hex);
    Rgb(ParseByte(h[0], h[1]), ParseByte(h[2], h[3]), ParseByte(h[4], h[5]))
  }

  /** A valid colour loses exactly its one '#' to `lstrip('#')`. */
  lemma LStripHash(hex: string)
    requires IsHexColorText(hex)
    ensures LStrip(hex, '#') == hex[1..]
  {
    assert LStrip(hex, '#') == LStrip(hex[1..], '#');
    assert hex[1..][0] != '#';
  }

  /** The hexadecimal digits of `n`, most significant first, without leading zeros. */
  function Hex(n: nat): (s: string)
    ensures |s| >= 1
    decreases n
  {
    if n < 16 then [DigitChar(n)] else Hex(n / 16) + [DigitChar(n % 16)]
  }

  /** `f"{n:02x}"`: at least two characters, zero-padded, with a '-' for negatives. */
  function Format02x(n: int): string {
    if n < 0 then "-" + Hex(-n)
    else if n < 16 then "0" + Hex(n)
    else Hex(n)
  }

  /** `_rgb_to_hex` */
  function RgbToHex(r: int, g: int, b: int): string {
    "#" + Format02x(r) + Format02x(g) + Format02x(b)
  }

  lemma FormatByte(n: int)
    requires 0 <= n < 256
    ensures Format02x(n) == [DigitChar(n / 16), DigitChar(n % 16)]
  {
    if n >= 16 {
      assert Hex(n / 16) == [DigitChar(n / 16)];
    }
  }

  lemma DigitRoundTrip(c: char)
    requires IsHexDigit(c)
    ensures DigitChar(DigitValue(c)) == LowerChar(c)
  {
  }

  /** Round trip from components: a byte triple prints as a valid seven-character
      colour that reads back as the same triple. */
  lemma {:induction false} RgbToHexRoundTrip(r: int, g: int, b: int)
    requires 0 <= r < 256 && 0 <= g < 256 && 0 <= b < 256
    ensures |RgbToHex(r, g, b)| == 7
    ensures IsValidHexColor(Str(RgbToHex(r, g, b)))
    ensures HexToRgb(RgbToHex(r, g, b)) == Rgb(r, g, b)
  {
    FormatByte(r);
    FormatByte(g);
    FormatByte(b);
    var s := RgbToHex(r, g, b);
    PrintedPairs(Format02x(r), Format02x(g), Format02x(b));
    assert IsHexColorText(s);
    HexToRgbDigits(s);
    ByteRoundTrip(r);
    ByteRoundTrip(g);
    ByteRoundTrip(b);
  }

  /** The two digits `format` prints for a byte read back as that byte. */
  lemma ByteRoundTrip(n: int)
    requires 0 <= n < 256
    ensures ParseByte(DigitChar(n / 16), DigitChar(n % 16)) == n
  {
  }

  /** Round trip from text: reading a valid colour and printing it back gives
      its six digits in lower case, without any trailing newline. */
  lemma {:induction false} HexToRgbRoundTrip(hex: string)
    requires IsHexColorText(hex)
    ensures var c := HexToRgb(hex); RgbToHex(c.r, c.g, c.b) == "#" + Lower(hex[1..7])
  {
    PrintedColor(hex);
    LowerDigits(hex);
  }

  lemma LowerDigits(hex: string)
    requires |hex| >= 7
    ensures "#" + Lower(hex[1..7]) == ['#', LowerChar(hex[1]), LowerChar(hex[2]), LowerChar(hex[3]),
                                       LowerChar(hex[4]), LowerChar(hex[5]), LowerChar(hex[6])]
  {
  }

  lemma PrintedColor(hex: string)
    requires IsHexColorText(hex)
    ensures var c := HexToRgb(hex);
      RgbToHex(c.r, c.g, c.b) == ['#', LowerChar(hex[1]), LowerChar(hex[2]), LowerChar(hex[3]),
                                  LowerChar(hex[4]), LowerChar(hex[5]), LowerChar(hex[6])]
  {
    HexToRgbDigits(hex);
    var c := HexToRgb(hex);
    PrintedByte(hex[1], hex[2]);
    PrintedByte(hex[3], hex[4]);
    PrintedByte(hex[5], hex[6]);
    PrintedPairs(Format02x(c.r), Format02x(c.g), Format02x(c.b));
  }

  /** A '#' and three two-character pairs make a seven-character text. */
  lemma PrintedPairs(x: string, y: string, z: string)
    requires |x| == 2 && |y| == 2 && |z| == 2
    ensures "#" + x + y + z == ['#', x[0], x[1], y[0], y[1], z[0], z[1]]
  {
  }

  lemma HexToRgbDigits(hex: string)
    requires IsHexColorText(hex)
    ensures HexToRgb(hex) == Rgb(ParseByte(hex[1], hex[2]), ParseByte(hex[3], hex[4]), ParseByte(hex[5], hex[6]))
  {
    LStripHash(hex);
    var h := hex[1..];
    assert h[0] == hex[1] && h[1] == hex[2] && h[2] == hex[3] && h[3] == hex[4] && h[4] == hex[5] && h[5] == hex[6];
  }

  /** A parsed pair of digits prints back as the same pair in lower case. */
  lemma PrintedByte(hi: char, lo: char)
    requires IsHexDigit(hi) && IsHexDigit(lo)
    ensures Format02x(ParseByte(hi, lo)) == [LowerChar(hi), LowerChar(lo)]
  {
    ByteParts(hi, lo);
    FormatByte(ParseByte(hi, lo));
    DigitRoundTrip(hi);
    DigitRoundTrip(lo);
  }

  lemma ByteParts(hi: char, lo: char)
    requires IsHexDigit(hi) && IsHexDigit(lo)
    ensures ParseByte(hi, lo) / 16 == DigitValue(hi)
    ensures ParseByte(hi, lo) % 16 == DigitValue(lo)
  {
  }
}
