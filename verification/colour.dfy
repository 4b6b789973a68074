/** Colour decoding shared by the PDF recreation and the PDF tree builder: a PyMuPDF span colour is
    an sRGB integer `0xRRGGBB`, split with `(c >> 16) & 0xff`, `(c >> 8) & 0xff`, `c & 0xff` and
    rendered by the tree builder as `#rrggbb`.

    Python's `c >> k` is floor division by 2^k and `x & 0xff` is the non-negative remainder modulo
    256, for negative integers too; Dafny's `/` and `%` by a positive divisor are the same operations,
    so the definitions below are exact for every Python int. */
module Colour {
  import opened Wrappers

  const Mask24: int := 0x100_0000

  datatype Rgb = Rgb(r: int, g: int, b: int) {
    predicate InRange() {
      0 <= r < 256 && 0 <= g < 256 && 0 <= b < 256
    }
  }

  /** The three channels of a colour integer, each masked to one byte. */
  function Split(c: int): (rgb: Rgb)
    ensures rgb.InRange()
  {
    Rgb((c / 0x1_0000) % 0x100, (c / 0x100) % 0x100, c % 0x100)
  }

  /** The inverse direction: `0xRRGGBB` from three bytes. */
  function Pack(rgb: Rgb): int
  {
    rgb.r * 0x1_0000 + rgb.g * 0x100 + rgb.b
  }

  /** Splitting a 24-bit colour and packing the channels gives the colour back. */
  lemma SplitPack(c: int)
    requires 0 <= c < Mask24
    ensures Pack(Split(c)) == c
  {
    var q := c / 0x100;
    assert q / 0x100 == c / 0x1_0000;
    assert c / 0x1_0000 < 0x100;
  }

  /** Packing three bytes and splitting gives the bytes back. */
  lemma PackSplit(rgb: Rgb)
    requires rgb.InRange()
    ensures Split(Pack(rgb)) == rgb
  {
    var c := Pack(rgb);
    var hi := rgb.r * 0x100 + rgb.g;
    assert c == hi * 0x100 + rgb.b;
    assert c / 0x100 == hi;
    assert c / 0x1_0000 == rgb.r;
  }

  /** Only the low 24 bits of the integer are read. */
  lemma SplitLow24(c: int)
    ensures Split(c) == Split(c % Mask24)
  {
    var k := c / Mask24;
    var low := c % Mask24;
    assert c == k * Mask24 + low;
    assert c / 0x1_0000 == k * 0x100 + low / 0x1_0000;
    assert c / 0x100 == k * 0x1_0000 + low / 0x100;
  }

  /** Lower-case hexadecimal digit of a nibble, as `format(n, 'x')` writes it. */
  function HexDigit(n: int): (ch: char)
    requires 0 <= n < 16
  {
    "0123456789abcdef"[n]
  }

  predicate IsLowerHex(ch: char)
  {
    '0' <= ch <= '9' || 'a' <= ch <= 'f'
  }

  function HexValue(ch: char): Option<int>
  {
    if '0' <= ch <= '9' then Some(ch as int - '0' as int)
    else if 'a' <= ch <= 'f' then Some(ch as int - 'a' as int + 10)
    else None
  }

  lemma HexDigitValue(n: int)
    requires 0 <= n < 16
    ensures IsLowerHex(HexDigit(n)) && HexValue(HexDigit(n)) == Some(n)
  {
  }

  /** `f"{x:02x}"` for a byte: two lower-case hexadecimal digits, high nibble first. */
  function Hex2(x: int): (s: string)
    requires 0 <= x < 256
    ensures |s| == 2 && IsLowerHex(s[0]) && IsLowerHex(s[1])
  {
    HexDigitValue(x / 16);
    HexDigitValue(x % 16);
    [HexDigit(x / 16), HexDigit(x % 16)]
  }

  /** `f"#{r:02x}{g:02x}{b:02x}"` over the split channels (tree_docx.py:88-89). */
  function ColourHex(c: int): (s: string)
    ensures |s| == 7 && s[0] == '#'
    ensures forall i :: 1 <= i < 7 ==> IsLowerHex(s[i])
  {
    var rgb := Split(c);
    "#" + Hex2(rgb.r) + Hex2(rgb.g) + Hex2(rgb.b)
  }

  function ParseHex2(s: string): Option<int>
    requires |s| == 2
  {
    match (HexValue(s[0]), HexValue(s[1]))
    case (Some(hi), Some(lo)) => Some(hi * 16 + lo)
    case _ => None
  }

  /** Reads a `#rrggbb` string back to the colour integer. */
  function ParseColourHex(s: string): Option<int>
  {
    if |s| != 7 || s[0] != '#' then None
    else
      match (ParseHex2(s[1..3]), ParseHex2(s[3..5]), ParseHex2(s[5..7]))
      case (Some(r), Some(g), Some(b)) => Some(Pack(Rgb(r, g, b)))
      case _ => None
  }

  lemma Hex2RoundTrip(x: int)
    requires 0 <= x < 256
    ensures ParseHex2(Hex2(x)) == Some(x)
  {
    HexDigitValue(x / 16);
    HexDigitValue(x % 16);
  }

  /** The hex rendering of a 24-bit colour reads back as the same colour, and any colour
      integer renders as its low 24 bits. */
  lemma ColourHexRoundTrip(c: int)
    ensures ParseColourHex(ColourHex(c)) == Some(c % Mask24)
  {
    var rgb := Split(c);
    var s := ColourHex(c);
    Hex2RoundTrip(rgb.r);
    Hex2RoundTrip(rgb.g);
    Hex2RoundTrip(rgb.b);
    assert s[1..3] == Hex2(rgb.r);
    assert s[3..5] == Hex2(rgb.g);
    assert s[5..7] == Hex2(rgb.b);
    SplitLow24(c);
    SplitPack(c % Mask24);
  }
}
