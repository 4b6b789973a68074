/** Bold and italic detection for a PDF span (file_manipulator.py:82-83, extractor.py:39-41):
    `flags & 1 != 0 or "bold" in font.lower()` and `flags & 2 != 0 or "italic" in font.lower()`.
    In Python `&` binds tighter than `!=`, so each test is on one bit of the flags integer. */
module SpanStyle {
  import opened Strings

  /** `flags & (1 << k) != 0` for any Python int (two's complement for negatives). */
  function Bit(flags: int, k: nat): bool
  {
    (flags / Pow2(k)) % 2 == 1
  }

  function Pow2(k: nat): (p: int)
    ensures p >= 1
  {
    if k == 0 then 1 else 2 * Pow2(k - 1)
  }

  predicate IsBold(flags: int, font: string)
  {
    Bit(flags, 0) || Contains("bold", Lower(font))
  }

  predicate IsItalic(flags: int, font: string)
  {
    Bit(flags, 1) || Contains("italic", Lower(font))
  }

  /** The flags integer with the given bold and italic bits over the bits `rest` above them. */
  function WithStyleBits(bold: bool, italic: bool, rest: int): int
  {
    rest * 4 + (if italic then 2 else 0) + (if bold then 1 else 0)
  }

  /** Every flags integer is its two style bits over the remaining bits. */
  lemma StyleBitsDecompose(flags: int)
    ensures flags == WithStyleBits(Bit(flags, 0), Bit(flags, 1), flags / 4)
  {
    var q := flags / 4;
    assert Pow2(0) == 1 && Pow2(1) == 2;
    assert Bit(flags, 0) == (flags % 2 == 1);
    assert Bit(flags, 1) == ((flags / 2) % 2 == 1);
    if flags % 4 == 0 {
      assert flags == q * 4;
    } else if flags % 4 == 1 {
      assert flags == q * 4 + 1;
    } else if flags % 4 == 2 {
      assert flags == q * 4 + 2;
    } else {
      assert flags == q * 4 + 3;
    }
  }

  /** Reading the style bits back recovers them, whatever the other bits are and whatever the
      font name: the bit tests decide the result whenever the name contains neither word. */
  lemma StyleBitsRoundTrip(bold: bool, italic: bool, rest: int, font: string)
    requires !Contains("bold", Lower(font)) && !Contains("italic", Lower(font))
    ensures IsBold(WithStyleBits(bold, italic, rest), font) == bold
    ensures IsItalic(WithStyleBits(bold, italic, rest), font) == italic
  {
    var f := WithStyleBits(bold, italic, rest);
    assert Pow2(1) == 2;
    assert f / 2 == rest * 2 + (if italic then 1 else 0);
  }

  /** The name test ignores letter case: "Arial-BOLD", "arial-bold" and "Arial-Bold" all count. */
  lemma StyleIgnoresFontCase(flags: int, font: string)
    ensures IsBold(flags, font) == IsBold(flags, Upper(font)) == IsBold(flags, Lower(font))
    ensures IsItalic(flags, font) == IsItalic(flags, Upper(font)) == IsItalic(flags, Lower(font))
  {
    LowerCaseInsensitive(font);
  }
}
