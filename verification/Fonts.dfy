/** The glyph tables of the coin machine: ten digits and t, c, colon, W, blank. */
module Fonts {
  import opened Drawings
  import opened Glyphs
  import opened Gpio
  import opened Pictures

  const DOT_VALUES: seq<seq<bv8>> := [
    [0xFF, 0xFF, 0x00, 0x7E, 0x7E, 0x00, 0xFF, 0xFF],
    [0xFF, 0xFF, 0xFF, 0xBE, 0x00, 0xFE, 0xFF, 0xFF],
    [0xFF, 0xFF, 0x60, 0x66, 0x66, 0x06, 0xFF, 0xFF],
    [0xFF, 0xFF, 0x66, 0x66, 0x66, 0x00, 0xFF, 0xFF],
    [0xFF, 0xFF, 0x07, 0xF7, 0x00, 0xF7, 0xFF, 0xFF],
    [0xFF, 0xFF, 0x06, 0x66, 0x66, 0x60, 0xFF, 0xFF],
    [0xFF, 0xFF, 0x00, 0x76, 0x76, 0x70, 0xFF, 0xFF],
    [0xFF, 0xFF, 0x10, 0xE0, 0xE0, 0x00, 0xFF, 0xFF],
    [0xFF, 0xFF, 0x00, 0x6E, 0x6E, 0x00, 0xFF, 0xFF],
    [0xFF, 0xFF, 0x0E, 0x6E, 0x6E, 0x00, 0xFF, 0xFF]
  ]

  const DOT_CHAR: seq<seq<bv8>> := [
    [0xFF, 0xFF, 0x7F, 0x7F, 0x00, 0x7F, 0x7F, 0xFF],
    [0xFF, 0xFF, 0x00, 0x7E, 0x7E, 0x7E, 0xFF, 0xFF],
    [0xFF, 0xFF, 0xFF, 0xFF, 0x99, 0xFF, 0xFF, 0xFF],
    [0xFF, 0x00, 0xFE, 0x00, 0xFE, 0x00, 0xFF, 0xFF],
    [0xFF, 0xFF, 0xFF, 0xFF, 0xFF, 0xFF, 0xFF, 0xFF]
  ]

  const FONT: Font := DOT_VALUES + DOT_CHAR

  /** All fifteen glyphs are eight bytes and pairwise distinct. */
  lemma FontIsValid()
    ensures ValidFont(FONT)
  {
    forall i, j | 0 <= i < j < 15
      ensures FONT[i] != FONT[j]
    {
      RowsDiffer(i, j);
    }
  }

  lemma RowsDiffer(i: nat, j: nat)
    requires i < j < 15
    ensures FONT[i] != FONT[j]
  {
    if j < 10 {
      DigitsDiffer(i, j);
    } else if i < 10 {
      DigitAndLetterDiffer(i, j - 10);
    } else {
      LettersDiffer(i - 10, j - 10);
    }
  }

  lemma DigitsDiffer(i: nat, j: nat)
    requires i < j < 10
    ensures DOT_VALUES[i] != DOT_VALUES[j]
  {
    assert DOT_VALUES[i][2] != DOT_VALUES[j][2] || DOT_VALUES[i][3] != DOT_VALUES[j][3];
  }

  lemma DigitAndLetterDiffer(i: nat, j: nat)
    requires i < 10 && j < 5
    ensures DOT_VALUES[i] != DOT_CHAR[j]
  {
    assert DOT_VALUES[i][2] != DOT_CHAR[j][2] || DOT_VALUES[i][3] != DOT_CHAR[j][3]
        || DOT_VALUES[i][5] != DOT_CHAR[j][5];
  }

  lemma LettersDiffer(i: nat, j: nat)
    requires i < j < 5
    ensures DOT_CHAR[i] != DOT_CHAR[j]
  {
    assert DOT_CHAR[i][2] != DOT_CHAR[j][2] || DOT_CHAR[i][4] != DOT_CHAR[j][4];
  }

  /** The tables hold the glyphs as they are drawn, column by column. */
  lemma CodesAreDrawn(g: Glyph)
    requires Proper(g)
    ensures HoldsColumns(FONT[RowOf(g)], DotPicture(g))
  {
    match g
    case Digit(d) => DigitIsDrawn(d);
    case T => LettersAreDrawn();
    case C => LettersAreDrawn();
    case Colon => SignsAreDrawn();
    case W => SignsAreDrawn();
    case Blank => SignsAreDrawn();
  }

  lemma DigitIsDrawn(d: nat)
    requires d < 10
    ensures HoldsColumns(DOT_VALUES[d], DotPicture(Digit(d)))
  {
    if d < 3 {
      FirstDigitsAreDrawn();
    } else if d < 6 {
      MiddleDigitsAreDrawn();
    } else {
      LastDigitsAreDrawn();
    }
  }

  lemma FirstDigitsAreDrawn()
    ensures HoldsColumns(DOT_VALUES[0], DOT_0) && HoldsColumns(DOT_VALUES[1], DOT_1)
    ensures HoldsColumns(DOT_VALUES[2], DOT_2)
  {
  }

  lemma MiddleDigitsAreDrawn()
    ensures HoldsColumns(DOT_VALUES[3], DOT_3) && HoldsColumns(DOT_VALUES[4], DOT_4)
    ensures HoldsColumns(DOT_VALUES[5], DOT_5)
  {
  }

  lemma LastDigitsAreDrawn()
    ensures HoldsColumns(DOT_VALUES[6], DOT_6) && HoldsColumns(DOT_VALUES[7], DOT_7)
    ensures HoldsColumns(DOT_VALUES[8], DOT_8) && HoldsColumns(DOT_VALUES[9], DOT_9)
  {
  }

  lemma LettersAreDrawn()
    ensures HoldsColumns(DOT_CHAR[0], DOT_T) && HoldsColumns(DOT_CHAR[1], DOT_C)
  {
  }

  lemma SignsAreDrawn()
    ensures HoldsColumns(DOT_CHAR[2], DOT_COLON) && HoldsColumns(DOT_CHAR[3], DOT_W)
    ensures HoldsColumns(DOT_CHAR[4], DOT_BLANK)
  {
  }

  /** A glyph's bytes light exactly the pixels of its picture: byte `x` is column `x`, its top pixel the highest bit. */
  lemma GlyphsAreDrawn(g: Glyph, y: nat, x: nat)
    requires Proper(g) && y < 8 && x < 8
    ensures ValidFont(FONT) && (!HasBit(Code(FONT, g)[x], 7 - y) <==> Inked(DotPicture(g), y, x))
  {
    FontIsValid();
    CodesAreDrawn(g);
    PixelByColumns(Code(FONT, g), DotPicture(g), y, x);
  }
}
