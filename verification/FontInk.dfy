/** The machine's own glyphs can be told apart by their ink, even without knowing where one begins. */
module FontInk {
  import opened Glyphs
  import opened Fonts
  import opened BlindReader

  const DIGIT_INK: seq<seq<bv8>> := [
    [0x00, 0x7E, 0x7E, 0x00],
    [0xBE, 0x00, 0xFE],
    [0x60, 0x66, 0x66, 0x06],
    [0x66, 0x66, 0x66, 0x00],
    [0x07, 0xF7, 0x00, 0xF7],
    [0x06, 0x66, 0x66, 0x60],
    [0x00, 0x76, 0x76, 0x70],
    [0x10, 0xE0, 0xE0, 0x00],
    [0x00, 0x6E, 0x6E, 0x00],
    [0x0E, 0x6E, 0x6E, 0x00]
  ]

  const CHAR_INK: seq<seq<bv8>> := [
    [0x7F, 0x7F, 0x00, 0x7F, 0x7F],
    [0x00, 0x7E, 0x7E, 0x7E],
    [0x99],
    [0x00, 0xFE, 0x00, 0xFE, 0x00],
    []
  ]

  /** The ink of eight bytes, left to right. */
  function EightInk(b: seq<bv8>): seq<bv8>
    requires |b| == 8
  {
    [] + InkOf(b[0]) + InkOf(b[1]) + InkOf(b[2]) + InkOf(b[3])
    + InkOf(b[4]) + InkOf(b[5]) + InkOf(b[6]) + InkOf(b[7])
  }

  lemma InkOfEight(b: seq<bv8>)
    requires |b| == 8
    ensures Ink(b) == EightInk(b)
  {
    assert InkTo(b, 1) == [] + InkOf(b[0]);
    assert InkTo(b, 2) == InkTo(b, 1) + InkOf(b[1]);
    assert InkTo(b, 3) == InkTo(b, 2) + InkOf(b[2]);
    assert InkTo(b, 4) == InkTo(b, 3) + InkOf(b[3]);
    assert InkTo(b, 5) == InkTo(b, 4) + InkOf(b[4]);
    assert InkTo(b, 6) == InkTo(b, 5) + InkOf(b[5]);
    assert InkTo(b, 7) == InkTo(b, 6) + InkOf(b[6]);
  }

  lemma LowDigitInk(i: nat)
    requires i < 5
    ensures Ink(DOT_VALUES[i]) == DIGIT_INK[i]
  {
    InkOfEight(DOT_VALUES[i]);
  }

  lemma MiddleDigitInk(i: nat)
    requires 5 <= i < 8
    ensures Ink(DOT_VALUES[i]) == DIGIT_INK[i]
  {
    InkOfEight(DOT_VALUES[i]);
  }

  lemma HighDigitInk(i: nat)
    requires 8 <= i < 10
    ensures Ink(DOT_VALUES[i]) == DIGIT_INK[i]
  {
    InkOfEight(DOT_VALUES[i]);
  }

  lemma DigitInk(i: nat)
    requires i < 10
    ensures Ink(DOT_VALUES[i]) == DIGIT_INK[i]
  {
    if i < 5 {
      LowDigitInk(i);
    } else if i < 8 {
      MiddleDigitInk(i);
    } else {
      HighDigitInk(i);
    }
  }

  lemma TInk()
    ensures Ink(DOT_CHAR[0]) == CHAR_INK[0]
  {
    InkOfEight(DOT_CHAR[0]);
  }

  lemma CInk()
    ensures Ink(DOT_CHAR[1]) == CHAR_INK[1]
  {
    InkOfEight(DOT_CHAR[1]);
  }

  lemma HighCharInk(i: nat)
    requires 2 <= i < 5
    ensures Ink(DOT_CHAR[i]) == CHAR_INK[i]
  {
    InkOfEight(DOT_CHAR[i]);
  }

  lemma CharInk(i: nat)
    requires i < 5
    ensures Ink(DOT_CHAR[i]) == CHAR_INK[i]
  {
    if i == 0 {
      TInk();
    } else if i == 1 {
      CInk();
    } else {
      HighCharInk(i);
    }
  }

  /** Two inks differ in their first, second or fourth byte. */
  lemma DigitsApart(i: nat, j: nat)
    requires i < 10 && j < 10 && i != j
    ensures Apart(DIGIT_INK[i], DIGIT_INK[j])
  {
    assert DIGIT_INK[i][0] != DIGIT_INK[j][0] || DIGIT_INK[i][1] != DIGIT_INK[j][1];
  }

  lemma DigitAndCharApart(i: nat, j: nat)
    requires i < 10 && j < 4
    ensures Apart(DIGIT_INK[i], CHAR_INK[j]) && Apart(CHAR_INK[j], DIGIT_INK[i])
  {
    if DIGIT_INK[i][0] != CHAR_INK[j][0] {
    } else if DIGIT_INK[i][1] != CHAR_INK[j][1] {
    } else {
      assert DIGIT_INK[i][3] != CHAR_INK[j][3];
    }
  }

  lemma CharsApart(i: nat, j: nat)
    requires i < 4 && j < 4 && i != j
    ensures Apart(CHAR_INK[i], CHAR_INK[j])
  {
    if CHAR_INK[i][0] == CHAR_INK[j][0] {
      assert CHAR_INK[i][1] != CHAR_INK[j][1];
    }
  }

  lemma RowOfFont(i: nat)
    requires i < 15
    ensures |FONT| == 15 && FONT[i] == if i < 10 then DOT_VALUES[i] else DOT_CHAR[i - 10]
  {
  }

  lemma GlyphsApart(i: nat, j: nat)
    requires i < 14 && j < 14 && i != j
    ensures |FONT| == 15 && Apart(Ink(FONT[i]), Ink(FONT[j]))
  {
    RowOfFont(i);
    RowOfFont(j);
    if i < 10 && j < 10 {
      DigitInksApart(i, j);
    } else if i < 10 {
      DigitAndCharInkApart(i, j - 10);
    } else if j < 10 {
      DigitAndCharInkApart(j, i - 10);
    } else {
      CharInksApart(i - 10, j - 10);
    }
  }

  lemma DigitInksApart(i: nat, j: nat)
    requires i < 10 && j < 10 && i != j
    ensures Apart(Ink(DOT_VALUES[i]), Ink(DOT_VALUES[j]))
  {
    DigitInk(i);
    DigitInk(j);
    DigitsApart(i, j);
  }

  lemma DigitAndCharInkApart(i: nat, j: nat)
    requires i < 10 && j < 4
    ensures Apart(Ink(DOT_VALUES[i]), Ink(DOT_CHAR[j])) && Apart(Ink(DOT_CHAR[j]), Ink(DOT_VALUES[i]))
  {
    DigitInk(i);
    CharInk(j);
    DigitAndCharApart(i, j);
  }

  lemma CharInksApart(i: nat, j: nat)
    requires i < 4 && j < 4 && i != j
    ensures Apart(Ink(DOT_CHAR[i]), Ink(DOT_CHAR[j]))
  {
    CharInk(i);
    CharInk(j);
    CharsApart(i, j);
  }

  lemma GlyphInked(i: nat)
    requires i < 14
    ensures |FONT| == 15 && Ink(FONT[i]) != []
  {
    RowOfFont(i);
    if i < 10 {
      DigitInk(i);
      assert |DIGIT_INK[i]| >= 3;
    } else {
      CharInk(i - 10);
      assert |CHAR_INK[i - 10]| >= 1;
    }
  }

  lemma BlankHasNoInk()
    ensures |FONT| == 15 && Ink(FONT[14]) == []
  {
    RowOfFont(14);
    CharInk(4);
  }

  lemma GlyphStarts(i: nat)
    requires i < 15
    ensures |FONT| == 15 && |FONT[i]| == 8 && FONT[i][0] == PAPER
  {
    if i < 10 {
      assert DOT_VALUES[i][0] == PAPER;
    } else {
      assert DOT_CHAR[i - 10][0] == PAPER;
    }
  }

  lemma AllStart()
    requires ValidFont(FONT)
    ensures StartWithPaper(FONT)
  {
    forall i | 0 <= i < 15
      ensures FONT[i][0] == PAPER
    {
      GlyphStarts(i);
    }
  }

  lemma AllApart()
    requires ValidFont(FONT)
    ensures InkApart(FONT)
  {
    forall i, j | 0 <= i < 14 && 0 <= j < 14 && i != j
      ensures Apart(Ink(FONT[i]), Ink(FONT[j]))
    {
      GlyphsApart(i, j);
    }
  }

  lemma AllInked()
    requires ValidFont(FONT)
    ensures Inked(FONT)
  {
    forall i | 0 <= i < 14
      ensures Ink(FONT[i]) != []
    {
      GlyphInked(i);
    }
  }

  /** The machine's font has readable ink. */
  lemma FontHasInk()
    ensures InkFont(FONT)
  {
    FontIsValid();
    AllStart();
    AllApart();
    AllInked();
    BlankHasNoInk();
  }
}
