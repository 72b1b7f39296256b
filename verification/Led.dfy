/**
  The gauge/digit display of `led_driver.c`: the opposite polarity of the dot
  matrix. A pixel is lit when its row line (20..27) is low and its column line
  (10..17) is high.
 */
module Led {
  import opened Drawings
  import opened Gpio
  import opened FunctionSelect
  import opened Pictures

  const FIRST_COLUMN: nat := 10
  const FIRST_ROW: nat := 20
  const COLUMNS: Word := Ones(FIRST_COLUMN, 8)
  const ROWS: Word := Ones(FIRST_ROW, 8)

  const GAUGE: seq<bv8> := [0x00, 0x01, 0x03, 0x07, 0x0F, 0x1F, 0x3F, 0x7F, 0xFF]
  const COUNT: seq<bv8> := [0x01, 0x02, 0x04, 0x08, 0x10, 0x20, 0x40, 0x80]

  function Num(d: nat): (rows: seq<bv8>)
    requires d < 10
    ensures |rows| == 8
  {
    if d == 0 then [0x78, 0x84, 0x8c, 0x94, 0xa4, 0xc4, 0x78, 0x00]
    else if d == 1 then [0x30, 0x70, 0x30, 0x30, 0x30, 0x30, 0xfc, 0x00]
    else if d == 2 then [0x78, 0xcc, 0x0c, 0x38, 0x60, 0xcc, 0xfc, 0x00]
    else if d == 3 then [0x78, 0xcc, 0x0c, 0x38, 0x0c, 0xcc, 0x78, 0x00]
    else if d == 4 then [0x1c, 0x3c, 0x6c, 0xcc, 0xfe, 0x0c, 0x1e, 0x00]
    else if d == 5 then [0xfc, 0xc0, 0xf8, 0x0c, 0x0c, 0xcc, 0x78, 0x00]
    else if d == 6 then [0x38, 0x60, 0xc0, 0xf8, 0xcc, 0xcc, 0x78, 0x00]
    else if d == 7 then [0xfc, 0xcc, 0x0c, 0x18, 0x30, 0x30, 0x30, 0x00]
    else if d == 8 then [0x78, 0xcc, 0xcc, 0x78, 0xcc, 0xcc, 0x78, 0x00]
    else [0x78, 0xcc, 0xcc, 0x7c, 0x0c, 0x18, 0x70, 0x00]
  }

  predicate Lit(latch: Word, r: nat, c: nat) {
    FIRST_ROW + r !in latch && FIRST_COLUMN + c in latch
  }

  /** Columns low, rows high: nothing is lit and no row is selected. */
  predicate Blank(latch: Word) {
    latch !! COLUMNS && ROWS <= latch
  }

  function Blanked(latch: Word): Word {
    (latch - COLUMNS) + ROWS
  }

  const BLANKING: seq<RegOp> := [ClearPins(COLUMNS), SetPins(ROWS)]

  /** One turn of the inner loop. */
  function RowOps(b: bv8, r: nat): seq<RegOp>
    requires r < 8
  {
    [ClearPins(Shifted(COUNT[r], FIRST_ROW)), SetPins(Shifted(b, FIRST_COLUMN)), ClearPins(COLUMNS), SetPins(ROWS)]
  }

  /** The first `n` turns of the inner loop. */
  function RefreshRows(bytes: seq<bv8>, n: nat): (ops: seq<RegOp>)
    requires n <= |bytes| <= 8
    ensures |ops| == 4 * n
  {
    if n == 0 then [] else RefreshRows(bytes, n - 1) + RowOps(bytes[n - 1], n - 1)
  }

  /** `n` turns of the outer loop. */
  function RefreshOps(bytes: seq<bv8>, n: nat): (ops: seq<RegOp>)
    requires |bytes| == 8
    ensures |ops| == 32 * n
  {
    if n == 0 then [] else RefreshOps(bytes, n - 1) + RefreshRows(bytes, 8)
  }

  /** The whole of `led_write` for an input in its tables' range. */
  function WriteOps(input: nat, refreshes: nat): seq<RegOp>
    requires input <= 18
  {
    BLANKING + if input / 10 == 1 then GaugeOps(input % 10) else RefreshOps(Num(input), refreshes)
  }

  function GaugeOps(k: nat): seq<RegOp>
    requires k <= 8
  {
    [ClearPins(ROWS), SetPins(Shifted(GAUGE[k], FIRST_COLUMN))]
  }

  /** The pixels that an input asks for; column line 0 is the rightmost of a picture. */
  predicate Asked(input: nat, r: nat, c: nat)
    requires input <= 18 && r < 8 && c < 8
  {
    if input / 10 == 1 then c < input % 10 else Inked(LedPicture(input), r, 7 - c)
  }

  lemma LowDigitsAreDrawn()
    ensures HoldsLines(Num(0), LED_0) && HoldsLines(Num(1), LED_1) && HoldsLines(Num(2), LED_2)
    ensures HoldsLines(Num(3), LED_3) && HoldsLines(Num(4), LED_4)
  {
  }

  lemma HighDigitsAreDrawn()
    ensures HoldsLines(Num(5), LED_5) && HoldsLines(Num(6), LED_6) && HoldsLines(Num(7), LED_7)
    ensures HoldsLines(Num(8), LED_8) && HoldsLines(Num(9), LED_9)
  {
  }

  /** The table holds the digits as they are drawn. */
  lemma NumIsDrawn(d: nat)
    requires d < 10
    ensures HoldsLines(Num(d), LedPicture(d))
  {
    if d < 5 {
      LowDigitsAreDrawn();
    } else {
      HighDigitsAreDrawn();
    }
  }

  lemma DigitBits(d: nat, r: nat, c: nat)
    requires d < 10 && r < 8 && c < 8
    ensures HasBit(Num(d)[r], c) <==> Inked(LedPicture(d), r, 7 - c)
  {
    NumIsDrawn(d);
    PixelByLines(Num(d), LedPicture(d), r, 7 - c);
  }

  lemma CountIsRow(r: nat)
    requires r < 8
    ensures Shifted(COUNT[r], FIRST_ROW) == {FIRST_ROW + r}
  {
    forall c | 0 <= c < 8
      ensures HasBit(COUNT[r], c) <==> c == r
    {
      OneBit(r, c);
    }
    ShiftedBit(COUNT[r], FIRST_ROW, r);
  }

  lemma OneBit(r: nat, c: nat)
    requires r < 8 && c < 8
    ensures HasBit(COUNT[r], c) <==> c == r
  {
  }

  lemma GaugeBits(k: nat, c: nat)
    requires k <= 8 && c < 8
    ensures HasBit(GAUGE[k], c) <==> c < k
  {
  }

  /** The latch after `j` writes of row `r`, from a blank display. */
  function RowState(latch: Word, b: bv8, r: nat, j: nat): Word {
    if j == 0 || j == 4 then latch
    else if j == 2 then latch - {FIRST_ROW + r} + Shifted(b, FIRST_COLUMN)
    else latch - {FIRST_ROW + r}
  }

  lemma RowRuns(latch: Word, b: bv8, r: nat, j: nat)
    requires Blank(latch) && r < 8 && j <= 4
    ensures ApplyAll(latch, RowOps(b, r)[..j]) == RowState(latch, b, r, j)
  {
    if j > 0 {
      StatesAt(latch, RowOps(b, r), j - 1);
      var d := Shifted(b, FIRST_COLUMN);
      RunFour(latch, ClearPins(Shifted(COUNT[r], FIRST_ROW)), SetPins(d), ClearPins(COLUMNS), SetPins(ROWS));
      CountIsRow(r);
      assert FIRST_ROW + r in ROWS && FIRST_ROW + r !in COLUMNS && d <= COLUMNS;
      assert ROWS !! COLUMNS;
      assert latch - {FIRST_ROW + r} + d - COLUMNS == latch - {FIRST_ROW + r};
    }
  }

  lemma {:induction false} RowsReturn(latch: Word, bytes: seq<bv8>, n: nat)
    requires Blank(latch) && n <= |bytes| <= 8
    ensures ApplyAll(latch, RefreshRows(bytes, n)) == latch
  {
    if n > 0 {
      var row := RowOps(bytes[n - 1], n - 1);
      RowsReturn(latch, bytes, n - 1);
      RunConcat(latch, RefreshRows(bytes, n - 1), row);
      RowRuns(latch, bytes[n - 1], n - 1, 4);
      assert row[..4] == row;
    }
  }

  lemma {:induction false} RefreshReturns(latch: Word, bytes: seq<bv8>, n: nat)
    requires Blank(latch) && |bytes| == 8
    ensures ApplyAll(latch, RefreshOps(bytes, n)) == latch
  {
    if n > 0 {
      RefreshReturns(latch, bytes, n - 1);
      RunConcat(latch, RefreshOps(bytes, n - 1), RefreshRows(bytes, 8));
      RowsReturn(latch, bytes, 8);
    }
  }

  lemma {:induction false} RowsPrefix(bytes: seq<bv8>, n: nat, i: nat, j: nat)
    requires i < n <= |bytes| <= 8 && j <= 4
    ensures RefreshRows(bytes, n)[..4 * i + j] == RefreshRows(bytes, i) + RowOps(bytes[i], i)[..j]
    decreases n
  {
    if i < n - 1 {
      RowsPrefix(bytes, n - 1, i, j);
      assert RefreshRows(bytes, n)[..4 * i + j] == RefreshRows(bytes, n - 1)[..4 * i + j];
    }
  }

  lemma {:induction false} RefreshPrefix(bytes: seq<bv8>, n: nat, m: nat, k: nat)
    requires |bytes| == 8 && m < n && k <= 32
    ensures RefreshOps(bytes, n)[..32 * m + k] == RefreshOps(bytes, m) + RefreshRows(bytes, 8)[..k]
    decreases n
  {
    if m < n - 1 {
      RefreshPrefix(bytes, n - 1, m, k);
      assert RefreshOps(bytes, n)[..32 * m + k] == RefreshOps(bytes, n - 1)[..32 * m + k];
    }
  }

  /**
    Digit mode, after every register write: in refresh `m` the eight rows are shown in
    order, row `i` by its four writes, with the display blank between them. There are
    exactly `n` refreshes of 32 writes.
   */
  lemma DigitMicroStates(latch: Word, bytes: seq<bv8>, n: nat, m: nat, i: nat, j: nat)
    requires Blank(latch) && |bytes| == 8 && m < n && i < 8 && j <= 4
    ensures |RefreshOps(bytes, n)| == 32 * n
    ensures ApplyAll(latch, RefreshOps(bytes, n)[..32 * m + (4 * i + j)]) == RowState(latch, bytes[i], i, j)
  {
    RefreshPrefix(bytes, n, m, 4 * i + j);
    RefreshReturns(latch, bytes, m);
    AfterReturning(latch, RefreshOps(bytes, m), RefreshRows(bytes, 8)[..4 * i + j]);
    RowMicroStates(latch, bytes, i, j);
  }

  lemma RowMicroStates(latch: Word, bytes: seq<bv8>, i: nat, j: nat)
    requires Blank(latch) && |bytes| == 8 && i < 8 && j <= 4
    ensures ApplyAll(latch, RefreshRows(bytes, 8)[..4 * i + j]) == RowState(latch, bytes[i], i, j)
  {
    RowsPrefix(bytes, 8, i, j);
    RowsReturn(latch, bytes, i);
    AfterReturning(latch, RefreshRows(bytes, i), RowOps(bytes[i], i)[..j]);
    RowRuns(latch, bytes[i], i, j);
  }

  lemma RowStateLights(latch: Word, b: bv8, row: nat, j: nat, r: nat, c: nat)
    requires Blank(latch) && row < 8 && j <= 4 && r < 8 && c < 8
    ensures Lit(RowState(latch, b, row, j), r, c) <==> j == 2 && r == row && HasBit(b, c)
  {
    assert FIRST_ROW + r in ROWS && FIRST_ROW + r !in COLUMNS && FIRST_COLUMN + c in COLUMNS;
    assert FIRST_COLUMN + c !in ROWS;
    ShiftedBit(b, FIRST_COLUMN, c);
  }

  lemma BlankingRuns(latch: Word, rest: seq<RegOp>, k: nat)
    requires k <= |rest|
    ensures ApplyAll(latch, (BLANKING + rest)[..1]) == latch - COLUMNS
    ensures ApplyAll(latch, (BLANKING + rest)[..2 + k]) == ApplyAll(Blanked(latch), rest[..k])
  {
    assert (BLANKING + rest)[..1] == [] + [ClearPins(COLUMNS)];
    ApplySnoc(latch, [], ClearPins(COLUMNS));
    assert (BLANKING + rest)[..2 + k] == BLANKING + rest[..k];
    RunTwo(latch, ClearPins(COLUMNS), SetPins(ROWS));
    RunConcat(latch, BLANKING, rest[..k]);
  }

  lemma GaugeRuns(latch: Word, k: nat, n: nat, r: nat, c: nat)
    requires Blank(latch) && k <= 8 && n <= 2 && r < 8 && c < 8
    ensures Lit(ApplyAll(latch, GaugeOps(k)[..n]), r, c) <==> n == 2 && c < k
  {
    var s0, s1 := ClearPins(ROWS), SetPins(Shifted(GAUGE[k], FIRST_COLUMN));
    if n > 0 {
      StatesAt(latch, GaugeOps(k), n - 1);
      RunTwo(latch, s0, s1);
    }
    assert FIRST_ROW + r in ROWS && FIRST_ROW + r !in COLUMNS && FIRST_COLUMN + c in COLUMNS;
    assert FIRST_COLUMN + c !in ROWS;
    ShiftedBit(GAUGE[k], FIRST_COLUMN, c);
    GaugeBits(k, c);
    assert Shifted(GAUGE[k], FIRST_COLUMN) <= COLUMNS;
  }

  /**
    Whatever the latch held before, from the first register write on and after every
    one of them, a lit pixel is one that the input asks for.
   */
  lemma OnlyAskedPixelsLit(latch: Word, input: nat, refreshes: nat, k: nat, r: nat, c: nat)
    requires input <= 18 && 0 < k <= |WriteOps(input, refreshes)| && r < 8 && c < 8
    ensures Lit(ApplyAll(latch, WriteOps(input, refreshes)[..k]), r, c) ==> Asked(input, r, c)
  {
    var b := Blanked(latch);
    assert Blank(b) by { assert ROWS !! COLUMNS; }
    if k == 1 {
      BlankingRuns(latch, WriteOps(input, refreshes)[2..], 0);
      assert WriteOps(input, refreshes) == BLANKING + WriteOps(input, refreshes)[2..];
      assert FIRST_COLUMN + c in COLUMNS;
    } else if input / 10 == 1 {
      BlankingRuns(latch, GaugeOps(input % 10), k - 2);
      GaugeRuns(b, input % 10, k - 2, r, c);
    } else {
      BlankingRuns(latch, RefreshOps(Num(input), refreshes), k - 2);
      RefreshLights(b, Num(input), refreshes, k - 2, r, c);
      DigitBits(input, r, c);
    }
  }

  lemma RefreshLights(latch: Word, bytes: seq<bv8>, n: nat, k: nat, r: nat, c: nat)
    requires Blank(latch) && |bytes| == 8 && k <= 32 * n && r < 8 && c < 8
    ensures Lit(ApplyAll(latch, RefreshOps(bytes, n)[..k]), r, c)
       <==> k % 4 == 2 && r == k % 32 / 4 && HasBit(bytes[r], c)
  {
    if k == 32 * n {
      assert RefreshOps(bytes, n)[..k] == RefreshOps(bytes, n);
      RefreshReturns(latch, bytes, n);
      RowStateLights(latch, bytes[0], 0, 0, r, c);
    } else {
      RefreshLightsAt(latch, bytes, n, k, k / 32, k % 32 / 4, k % 4, r, c);
    }
  }

  lemma RefreshLightsAt(latch: Word, bytes: seq<bv8>, n: nat, k: nat, m: nat, i: nat, j: nat, r: nat, c: nat)
    requires Blank(latch) && |bytes| == 8 && m < n && i < 8 && j < 4 && r < 8 && c < 8
    requires k == 32 * m + (4 * i + j) && k <= |RefreshOps(bytes, n)|
    ensures Lit(ApplyAll(latch, RefreshOps(bytes, n)[..k]), r, c) <==> j == 2 && r == i && HasBit(bytes[r], c)
  {
    DigitMicroStates(latch, bytes, n, m, i, j);
    RowStateLights(latch, bytes[i], i, j, r, c);
  }

  // ----- How often a pixel is lit -----

  /** In how many of these states the pixel is lit. */
  function LitCount(states: seq<Word>, r: nat, c: nat): nat {
    if states == [] then 0
    else LitCount(states[..|states| - 1], r, c) + if Lit(states[|states| - 1], r, c) then 1 else 0
  }

  lemma {:induction false} LitConcat(a: seq<Word>, b: seq<Word>, r: nat, c: nat)
    ensures LitCount(a + b, r, c) == LitCount(a, r, c) + LitCount(b, r, c)
    decreases |b|
  {
    if b == [] {
      assert a + b == a;
    } else {
      var init := b[..|b| - 1];
      LitConcat(a, init, r, c);
      assert (a + b)[..|a + b| - 1] == a + init;
    }
  }

  lemma FourStates(w: Word, x: Word, y: Word, z: Word, r: nat, c: nat)
    ensures LitCount([w, x, y, z], r, c)
         == (if Lit(w, r, c) then 1 else 0) + (if Lit(x, r, c) then 1 else 0)
          + (if Lit(y, r, c) then 1 else 0) + (if Lit(z, r, c) then 1 else 0)
  {
    TwoStates(w, x, r, c);
    TwoStates(y, z, r, c);
    assert [w, x, y, z] == [w, x] + [y, z];
    LitConcat([w, x], [y, z], r, c);
  }

  lemma TwoStates(w: Word, x: Word, r: nat, c: nat)
    ensures LitCount([w, x], r, c) == (if Lit(w, r, c) then 1 else 0) + (if Lit(x, r, c) then 1 else 0)
  {
    assert [w, x][..1] == [w] && [w][..0] == [];
    assert LitCount([w], r, c) == if Lit(w, r, c) then 1 else 0;
  }

  lemma LitAfter(latch: Word, a: seq<RegOp>, b: seq<RegOp>, r: nat, c: nat)
    requires ApplyAll(latch, a) == latch
    ensures LitCount(States(latch, a + b), r, c) == LitCount(States(latch, a), r, c) + LitCount(States(latch, b), r, c)
  {
    RunConcat(latch, a, b);
    LitConcat(States(latch, a), States(latch, b), r, c);
  }

  /** The four states of a row: the pixels of its byte are lit in the second one only. */
  lemma RowLitCount(latch: Word, b: bv8, row: nat, r: nat, c: nat)
    requires Blank(latch) && row < 8 && r < 8 && c < 8
    ensures LitCount(States(latch, RowOps(b, row)), r, c) == if r == row && HasBit(b, c) then 1 else 0
  {
    var states := States(latch, RowOps(b, row));
    StatesAt(latch, RowOps(b, row), 0);
    forall j: nat | j < 4
      ensures states[j] == RowState(latch, b, row, j + 1)
    {
      StatesAt(latch, RowOps(b, row), j);
      RowRuns(latch, b, row, j + 1);
    }
    assert states == [states[0], states[1], states[2], states[3]];
    FourStates(states[0], states[1], states[2], states[3], r, c);
    RowStateLights(latch, b, row, 1, r, c);
    RowStateLights(latch, b, row, 2, r, c);
    RowStateLights(latch, b, row, 3, r, c);
    RowStateLights(latch, b, row, 4, r, c);
  }

  lemma {:induction false} RowsLitCount(latch: Word, bytes: seq<bv8>, n: nat, r: nat, c: nat)
    requires Blank(latch) && n <= |bytes| == 8 && r < 8 && c < 8
    ensures LitCount(States(latch, RefreshRows(bytes, n)), r, c) == if r < n && HasBit(bytes[r], c) then 1 else 0
  {
    if n > 0 {
      var before, row := RefreshRows(bytes, n - 1), RowOps(bytes[n - 1], n - 1);
      RowsLitCount(latch, bytes, n - 1, r, c);
      RowsReturn(latch, bytes, n - 1);
      LitAfter(latch, before, row, r, c);
      RowLitCount(latch, bytes[n - 1], n - 1, r, c);
    }
  }

  lemma {:induction false} RefreshLitCount(latch: Word, bytes: seq<bv8>, n: nat, r: nat, c: nat)
    requires Blank(latch) && |bytes| == 8 && r < 8 && c < 8
    ensures LitCount(States(latch, RefreshOps(bytes, n)), r, c) == if HasBit(bytes[r], c) then n else 0
  {
    if n > 0 {
      var before, rows := RefreshOps(bytes, n - 1), RefreshRows(bytes, 8);
      RefreshLitCount(latch, bytes, n - 1, r, c);
      RefreshReturns(latch, bytes, n - 1);
      LitAfter(latch, before, rows, r, c);
      RowsLitCount(latch, bytes, 8, r, c);
    }
  }

  lemma GaugeLitCount(latch: Word, k: nat, r: nat, c: nat)
    requires Blank(latch) && k <= 8 && r < 8 && c < 8
    ensures LitCount(States(latch, GaugeOps(k)), r, c) == if c < k then 1 else 0
  {
    var states := States(latch, GaugeOps(k));
    StatesAt(latch, GaugeOps(k), 0);
    StatesAt(latch, GaugeOps(k), 1);
    assert states == [states[0], states[1]];
    TwoStates(states[0], states[1], r, c);
    GaugeRuns(latch, k, 1, r, c);
    GaugeRuns(latch, k, 2, r, c);
  }

  lemma BlankingLitCount(latch: Word, r: nat, c: nat)
    requires r < 8 && c < 8
    ensures LitCount(States(latch, BLANKING), r, c) == 0
  {
    RunTwo(latch, ClearPins(COLUMNS), SetPins(ROWS));
    TwoStates(latch - COLUMNS, Blanked(latch), r, c);
    assert FIRST_COLUMN + c in COLUMNS && ROWS !! COLUMNS;
  }

  /**
    Whatever the latch held before: over all states of a write, a pixel that a digit asks for
    is lit in exactly one state of each refresh, a pixel that a gauge asks for in the last
    state, and no other pixel in any.
   */
  lemma AskedPixelsLit(latch: Word, input: nat, refreshes: nat, r: nat, c: nat)
    requires input <= 18 && r < 8 && c < 8
    ensures LitCount(States(latch, WriteOps(input, refreshes)), r, c)
         == if !Asked(input, r, c) then 0 else if input / 10 == 1 then 1 else refreshes
  {
    var rest := if input / 10 == 1 then GaugeOps(input % 10) else RefreshOps(Num(input), refreshes);
    var b := Blanked(latch);
    assert Blank(b) by { assert ROWS !! COLUMNS; }
    RunTwo(latch, ClearPins(COLUMNS), SetPins(ROWS));
    RunConcat(latch, BLANKING, rest);
    LitConcat(States(latch, BLANKING), States(b, rest), r, c);
    BlankingLitCount(latch, r, c);
    if input / 10 == 1 {
      GaugeLitCount(b, input % 10, r, c);
    } else {
      RefreshLitCount(b, Num(input), refreshes, r, c);
      DigitBits(input, r, c);
    }
  }

  /** When the write returns: digits leave the display blank, gauge `k` leaves `k` columns lit in every row. */
  lemma WriteEnds(latch: Word, input: nat, refreshes: nat, r: nat, c: nat)
    requires input <= 18 && r < 8 && c < 8
    ensures var l := ApplyAll(latch, WriteOps(input, refreshes));
      if input / 10 == 1 then Lit(l, r, c) <==> c < input % 10 else Blank(l)
  {
    var rest := if input / 10 == 1 then GaugeOps(input % 10) else RefreshOps(Num(input), refreshes);
    var b := Blanked(latch);
    BlankingRuns(latch, rest, |rest|);
    assert rest[..|rest|] == rest && WriteOps(input, refreshes)[..2 + |rest|] == WriteOps(input, refreshes);
    assert Blank(b) by { assert ROWS !! COLUMNS; }
    if input / 10 == 1 {
      GaugeRuns(b, input % 10, 2, r, c);
    } else {
      RefreshReturns(b, Num(input), refreshes);
    }
  }

  lemma AfterBlanking(latch: Word, input: nat, refreshes: nat)
    requires input <= 18
    ensures var rest := if input / 10 == 1 then GaugeOps(input % 10) else RefreshOps(Num(input), refreshes);
      && WriteOps(input, refreshes) == BLANKING + rest
      && ApplyAll(latch, WriteOps(input, refreshes)) == ApplyAll(ApplyAll(latch, BLANKING), rest)
  {
    var rest := if input / 10 == 1 then GaugeOps(input % 10) else RefreshOps(Num(input), refreshes);
    RunConcat(latch, BLANKING, rest);
  }

  class LedDriver {
    const regs: Registers
    var usage: nat

    ghost predicate Valid()
      reads this, regs
    {
      regs.Valid()
    }

    constructor (regs: Registers)
      requires regs.Valid()
      ensures Valid() && this.regs == regs && usage == 0
    {
      this.regs := regs;
      usage := 0;
    }

    /** Makes the sixteen lines outputs and blanks the display. */
    method Open() returns (ok: bool)
      requires Valid()
      modifies this`usage, regs`fsel, regs`latch, regs`writes
      ensures Valid()
      ensures ok == (old(usage) == 0) && usage == if ok then 1 else old(usage)
      ensures regs.Words() == if ok then FunctionSelect.Open(Dot, old(regs.Words())) else old(regs.Words())
      ensures if ok then Blank(regs.latch) && regs.latch == Blanked(old(regs.latch))
              else regs.latch == old(regs.latch) && regs.writes == old(regs.writes)
    {
      if usage != 0 {
        return false;
      }
      usage := 1;
      ghost var f0, f1, f2 := regs.fsel[0], regs.fsel[1], regs.fsel[2];
      assert OutputFields(f1, 0, 0) == f1 && OutputFields(f2, 0, 0) == f2;
      var i := 0;
      while i < 8
        invariant 0 <= i <= 8
        invariant usage == 1 && regs.latch == old(regs.latch)
        invariant regs.fsel == [f0, OutputFields(f1, 0, i), OutputFields(f2, 0, i)]
      {
        OutputOneMore(f1, 0, i);
        OutputOneMore(f2, 0, i);
        regs.fsel := regs.fsel[1 := regs.fsel[1] - Ones(3 * i, 3)];
        regs.fsel := regs.fsel[1 := regs.fsel[1] + CodeAt(i, OUTPUT)];
        regs.fsel := regs.fsel[2 := regs.fsel[2] - Ones(3 * i, 3)];
        regs.fsel := regs.fsel[2 := regs.fsel[2] + CodeAt(i, OUTPUT)];
        assert regs.fsel[1] == ClearThenOr(OutputFields(f1, 0, i), i, OUTPUT);
        assert regs.fsel[2] == ClearThenOr(OutputFields(f2, 0, i), i, OUTPUT);
        i := i + 1;
      }
      regs.WriteClear(Ones(10, 8));
      regs.WriteSet(Ones(20, 8));
      assert ROWS !! COLUMNS;
      return true;
    }

    method ShowRow(b: bv8, i: nat)
      requires Valid() && i < 8
      modifies regs`latch, regs`writes
      ensures Valid()
      ensures regs.writes == old(regs.writes) + RowOps(b, i)
      ensures regs.latch == ApplyAll(old(regs.latch), RowOps(b, i))
    {
      RunFour(regs.latch, ClearPins(Shifted(COUNT[i], FIRST_ROW)), SetPins(Shifted(b, FIRST_COLUMN)),
              ClearPins(COLUMNS), SetPins(ROWS));
      regs.WriteClear(Shifted(COUNT[i], 20));
      regs.WriteSet(Shifted(b, 10));
      regs.WriteClear(Ones(10, 8));
      regs.WriteSet(Ones(20, 8));
    }

    /** The inner refresh loop of digit mode: eight rows. */
    method RefreshOnce(bytes: seq<bv8>)
      requires Valid() && |bytes| == 8
      modifies regs`latch, regs`writes
      ensures Valid()
      ensures regs.writes == old(regs.writes) + RefreshRows(bytes, 8)
      ensures regs.latch == ApplyAll(old(regs.latch), RefreshRows(bytes, 8))
    {
      var i := 0;
      while i < 8
        invariant 0 <= i <= 8
        invariant regs.writes == old(regs.writes) + RefreshRows(bytes, i)
        invariant regs.latch == ApplyAll(old(regs.latch), RefreshRows(bytes, i))
      {
        RunConcat(old(regs.latch), RefreshRows(bytes, i), RowOps(bytes[i], i));
        ShowRow(bytes[i], i);
        i := i + 1;
      }
    }

    /** The outer refresh loop of digit mode. */
    method Refresh(bytes: seq<bv8>, refreshes: nat)
      requires Valid() && |bytes| == 8
      modifies regs`latch, regs`writes
      ensures Valid()
      ensures regs.writes == old(regs.writes) + RefreshOps(bytes, refreshes)
      ensures regs.latch == ApplyAll(old(regs.latch), RefreshOps(bytes, refreshes))
    {
      var j := 0;
      while j < refreshes
        invariant 0 <= j <= refreshes
        invariant regs.writes == old(regs.writes) + RefreshOps(bytes, j)
        invariant regs.latch == ApplyAll(old(regs.latch), RefreshOps(bytes, j))
      {
        RunConcat(old(regs.latch), RefreshOps(bytes, j), RefreshRows(bytes, 8));
        RefreshOnce(bytes);
        j := j + 1;
      }
    }

    method BlankAll()
      requires Valid()
      modifies regs`latch, regs`writes
      ensures Valid()
      ensures regs.writes == old(regs.writes) + BLANKING
      ensures regs.latch == ApplyAll(old(regs.latch), BLANKING)
    {
      RunTwo(regs.latch, ClearPins(COLUMNS), SetPins(ROWS));
      regs.WriteClear(Ones(10, 8));
      regs.WriteSet(Ones(20, 8));
    }

    method ShowGauge(k: nat)
      requires Valid() && k <= 8
      modifies regs`latch, regs`writes
      ensures Valid()
      ensures regs.writes == old(regs.writes) + GaugeOps(k)
      ensures regs.latch == ApplyAll(old(regs.latch), GaugeOps(k))
    {
      RunTwo(regs.latch, ClearPins(ROWS), SetPins(Shifted(GAUGE[k], FIRST_COLUMN)));
      regs.WriteClear(Ones(20, 8));
      regs.WriteSet(Shifted(GAUGE[k], 10));
    }

    method Show(input: nat, refreshes: nat)
      requires Valid() && input <= 18
      modifies regs`latch, regs`writes
      ensures Valid()
      ensures regs.writes == old(regs.writes) + WriteOps(input, refreshes)
      ensures regs.latch == ApplyAll(old(regs.latch), WriteOps(input, refreshes))
    {
      AfterBlanking(regs.latch, input, refreshes);
      BlankAll();
      if input / 10 == 1 {
        ShowGauge(input % 10);
      } else {
        Refresh(Num(input), refreshes);
      }
    }

    /** Over the states of the write an asked pixel of a digit is lit 50000 times, and only asked pixels are lit. */
    method Write(input: nat)
      requires Valid() && input <= 18
      modifies regs`latch, regs`writes
      ensures Valid()
      ensures regs.writes == old(regs.writes) + WriteOps(input, 50000)
      ensures regs.latch == ApplyAll(old(regs.latch), WriteOps(input, 50000))
      ensures forall r, c | 0 <= r < 8 && 0 <= c < 8 ::
        LitCount(States(old(regs.latch), WriteOps(input, 50000)), r, c)
        == if !Asked(input, r, c) then 0 else if input / 10 == 1 then 1 else 50000
    {
      forall r, c | 0 <= r < 8 && 0 <= c < 8
        ensures LitCount(States(regs.latch, WriteOps(input, 50000)), r, c)
             == if !Asked(input, r, c) then 0 else if input / 10 == 1 then 1 else 50000
      {
        AskedPixelsLit(regs.latch, input, 50000, r, c);
      }
      Show(input, 50000);
    }
  }
}
