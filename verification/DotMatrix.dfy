/**
  The multiplexed 8x8 display: one select line a row (active high), eight data
  lines (a low data line lights the pixel of the selected row). The two wirings
  differ in the first select pin only: 20 in `receive`, 2 in `dddd`.
 */
module DotMatrix {
  import opened Gpio
  import opened FunctionSelect
  import opened Sequences

  const RECEIVE: nat := 20
  const DDDD: nat := 2
  const FIRST_DATA: nat := 10

  const DATA: Word := Ones(FIRST_DATA, 8)

  function Select(base: nat): Word {
    Ones(base, 8)
  }

  function Display(base: nat): Word {
    Select(base) + DATA
  }

  predicate Wiring(base: nat) {
    base == RECEIVE || base == DDDD
  }

  /** One turn of the write loop: data, select, then all select lines and all data lines low. */
  function RowOps(base: nat, b: bv8, r: nat): seq<RegOp> {
    [SetPins(Shifted(b, FIRST_DATA)), SetPins({base + r}), ClearPins(Select(base)), ClearPins(DATA)]
  }

  /** The writes of the first `rows` turns of the write loop. */
  function WriteOps(base: nat, bytes: seq<bv8>, rows: nat): (ops: seq<RegOp>)
    requires rows <= |bytes|
    ensures |ops| == 4 * rows
  {
    if rows == 0 then [] else WriteOps(base, bytes, rows - 1) + RowOps(base, bytes[rows - 1], rows - 1)
  }

  // ----- What the display shows -----

  predicate Up(latch: Word, base: nat, r: nat) {
    base + r in latch
  }

  /** Row `r` is lit when its select line is high; its column `c` is lit when data line `c` is low. */
  predicate Lit(latch: Word, base: nat, r: nat, c: nat) {
    Up(latch, base, r) && FIRST_DATA + c !in latch
  }

  /** One displayed row: the selected line and the byte on the data lines. */
  datatype Row = Row(line: nat, data: Word)

  function RowAt(latch: Word, base: nat): seq<Row>
  {
    if latch * Select(base) == {} then []
    else [Row(FirstLine(latch, base, 0), latch * DATA)]
  }

  function FirstLine(latch: Word, base: nat, r: nat): nat
    decreases 8 - r
  {
    if r >= 8 || base + r in latch then r else FirstLine(latch, base, r + 1)
  }

  /** The rows shown in a sequence of latch values, in order. */
  function Rows(states: seq<Word>, base: nat): seq<Row> {
    if states == [] then []
    else Rows(states[..|states| - 1], base) + RowAt(states[|states| - 1], base)
  }

  /** The rows of a byte pattern, top to bottom. */
  function Frame(bytes: seq<bv8>, rows: nat): seq<Row>
    requires rows <= |bytes|
  {
    if rows == 0 then []
    else Frame(bytes, rows - 1) + [Row(rows - 1, Shifted(bytes[rows - 1], FIRST_DATA))]
  }

  lemma {:induction false} RowsConcat(a: seq<Word>, b: seq<Word>, base: nat)
    ensures Rows(a + b, base) == Rows(a, base) + Rows(b, base)
    decreases |b|
  {
    if b == [] {
      assert a + b == a;
    } else {
      var init, last := b[..|b| - 1], b[|b| - 1];
      RowsConcat(a, init, base);
      assert b == init + [last] && a + b == a + init + [last];
      RowsSnoc(a + init, last, base);
      RowsSnoc(init, last, base);
      Assoc(Rows(a, base), Rows(init, base), RowAt(last, base));
    }
  }

  lemma RowsSnoc(a: seq<Word>, latch: Word, base: nat)
    ensures Rows(a + [latch], base) == Rows(a, base) + RowAt(latch, base)
  {
    assert (a + [latch])[..|a|] == a;
  }

  /** The four writes of a row, from any latch. */
  lemma RowRuns(latch: Word, base: nat, b: bv8, r: nat)
    ensures var lit := latch + Shifted(b, FIRST_DATA) + {base + r};
      && States(latch, RowOps(base, b, r))
         == [latch + Shifted(b, FIRST_DATA), lit, lit - Select(base), lit - Select(base) - DATA]
      && ApplyAll(latch, RowOps(base, b, r)) == lit - Select(base) - DATA
  {
    RunFour(latch, SetPins(Shifted(b, FIRST_DATA)), SetPins({base + r}), ClearPins(Select(base)), ClearPins(DATA));
  }

  // ----- Every micro-state of one write -----

  predicate Blank(latch: Word, base: nat) {
    latch !! Display(base)
  }

  /** The latch after `j` writes of row `r`, starting from a blank display. */
  function RowState(latch: Word, base: nat, b: bv8, r: nat, j: nat): Word {
    if j == 0 || j == 4 then latch
    else if j == 2 then latch + Shifted(b, FIRST_DATA) + {base + r}
    else latch + Shifted(b, FIRST_DATA)
  }

  lemma RowWrites(latch: Word, base: nat, b: bv8, r: nat, j: nat)
    requires Wiring(base) && Blank(latch, base) && r < 8 && j <= 4
    ensures ApplyAll(latch, RowOps(base, b, r)[..j]) == RowState(latch, base, b, r, j)
  {
    if j > 0 {
      StatesAt(latch, RowOps(base, b, r), j - 1);
      RowRuns(latch, base, b, r);
      RowReturns(latch, base, Shifted(b, FIRST_DATA), r);
    }
  }

  lemma RowReturns(latch: Word, base: nat, d: Word, r: nat)
    requires Wiring(base) && Blank(latch, base) && r < 8 && d <= DATA
    ensures (latch + d + {base + r}) - Select(base) == latch + d
    ensures (latch + d) - DATA == latch
  {
    assert base + r in Select(base) && base + r !in DATA;
    assert Select(base) !! DATA;
  }

  /** A whole write leaves the latch as it found it. */
  lemma {:induction false} WriteReturns(latch: Word, base: nat, bytes: seq<bv8>, rows: nat)
    requires Wiring(base) && Blank(latch, base) && rows <= |bytes| <= 8
    ensures ApplyAll(latch, WriteOps(base, bytes, rows)) == latch
  {
    if rows > 0 {
      var row := RowOps(base, bytes[rows - 1], rows - 1);
      WriteReturns(latch, base, bytes, rows - 1);
      RunConcat(latch, WriteOps(base, bytes, rows - 1), row);
      RowWrites(latch, base, bytes[rows - 1], rows - 1, 4);
      assert row[..4] == row;
    }
  }

  lemma {:induction false} WritePrefix(base: nat, bytes: seq<bv8>, rows: nat, r: nat, j: nat)
    requires r < rows <= |bytes| && j <= 4
    ensures WriteOps(base, bytes, rows)[..4 * r + j] == WriteOps(base, bytes, r) + RowOps(base, bytes[r], r)[..j]
    decreases rows
  {
    if r < rows - 1 {
      WritePrefix(base, bytes, rows - 1, r, j);
      assert WriteOps(base, bytes, rows)[..4 * r + j] == WriteOps(base, bytes, rows - 1)[..4 * r + j];
    }
  }

  /** The latch after any number of the writes: exactly which row is up and what it carries. */
  lemma MicroStates(latch: Word, base: nat, bytes: seq<bv8>, r: nat, j: nat)
    requires Wiring(base) && Blank(latch, base) && |bytes| == 8 && r < 8 && j <= 4
    ensures ApplyAll(latch, WriteOps(base, bytes, 8)[..4 * r + j]) == RowState(latch, base, bytes[r], r, j)
  {
    WritePrefix(base, bytes, 8, r, j);
    RunConcat(latch, WriteOps(base, bytes, r), RowOps(base, bytes[r], r)[..j]);
    WriteReturns(latch, base, bytes, r);
    RowWrites(latch, base, bytes[r], r, j);
  }

  // ----- Any sequence of writes -----

  predicate EightRows(writes: seq<seq<bv8>>) {
    forall w | w in writes :: |w| == 8
  }

  function AllWrites(base: nat, writes: seq<seq<bv8>>): (ops: seq<RegOp>)
    requires EightRows(writes)
    ensures |ops| == 32 * |writes|
  {
    if writes == [] then []
    else AllWrites(base, writes[..|writes| - 1]) + WriteOps(base, writes[|writes| - 1], 8)
  }

  predicate OneLineAtMost(latch: Word, base: nat) {
    forall r, s | 0 <= r < 8 && 0 <= s < 8 && Up(latch, base, r) && Up(latch, base, s) :: r == s
  }

  /** Only pixels whose bit is zero in the byte of their row are lit. */
  predicate LitFrom(latch: Word, base: nat, bytes: seq<bv8>)
    requires |bytes| == 8
  {
    forall r, c | 0 <= r < 8 && 0 <= c < 8 :: Lit(latch, base, r, c) ==> !HasBit(bytes[r], c)
  }

  /** Going from `latch` to `next`, data lines move only while every select line is low. */
  predicate DataMovesInTheDark(latch: Word, next: Word, base: nat) {
    latch * DATA != next * DATA ==> latch !! Select(base) && next !! Select(base)
  }

  lemma RowStateSafe(latch: Word, base: nat, bytes: seq<bv8>, r: nat, j: nat)
    requires Wiring(base) && Blank(latch, base) && |bytes| == 8 && r < 8 && j < 4
    ensures var l, n := RowState(latch, base, bytes[r], r, j), RowState(latch, base, bytes[r], r, j + 1);
      && OneLineAtMost(l, base) && LitFrom(l, base, bytes) && DataMovesInTheDark(l, n, base)
      && l - Display(base) == latch - Display(base)
  {
    var d := Shifted(bytes[r], FIRST_DATA);
    forall s | 0 <= s < 8
      ensures Up(RowState(latch, base, bytes[r], r, j), base, s) <==> j == 2 && s == r
    {
      assert base + s in Select(base) && base + s !in DATA;
    }
    forall c | 0 <= c < 8
      ensures FIRST_DATA + c in d <==> HasBit(bytes[r], c)
    {
      ShiftedBit(bytes[r], FIRST_DATA, c);
    }
    assert Select(base) !! DATA && d <= DATA;
  }

  lemma {:induction false} AllWritesReturn(latch: Word, base: nat, writes: seq<seq<bv8>>)
    requires Wiring(base) && Blank(latch, base) && EightRows(writes)
    ensures ApplyAll(latch, AllWrites(base, writes)) == latch
  {
    if writes == [] {
    } else {
      var init, last := writes[..|writes| - 1], writes[|writes| - 1];
      AllWritesReturn(latch, base, init);
      RunConcat(latch, AllWrites(base, init), WriteOps(base, last, 8));
      WriteReturns(latch, base, last, 8);
    }
  }

  lemma {:induction false} AllWritesPrefix(base: nat, writes: seq<seq<bv8>>, i: nat, k: nat)
    requires EightRows(writes) && i < |writes| && k <= 32
    ensures AllWrites(base, writes)[..32 * i + k] == AllWrites(base, writes[..i]) + WriteOps(base, writes[i], 8)[..k]
    decreases |writes|
  {
    var init := writes[..|writes| - 1];
    if i < |init| {
      AllWritesPrefix(base, init, i, k);
      assert init[..i] == writes[..i];
      assert AllWrites(base, writes)[..32 * i + k] == AllWrites(base, init)[..32 * i + k];
    } else {
      assert writes[..i] == init;
    }
  }

  lemma AllWritesState(latch: Word, base: nat, writes: seq<seq<bv8>>, i: nat, k: nat)
    requires Wiring(base) && Blank(latch, base) && EightRows(writes)
    requires i < |writes| && k <= 32
    ensures ApplyAll(latch, AllWrites(base, writes)[..32 * i + k]) == ApplyAll(latch, WriteOps(base, writes[i], 8)[..k])
  {
    AllWritesPrefix(base, writes, i, k);
    AllWritesReturn(latch, base, writes[..i]);
    AfterReturning(latch, AllWrites(base, writes[..i]), WriteOps(base, writes[i], 8)[..k]);
  }

  /**
    Over any sequence of writes from a blank display, after every single register
    write (the `j`-th of row `r` of write `i`): at most one select line is high, only
    pixels of the current bytes are lit, data moves only while no row is selected,
    and no other pin has changed. When the last write is done the latch is what it was.
   */
  lemma WritesAreSafe(latch: Word, base: nat, writes: seq<seq<bv8>>, i: nat, r: nat, j: nat)
    requires Wiring(base) && Blank(latch, base) && EightRows(writes)
    requires i < |writes| && r < 8 && j < 4
    ensures var k := 32 * i + (4 * r + j);
      var l := ApplyAll(latch, AllWrites(base, writes)[..k]);
      && OneLineAtMost(l, base)
      && LitFrom(l, base, writes[i])
      && DataMovesInTheDark(l, ApplyAll(latch, AllWrites(base, writes)[..k + 1]), base)
      && l - Display(base) == latch - Display(base)
    ensures ApplyAll(latch, AllWrites(base, writes)) == latch
  {
    AllWritesState(latch, base, writes, i, 4 * r + j);
    AllWritesState(latch, base, writes, i, 4 * r + j + 1);
    MicroStates(latch, base, writes[i], r, j);
    MicroStates(latch, base, writes[i], r, j + 1);
    AllWritesReturn(latch, base, writes);
    RowStateSafe(latch, base, writes[i], r, j);
  }

  // ----- The rows a write shows -----

  lemma {:induction false} FirstLineIs(latch: Word, base: nat, r: nat, s: nat)
    requires s <= r < 8 && latch * Select(base) == {base + r}
    ensures FirstLine(latch, base, s) == r
    decreases 8 - s
  {
    assert base + s in Select(base);
    if s < r {
      assert base + s !in latch * Select(base);
      FirstLineIs(latch, base, r, s + 1);
    } else {
      assert base + r in latch * Select(base);
    }
  }

  /** One turn of the loop on a display whose select lines are low: it shows one row and blanks the display. */
  lemma RowShows(latch: Word, base: nat, b: bv8, r: nat)
    requires Wiring(base) && latch !! Select(base) && r < 8
    ensures Rows(States(latch, RowOps(base, b, r)), base)
         == [Row(r, Shifted(b, FIRST_DATA) + latch * DATA)]
    ensures ApplyAll(latch, RowOps(base, b, r)) == latch - DATA
  {
    var d := Shifted(b, FIRST_DATA);
    var s1, s2 := latch + d, latch + d + {base + r};
    RowRuns(latch, base, b, r);
    assert d <= DATA && Select(base) !! DATA;
    assert base + r in Select(base);
    assert s2 * Select(base) == {base + r};
    assert s2 - Select(base) == s1;
    assert s1 - DATA == latch - DATA;
    FirstLineIs(s2, base, r, 0);
    assert s2 * DATA == d + latch * DATA;
    assert RowAt(s1, base) == [];
    assert RowAt(latch - DATA, base) == [];
    RowsOfFour(s1, s2, s1, latch - DATA, base);
  }

  lemma RowsOfFour(a: Word, b: Word, c: Word, d: Word, base: nat)
    ensures Rows([a, b, c, d], base) == RowAt(a, base) + RowAt(b, base) + RowAt(c, base) + RowAt(d, base)
  {
    assert [a, b, c, d][..3] == [a, b, c] && [a, b, c][..2] == [a, b] && [a, b][..1] == [a] && [a][..0] == [];
    assert Rows([a], base) == RowAt(a, base);
    assert Rows([a, b], base) == RowAt(a, base) + RowAt(b, base);
    assert Rows([a, b, c], base) == RowAt(a, base) + RowAt(b, base) + RowAt(c, base);
  }

  lemma RowAfter(latch: Word, base: nat, bytes: seq<bv8>, rows: nat)
    requires 0 < rows <= |bytes| <= 8
    ensures var before := WriteOps(base, bytes, rows - 1);
      Rows(States(latch, WriteOps(base, bytes, rows)), base)
      == Rows(States(latch, before), base)
       + Rows(States(ApplyAll(latch, before), RowOps(base, bytes[rows - 1], rows - 1)), base)
  {
    var before, row := WriteOps(base, bytes, rows - 1), RowOps(base, bytes[rows - 1], rows - 1);
    RunConcat(latch, before, row);
    RowsConcat(States(latch, before), States(ApplyAll(latch, before), row), base);
  }

  lemma BlankRowShows(latch: Word, base: nat, b: bv8, r: nat)
    requires Wiring(base) && Blank(latch, base) && r < 8
    ensures Rows(States(latch, RowOps(base, b, r)), base) == [Row(r, Shifted(b, FIRST_DATA))]
  {
    RowShows(latch, base, b, r);
    assert latch * DATA == {};
    assert Shifted(b, FIRST_DATA) + {} == Shifted(b, FIRST_DATA);
  }

  /** From a blank display a write shows exactly its bytes, one row after the other. */
  lemma {:induction false} WriteShows(latch: Word, base: nat, bytes: seq<bv8>, rows: nat)
    requires Wiring(base) && Blank(latch, base) && rows <= |bytes| <= 8
    ensures Rows(States(latch, WriteOps(base, bytes, rows)), base) == Frame(bytes, rows)
  {
    if rows > 0 {
      WriteShows(latch, base, bytes, rows - 1);
      WriteReturns(latch, base, bytes, rows - 1);
      RowAfter(latch, base, bytes, rows);
      BlankRowShows(latch, base, bytes[rows - 1], rows - 1);
    }
  }

  /** Whatever the latch held, a write of at least one row blanks the display and nothing else. */
  lemma {:induction false} WriteBlanks(latch: Word, base: nat, bytes: seq<bv8>, rows: nat)
    requires Wiring(base) && 0 < rows <= |bytes| <= 8
    ensures ApplyAll(latch, WriteOps(base, bytes, rows)) == latch - Display(base)
  {
    var before, row := WriteOps(base, bytes, rows - 1), RowOps(base, bytes[rows - 1], rows - 1);
    RunConcat(latch, before, row);
    var l := ApplyAll(latch, before);
    RowRuns(l, base, bytes[rows - 1], rows - 1);
    assert base + rows - 1 in Select(base) && Shifted(bytes[rows - 1], FIRST_DATA) <= DATA;
    if rows > 1 {
      WriteBlanks(latch, base, bytes, rows - 1);
    }
  }

  /**
    From whatever latch, a write shows its bytes exactly when the select lines were low and
    the stale data lines were going to be driven high by the first byte anyway.
   */
  lemma StaleDataShows(latch: Word, base: nat, bytes: seq<bv8>)
    requires Wiring(base) && |bytes| == 8
    ensures Rows(States(latch, WriteOps(base, bytes, 8)), base) == Frame(bytes, 8)
       <==> latch !! Select(base) && latch * DATA <= Shifted(bytes[0], FIRST_DATA)
  {
    if latch !! Select(base) {
      StaleRows(latch, base, bytes, 8);
      var d, stale := Shifted(bytes[0], FIRST_DATA), latch * DATA;
      FrameAt(bytes, 8, 0);
      SameHead([Row(0, d + stale)] + Frame(bytes, 8)[1..], Frame(bytes, 8));
      assert d + stale == d <==> stale <= d;
    } else {
      ExtraRow(latch, base, bytes, 8);
      FrameAt(bytes, 8, 0);
    }
  }

  /** A select line left high shows a row too many, as soon as the first byte is on the data lines. */
  lemma {:induction false} ExtraRow(latch: Word, base: nat, bytes: seq<bv8>, rows: nat)
    requires Wiring(base) && !(latch !! Select(base)) && 0 < rows <= |bytes| <= 8
    ensures |Rows(States(latch, WriteOps(base, bytes, rows)), base)| == rows + 1
  {
    RowAfter(latch, base, bytes, rows);
    if rows == 1 {
      ExtraInFirst(latch, base, bytes[0]);
    } else {
      ExtraRow(latch, base, bytes, rows - 1);
      WriteBlanks(latch, base, bytes, rows - 1);
      BlankRowShows(latch - Display(base), base, bytes[rows - 1], rows - 1);
    }
  }

  lemma ExtraInFirst(latch: Word, base: nat, b: bv8)
    requires Wiring(base) && !(latch !! Select(base))
    ensures |Rows(States(latch, RowOps(base, b, 0)), base)| == 2
  {
    var s1 := latch + Shifted(b, FIRST_DATA);
    var s2 := s1 + {base};
    var s3 := s2 - Select(base);
    var up :| up in latch && up in Select(base);
    RowRuns(latch, base, b, 0);
    assert up in s1 * Select(base) && up in s2 * Select(base);
    assert s3 * Select(base) == {} && (s3 - DATA) * Select(base) == {};
    RowsOfFour(s1, s2, s3, s3 - DATA, base);
  }

  lemma SameHead(a: seq<Row>, b: seq<Row>)
    requires |a| > 0 && |b| > 0 && a[1..] == b[1..]
    ensures a == b <==> a[0] == b[0]
  {
    assert a == [a[0]] + a[1..] && b == [b[0]] + b[1..];
  }

  lemma {:induction false} FrameAt(bytes: seq<bv8>, rows: nat, r: nat)
    requires r < rows <= |bytes|
    ensures |Frame(bytes, rows)| == rows
    ensures Frame(bytes, rows)[r] == Row(r, Shifted(bytes[r], FIRST_DATA))
    decreases rows
  {
    if rows > 1 {
      FrameAt(bytes, rows - 1, if r < rows - 1 then r else 0);
    }
  }

  lemma FrameTail(bytes: seq<bv8>, rows: nat)
    requires 1 < rows <= |bytes|
    ensures |Frame(bytes, rows - 1)| == rows - 1
    ensures |Frame(bytes, rows)| == rows
    ensures Frame(bytes, rows)[1..]
         == Frame(bytes, rows - 1)[1..] + [Row(rows - 1, Shifted(bytes[rows - 1], FIRST_DATA))]
  {
    FrameAt(bytes, rows - 1, 0);
  }

  lemma {:induction false} StaleRows(latch: Word, base: nat, bytes: seq<bv8>, rows: nat)
    requires Wiring(base) && latch !! Select(base) && 0 < rows <= |bytes| <= 8
    ensures |Frame(bytes, rows)| == rows
    ensures Rows(States(latch, WriteOps(base, bytes, rows)), base)
         == [Row(0, Shifted(bytes[0], FIRST_DATA) + latch * DATA)] + Frame(bytes, rows)[1..]
  {
    FrameAt(bytes, rows, 0);
    RowAfter(latch, base, bytes, rows);
    if rows == 1 {
      RowShows(latch, base, bytes[0], 0);
    } else {
      FrameAt(bytes, rows - 1, 0);
      StaleRows(latch, base, bytes, rows - 1);
      WriteBlanks(latch, base, bytes, rows - 1);
      BlankRowShows(latch - Display(base), base, bytes[rows - 1], rows - 1);
      FrameTail(bytes, rows);
      Assoc([Row(0, Shifted(bytes[0], FIRST_DATA) + latch * DATA)], Frame(bytes, rows - 1)[1..],
            [Row(rows - 1, Shifted(bytes[rows - 1], FIRST_DATA))]);
    }
  }

  // ----- The two wirings are the same display -----

  /** The sixteen display lines, select lines numbered by row. */
  datatype Panel = Panel(lines: set<nat>, data: Word)

  function PanelOf(latch: Word, base: nat): Panel {
    Panel((set r | r in Ones(0, 8) && base + r in latch), latch * DATA)
  }

  lemma PanelStep(l: Word, m: Word, b: bv8, r: nat, j: nat)
    requires PanelOf(l, DDDD) == PanelOf(m, RECEIVE) && r < 8 && j < 4
    ensures PanelOf(Apply(l, RowOps(DDDD, b, r)[j]), DDDD) == PanelOf(Apply(m, RowOps(RECEIVE, b, r)[j]), RECEIVE)
  {
    var l', m' := Apply(l, RowOps(DDDD, b, r)[j]), Apply(m, RowOps(RECEIVE, b, r)[j]);
    forall s | s in Ones(0, 8)
      ensures DDDD + s in l' <==> RECEIVE + s in m'
    {
      assert s in PanelOf(l, DDDD).lines <==> s in PanelOf(m, RECEIVE).lines;
      assert DDDD + s in Select(DDDD) && RECEIVE + s in Select(RECEIVE);
      assert DDDD + s !in DATA && RECEIVE + s !in DATA;
    }
    assert PanelOf(l', DDDD).lines == PanelOf(m', RECEIVE).lines;
    DataAfter(l, DDDD, b, r, j);
    DataAfter(m, RECEIVE, b, r, j);
  }

  lemma DataAfter(l: Word, base: nat, b: bv8, r: nat, j: nat)
    requires Wiring(base) && r < 8 && j < 4
    ensures Apply(l, RowOps(base, b, r)[j]) * DATA
         == if j == 0 then l * DATA + Shifted(b, FIRST_DATA) else if j == 3 then {} else l * DATA
  {
    assert base + r !in DATA && Select(base) !! DATA && Shifted(b, FIRST_DATA) <= DATA;
  }

  /** After every prefix of the two drivers' writes the two displays show the same. */
  lemma {:induction false} WiringsAgree(l: Word, m: Word, bytes: seq<bv8>, k: nat)
    requires |bytes| == 8 && k <= 32 && PanelOf(l, DDDD) == PanelOf(m, RECEIVE)
    ensures PanelOf(ApplyAll(l, WriteOps(DDDD, bytes, 8)[..k]), DDDD)
         == PanelOf(ApplyAll(m, WriteOps(RECEIVE, bytes, 8)[..k]), RECEIVE)
  {
    if k > 0 {
      WiringsAgree(l, m, bytes, k - 1);
      var r, j := (k - 1) / 4, (k - 1) % 4;
      OpAt(DDDD, bytes, r, j);
      OpAt(RECEIVE, bytes, r, j);
      ApplyNext(l, WriteOps(DDDD, bytes, 8), k - 1);
      ApplyNext(m, WriteOps(RECEIVE, bytes, 8), k - 1);
      PanelStep(ApplyAll(l, WriteOps(DDDD, bytes, 8)[..k - 1]), ApplyAll(m, WriteOps(RECEIVE, bytes, 8)[..k - 1]),
                bytes[r], r, j);
    }
  }

  lemma ApplyNext(latch: Word, ops: seq<RegOp>, k: nat)
    requires k < |ops|
    ensures ApplyAll(latch, ops[..k + 1]) == Apply(ApplyAll(latch, ops[..k]), ops[k])
  {
    assert ops[..k + 1][..k] == ops[..k];
  }

  lemma OpAt(base: nat, bytes: seq<bv8>, r: nat, j: nat)
    requires |bytes| == 8 && r < 8 && j < 4
    ensures WriteOps(base, bytes, 8)[4 * r + j] == RowOps(base, bytes[r], r)[j]
  {
    WritePrefix(base, bytes, 8, r, 4);
    assert WriteOps(base, bytes, 8)[4 * r + j] == WriteOps(base, bytes, 8)[..4 * r + 4][4 * r + j];
  }

  // ----- Setup -----

  /** What `open` does to the function-select words, in either wiring. */
  function OpenDisplay(base: nat, w: Setup): Setup {
    if base == RECEIVE then Open(Dot, w)
    else w.(f1 := OutputFields(w.f1, 0, 8), f0 := OutputFields(w.f0, 2, 10))
  }

  /** Either `open` makes exactly the sixteen display pins outputs. */
  lemma OpenMakesOutputs(base: nat, w: Setup, p: nat)
    requires Wiring(base) && p < 30
    ensures Mode(OpenDisplay(base, w), p) == if p in Display(base) then OUTPUT else Mode(w, p)
  {
    if p < 10 {
      OutputField(w.f0, 2, 10, p);
    } else if p < 20 {
      OutputField(w.f1, 0, 8, p - 10);
    } else {
      OutputField(w.f2, 0, 8, p - 20);
    }
  }

  lemma OutputField(w: Word, first: nat, end: nat, k: nat)
    requires first <= end
    ensures Field(OutputFields(w, first, end), k) == if first <= k < end then OUTPUT else Field(w, k)
  {
  }

  lemma RowTurn(latch: Word, base: nat, bytes: seq<bv8>, r: nat)
    requires r < |bytes|
    ensures var done, row := WriteOps(base, bytes, r), RowOps(base, bytes[r], r);
      && WriteOps(base, bytes, r + 1) == done + row
      && ApplyAll(latch, done + row) == ApplyAll(ApplyAll(latch, done), row)
  {
    RunConcat(latch, WriteOps(base, bytes, r), RowOps(base, bytes[r], r));
  }

  lemma OutputNone(w: Word, first: nat)
    ensures OutputFields(w, first, first) == w
  {
  }

  class DotDriver {
    const regs: Registers
    const base: nat
    var usage: nat

    ghost predicate Valid()
      reads this, regs
    {
      Wiring(base) && regs.Valid()
    }

    constructor (regs: Registers, base: nat)
      requires Wiring(base) && regs.Valid()
      ensures Valid() && this.regs == regs && this.base == base && usage == 0
    {
      this.regs := regs;
      this.base := base;
      usage := 0;
    }

    /** A second open finds the device busy and touches nothing. */
    method Open() returns (ok: bool)
      requires Valid()
      modifies this`usage, regs`fsel
      ensures Valid()
      ensures ok == (old(usage) == 0) && usage == if ok then 1 else old(usage)
      ensures regs.Words() == if ok then OpenDisplay(base, old(regs.Words())) else old(regs.Words())
    {
      if usage != 0 {
        return false;
      }
      usage := 1;
      ghost var f0, f1, f2 := regs.fsel[0], regs.fsel[1], regs.fsel[2];
      OutputNone(f1, 0);
      var index := 0;
      while index < 8
        invariant 0 <= index <= 8
        invariant usage == 1 && regs.fsel == [f0, OutputFields(f1, 0, index), f2]
      {
        OutputOneMore(f1, 0, index);
        regs.fsel := regs.fsel[1 := regs.fsel[1] - Ones(3 * index, 3)];
        regs.fsel := regs.fsel[1 := regs.fsel[1] + CodeAt(index, OUTPUT)];
        assert regs.fsel[1] == ClearThenOr(OutputFields(f1, 0, index), index, OUTPUT);
        index := index + 1;
      }
      var word, first := base / 10, base % 10;
      ghost var before := regs.fsel[word];
      OutputNone(before, first);
      var index2 := first;
      while index2 < first + 8
        invariant first <= index2 <= first + 8
        invariant usage == 1
        invariant regs.fsel == [f0, OutputFields(f1, 0, 8), f2][word := OutputFields(before, first, index2)]
      {
        OutputOneMore(before, first, index2);
        regs.fsel := regs.fsel[word := regs.fsel[word] - Ones(3 * index2, 3)];
        regs.fsel := regs.fsel[word := regs.fsel[word] + CodeAt(index2, OUTPUT)];
        index2 := index2 + 1;
      }
      return true;
    }

    /** Shows the eight bytes at `offset`, whatever length the caller gave. */
    method Write(data: array<bv8>, offset: nat)
      requires Valid() && offset + 8 <= data.Length
      modifies regs`latch, regs`writes
      ensures Valid()
      ensures regs.writes == old(regs.writes) + WriteOps(base, data[offset..offset + 8], 8)
      ensures regs.latch == ApplyAll(old(regs.latch), WriteOps(base, data[offset..offset + 8], 8))
    {
      var val := new bv8[8];
      var i := 0;
      while i < 8
        invariant 0 <= i <= 8
        invariant val[..i] == data[offset..offset + i]
        modifies val
      {
        val[i] := data[offset + i];
        i := i + 1;
      }
      ghost var bytes, start := data[offset..offset + 8], regs.latch;
      ghost var before, done := regs.writes, [];
      assert val[..] == bytes;
      var index := 0;
      while index < 8
        invariant 0 <= index <= 8
        invariant val[..] == bytes && done == WriteOps(base, bytes, index)
        invariant regs.writes == before + done && regs.latch == ApplyAll(start, done)
        modifies regs`latch, regs`writes
      {
        RowTurn(start, base, bytes, index);
        ShowRow(val[index], index);
        Assoc(before, done, RowOps(base, bytes[index], index));
        done := done + RowOps(base, bytes[index], index);
        index := index + 1;
      }
    }

    /** One turn of the multiplex loop. */
    method ShowRow(b: bv8, index: nat)
      requires Valid() && index < 8
      modifies regs`latch, regs`writes
      ensures Valid()
      ensures regs.writes == old(regs.writes) + RowOps(base, b, index)
      ensures regs.latch == ApplyAll(old(regs.latch), RowOps(base, b, index))
    {
      RunFour(regs.latch, SetPins(Shifted(b, FIRST_DATA)), SetPins({base + index}),
              ClearPins(Select(base)), ClearPins(DATA));
      regs.WriteSet(Shifted(b, FIRST_DATA));
      regs.WriteSet({base + index});
      regs.WriteClear(Ones(base, 8));
      regs.WriteClear(Ones(FIRST_DATA, 8));
    }
  }
}
