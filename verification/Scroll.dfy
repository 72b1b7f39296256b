/**
  Scrolling a report over the display: a window of eight bytes slides over the buffer
  one byte at a time, and each window is written to the display one or more times
  (until enough processor time has passed).
 */
module Scroll {
  import opened Gpio
  import opened DotMatrix
  import opened Sequences

  function Times(ops: seq<RegOp>, k: nat): seq<RegOp> {
    if k == 0 then [] else Times(ops, k - 1) + ops
  }

  /** The register writes of the first `n` windows; window `i` is written reps[i] times. */
  function ScrollOps(buf: seq<bv8>, reps: seq<nat>, n: nat): seq<RegOp>
    requires n <= |reps| && n + 7 <= |buf|
  {
    if n == 0 then []
    else ScrollOps(buf, reps, n - 1) + Times(WriteOps(RECEIVE, buf[n - 1..n + 7], 8), reps[n - 1])
  }

  function RowTimes(rows: seq<Row>, k: nat): (r: seq<Row>)
    ensures |r| == k * |rows|
  {
    if k == 0 then [] else RowTimes(rows, k - 1) + rows
  }

  function Sum(reps: seq<nat>, n: nat): nat
    requires n <= |reps|
  {
    if n == 0 then 0 else Sum(reps, n - 1) + reps[n - 1]
  }

  /** The rows that the first `n` windows show. */
  function ShownRows(buf: seq<bv8>, reps: seq<nat>, n: nat): seq<Row>
    requires n <= |reps| && n + 7 <= |buf|
  {
    if n == 0 then []
    else ShownRows(buf, reps, n - 1) + RowTimes(Frame(buf[n - 1..n + 7], 8), reps[n - 1])
  }

  lemma {:induction false} TimesShows(latch: Word, bytes: seq<bv8>, k: nat)
    requires Blank(latch, RECEIVE) && |bytes| == 8
    ensures ApplyAll(latch, Times(WriteOps(RECEIVE, bytes, 8), k)) == latch
    ensures Rows(States(latch, Times(WriteOps(RECEIVE, bytes, 8), k)), RECEIVE) == RowTimes(Frame(bytes, 8), k)
  {
    if k > 0 {
      var ops := WriteOps(RECEIVE, bytes, 8);
      TimesShows(latch, bytes, k - 1);
      RunConcat(latch, Times(ops, k - 1), ops);
      RowsConcat(States(latch, Times(ops, k - 1)), States(latch, ops), RECEIVE);
      WriteShows(latch, RECEIVE, bytes, 8);
      WriteReturns(latch, RECEIVE, bytes, 8);
    }
  }

  /** On a blank display, the scroll loop shows exactly these rows and leaves the latch as it was. */
  lemma {:induction false} ScrollShows(latch: Word, buf: seq<bv8>, reps: seq<nat>, n: nat)
    requires Blank(latch, RECEIVE) && n <= |reps| && n + 7 <= |buf|
    ensures ApplyAll(latch, ScrollOps(buf, reps, n)) == latch
    ensures Rows(States(latch, ScrollOps(buf, reps, n)), RECEIVE) == ShownRows(buf, reps, n)
  {
    if n > 0 {
      var before, last := ScrollOps(buf, reps, n - 1), Times(WriteOps(RECEIVE, buf[n - 1..n + 7], 8), reps[n - 1]);
      ScrollShows(latch, buf, reps, n - 1);
      RunConcat(latch, before, last);
      RowsConcat(States(latch, before), States(latch, last), RECEIVE);
      TimesShows(latch, buf[n - 1..n + 7], reps[n - 1]);
    }
  }

  lemma {:induction false} RowTimesAt(rows: seq<Row>, k: nat, q: nat, r: nat)
    requires |rows| == 8 && q < k && r < 8
    ensures 8 * q + r < |RowTimes(rows, k)| && RowTimes(rows, k)[8 * q + r] == rows[r]
  {
    if q < k - 1 {
      RowTimesAt(rows, k - 1, q, r);
    }
  }

  lemma {:induction false} ShownLength(buf: seq<bv8>, reps: seq<nat>, n: nat)
    requires n <= |reps| && n + 7 <= |buf|
    ensures |ShownRows(buf, reps, n)| == 8 * Sum(reps, n)
  {
    if n > 0 {
      ShownLength(buf, reps, n - 1);
      FrameAt(buf[n - 1..n + 7], 8, 0);
    }
  }

  /** Row `r` of the `q`-th showing of window `i` is select line `r` with byte i + r of the buffer. */
  lemma {:induction false} WindowRow(buf: seq<bv8>, reps: seq<nat>, n: nat, i: nat, q: nat, r: nat)
    requires n <= |reps| && n + 7 <= |buf| && i < n && q < reps[i] && r < 8
    ensures Sum(reps, i) + q < Sum(reps, n)
    ensures |ShownRows(buf, reps, n)| == 8 * Sum(reps, n)
    ensures ShownRows(buf, reps, n)[8 * (Sum(reps, i) + q) + r] == Row(r, Shifted(buf[i + r], FIRST_DATA))
  {
    ShownLength(buf, reps, n);
    ShownLength(buf, reps, n - 1);
    var shown, last := ShownRows(buf, reps, n - 1), RowTimes(Frame(buf[n - 1..n + 7], 8), reps[n - 1]);
    if i < n - 1 {
      WindowRow(buf, reps, n - 1, i, q, r);
      RowBefore(shown, last, 8 * (Sum(reps, i) + q) + r);
    } else {
      LastWindowRow(buf[i..i + 8], reps[i], q, r);
      RowBehind(shown, last, 8 * q + r);
    }
  }

  lemma RowBefore(a: seq<Row>, b: seq<Row>, p: nat)
    requires p < |a|
    ensures (a + b)[p] == a[p]
  {
  }

  lemma RowBehind(a: seq<Row>, b: seq<Row>, p: nat)
    requires p < |b|
    ensures (a + b)[|a| + p] == b[p]
  {
  }

  lemma LastWindowRow(window: seq<bv8>, times: nat, q: nat, r: nat)
    requires |window| == 8 && q < times && r < 8
    ensures 8 * q + r < |RowTimes(Frame(window, 8), times)|
    ensures RowTimes(Frame(window, 8), times)[8 * q + r] == Row(r, Shifted(window[r], FIRST_DATA))
  {
    FrameAt(window, 8, r);
    RowTimesAt(Frame(window, 8), times, q, r);
  }

  // ----- What the eye sees -----

  /** The byte on the data lines of a row. */
  ghost function ByteOf(data: Word): bv8 {
    if exists b: bv8 :: Shifted(b, FIRST_DATA) == data then
      var b: bv8 :| Shifted(b, FIRST_DATA) == data;
      b
    else 0
  }

  lemma ByteOfShifted(b: bv8)
    ensures ByteOf(Shifted(b, FIRST_DATA)) == b
  {
    var d := ByteOf(Shifted(b, FIRST_DATA));
    forall c | 0 <= c < 8
      ensures HasBit(b, c) == HasBit(d, c)
    {
      ShiftedBit(b, FIRST_DATA, c);
      ShiftedBit(d, FIRST_DATA, c);
    }
    SameBits(b, d);
  }

  /** Window `i` as displayed: the rows of its first showing. */
  function FirstShowing(rows: seq<Row>, reps: seq<nat>, i: nat): seq<Row>
    requires i < |reps| && 8 * Sum(reps, i) + 8 <= |rows|
  {
    rows[8 * Sum(reps, i)..8 * Sum(reps, i) + 8]
  }

  /** Byte `k` of the buffer: from the first window, or the newest byte of a later one. */
  ghost function RecoverAt(rows: seq<Row>, reps: seq<nat>, k: nat): bv8
    requires k < |reps| + 7 && |reps| > 0
  {
    var i, r := if k < 7 then 0 else k - 7, if k < 7 then k else 7;
    var p := 8 * Sum(reps, i) + r;
    if p < |rows| then ByteOf(rows[p].data) else 0
  }

  /** The buffer rebuilt from the display. */
  ghost function Recover(rows: seq<Row>, reps: seq<nat>): seq<bv8>
    requires |reps| > 0
  {
    seq(|reps| + 7, k requires 0 <= k < |reps| + 7 => RecoverAt(rows, reps, k))
  }

  predicate AllShown(reps: seq<nat>) {
    |reps| > 0 && forall i | 0 <= i < |reps| :: reps[i] >= 1
  }

  /** The whole buffer can be read off the display. */
  lemma RecoverBuffer(buf: seq<bv8>, reps: seq<nat>)
    requires AllShown(reps) && |buf| == |reps| + 7
    ensures Recover(ShownRows(buf, reps, |reps|), reps) == buf
  {
    var rows := ShownRows(buf, reps, |reps|);
    forall k | 0 <= k < |buf|
      ensures RecoverAt(rows, reps, k) == buf[k]
    {
      RecoverByte(buf, reps, k);
    }
    assert Recover(rows, reps) == buf;
  }

  lemma RecoverByte(buf: seq<bv8>, reps: seq<nat>, k: nat)
    requires AllShown(reps) && |buf| == |reps| + 7 && k < |buf|
    ensures RecoverAt(ShownRows(buf, reps, |reps|), reps, k) == buf[k]
  {
    var i, r := if k < 7 then 0 else k - 7, if k < 7 then k else 7;
    FirstShowingRow(buf, reps, i, r);
    ReadByte(ShownRows(buf, reps, |reps|), reps, k, i, r, buf[k]);
  }

  lemma ReadByte(rows: seq<Row>, reps: seq<nat>, k: nat, i: nat, r: nat, b: bv8)
    requires |reps| > 0 && i < |reps| && i == (if k < 7 then 0 else k - 7) && r == (if k < 7 then k else 7)
    requires 8 * Sum(reps, i) + r < |rows| && rows[8 * Sum(reps, i) + r].data == Shifted(b, FIRST_DATA)
    ensures RecoverAt(rows, reps, k) == b
  {
    ByteOfShifted(b);
  }

  lemma FirstShowingRow(buf: seq<bv8>, reps: seq<nat>, i: nat, r: nat)
    requires AllShown(reps) && |buf| == |reps| + 7 && i < |reps| && r < 8
    ensures 8 * Sum(reps, i) + 8 <= |ShownRows(buf, reps, |reps|)|
    ensures ShownRows(buf, reps, |reps|)[8 * Sum(reps, i) + r].data == Shifted(buf[i + r], FIRST_DATA)
  {
    WindowRow(buf, reps, |reps|, i, 0, r);
    WindowRow(buf, reps, |reps|, i, 0, 7);
  }

  /** Consecutive windows are the same picture moved by one row. */
  lemma WindowsSlide(buf: seq<bv8>, reps: seq<nat>, i: nat, r: nat)
    requires AllShown(reps) && |buf| == |reps| + 7 && i + 1 < |reps| && r < 7
    ensures var rows := ShownRows(buf, reps, |reps|);
      && 8 * Sum(reps, i + 1) + 8 <= |rows| && 8 * Sum(reps, i) + 8 <= |rows|
      && FirstShowing(rows, reps, i + 1)[r].data == FirstShowing(rows, reps, i)[r + 1].data
  {
    FirstShowingRow(buf, reps, i + 1, r);
    FirstShowingRow(buf, reps, i, r + 1);
  }

  // ----- Scrolling is a sequence of writes, so every micro-step of it is safe -----

  function Copies(w: seq<bv8>, k: nat): (r: seq<seq<bv8>>)
    ensures |r| == k && forall x | x in r :: x == w
  {
    seq(k, i => w)
  }

  /** The windows written, in order. */
  function Windows(buf: seq<bv8>, reps: seq<nat>, n: nat): (r: seq<seq<bv8>>)
    requires n <= |reps| && n + 7 <= |buf|
    ensures EightRows(r)
  {
    if n == 0 then [] else Windows(buf, reps, n - 1) + Copies(buf[n - 1..n + 7], reps[n - 1])
  }

  function Window(buf: seq<bv8>, p: nat): (w: seq<bv8>)
    requires p + 8 <= |buf|
    ensures |w| == 8
  {
    buf[p..p + 8]
  }

  predicate WindowOf(buf: seq<bv8>, w: seq<bv8>) {
    exists p | 0 <= p <= |buf| - 8 :: w == Window(buf, p)
  }

  lemma {:induction false} WindowsAreOf(buf: seq<bv8>, reps: seq<nat>, n: nat)
    requires n <= |reps| && n + 7 <= |buf|
    ensures forall w | w in Windows(buf, reps, n) :: WindowOf(buf, w)
  {
    if n > 0 {
      WindowsAreOf(buf, reps, n - 1);
      var p := n - 1;
      assert WindowOf(buf, Window(buf, p));
    }
  }

  lemma {:induction false} RepeatedWrites(a: seq<seq<bv8>>, w: seq<bv8>, k: nat)
    requires EightRows(a) && |w| == 8
    ensures AllWrites(RECEIVE, a + Copies(w, k)) == AllWrites(RECEIVE, a) + Times(WriteOps(RECEIVE, w, 8), k)
  {
    if k == 0 {
      assert a + Copies(w, k) == a;
    } else {
      RepeatedWrites(a, w, k - 1);
      CopiesSnoc(a, w, k - 1);
      AllWritesSnoc(a + Copies(w, k - 1), w);
      Assoc(AllWrites(RECEIVE, a), Times(WriteOps(RECEIVE, w, 8), k - 1), WriteOps(RECEIVE, w, 8));
    }
  }

  lemma CopiesSnoc(a: seq<seq<bv8>>, w: seq<bv8>, k: nat)
    ensures a + Copies(w, k + 1) == a + Copies(w, k) + [w]
  {
    assert Copies(w, k + 1) == Copies(w, k) + [w];
  }

  lemma AllWritesSnoc(a: seq<seq<bv8>>, w: seq<bv8>)
    requires EightRows(a) && |w| == 8
    ensures AllWrites(RECEIVE, a + [w]) == AllWrites(RECEIVE, a) + WriteOps(RECEIVE, w, 8)
  {
    assert (a + [w])[..|a|] == a;
  }

  lemma {:induction false} ScrollIsWrites(buf: seq<bv8>, reps: seq<nat>, n: nat)
    requires n <= |reps| && n + 7 <= |buf|
    ensures ScrollOps(buf, reps, n) == AllWrites(RECEIVE, Windows(buf, reps, n))
  {
    if n > 0 {
      var before, w := Windows(buf, reps, n - 1), buf[n - 1..n + 7];
      ScrollIsWrites(buf, reps, n - 1);
      RepeatedWrites(before, w, reps[n - 1]);
      assert Windows(buf, reps, n) == before + Copies(w, reps[n - 1]);
    }
  }

  /** One row at most, and only pixels of some window of the buffer. */
  predicate ShowsOnly(latch: Word, buf: seq<bv8>) {
    && OneLineAtMost(latch, RECEIVE)
    && exists p | 0 <= p <= |buf| - 8 :: LitFrom(latch, RECEIVE, Window(buf, p))
  }

  /** After every single register write of a scroll, only one row of one window is lit. */
  lemma ScrollIsSafe(latch: Word, buf: seq<bv8>, reps: seq<nat>, k: nat)
    requires Blank(latch, RECEIVE) && |buf| == |reps| + 7 && k < |ScrollOps(buf, reps, |reps|)|
    ensures var l := ApplyAll(latch, ScrollOps(buf, reps, |reps|)[..k]);
      ShowsOnly(l, buf) && l - Display(RECEIVE) == latch - Display(RECEIVE)
  {
    ScrollIsWrites(buf, reps, |reps|);
    WindowsAreOf(buf, reps, |reps|);
    WritesShowOnly(latch, buf, Windows(buf, reps, |reps|), k);
  }

  lemma WritesShowOnly(latch: Word, buf: seq<bv8>, writes: seq<seq<bv8>>, k: nat)
    requires Blank(latch, RECEIVE) && EightRows(writes) && k < |AllWrites(RECEIVE, writes)|
    requires forall w | w in writes :: WindowOf(buf, w)
    ensures var l := ApplyAll(latch, AllWrites(RECEIVE, writes)[..k]);
      ShowsOnly(l, buf) && l - Display(RECEIVE) == latch - Display(RECEIVE)
  {
    WriteIsSafe(latch, writes, k, k / 32, k % 32 / 4, k % 4);
    assert WindowOf(buf, writes[k / 32]);
  }

  lemma WriteIsSafe(latch: Word, writes: seq<seq<bv8>>, k: nat, i: nat, r: nat, j: nat)
    requires Blank(latch, RECEIVE) && EightRows(writes) && i < |writes| && r < 8 && j < 4
    requires k == 32 * i + (4 * r + j)
    ensures var l := ApplyAll(latch, AllWrites(RECEIVE, writes)[..k]);
      OneLineAtMost(l, RECEIVE) && LitFrom(l, RECEIVE, writes[i]) && l - Display(RECEIVE) == latch - Display(RECEIVE)
  {
    WritesAreSafe(latch, RECEIVE, writes, i, r, j);
  }

  /** A run of writes of one window. */
  method ShowWindow(dot: DotDriver, buf: array<bv8>, i: nat, times: nat)
    requires dot.Valid() && dot.base == RECEIVE && i + 8 <= buf.Length
    modifies dot.regs`latch, dot.regs`writes
    ensures dot.Valid()
    ensures dot.regs.writes == old(dot.regs.writes) + Times(WriteOps(RECEIVE, buf[i..i + 8], 8), times)
    ensures dot.regs.latch == ApplyAll(old(dot.regs.latch), Times(WriteOps(RECEIVE, buf[i..i + 8], 8), times))
  {
    ghost var ops := WriteOps(RECEIVE, buf[i..i + 8], 8);
    var q := 0;
    while q < times
      invariant 0 <= q <= times && dot.Valid()
      invariant dot.regs.writes == old(dot.regs.writes) + Times(ops, q)
      invariant dot.regs.latch == ApplyAll(old(dot.regs.latch), Times(ops, q))
    {
      RunConcat(old(dot.regs.latch), Times(ops, q), ops);
      dot.Write(buf, i);
      q := q + 1;
    }
  }

  lemma OneMoreWindow(latch: Word, bytes: seq<bv8>, reps: seq<nat>, i: nat)
    requires i < |reps| && i + 8 <= |bytes|
    ensures var ops := Times(WriteOps(RECEIVE, bytes[i..i + 8], 8), reps[i]);
      && ScrollOps(bytes, reps, i + 1) == ScrollOps(bytes, reps, i) + ops
      && ApplyAll(latch, ScrollOps(bytes, reps, i + 1)) == ApplyAll(ApplyAll(latch, ScrollOps(bytes, reps, i)), ops)
  {
    RunConcat(latch, ScrollOps(bytes, reps, i), Times(WriteOps(RECEIVE, bytes[i..i + 8], 8), reps[i]));
  }

  /** The scroll loop: exactly buf.Length - 7 windows, every one inside the buffer. */
  method ScrollBuffer(dot: DotDriver, buf: array<bv8>, reps: seq<nat>)
    requires dot.Valid() && dot.base == RECEIVE
    requires buf.Length >= 8 && |reps| == buf.Length - 7
    modifies dot.regs`latch, dot.regs`writes
    ensures dot.Valid()
    ensures dot.regs.writes == old(dot.regs.writes) + ScrollOps(buf[..], reps, |reps|)
    ensures dot.regs.latch == ApplyAll(old(dot.regs.latch), ScrollOps(buf[..], reps, |reps|))
  {
    var m := buf.Length;
    ghost var bytes, start := buf[..], dot.regs.latch;
    ghost var before, done := dot.regs.writes, [];
    var i := 0;
    while i < m - 7
      invariant 0 <= i <= m - 7 && dot.Valid()
      invariant done == ScrollOps(bytes, reps, i)
      invariant dot.regs.writes == before + done && dot.regs.latch == ApplyAll(start, done)
    {
      ghost var ops := Times(WriteOps(RECEIVE, bytes[i..i + 8], 8), reps[i]);
      assert bytes[i..i + 8] == buf[i..i + 8];
      OneMoreWindow(start, bytes, reps, i);
      ShowWindow(dot, buf, i, reps[i]);
      Assoc(before, done, ops);
      done := done + ops;
      i := i + 1;
    }
  }
}
