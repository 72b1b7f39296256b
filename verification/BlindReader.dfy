/**
  Reading a report without knowing how often each window was shown. A viewer who writes
  down the newest byte of every window that differs from the one before, and drops the
  bytes that light nothing, gets what the report says: no two reports look the same.
 */
module BlindReader {
  import opened Cells
  import opened Gpio
  import opened DotMatrix
  import opened Digits
  import opened Glyphs
  import opened Reports
  import opened Scroll
  import opened Sequences

  // ----- The bytes that light something -----

  const PAPER: bv8 := 0xFF

  function InkOf(b: bv8): seq<bv8> {
    if b == PAPER then [] else [b]
  }

  /** The bytes other than PAPER among the first `n`, in order. */
  function InkTo(bytes: seq<bv8>, n: nat): seq<bv8>
    requires n <= |bytes|
  {
    if n == 0 then [] else InkTo(bytes, n - 1) + InkOf(bytes[n - 1])
  }

  function Ink(bytes: seq<bv8>): seq<bv8> {
    InkTo(bytes, |bytes|)
  }

  lemma {:induction false} SameInk(a: seq<bv8>, b: seq<bv8>, n: nat)
    requires n <= |a| && n <= |b| && forall k | 0 <= k < n :: a[k] == b[k]
    ensures InkTo(a, n) == InkTo(b, n)
  {
    if n > 0 {
      SameInk(a, b, n - 1);
    }
  }

  lemma {:induction false} InkPast(a: seq<bv8>, b: seq<bv8>, n: nat)
    requires n <= |b|
    ensures InkTo(a + b, |a| + n) == InkTo(a, |a|) + InkTo(b, n)
  {
    if n == 0 {
      SameInk(a + b, a, |a|);
    } else {
      InkPast(a, b, n - 1);
      Assoc(InkTo(a, |a|), InkTo(b, n - 1), InkOf(b[n - 1]));
    }
  }

  lemma InkConcat(a: seq<bv8>, b: seq<bv8>)
    ensures Ink(a + b) == Ink(a) + Ink(b)
  {
    InkPast(a, b, |b|);
  }

  // ----- The viewer -----

  /** Window `n` as seen: eight rows. */
  function Sight(rows: seq<Row>, n: nat): (w: seq<Row>)
    requires 8 * n + 8 <= |rows|
    ensures |w| == 8
  {
    rows[8 * n..8 * n + 8]
  }

  ghost function Bytes(w: seq<Row>): (b: seq<bv8>)
    requires |w| == 8
    ensures |b| == 8
  {
    seq(8, r requires 0 <= r < 8 => ByteOf(w[r].data))
  }

  /**
    The viewer's notes after `n` windows: the ink of the first, then of the newest byte of
    every window that changed.
   */
  ghost function Notes(rows: seq<Row>, n: nat): seq<bv8>
    requires 8 * n <= |rows|
  {
    if n == 0 then []
    else if n == 1 then Ink(Bytes(Sight(rows, 0)))
    else if Sight(rows, n - 1) == Sight(rows, n - 2) then Notes(rows, n - 1)
    else Notes(rows, n - 1) + InkOf(ByteOf(Sight(rows, n - 1)[7].data))
  }

  ghost function BlindRead(rows: seq<Row>): seq<bv8> {
    Notes(rows, |rows| / 8)
  }

  /** Nine equal bytes in a row are PAPER. */
  predicate Marked(buf: seq<bv8>) {
    forall k | 0 <= k && k + 9 <= |buf| :: Flat(buf, k) ==> buf[k] == PAPER
  }

  predicate Flat(buf: seq<bv8>, k: nat)
    requires k + 9 <= |buf|
  {
    && buf[k] == buf[k + 1] == buf[k + 2] == buf[k + 3] == buf[k + 4]
    && buf[k + 4] == buf[k + 5] == buf[k + 6] == buf[k + 7] == buf[k + 8]
  }

  /** Window `i` as it is drawn. */
  function Drawn(buf: seq<bv8>, i: nat): (w: seq<Row>)
    requires i + 8 <= |buf|
    ensures |w| == 8
  {
    seq(8, r requires 0 <= r < 8 => DrawnRow(buf, i, r))
  }

  /** Position `n` of the rows shows window `i`. */
  predicate SeesWindow(rows: seq<Row>, n: nat, buf: seq<bv8>, i: nat) {
    8 * (n + 1) <= |rows| && i + 8 <= |buf| && Sight(rows, n) == Drawn(buf, i)
  }

  predicate Sees(rows: seq<Row>, buf: seq<bv8>, reps: seq<nat>, i: nat, q: nat)
    requires i < |reps|
  {
    SeesWindow(rows, Sum(reps, i) + q, buf, i)
  }

  /** The rows show the windows of the buffer in order, each as often as `reps` says. */
  predicate SeesAll(rows: seq<Row>, buf: seq<bv8>, reps: seq<nat>) {
    && |buf| == |reps| + 7 && |rows| == 8 * Sum(reps, |reps|)
    && forall i, q | 0 <= i < |reps| && 0 <= q < reps[i] :: Sees(rows, buf, reps, i, q)
  }

  lemma ScrollIsSeen(buf: seq<bv8>, reps: seq<nat>)
    requires |buf| == |reps| + 7
    ensures SeesAll(ShownRows(buf, reps, |reps|), buf, reps)
  {
    ShownLength(buf, reps, |reps|);
    forall i, q | 0 <= i < |reps| && 0 <= q < reps[i]
      ensures Sees(ShownRows(buf, reps, |reps|), buf, reps, i, q)
    {
      WindowIsSeen(buf, reps, i, q);
    }
  }

  lemma WindowIsSeen(buf: seq<bv8>, reps: seq<nat>, i: nat, q: nat)
    requires |buf| == |reps| + 7 && i < |reps| && q < reps[i]
    ensures Sees(ShownRows(buf, reps, |reps|), buf, reps, i, q)
  {
    forall r | 0 <= r < 8
      ensures RowIs(ShownRows(buf, reps, |reps|), 8 * (Sum(reps, i) + q) + r, DrawnRow(buf, i, r))
    {
      RowSeen(buf, reps, i, q, r);
    }
    RowsAreDrawn(ShownRows(buf, reps, |reps|), Sum(reps, i) + q, buf, i);
  }

  function DrawnRow(buf: seq<bv8>, i: nat, r: nat): Row
    requires i + r < |buf|
  {
    Row(r, Shifted(buf[i + r], FIRST_DATA))
  }

  predicate RowIs(rows: seq<Row>, p: nat, row: Row) {
    p < |rows| && rows[p] == row
  }

  lemma RowSeen(buf: seq<bv8>, reps: seq<nat>, i: nat, q: nat, r: nat)
    requires |buf| == |reps| + 7 && i < |reps| && q < reps[i] && r < 8
    ensures RowIs(ShownRows(buf, reps, |reps|), 8 * (Sum(reps, i) + q) + r, DrawnRow(buf, i, r))
  {
    WindowRow(buf, reps, |reps|, i, q, r);
  }

  lemma RowsAreDrawn(rows: seq<Row>, n: nat, buf: seq<bv8>, i: nat)
    requires i + 8 <= |buf|
    requires forall r | 0 <= r < 8 :: RowIs(rows, 8 * n + r, DrawnRow(buf, i, r))
    ensures SeesWindow(rows, n, buf, i)
  {
    assert RowIs(rows, 8 * n + 7, DrawnRow(buf, i, 7));
    forall r | 0 <= r < 8
      ensures Sight(rows, n)[r] == Drawn(buf, i)[r]
    {
      assert RowIs(rows, 8 * n + r, DrawnRow(buf, i, r));
    }
  }

  lemma BytesOfDrawn(buf: seq<bv8>, i: nat)
    requires i + 8 <= |buf|
    ensures Bytes(Drawn(buf, i)) == buf[i..i + 8]
  {
    forall r | 0 <= r < 8
      ensures Bytes(Drawn(buf, i))[r] == buf[i + r]
    {
      ByteOfShifted(buf[i + r]);
    }
  }

  /** Equal neighbouring windows are flat. */
  lemma SameDrawn(buf: seq<bv8>, i: nat)
    requires i + 9 <= |buf| && Drawn(buf, i + 1) == Drawn(buf, i)
    ensures Flat(buf, i)
  {
    DrawnStep(buf, i, 0);
    DrawnStep(buf, i, 1);
    DrawnStep(buf, i, 2);
    DrawnStep(buf, i, 3);
    DrawnStep(buf, i, 4);
    DrawnStep(buf, i, 5);
    DrawnStep(buf, i, 6);
    DrawnStep(buf, i, 7);
  }

  lemma DrawnStep(buf: seq<bv8>, i: nat, r: nat)
    requires i + 9 <= |buf| && Drawn(buf, i + 1) == Drawn(buf, i) && r < 8
    ensures buf[i + r] == buf[i + r + 1]
  {
    assert Drawn(buf, i + 1)[r] == Drawn(buf, i)[r];
    ByteOfShifted(buf[i + r]);
    ByteOfShifted(buf[i + 1 + r]);
  }

  ghost predicate NotesHold(rows: seq<Row>, n: nat, buf: seq<bv8>, i: nat) {
    8 * (n + 1) <= |rows| && i + 8 <= |buf| && Notes(rows, n + 1) == InkTo(buf, i + 8)
  }

  /** Up to any showing of window `i`, the notes hold the ink of the buffer up to the end of that window. */
  lemma {:induction false} NotesUpTo(rows: seq<Row>, buf: seq<bv8>, reps: seq<nat>, i: nat, q: nat)
    requires AllShown(reps) && SeesAll(rows, buf, reps) && Marked(buf) && i < |reps| && q < reps[i]
    ensures NotesHold(rows, Sum(reps, i) + q, buf, i)
    decreases i, q
  {
    if q > 0 {
      NotesUpTo(rows, buf, reps, i, q - 1);
      SameAgain(rows, buf, reps, i, q);
    } else if i > 0 {
      NotesUpTo(rows, buf, reps, i - 1, reps[i - 1] - 1);
      OnToNext(rows, buf, reps, i);
    } else {
      FirstSight(rows, buf, reps);
    }
  }

  lemma FirstSight(rows: seq<Row>, buf: seq<bv8>, reps: seq<nat>)
    requires AllShown(reps) && SeesAll(rows, buf, reps)
    ensures NotesHold(rows, Sum(reps, 0) + 0, buf, 0)
  {
    SeesOne(rows, buf, reps, 0, 0);
    FirstWindow(rows, buf);
  }

  lemma SameAgain(rows: seq<Row>, buf: seq<bv8>, reps: seq<nat>, i: nat, q: nat)
    requires SeesAll(rows, buf, reps) && i < |reps| && 0 < q < reps[i]
    requires NotesHold(rows, Sum(reps, i) + (q - 1), buf, i)
    ensures NotesHold(rows, Sum(reps, i) + q, buf, i)
  {
    SeesOne(rows, buf, reps, i, q - 1);
    SeesOne(rows, buf, reps, i, q);
    SameWindow(rows, Sum(reps, i) + q, buf, i);
  }

  lemma OnToNext(rows: seq<Row>, buf: seq<bv8>, reps: seq<nat>, i: nat)
    requires AllShown(reps) && SeesAll(rows, buf, reps) && Marked(buf) && 0 < i < |reps|
    requires NotesHold(rows, Sum(reps, i - 1) + (reps[i - 1] - 1), buf, i - 1)
    ensures NotesHold(rows, Sum(reps, i) + 0, buf, i)
  {
    SumStep(reps, i);
    SeesOne(rows, buf, reps, i - 1, reps[i - 1] - 1);
    SeesOne(rows, buf, reps, i, 0);
    NextWindow(rows, Sum(reps, i), buf, i);
  }

  lemma SeesOne(rows: seq<Row>, buf: seq<bv8>, reps: seq<nat>, i: nat, q: nat)
    requires SeesAll(rows, buf, reps) && i < |reps| && q < reps[i]
    ensures SeesWindow(rows, Sum(reps, i) + q, buf, i)
  {
    assert Sees(rows, buf, reps, i, q);
  }

  lemma SumStep(reps: seq<nat>, i: nat)
    requires 0 < i <= |reps|
    ensures Sum(reps, i) == Sum(reps, i - 1) + reps[i - 1]
  {
  }

  lemma SameWindow(rows: seq<Row>, n: nat, buf: seq<bv8>, i: nat)
    requires 0 < n && SeesWindow(rows, n, buf, i) && SeesWindow(rows, n - 1, buf, i) && NotesHold(rows, n - 1, buf, i)
    ensures NotesHold(rows, n, buf, i)
  {
  }

  lemma FirstWindow(rows: seq<Row>, buf: seq<bv8>)
    requires SeesWindow(rows, 0, buf, 0)
    ensures NotesHold(rows, 0, buf, 0)
  {
    BytesOfDrawn(buf, 0);
    SameInk(Bytes(Drawn(buf, 0)), buf, 8);
  }

  /** A new window adds the ink of its newest byte to the notes. */
  lemma NextWindow(rows: seq<Row>, n: nat, buf: seq<bv8>, i: nat)
    requires Marked(buf) && 0 < n && 0 < i
    requires SeesWindow(rows, n, buf, i) && SeesWindow(rows, n - 1, buf, i - 1) && NotesHold(rows, n - 1, buf, i - 1)
    ensures NotesHold(rows, n, buf, i)
  {
    if Sight(rows, n) == Sight(rows, n - 1) {
      SameDrawn(buf, i - 1);
      FlatIsPaper(buf, i - 1);
    } else {
      ByteOfShifted(buf[i + 7]);
    }
  }

  lemma FlatIsPaper(buf: seq<bv8>, k: nat)
    requires Marked(buf) && k + 9 <= |buf| && Flat(buf, k)
    ensures buf[k + 8] == PAPER
  {
    assert buf[k] == PAPER;
  }

  /** However often each window was shown, the viewer gets the ink of the buffer. */
  lemma BlindReadGetsInk(rows: seq<Row>, buf: seq<bv8>, reps: seq<nat>)
    requires AllShown(reps) && SeesAll(rows, buf, reps) && Marked(buf)
    ensures BlindRead(rows) == Ink(buf)
  {
    var i := |reps| - 1;
    SumStep(reps, |reps|);
    NotesUpTo(rows, buf, reps, i, reps[i] - 1);
    ReadAll(rows, Sum(reps, |reps|) - 1, buf, i);
  }

  lemma ReadAll(rows: seq<Row>, n: nat, buf: seq<bv8>, i: nat)
    requires |rows| == 8 * (n + 1) && |buf| == i + 8 && NotesHold(rows, n, buf, i)
    ensures BlindRead(rows) == Ink(buf)
  {
    assert |rows| / 8 == n + 1;
  }

  // ----- What a font needs for this -----

  /** Every glyph begins with PAPER, the blank glyph is all PAPER, and no glyph's ink begins another's. */
  predicate InkFont(f: Font) {
    ValidFont(f) && StartWithPaper(f) && Ink(f[14]) == [] && InkApart(f) && Inked(f)
  }

  predicate StartWithPaper(f: Font)
    requires |f| == 15 && EightEach(f)
  {
    forall i | 0 <= i < 15 :: f[i][0] == PAPER
  }

  predicate InkApart(f: Font)
    requires |f| == 15
  {
    forall i, j | 0 <= i < 14 && 0 <= j < 14 && i != j :: Apart(Ink(f[i]), Ink(f[j]))
  }

  predicate Inked(f: Font)
    requires |f| == 15
  {
    forall i | 0 <= i < 14 :: Ink(f[i]) != []
  }

  /** The two differ within their common length. */
  predicate Apart(a: seq<bv8>, b: seq<bv8>) {
    exists k | 0 <= k < |a| && k < |b| :: a[k] != b[k]
  }

  lemma ImageIsMarked(f: Font, text: seq<Glyph>)
    requires InkFont(f) && ProperText(text)
    ensures Marked(Image(f, text))
  {
    var cells := Codes(f, text);
    forall i | 0 <= i < |cells|
      ensures cells[i][0] == PAPER
    {
      assert text[i] in text && cells[i] == f[RowOf(text[i])];
    }
    CellsAreMarked(cells);
  }

  /** Where every cell begins with PAPER, nine equal bytes reach the beginning of one. */
  lemma CellsAreMarked(cells: seq<seq<bv8>>)
    requires EightEach(cells) && forall i | 0 <= i < |cells| :: cells[i][0] == PAPER
    ensures Marked(Flatten(cells))
  {
    var buf := Flatten(cells);
    forall k | 0 <= k && k + 9 <= |buf| && Flat(buf, k)
      ensures buf[k] == PAPER
    {
      var g := (k + 7) / 8;
      CellStart(cells, g);
      FlatTo(buf, k, 8 * g - k);
    }
  }

  lemma CellStart(cells: seq<seq<bv8>>, g: nat)
    requires EightEach(cells) && g < |cells|
    ensures cells[g] in cells && Flatten(cells)[8 * g] == cells[g][0]
  {
    FlattenAt(cells, g);
    assert Flatten(cells)[8 * g] == Flatten(cells)[8 * g..8 * g + 8][0];
  }

  lemma FlatTo(buf: seq<bv8>, k: nat, r: nat)
    requires k + 9 <= |buf| && Flat(buf, k) && r <= 8
    ensures buf[k + r] == buf[k]
  {
    assert r == 0 || r == 1 || r == 2 || r == 3 || r == 4 || r == 5 || r == 6 || r == 7 || r == 8;
  }

  // ----- The ink of a text -----

  function Kept(g: Glyph): seq<Glyph> {
    if g == Blank then [] else [g]
  }

  /** A text without its blanks. */
  function NoBlanks(text: seq<Glyph>): seq<Glyph> {
    if text == [] then []
    else Kept(text[0]) + NoBlanks(text[1..])
  }

  lemma ImageHead(f: Font, text: seq<Glyph>)
    requires InkFont(f) && ProperText(text) && text != []
    ensures Proper(text[0]) && ProperText(text[1..])
    ensures Ink(Image(f, text)) == Ink(Code(f, text[0])) + Ink(Image(f, text[1..]))
  {
    assert text[0] in text && text == [text[0]] + text[1..];
    assert forall g | g in text[1..] :: g in text;
    ImageConcat(f, [text[0]], text[1..]);
    ImageOne(f, text[0]);
    InkConcat(Image(f, [text[0]]), Image(f, text[1..]));
  }

  /** Ink that begins with two glyphs' ink comes from one glyph. */
  lemma SameGlyph(f: Font, g: Glyph, h: Glyph, x: seq<bv8>, y: seq<bv8>)
    requires InkFont(f) && Proper(g) && Proper(h) && g != Blank && h != Blank
    requires Ink(Code(f, g)) + x == Ink(Code(f, h)) + y
    ensures g == h && x == y
  {
    var a, b := Ink(Code(f, g)), Ink(Code(f, h));
    if RowOf(g) == RowOf(h) {
      SameRow(g, h);
      assert (a + x)[|a|..] == x && (a + y)[|a|..] == y;
    } else {
      ApartStays(a, b, x, y);
    }
  }

  lemma ApartStays(a: seq<bv8>, b: seq<bv8>, x: seq<bv8>, y: seq<bv8>)
    requires Apart(a, b)
    ensures a + x != b + y
  {
    var k :| 0 <= k < |a| && k < |b| && a[k] != b[k];
    assert (a + x)[k] == a[k] && (b + y)[k] == b[k];
  }

  lemma SameRow(g: Glyph, h: Glyph)
    requires Proper(g) && Proper(h) && RowOf(g) == RowOf(h)
    ensures g == h
  {
  }

  /** Texts with the same ink are the same up to blanks. */
  lemma {:induction false} InkDecides(f: Font, t: seq<Glyph>, u: seq<Glyph>)
    requires InkFont(f) && ProperText(t) && ProperText(u) && Ink(Image(f, t)) == Ink(Image(f, u))
    ensures NoBlanks(t) == NoBlanks(u)
    decreases |t| + |u|
  {
    if t != [] && t[0] == Blank {
      ImageHead(f, t);
      InkDecides(f, t[1..], u);
    } else if u != [] && u[0] == Blank {
      ImageHead(f, u);
      InkDecides(f, t, u[1..]);
    } else if t != [] && u != [] {
      ImageHead(f, t);
      ImageHead(f, u);
      SameGlyph(f, t[0], u[0], Ink(Image(f, t[1..])), Ink(Image(f, u[1..])));
      InkDecides(f, t[1..], u[1..]);
    } else if t != [] {
      NoInkNoText(f, t, u);
    } else if u != [] {
      NoInkNoText(f, u, t);
    }
  }

  lemma NoInkNoText(f: Font, t: seq<Glyph>, u: seq<Glyph>)
    requires InkFont(f) && ProperText(t) && t != [] && t[0] != Blank && u == []
    ensures Ink(Image(f, t)) != Ink(Image(f, u))
  {
    ImageHead(f, t);
    assert RowOf(t[0]) < 14;
  }

  // ----- The reports without their blanks -----

  lemma {:induction false} NoBlanksConcat(t: seq<Glyph>, u: seq<Glyph>)
    ensures NoBlanks(t + u) == NoBlanks(t) + NoBlanks(u)
  {
    if t == [] {
      assert t + u == u;
    } else {
      NoBlanksConcat(t[1..], u);
      assert (t + u)[1..] == t[1..] + u;
      Assoc(Kept(t[0]), NoBlanks(t[1..]), NoBlanks(u));
    }
  }

  lemma {:induction false} NothingBlank(t: seq<Glyph>)
    requires Blank !in t
    ensures NoBlanks(t) == t
  {
    if t != [] {
      assert t[0] in t && forall g | g in t[1..] :: g in t;
      NothingBlank(t[1..]);
    }
  }

  /** A field loses at most its end mark. */
  lemma FieldWithoutBlank(head: seq<Glyph>, n: nat, end: Glyph)
    requires ProperText(head) && Proper(end) && Blank !in head
    ensures NoBlanks(NumberField(head, n, end)) == head + Number(n) + NoBlanks([end])
  {
    NothingBlank(head + Number(n));
    NoBlanksConcat(head + Number(n), [end]);
  }

  /** What is left of each report. */
  function Core(kind: Kind, a: nat, b: nat, c: nat): seq<Glyph> {
    match kind
    case Money => [T, Colon] + (Number(Total(a, b, c)) + [W])
    case Each => LABEL500 + (Number(a) + (LABEL100 + (Number(b) + (LABEL50 + Number(c)))))
    case Count => [T, C, Colon] + Number(a + b + c)
  }

  lemma CoreOfText(kind: Kind, a: nat, b: nat, c: nat)
    ensures NoBlanks(Text(kind, a, b, c)) == Core(kind, a, b, c)
  {
    match kind
    case Money =>
      FieldWithoutBlank([T, Colon], Total(a, b, c), W);
      assert NoBlanks([W]) == [W];
      Assoc([T, Colon], Number(Total(a, b, c)), [W]);
    case Each => CoreOfEach(a, b, c);
    case Count =>
      FieldWithoutBlank([T, C, Colon], a + b + c, Blank);
      assert NoBlanks([Blank]) == [];
  }

  lemma CoreOfEach(a: nat, b: nat, c: nat)
    ensures NoBlanks(Text(Each, a, b, c)) == Core(Each, a, b, c)
  {
    var x, y, z := NumberField(LABEL500, a, Blank), NumberField(LABEL100, b, Blank), NumberField(LABEL50, c, Blank);
    FieldWithoutBlank(LABEL500, a, Blank);
    FieldWithoutBlank(LABEL100, b, Blank);
    FieldWithoutBlank(LABEL50, c, Blank);
    assert NoBlanks([Blank]) == [];
    NoBlanksConcat(x + y, z);
    NoBlanksConcat(x, y);
    Glyphs6(LABEL500, Number(a), LABEL100, Number(b), LABEL50, Number(c));
  }

  lemma Glyphs6(p: seq<Glyph>, x: seq<Glyph>, q: seq<Glyph>, y: seq<Glyph>, r: seq<Glyph>, z: seq<Glyph>)
    ensures (((p + x) + []) + ((q + y) + [])) + ((r + z) + []) == p + (x + (q + (y + (r + z))))
  {
  }

  /** A number before a text that does not begin with a digit is determined, and so is that text. */
  lemma NumberDecides(m: nat, n: nat, digits: seq<nat>, t: seq<Glyph>, u: seq<Glyph>)
    requires t == [] || !t[0].Digit?
    requires u == [] || !u[0].Digit?
    requires Number(m) + (DigitGlyphs(digits) + t) == Number(n) + (DigitGlyphs(digits) + u)
    ensures m == n && t == u
  {
    DigitsJoin(Decimal(m), digits, t);
    DigitsJoin(Decimal(n), digits, u);
    RunOfDigits(Decimal(m) + digits, t);
    RunOfDigits(Decimal(n) + digits, u);
    SameEnd(Decimal(m), Decimal(n), digits);
    DecimalMeans(m);
    DecimalMeans(n);
    SameTail(DigitGlyphs(Decimal(m) + digits), t, u);
  }

  lemma DigitsJoin(ds: seq<nat>, es: seq<nat>, t: seq<Glyph>)
    ensures DigitGlyphs(ds) + (DigitGlyphs(es) + t) == DigitGlyphs(ds + es) + t
  {
    assert DigitGlyphs(ds + es) == DigitGlyphs(ds) + DigitGlyphs(es);
  }

  lemma SameEnd(a: seq<nat>, b: seq<nat>, end: seq<nat>)
    requires a + end == b + end
    ensures a == b
  {
    assert |a| == |b|;
    assert (a + end)[..|a|] == a && (b + end)[..|b|] == b;
  }

  lemma SameTail(x: seq<Glyph>, t: seq<Glyph>, u: seq<Glyph>)
    requires x + t == x + u
    ensures t == u
  {
    assert (x + t)[|x|..] == t && (x + u)[|x|..] == u;
  }

  /** What a report tells of its counters. */
  predicate SameMessage(kind: Kind, x: (nat, nat, nat), y: (nat, nat, nat)) {
    match kind
    case Money => Total(x.0, x.1, x.2) == Total(y.0, y.1, y.2)
    case Each => x == y
    case Count => x.0 + x.1 + x.2 == y.0 + y.1 + y.2
  }

  /** Reports that are the same without their blanks are of one kind and say the same. */
  lemma CoreDecides(k: Kind, l: Kind, x: (nat, nat, nat), y: (nat, nat, nat))
    requires Core(k, x.0, x.1, x.2) == Core(l, y.0, y.1, y.2)
    ensures k == l && SameMessage(k, x, y)
  {
    CoreKind(k, l, x, y);
    match k
    case Money => MoneyDecides(Total(x.0, x.1, x.2), Total(y.0, y.1, y.2));
    case Each => EachDecides(x, y);
    case Count => CountDecides(x.0 + x.1 + x.2, y.0 + y.1 + y.2);
  }

  lemma CoreKind(k: Kind, l: Kind, x: (nat, nat, nat), y: (nat, nat, nat))
    requires Core(k, x.0, x.1, x.2) == Core(l, y.0, y.1, y.2)
    ensures k == l
  {
    CoreStarts(k, x);
    CoreStarts(l, y);
  }

  lemma CoreStarts(k: Kind, x: (nat, nat, nat))
    ensures var t := Core(k, x.0, x.1, x.2);
      |t| >= 2 && t[0] == (if k == Each then C else T) && (k != Each ==> t[1] == if k == Money then Colon else C)
  {
  }

  lemma MoneyDecides(m: nat, n: nat)
    requires [T, Colon] + (Number(m) + [W]) == [T, Colon] + (Number(n) + [W])
    ensures m == n
  {
    SameTail([T, Colon], Number(m) + [W], Number(n) + [W]);
    assert DigitGlyphs([]) + [W] == [W];
    NumberDecides(m, n, [], [W], [W]);
  }

  lemma CountDecides(m: nat, n: nat)
    requires [T, C, Colon] + Number(m) == [T, C, Colon] + Number(n)
    ensures m == n
  {
    SameTail([T, C, Colon], Number(m), Number(n));
    assert Number(m) + (DigitGlyphs([]) + []) == Number(m) && Number(n) + (DigitGlyphs([]) + []) == Number(n);
    NumberDecides(m, n, [], [], []);
  }

  lemma EachDecides(x: (nat, nat, nat), y: (nat, nat, nat))
    requires Core(Each, x.0, x.1, x.2) == Core(Each, y.0, y.1, y.2)
    ensures x == y
  {
    var xc, yc := Number(x.2), Number(y.2);
    var xb, yb := Number(x.1) + (LABEL50 + xc), Number(y.1) + (LABEL50 + yc);
    SameTail(LABEL500, Number(x.0) + (LABEL100 + xb), Number(y.0) + (LABEL100 + yb));
    LabelEnds([1, 0, 0], LABEL100, xb);
    LabelEnds([1, 0, 0], LABEL100, yb);
    NumberDecides(x.0, y.0, [1, 0, 0], [Colon] + xb, [Colon] + yb);
    SameTail([Colon], xb, yb);
    LabelEnds([5, 0], LABEL50, xc);
    LabelEnds([5, 0], LABEL50, yc);
    NumberDecides(x.1, y.1, [5, 0], [Colon] + xc, [Colon] + yc);
    SameTail([Colon], xc, yc);
    assert xc + (DigitGlyphs([]) + []) == xc && yc + (DigitGlyphs([]) + []) == yc;
    NumberDecides(x.2, y.2, [], [], []);
  }

  lemma LabelEnds(ds: seq<nat>, head: seq<Glyph>, t: seq<Glyph>)
    requires head == DigitGlyphs(ds) + [Colon]
    ensures head + t == DigitGlyphs(ds) + ([Colon] + t)
  {
  }

  // ----- No two reports look the same -----

  /** Whatever the repetitions: rows that show two reports show one kind and one message. */
  lemma LooksDecide(f: Font, rows: seq<Row>, k: Kind, l: Kind, x: (nat, nat, nat), y: (nat, nat, nat),
                    reps: seq<nat>, other: seq<nat>)
    requires InkFont(f) && AllShown(reps) && AllShown(other)
    requires SeesAll(rows, Image(f, Text(k, x.0, x.1, x.2)), reps)
    requires SeesAll(rows, Image(f, Text(l, y.0, y.1, y.2)), other)
    ensures k == l && SameMessage(k, x, y)
  {
    var t, u := Text(k, x.0, x.1, x.2), Text(l, y.0, y.1, y.2);
    ImageIsMarked(f, t);
    ImageIsMarked(f, u);
    BlindReadGetsInk(rows, Image(f, t), reps);
    BlindReadGetsInk(rows, Image(f, u), other);
    InkDecides(f, t, u);
    CoreOfText(k, x.0, x.1, x.2);
    CoreOfText(l, y.0, y.1, y.2);
    CoreDecides(k, l, x, y);
  }
}
