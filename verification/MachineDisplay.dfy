/**
  The output latch in every reachable state: the motor is on only while coins are
  inserted, the display is blank between writes, and what a finished report showed is
  the picture of its text.
 */
module MachineDisplay {
  import opened Cells
  import opened Gpio
  import opened DotMatrix
  import opened Devices
  import opened Glyphs
  import opened Scroll
  import opened Machine
  import opened MachineSafety

  // ----- Display writes never touch the motor pin -----

  predicate SparesMotor(op: RegOp) {
    MOTOR_PIN !in op.mask
  }

  predicate AllSpareMotor(ops: seq<RegOp>) {
    forall op | op in ops :: SparesMotor(op)
  }

  lemma {:induction false} WriteSparesMotor(bytes: seq<bv8>, rows: nat)
    requires rows <= |bytes| <= 8
    ensures AllSpareMotor(WriteOps(RECEIVE, bytes, rows))
  {
    if rows > 0 {
      WriteSparesMotor(bytes, rows - 1);
      forall op | op in RowOps(RECEIVE, bytes[rows - 1], rows - 1)
        ensures SparesMotor(op)
      {
        assert MOTOR_PIN !in DATA && MOTOR_PIN !in Select(RECEIVE);
      }
    }
  }

  lemma {:induction false} TimesSparesMotor(ops: seq<RegOp>, k: nat)
    requires AllSpareMotor(ops)
    ensures AllSpareMotor(Times(ops, k))
  {
    if k > 0 {
      TimesSparesMotor(ops, k - 1);
    }
  }

  lemma {:induction false} ScrollSparesMotor(buf: seq<bv8>, reps: seq<nat>, n: nat)
    requires n <= |reps| && n + 7 <= |buf|
    ensures AllSpareMotor(ScrollOps(buf, reps, n))
  {
    if n > 0 {
      ScrollSparesMotor(buf, reps, n - 1);
      WriteSparesMotor(buf[n - 1..n + 7], 8);
      TimesSparesMotor(WriteOps(RECEIVE, buf[n - 1..n + 7], 8), reps[n - 1]);
    }
  }

  /** Main's places between raising the motor and lowering it. */
  predicate MotorRuns(m: MainPc, bodies: nat) {
    m.SecondBlank? || m.Join? || m.MotorOff? || (m.LoopGuard? && bodies == 1)
  }

  predicate MotorSafe(s: State) {
    MOTOR_PIN in s.latch <==> MotorRuns(s.main, s.bodies)
  }

  lemma MotorSafeKept(f: Font, s: State, a: Action)
    requires ValidFont(f) && Shape(s) && Control(s) && MotorSafe(s)
    ensures Shape(Next(f, s, a)) && MotorSafe(Next(f, s, a))
  {
    ShapeKept(f, s, a);
    match a
    case Interrupt(key) =>
    case MainStep(reps, fail) => MainMotor(f, s, reps, fail);
    case ThreadStep(i, high, scans) =>
      if i < 3 {
        ThreadFrame(s, i, high, scans);
      }
  }

  lemma MainMotor(f: Font, s: State, reps: seq<nat>, fail: bool)
    requires ValidFont(f) && Shape(s) && Control(s) && MotorSafe(s)
    ensures MotorSafe(MainNext(f, s, reps, fail))
  {
    if InMenu(s.main) {
      MenuFrame(f, s, reps, fail);
      MenuMotor(f, s, reps, fail);
    } else if InPrep(s.main) {
      PrepMotor(s, fail);
    } else {
      InsertMotor(f, s);
    }
  }

  lemma PrepMotor(s: State, fail: bool)
    requires Shape(s) && Control(s) && InPrep(s.main) && MotorSafe(s)
    ensures MotorSafe(PrepNext(s, fail))
  {
  }

  lemma MenuMotor(f: Font, s: State, reps: seq<nat>, fail: bool)
    requires ValidFont(f) && Shape(s) && InMenu(s.main) && MotorSafe(s)
    ensures MOTOR_PIN !in MenuNext(f, s, reps, fail).latch
  {
    match s.main
    case Show(i, keys, buf, rs, k) =>
      ScrollSparesMotor(buf, rs, |rs|);
      var ops := ScrollOps(buf, rs, |rs|);
      if k < |ops| {
        assert ops[k] in ops && SparesMotor(ops[k]);
      }
    case _ =>
  }

  lemma InsertMotor(f: Font, s: State)
    requires ValidFont(f) && Shape(s) && Control(s) && !InPrep(s.main) && !InMenu(s.main) && MotorSafe(s)
    ensures MotorSafe(InsertNext(f, s))
  {
    if s.main.FirstBlank? || s.main.SecondBlank? {
      BlankSparesMotor(f, s);
    }
  }

  lemma BlankSparesMotor(f: Font, s: State)
    requires ValidFont(f) && Shape(s) && (s.main.FirstBlank? || s.main.SecondBlank?)
    ensures MOTOR_PIN in InsertNext(f, s).latch <==> MOTOR_PIN in s.latch
  {
    WriteSparesMotor(Code(f, Glyph.Blank), 8);
    if s.main.k < 32 {
      assert BlankOps(f)[s.main.k] in BlankOps(f) && SparesMotor(BlankOps(f)[s.main.k]);
    }
  }

  // ----- The display between and during writes -----

  /** A write in progress: `k` of its register writes have been made since `from`. */
  predicate Writing(s: State, ops: seq<RegOp>, k: nat) {
    && k <= |ops|
    && s.latch == ApplyAll(s.from, ops[..k])
  }

  predicate DisplayOk(f: Font, s: State)
    requires ValidFont(f) && Shape(s)
  {
    match s.main
    case FirstBlank(k) => Writing(s, BlankOps(f), k)
    case SecondBlank(k) => DotMatrix.Blank(s.from, RECEIVE) && Writing(s, BlankOps(f), k)
    case Show(_, _, buf, reps, k) =>
      && DotMatrix.Blank(s.from, RECEIVE)
      && Writing(s, ScrollOps(buf, reps, |reps|), k)
      && s.seen == States(s.from, ScrollOps(buf, reps, |reps|)[..k])
    case PrepGuard => true
    case PrepTest => true
    case PrepClear(_) => true
    case PrepBranch(_) => true
    case Aborted => s.bodies == 1 ==> DotMatrix.Blank(s.latch, RECEIVE)
    case _ => DotMatrix.Blank(s.latch, RECEIVE)
  }

  lemma OneMoreWrite(s: State, ops: seq<RegOp>, k: nat)
    requires Writing(s, ops, k) && k < |ops|
    ensures Apply(s.latch, ops[k]) == ApplyAll(s.from, ops[..k + 1])
    ensures States(s.from, ops[..k + 1]) == States(s.from, ops[..k]) + [Apply(s.latch, ops[k])]
  {
    assert ops[..k + 1] == ops[..k] + [ops[k]];
    ApplySnoc(s.from, ops[..k], ops[k]);
  }

  lemma DisplayKept(f: Font, s: State, a: Action)
    requires ValidFont(f) && Shape(s) && Control(s) && DisplayOk(f, s)
    ensures Shape(Next(f, s, a)) && DisplayOk(f, Next(f, s, a))
  {
    ShapeKept(f, s, a);
    match a
    case Interrupt(key) =>
    case MainStep(reps, fail) =>
      if InMenu(s.main) {
        MenuDisplay(f, s, reps, fail);
      } else if InPrep(s.main) {
        PrepDisplay(f, s, fail);
      } else {
        InsertDisplay(f, s);
      }
    case ThreadStep(i, high, scans) =>
      if i < 3 {
        ThreadDisplay(f, s, i, high, scans);
      }
  }

  lemma PrepDisplay(f: Font, s: State, fail: bool)
    requires ValidFont(f) && Shape(s) && Control(s) && InPrep(s.main) && Shape(PrepNext(s, fail))
    ensures DisplayOk(f, PrepNext(s, fail))
  {
    assert BlankOps(f)[..0] == [];
  }

  lemma ThreadDisplay(f: Font, s: State, i: nat, high: bool, scans: nat)
    requires ValidFont(f) && Shape(s) && DisplayOk(f, s) && i < 3 && Shape(ThreadNext(s, i, high, scans))
    ensures DisplayOk(f, ThreadNext(s, i, high, scans))
  {
    ThreadKeeps(s, i, high, scans);
  }

  lemma MenuDisplay(f: Font, s: State, reps: seq<nat>, fail: bool)
    requires ValidFont(f) && Shape(s) && DisplayOk(f, s) && InMenu(s.main)
    ensures Shape(MenuNext(f, s, reps, fail)) && DisplayOk(f, MenuNext(f, s, reps, fail))
  {
    MenuShape(f, s, reps, fail);
    match s.main
    case Show(i, keys, buf, rs, k) => ShowDisplay(f, s, reps, fail);
    case Dispatch(i, keys) => BeginDisplay(f, s, reps, fail);
    case _ =>
  }

  lemma BeginDisplay(f: Font, s: State, reps: seq<nat>, fail: bool)
    requires ValidFont(f) && Shape(s) && s.main.Dispatch? && DotMatrix.Blank(s.latch, RECEIVE)
    requires Shape(MenuNext(f, s, reps, fail))
    ensures DisplayOk(f, MenuNext(f, s, reps, fail))
  {
    DispatchDisplay(f, s, reps, fail);
    var t := MenuNext(f, s, reps, fail);
    if t.main.Show? {
      assert ScrollOps(t.main.buf, t.main.reps, |t.main.reps|)[..0] == [];
    }
  }

  lemma DispatchDisplay(f: Font, s: State, reps: seq<nat>, fail: bool)
    requires ValidFont(f) && Shape(s) && s.main.Dispatch?
    ensures var t := MenuNext(f, s, reps, fail);
      && t.latch == s.latch
      && (t.main.Show? ==> t.main.k == 0 && t.from == s.latch && t.seen == [])
      && (t.main.Dispatch? || t.main.Show? || t.main == MenuGuard || t.main == Off(true) || t.main == Undefined)
  {
  }

  lemma ShowDisplay(f: Font, s: State, reps: seq<nat>, fail: bool)
    requires ValidFont(f) && Shape(s) && DisplayOk(f, s) && s.main.Show?
    ensures Shape(MenuNext(f, s, reps, fail)) && DisplayOk(f, MenuNext(f, s, reps, fail))
  {
    MenuShape(f, s, reps, fail);
    var Show(i, keys, buf, rs, k) := s.main;
    var ops := ScrollOps(buf, rs, |rs|);
    if k < |ops| {
      OneMoreWrite(s, ops, k);
    } else {
      assert ops[..k] == ops;
      ScrollShows(s.from, buf, rs, |rs|);
    }
  }

  lemma InsertDisplay(f: Font, s: State)
    requires ValidFont(f) && Shape(s) && Control(s) && DisplayOk(f, s) && !InPrep(s.main) && !InMenu(s.main)
    ensures Shape(InsertNext(f, s)) && DisplayOk(f, InsertNext(f, s))
  {
    InsertShape(f, s);
    var ops := BlankOps(f);
    assert MOTOR_PIN !in Display(RECEIVE);
    match s.main
    case FirstBlank(k) =>
      if k < 32 {
        OneMoreWrite(s, ops, k);
      } else {
        assert ops[..k] == ops;
        WriteBlanks(s.from, RECEIVE, Code(f, Glyph.Blank), 8);
      }
    case SecondBlank(k) =>
      if k < 32 {
        OneMoreWrite(s, ops, k);
      } else {
        assert ops[..k] == ops;
        WriteReturns(s.from, RECEIVE, Code(f, Glyph.Blank), 8);
      }
    case MotorOn => assert ops[..0] == [];
    case _ =>
  }

  /** Before the first write the latch is what power-on left, and the first blanking starts from it. */
  predicate PowerOn(start: Word, s: State) {
    && (InPrep(s.main) ==> s.latch == start)
    && (s.main.FirstBlank? ==> s.from == start)
    && (s.main.Aborted? && s.bodies == 0 ==> s.latch == start)
  }

  lemma PowerOnKept(f: Font, start: Word, s: State, a: Action)
    requires ValidFont(f) && Shape(s) && Control(s) && PowerOn(start, s)
    ensures PowerOn(start, Next(f, s, a))
  {
    match a
    case Interrupt(key) =>
    case MainStep(reps, fail) =>
      if InMenu(s.main) {
        MenuPowerOn(f, s, reps, fail);
      } else if InPrep(s.main) {
        PrepPowerOn(s, fail);
      } else {
        InsertPowerOn(f, s);
      }
    case ThreadStep(i, high, scans) =>
      if i < 3 {
        ThreadKeeps(s, i, high, scans);
      }
  }

  lemma MenuPowerOn(f: Font, s: State, reps: seq<nat>, fail: bool)
    requires ValidFont(f) && Shape(s) && Control(s) && InMenu(s.main)
    ensures var t := MenuNext(f, s, reps, fail);
      !InPrep(t.main) && !t.main.FirstBlank? && t.bodies == 1
  {
    MenuFrame(f, s, reps, fail);
  }

  lemma PrepPowerOn(s: State, fail: bool)
    requires Shape(s) && InPrep(s.main)
    ensures var t := PrepNext(s, fail);
      t.latch == s.latch && (t.main.FirstBlank? ==> t.from == s.latch)
  {
  }

  lemma InsertPowerOn(f: Font, s: State)
    requires ValidFont(f) && Shape(s) && !InPrep(s.main) && !InMenu(s.main)
    ensures var t := InsertNext(f, s);
      && !InPrep(t.main)
      && (t.main.FirstBlank? ==> s.main.FirstBlank? && t.from == s.from)
      && (t.main.Aborted? ==> t == s)
  {
    if s.main.FirstBlank? || s.main.SecondBlank? {
      BlankPowerOn(f, s);
    }
  }

  lemma BlankPowerOn(f: Font, s: State)
    requires ValidFont(f) && Shape(s) && (s.main.FirstBlank? || s.main.SecondBlank?)
    ensures var t := InsertNext(f, s);
      t.from == s.from && (t.main.FirstBlank? || t.main == LoopGuard || t.main.SecondBlank? || t.main == Join(0))
  {
  }

  predicate GlyphRow(f: Font, latch: Word)
    requires ValidFont(f)
  {
    OneLineAtMost(latch, RECEIVE) && LitFrom(latch, RECEIVE, Code(f, Glyph.Blank))
  }

  /**
    What can be lit. Before the first write: whatever power-on left. During the first
    blanking: that, changed by the writes made, and from the fourth write on one row of the
    blank glyph at most. While a report is shown: one row of one window of its buffer. While
    the display is blanked again: one row of the blank glyph. Everywhere else: nothing.
   */
  predicate DisplayRight(f: Font, start: Word, t: State)
    requires ValidFont(f) && Shape(t)
  {
    match t.main
    case Show(_, _, buf, _, _) => ShowsOnly(t.latch, buf)
    case SecondBlank(_) => GlyphRow(f, t.latch)
    case FirstBlank(k) => t.latch == ApplyAll(start, BlankOps(f)[..k]) && (k >= 4 ==> GlyphRow(f, t.latch))
    case Aborted => if t.bodies == 0 then t.latch == start else DotMatrix.Blank(t.latch, RECEIVE)
    case _ => if InPrep(t.main) then t.latch == start else DotMatrix.Blank(t.latch, RECEIVE)
  }

  lemma DisplayFollows(f: Font, start: Word, t: State)
    requires ValidFont(f) && Shape(t) && Control(t)
    requires DisplayOk(f, t) && ReportsOk(f, t) && PowerOn(start, t)
    ensures DisplayRight(f, start, t)
  {
    match t.main
    case Show(_, _, buf, reps, k) => ShownWindow(t.from, t.latch, buf, reps, k);
    case SecondBlank(k) => BlankedGlyph(f, t.from, k);
    case FirstBlank(k) =>
      if k >= 4 {
        FirstBlankRows(f, t.from, k);
      }
    case Aborted =>
    case _ =>
  }

  /** From the fourth write of a blanking on, it does not matter what the latch held before. */
  lemma FirstBlankRows(f: Font, from: Word, k: nat)
    requires ValidFont(f) && 4 <= k <= 32
    ensures GlyphRow(f, ApplyAll(from, BlankOps(f)[..k]))
  {
    var ops, dark := BlankOps(f), from - Display(RECEIVE);
    FirstRowBlanks(f, from);
    FirstRowBlanks(f, dark);
    assert dark - Display(RECEIVE) == dark;
    assert ops[..k] == ops[..4] + ops[4..k];
    RunConcat(from, ops[..4], ops[4..k]);
    RunConcat(dark, ops[..4], ops[4..k]);
    BlankedGlyph(f, dark, k);
  }

  lemma FirstRowBlanks(f: Font, from: Word)
    requires ValidFont(f)
    ensures ApplyAll(from, BlankOps(f)[..4]) == from - Display(RECEIVE)
  {
    var code := Code(f, Glyph.Blank);
    WritePrefix(RECEIVE, code, 8, 1, 0);
    WriteBlanks(from, RECEIVE, code, 1);
    assert RowOps(RECEIVE, code[1], 1)[..0] == [];
    assert WriteOps(RECEIVE, code, 1) + [] == WriteOps(RECEIVE, code, 1);
  }

  lemma NothingLit(latch: Word, bytes: seq<bv8>)
    requires DotMatrix.Blank(latch, RECEIVE) && |bytes| == 8
    ensures OneLineAtMost(latch, RECEIVE) && LitFrom(latch, RECEIVE, bytes)
  {
    forall r | 0 <= r < 8
      ensures !Up(latch, RECEIVE, r)
    {
      assert RECEIVE + r in Select(RECEIVE);
    }
  }

  lemma ShownWindow(from: Word, latch: Word, buf: seq<bv8>, reps: seq<nat>, k: nat)
    requires DotMatrix.Blank(from, RECEIVE) && |buf| == |reps| + 7 && |reps| > 0
    requires k <= |ScrollOps(buf, reps, |reps|)| && latch == ApplyAll(from, ScrollOps(buf, reps, |reps|)[..k])
    ensures ShowsOnly(latch, buf)
  {
    var ops := ScrollOps(buf, reps, |reps|);
    if k < |ops| {
      ScrollIsSafe(from, buf, reps, k);
    } else {
      assert ops[..k] == ops;
      ScrollShows(from, buf, reps, |reps|);
      NothingLit(latch, Window(buf, 0));
    }
  }

  lemma BlankedGlyph(f: Font, from: Word, k: nat)
    requires ValidFont(f) && DotMatrix.Blank(from, RECEIVE) && k <= 32
    ensures GlyphRow(f, ApplyAll(from, BlankOps(f)[..k]))
  {
    var code := Code(f, Glyph.Blank);
    if k < 32 {
      AllWritesSnoc([], code);
      assert [] + [code] == [code] && [] + BlankOps(f) == BlankOps(f);
      WriteIsSafe(from, [code], k, 0, k / 4, k % 4);
    } else {
      assert BlankOps(f)[..k] == BlankOps(f);
      WriteReturns(from, RECEIVE, code, 8);
      NothingLit(from, code);
    }
  }

  // ----- Reports -----

  /** What a finished report showed is the picture of the report of the counters. */
  predicate ReportShown(f: Font, r: Report, coins: seq<nat>)
    requires ValidFont(f) && |coins| == 3
  {
    var image := ImageOf(f, r.kind, coins);
    && AllShown(r.reps)
    && |image| == |r.reps| + 7
    && Rows(r.seen, RECEIVE) == ShownRows(image, r.reps, |r.reps|)
  }

  /** The windows of a shown text at multiples of eight are its glyphs, row by row. */
  lemma GlyphsAppear(f: Font, text: seq<Glyph>, reps: seq<nat>, g: nat, row: nat)
    requires ValidFont(f) && ProperText(text) && AllShown(reps) && |Image(f, text)| == |reps| + 7
    requires g < |text| && row < 8
    ensures var rows := ShownRows(Image(f, text), reps, |reps|);
      && 8 * g < |reps| && 8 * Sum(reps, 8 * g) + 8 <= |rows|
      && FirstShowing(rows, reps, 8 * g)[row].data == Shifted(Code(f, text[g])[row], FIRST_DATA)
  {
    ByteOfGlyph(f, text, g, row);
    FirstShowingRow(Image(f, text), reps, 8 * g, row);
  }

  lemma ByteOfGlyph(f: Font, text: seq<Glyph>, g: nat, row: nat)
    requires ValidFont(f) && ProperText(text) && g < |text| && row < 8
    ensures Image(f, text)[8 * g + row] == Code(f, text[g])[row]
  {
    FlattenAt(Codes(f, text), g);
    assert Image(f, text)[8 * g + row] == Image(f, text)[8 * g..8 * g + 8][row];
  }

  predicate ReportsShown(f: Font, reports: seq<Report>, coins: seq<nat>)
    requires ValidFont(f) && |coins| == 3
  {
    forall r | r in reports :: ReportShown(f, r, coins)
  }

  predicate ReportsOk(f: Font, s: State)
    requires ValidFont(f) && Shape(s)
  {
    && (s.reports != [] ==> AllFinished(s))
    && ReportsShown(f, s.reports, s.coins)
    && (s.main.Show? ==>
          && AllShown(s.main.reps)
          && s.main.buf == ImageOf(f, KindOf(s.main.i), s.coins))
  }

  lemma ReportsKept(f: Font, s: State, a: Action)
    requires ValidFont(f) && Shape(s) && Control(s) && DisplayOk(f, s) && ReportsOk(f, s)
    ensures Shape(Next(f, s, a)) && ReportsOk(f, Next(f, s, a))
  {
    ShapeKept(f, s, a);
    match a
    case Interrupt(key) =>
    case MainStep(reps, fail) =>
      if InMenu(s.main) {
        MenuReports(f, s, reps, fail);
      } else if !InPrep(s.main) {
        InsertReports(f, s);
      }
    case ThreadStep(i, high, scans) =>
      if i < 3 {
        ThreadReports(f, s, i, high, scans);
      }
  }

  lemma ThreadReports(f: Font, s: State, i: nat, high: bool, scans: nat)
    requires ValidFont(f) && Shape(s) && Control(s) && ReportsOk(f, s) && i < 3
    requires Shape(ThreadNext(s, i, high, scans))
    ensures ReportsOk(f, ThreadNext(s, i, high, scans))
  {
    ThreadFrame(s, i, high, scans);
    assert i == 0 || i == 1 || i == 2;
    assert !AllFinished(s) ==> s.reports == [] && !s.main.Show?;
  }

  lemma InsertReports(f: Font, s: State)
    requires ValidFont(f) && Shape(s) && Control(s) && !InPrep(s.main) && !InMenu(s.main)
    ensures Shape(InsertNext(f, s))
    ensures var t := InsertNext(f, s);
      && t.reports == s.reports && t.coins == s.coins && !t.main.Show?
      && (AllFinished(s) ==> AllFinished(t))
  {
    InsertShape(f, s);
    if s.main.Create? {
      assert s.threads[2] == NotCreated;
    } else {
      InsertLeavesThreads(f, s);
    }
  }

  lemma InsertLeavesThreads(f: Font, s: State)
    requires ValidFont(f) && Shape(s) && !InPrep(s.main) && !InMenu(s.main) && !s.main.Create?
    ensures var t := InsertNext(f, s);
      t.reports == s.reports && t.coins == s.coins && t.threads == s.threads && !t.main.Show?
  {
  }

  lemma MenuReports(f: Font, s: State, reps: seq<nat>, fail: bool)
    requires ValidFont(f) && Shape(s) && Control(s) && DisplayOk(f, s) && ReportsOk(f, s) && InMenu(s.main)
    ensures Shape(MenuNext(f, s, reps, fail)) && ReportsOk(f, MenuNext(f, s, reps, fail))
  {
    MenuShape(f, s, reps, fail);
    MenuFrame(f, s, reps, fail);
    match s.main
    case Show(i, keys, buf, rs, k) => ReportGrows(f, s, reps, fail);
    case Dispatch(i, keys) => ReportBegins(f, s, reps, fail);
    case _ =>
  }

  /** A report that begins shows the image of the counters as they are. */
  lemma ReportBegins(f: Font, s: State, reps: seq<nat>, fail: bool)
    requires ValidFont(f) && Shape(s) && s.main.Dispatch?
    ensures var t := MenuNext(f, s, reps, fail);
      && t.reports == s.reports
      && (t.main.Show? ==>
            && 1 <= t.main.i < 4 && AllShown(t.main.reps)
            && t.main.buf == ImageOf(f, KindOf(t.main.i), s.coins))
  {
  }

  lemma ReportGrows(f: Font, s: State, reps: seq<nat>, fail: bool)
    requires ValidFont(f) && Shape(s) && DisplayOk(f, s) && ReportsOk(f, s) && s.main.Show?
    ensures var t := MenuNext(f, s, reps, fail);
      && ReportsShown(f, t.reports, s.coins)
      && (t.main.Show? ==>
            && t.reports == s.reports && t.main.reps == s.main.reps
            && t.main.buf == s.main.buf && t.main.i == s.main.i)
  {
    ReportStep(f, s, reps, fail);
    var ops := ScrollOps(s.main.buf, s.main.reps, |s.main.reps|);
    if s.main.k == |ops| {
      assert ops[..s.main.k] == ops;
      var r := Report(KindOf(s.main.i), s.main.reps, s.seen);
      PictureShown(f, r, s.main.buf, s.from, s.coins);
      OneMoreReport(f, s.reports, r, s.coins);
    }
  }

  lemma OneMoreReport(f: Font, reports: seq<Report>, r: Report, coins: seq<nat>)
    requires ValidFont(f) && |coins| == 3 && ReportsShown(f, reports, coins) && ReportShown(f, r, coins)
    ensures ReportsShown(f, reports + [r], coins)
  {
  }

  /** A report in progress goes on, or is finished and kept. */
  lemma ReportStep(f: Font, s: State, reps: seq<nat>, fail: bool)
    requires ValidFont(f) && Shape(s) && s.main.Show?
    ensures var t := MenuNext(f, s, reps, fail);
      && (t.main.Show? ==>
            && t.reports == s.reports && t.main.reps == s.main.reps
            && t.main.buf == s.main.buf && t.main.i == s.main.i)
      && (s.main.k < |ScrollOps(s.main.buf, s.main.reps, |s.main.reps|)| ==> t.reports == s.reports)
      && (s.main.k == |ScrollOps(s.main.buf, s.main.reps, |s.main.reps|)| ==>
            t.reports == s.reports + [Report(KindOf(s.main.i), s.main.reps, s.seen)])
  {
  }

  lemma PictureShown(f: Font, r: Report, buf: seq<bv8>, from: Word, coins: seq<nat>)
    requires ValidFont(f) && |coins| == 3 && buf == ImageOf(f, r.kind, coins)
    requires AllShown(r.reps) && |buf| == |r.reps| + 7 && DotMatrix.Blank(from, RECEIVE)
    requires r.seen == States(from, ScrollOps(buf, r.reps, |r.reps|))
    ensures ReportShown(f, r, coins)
  {
    ScrollShows(from, buf, r.reps, |r.reps|);
  }
}
