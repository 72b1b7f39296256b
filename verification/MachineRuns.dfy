/**
  Whole runs of the coin machine: the theorems about every interleaving, from the
  samples of the sensors to the rows on the display.
 */
module MachineRuns {
  import opened Cells
  import opened DotMatrix
  import opened Devices
  import opened KeyEvents
  import opened Debounce
  import opened CoinGaps
  import opened Digits
  import opened Glyphs
  import opened Reports
  import opened Scroll
  import opened Machine
  import opened MachineSafety
  import opened MachineCounting
  import opened MachineDisplay
  import opened MachineInputs
  import opened MachineKeys

  /** Before any thread exists nobody has polled key 2; a report is refused only when its number overflows. */
  predicate Edges(s: State)
    requires Shape(s)
  {
    && (s.bodies == 0 ==> s.flags[1] == Irqs(s.logs[1]))
    && (s.main.Undefined? ==> Total(s.coins[0], s.coins[1], s.coins[2]) > INT_MAX)
  }

  predicate Invariant(f: Font, s: State)
    requires ValidFont(f)
  {
    && Shape(s) && Control(s)
    && FlagsTrue(s) && EndedBySince(s, 0) && StartedByKey1(s)
    && Sampling(s)
    && MotorSafe(s) && DisplayOk(f, s) && ReportsOk(f, s)
    && Edges(s) && PollsOk(s) && AllCovered(s)
  }

  lemma InvariantStarts(f: Font, s: State)
    requires ValidFont(f) && Init(s)
    ensures Invariant(f, s)
  {
    NobodyPolls(s);
    assert AllCovered(s);
  }

  lemma NobodyPolls(s: State)
    requires Init(s)
    ensures Shape(s) && PollsOk(s)
  {
    assert ThreadsPolling(s) == {};
  }

  lemma EdgesKept(f: Font, s: State, a: Action)
    requires ValidFont(f) && Shape(s) && Control(s) && Edges(s)
    ensures Shape(Next(f, s, a)) && Edges(Next(f, s, a))
  {
    ShapeKept(f, s, a);
    match a
    case Interrupt(key) =>
      if key < 4 {
        RaiseEdges(s, key);
      }
    case MainStep(reps, fail) => MainEdges(f, s, reps, fail);
    case ThreadStep(i, high, scans) =>
      if i < 3 {
        ThreadEdges(s, i, high, scans);
      }
  }

  lemma RaiseEdges(s: State, key: nat)
    requires Shape(s) && Edges(s) && key < 4
    ensures Shape(Raise(s, key)) && Edges(Raise(s, key))
  {
    FlagSnoc(s.logs[key], Irq);
  }

  lemma MainEdges(f: Font, s: State, reps: seq<nat>, fail: bool)
    requires ValidFont(f) && Shape(s) && Control(s) && Edges(s) && Shape(MainNext(f, s, reps, fail))
    ensures Edges(MainNext(f, s, reps, fail))
  {
    if InMenu(s.main) {
      MenuFrame(f, s, reps, fail);
      MenuEdges(f, s, reps, fail);
    } else if InPrep(s.main) {
      PrepEdges(s, fail);
    } else {
      InsertEdges(f, s);
    }
  }

  lemma ThreadEdges(s: State, i: nat, high: bool, scans: nat)
    requires Shape(s) && Control(s) && Edges(s) && i < 3 && Shape(ThreadNext(s, i, high, scans))
    ensures Edges(ThreadNext(s, i, high, scans))
  {
    ThreadFrame(s, i, high, scans);
    assert i == 0 || i == 1 || i == 2;
    assert s.bodies == 0 ==> s.threads[i] == NotCreated;
    assert s.main.Undefined? ==> s.threads[i] == Finished;
  }

  lemma PrepEdges(s: State, fail: bool)
    requires Shape(s) && InPrep(s.main) && Shape(PrepNext(s, fail))
    ensures var t := PrepNext(s, fail);
      && t.flags[1] == s.flags[1] && t.logs[1] == s.logs[1] && t.bodies == s.bodies && t.coins == s.coins
      && !t.main.Undefined?
  {
  }

  lemma MenuEdges(f: Font, s: State, reps: seq<nat>, fail: bool)
    requires ValidFont(f) && Shape(s) && InMenu(s.main)
    ensures MenuNext(f, s, reps, fail).main.Undefined? ==> Total(s.coins[0], s.coins[1], s.coins[2]) > INT_MAX
  {
  }

  lemma InsertEdges(f: Font, s: State)
    requires ValidFont(f) && Shape(s) && !InPrep(s.main) && !InMenu(s.main)
    ensures var t := InsertNext(f, s);
      && t.coins == s.coins && s.bodies <= t.bodies && (t.main.Undefined? ==> s.main.Undefined?)
      && t.flags == s.flags && t.logs == s.logs
  {
  }

  lemma InvariantKept(f: Font, s: State, a: Action)
    requires ValidFont(f) && Invariant(f, s)
    ensures Invariant(f, Next(f, s, a))
  {
    ControlKept(f, s, a);
    FlagsKept(f, s, a);
    EndedBySinceKept(f, s, a, 0);
    StartedByKey1Kept(f, s, a);
    SamplingKept(f, s, a);
    MotorSafeKept(f, s, a);
    DisplayKept(f, s, a);
    ReportsKept(f, s, a);
    EdgesKept(f, s, a);
    PollsKept(f, s, a);
    AllCoveredKept(f, s, a);
  }

  lemma AllCoveredKept(f: Font, s: State, a: Action)
    requires ValidFont(f) && Shape(s) && Control(s) && FlagsTrue(s) && AllCovered(s)
    ensures Shape(Next(f, s, a)) && AllCovered(Next(f, s, a))
  {
    CoveredKept(f, s, a, 1);
    CoveredKept(f, s, a, 2);
    CoveredKept(f, s, a, 3);
  }

  /** The invariant holds in every reachable state. */
  lemma {:induction false} Always(f: Font, s: State, run: seq<Action>)
    requires ValidFont(f) && Shape(s) && Invariant(f, s)
    ensures Invariant(f, Run(f, s, run))
  {
    if run != [] {
      Always(f, s, run[..|run| - 1]);
      InvariantKept(f, Run(f, s, run[..|run| - 1]), run[|run| - 1]);
    }
  }

  lemma {:induction false} RunOn(f: Font, s: State, run: seq<Action>, more: seq<Action>)
    requires ValidFont(f) && Shape(s)
    ensures Run(f, s, run + more) == Run(f, Run(f, s, run), more)
    decreases |more|
  {
    if more == [] {
      assert run + more == run;
    } else {
      RunOn(f, s, run, more[..|more| - 1]);
      assert (run + more)[..|run + more| - 1] == run + more[..|more| - 1];
    }
  }

  // ----- From the sensors to the display -----

  /** What a reader of the display makes of a finished report. */
  ghost function Read(r: Report): seq<bv8>
    requires |r.reps| > 0
  {
    Recover(Rows(r.seen, RECEIVE), r.reps)
  }

  /**
    In every run, every finished report shows what the debounce rule counts in the levels
    that the three sensors delivered: the total money, the three counts, or the number of coins.
   */
  lemma DisplayShowsCoins(f: Font, s: State, run: seq<Action>, r: Report)
    requires ValidFont(f) && Init(s) && Shape(s) && r in Run(f, s, run).reports
    ensures |r.reps| > 0
    ensures var a, b, c := Coins(Heard(f, s, run, 0)), Coins(Heard(f, s, run, 1)), Coins(Heard(f, s, run, 2));
      Tells(f, r.kind, Read(r), a, b, c)
  {
    ReachableReport(f, s, run, r);
    ReportReads(f, r, Run(f, s, run).coins);
  }

  lemma ReachableReport(f: Font, s: State, run: seq<Action>, r: Report)
    requires ValidFont(f) && Init(s) && Shape(s) && r in Run(f, s, run).reports
    ensures ReportShown(f, r, Run(f, s, run).coins)
    ensures Run(f, s, run).coins
         == [Coins(Heard(f, s, run, 0)), Coins(Heard(f, s, run, 1)), Coins(Heard(f, s, run, 2))]
  {
    ReachableReports(f, s, run);
    CountersAre(Run(f, s, run));
    SamplesAreHeard(f, s, run, 0);
    SamplesAreHeard(f, s, run, 1);
    SamplesAreHeard(f, s, run, 2);
  }

  lemma ReachableReports(f: Font, s: State, run: seq<Action>)
    requires ValidFont(f) && Init(s) && Shape(s)
    ensures var t := Run(f, s, run);
      && ReportsShown(f, t.reports, t.coins)
      && (t.reports != [] ==> AllFinished(t))
      && Sampling(t)
  {
    InvariantStarts(f, s);
    Always(f, s, run);
  }

  lemma CountersAre(t: State)
    requires Shape(t) && Sampling(t) && AllFinished(t)
    ensures t.coins == [Coins(t.samples[0]), Coins(t.samples[1]), Coins(t.samples[2])]
  {
    FinishedCounts(t, 0);
    FinishedCounts(t, 1);
    FinishedCounts(t, 2);
  }

  /** What the reader gets back is the image of the report's text. */
  lemma ReportRecovered(f: Font, r: Report, coins: seq<nat>)
    requires ValidFont(f) && |coins| == 3 && ReportShown(f, r, coins)
    ensures |r.reps| > 0 && Read(r) == ImageOf(f, r.kind, coins)
  {
    RecoverBuffer(ImageOf(f, r.kind, coins), r.reps);
  }

  lemma ReportReads(f: Font, r: Report, coins: seq<nat>)
    requires ValidFont(f) && |coins| == 3 && ReportShown(f, r, coins)
    ensures |r.reps| > 0
    ensures Tells(f, r.kind, Read(r), coins[0], coins[1], coins[2])
  {
    ReportRecovered(f, r, coins);
    ImageTells(f, r.kind, coins[0], coins[1], coins[2]);
  }

  /**
    If what each sensor delivered is pulses of one to seven samples, one pulse a coin and
    far enough apart, then the money report is the face value of the coins.
   */
  lemma DisplayShowsFaceValue(f: Font, s: State, run: seq<Action>, r: Report, a: nat, b: nat, c: nat)
    requires ValidFont(f) && Init(s) && Shape(s) && r in Run(f, s, run).reports && r.kind == Money
    requires FromCoins(Heard(f, s, run, 0), a)
    requires FromCoins(Heard(f, s, run, 1), b)
    requires FromCoins(Heard(f, s, run, 2), c)
    ensures |r.reps| > 0 && ShownMoney(f, Read(r)) == Some(500 * a + 100 * b + 50 * c)
  {
    DisplayShowsCoins(f, s, run, r);
    CoinsOf(Heard(f, s, run, 0), a);
    CoinsOf(Heard(f, s, run, 1), b);
    CoinsOf(Heard(f, s, run, 2), c);
    MoneyTold(f, Read(r), a, b, c, 500 * a + 100 * b + 50 * c);
  }

  /** Counts that are at most what was due make the same report only if they are all that was due. */
  lemma SameTold(f: Font, kind: Kind, bytes: seq<bv8>, a: nat, b: nat, c: nat, a': nat, b': nat, c': nat)
    requires ValidFont(f) && Tells(f, kind, bytes, a, b, c) && a <= a' && b <= b' && c <= c'
    ensures Tells(f, kind, bytes, a', b', c') <==> a == a' && b == b' && c == c'
  {
  }

  /**
    Whatever the sensors delivered, a report of any kind shows what was due, ceil(length / 7)
    for every run of high samples, if and only if the runs of each sensor were far enough apart.
   */
  lemma ReportExact(f: Font, s: State, run: seq<Action>, r: Report, p: seq<Pulse>, q: seq<Pulse>, u: seq<Pulse>)
    requires ValidFont(f) && Init(s) && Shape(s) && r in Run(f, s, run).reports
    requires Delivered(Heard(f, s, run, 0), p)
    requires Delivered(Heard(f, s, run, 1), q)
    requires Delivered(Heard(f, s, run, 2), u)
    ensures |r.reps| > 0
    ensures Tells(f, r.kind, Read(r), Expected(p), Expected(q), Expected(u)) <==> Apart(p) && Apart(q) && Apart(u)
  {
    DisplayShowsCoins(f, s, run, r);
    DeliveredCounts(Heard(f, s, run, 0), p);
    DeliveredCounts(Heard(f, s, run, 1), q);
    DeliveredCounts(Heard(f, s, run, 2), u);
    var a, b, c := Coins(Heard(f, s, run, 0)), Coins(Heard(f, s, run, 1)), Coins(Heard(f, s, run, 2));
    SameTold(f, r.kind, Read(r), a, b, c, Expected(p), Expected(q), Expected(u));
  }

  lemma {:induction false} PowerOnAlways(f: Font, s: State, run: seq<Action>)
    requires ValidFont(f) && Init(s) && Shape(s)
    ensures PowerOn(s.latch, Run(f, s, run))
  {
    if run != [] {
      PowerOnAlways(f, s, run[..|run| - 1]);
      InvariantStarts(f, s);
      Always(f, s, run[..|run| - 1]);
      PowerOnKept(f, s.latch, Run(f, s, run[..|run| - 1]), run[|run| - 1]);
    }
  }

  /** After every step of every run the display shows no more than it should. */
  lemma DisplayIsSafe(f: Font, s: State, run: seq<Action>)
    requires ValidFont(f) && Init(s) && Shape(s)
    ensures DisplayRight(f, s.latch, Run(f, s, run))
  {
    InvariantStarts(f, s);
    Always(f, s, run);
    PowerOnAlways(f, s, run);
    DisplayFollows(f, s.latch, Run(f, s, run));
  }

  // ----- The counters rest after the joins -----

  lemma {:induction false} NothingCountedAfterJoins(f: Font, s: State, more: seq<Action>)
    requires ValidFont(f) && Shape(s) && Invariant(f, s) && AllFinished(s)
    ensures var t := Run(f, s, more);
      t.coins == s.coins && t.samples == s.samples && AllFinished(t)
  {
    if more != [] {
      NothingCountedAfterJoins(f, s, more[..|more| - 1]);
      Always(f, s, more[..|more| - 1]);
      FinishedStays(f, Run(f, s, more[..|more| - 1]), more[|more| - 1]);
    }
  }

  /** Main has joined all three threads, or has stopped after that. */
  predicate PastJoins(t: State) {
    || InMenu(t.main) || t.main.MotorOff? || t.main.Off? || t.main.Undefined?
    || (t.main.LoopGuard? && t.bodies == 1) || (t.main.Aborted? && t.bodies == 1)
  }

  lemma JoinsAreOver(t: State)
    requires Shape(t) && Control(t) && PastJoins(t)
    ensures AllFinished(t)
  {
  }

  /** Once main is past the joins, no number of further steps changes a counter or reads a sample. */
  lemma MenuCountersRest(f: Font, s: State, run: seq<Action>, more: seq<Action>)
    requires ValidFont(f) && Init(s) && Shape(s)
    requires PastJoins(Run(f, s, run))
    ensures Run(f, s, run + more).coins == Run(f, s, run).coins
    ensures Run(f, s, run + more).samples == Run(f, s, run).samples
  {
    InvariantStarts(f, s);
    Always(f, s, run);
    JoinsAreOver(Run(f, s, run));
    RunOn(f, s, run, more);
    NothingCountedAfterJoins(f, Run(f, s, run), more);
  }

  // ----- Phases -----

  lemma {:induction false} StateNeverDecreases(f: Font, s: State, more: seq<Action>)
    requires ValidFont(f) && Shape(s) && Invariant(f, s)
    ensures s.mac <= Run(f, s, more).mac <= 2
  {
    Always(f, s, more);
    if more != [] {
      StateNeverDecreases(f, s, more[..|more| - 1]);
      Always(f, s, more[..|more| - 1]);
      ControlKept(f, Run(f, s, more[..|more| - 1]), more[|more| - 1]);
    }
  }

  /**
    The thread-creating loop body has run at most once, and exactly once past it; the menu
    is left only through key 1; starting needs an interrupt of key 1, ending insertion one
    of key 2, and switching off one of key 1 after the poll that started the machine.
   */
  predicate PhasesCaused(t: State)
    requires Shape(t)
  {
    && t.bodies <= 1
    && (PastJoins(t) ==> t.bodies == 1 && t.mac == 2)
    && (t.mac >= 1 ==> 0 < t.startIrqs <= Irqs(t.logs[0]))
    && (t.mac == 2 ==> Irqs(t.logs[1]) > 0)
    && (t.main.Off? ==> t.main.byKey && Irqs(t.logs[0]) > t.startIrqs)
  }

  /**
    Every reachable state is caused by the keys that its phase needs, and what it remembers
    of entries and interrupts is what the run had of them.
   */
  lemma PhasesAreCaused(f: Font, s: State, run: seq<Action>)
    requires ValidFont(f) && Init(s) && Shape(s)
    ensures PhasesCaused(Run(f, s, run))
    ensures Entries(f, s, run) == Run(f, s, run).bodies
    ensures Interrupts(run, 0) == Irqs(Run(f, s, run).logs[0])
    ensures Interrupts(run, 1) == Irqs(Run(f, s, run).logs[1])
  {
    ReachablePhases(f, s, run);
    PhasesFollow(Run(f, s, run));
    BodiesAreEntries(f, s, run);
    IrqsAreInterrupts(f, s, run, 0);
    IrqsAreInterrupts(f, s, run, 1);
  }

  lemma {:induction false} BodiesAreEntries(f: Font, s: State, run: seq<Action>)
    requires ValidFont(f) && Init(s) && Shape(s)
    ensures Run(f, s, run).bodies == Entries(f, s, run)
  {
    if run != [] {
      BodiesAreEntries(f, s, run[..|run| - 1]);
      StepEnters(f, Run(f, s, run[..|run| - 1]), run[|run| - 1]);
    }
  }

  lemma PhasesFollow(t: State)
    requires Shape(t) && Control(t) && StartedByKey1(t) && EndedBySince(t, 0)
    ensures PhasesCaused(t)
  {
  }

  lemma ReachablePhases(f: Font, s: State, run: seq<Action>)
    requires ValidFont(f) && Init(s) && Shape(s)
    ensures var t := Run(f, s, run);
      Control(t) && StartedByKey1(t) && EndedBySince(t, 0)
  {
    InvariantStarts(f, s);
    Always(f, s, run);
  }

  // ----- Switching off takes a press after the start -----

  /** The poll that starts the machine has not yet been cleared. */
  predicate BeforeStart(t: State) {
    t.mac == 0 && !t.main.PrepBranch?
  }

  /** With `base` interrupts of key 1 set aside: the poll that started the machine came after them. */
  predicate StartsAfter(t: State, base: nat)
    requires Shape(t)
  {
    Irqs(t.logs[0]) >= base && (BeforeStart(t) || t.startIrqs >= base)
  }

  lemma PrepStartsAfter(s: State, fail: bool, base: nat)
    requires Shape(s) && Control(s) && InPrep(s.main) && StartsAfter(s, base)
    ensures var t := PrepNext(s, fail);
      BeforeStart(t) || t.startIrqs >= base
  {
  }

  lemma InsertStartsAfter(f: Font, s: State)
    requires ValidFont(f) && Shape(s) && Control(s) && !InPrep(s.main) && !InMenu(s.main)
    ensures var t := InsertNext(f, s);
      t.startIrqs == s.startIrqs && (BeforeStart(s) ==> BeforeStart(t))
  {
  }

  lemma MainStartsAfter(f: Font, s: State, reps: seq<nat>, fail: bool, base: nat)
    requires ValidFont(f) && Shape(s) && Control(s) && StartsAfter(s, base)
    ensures var t := MainNext(f, s, reps, fail);
      BeforeStart(t) || t.startIrqs >= base
  {
    if InPrep(s.main) {
      PrepStartsAfter(s, fail, base);
    } else if InMenu(s.main) {
      MenuFrame(f, s, reps, fail);
    } else {
      InsertStartsAfter(f, s);
    }
  }

  lemma StartsAfterKept(f: Font, s: State, a: Action, base: nat)
    requires ValidFont(f) && Shape(s) && Control(s) && StartsAfter(s, base)
    ensures Shape(Next(f, s, a)) && StartsAfter(Next(f, s, a), base)
  {
    StepInterrupts(f, s, a, 0);
    match a
    case Interrupt(key) =>
    case MainStep(reps, fail) => MainStartsAfter(f, s, reps, fail, base);
    case ThreadStep(i, high, scans) =>
      if i < 3 {
        ThreadStartsAfter(s, i, high, scans);
      }
  }

  lemma ThreadStartsAfter(s: State, i: nat, high: bool, scans: nat)
    requires Shape(s) && Control(s) && i < 3
    ensures var t := ThreadNext(s, i, high, scans);
      t.startIrqs == s.startIrqs && (BeforeStart(s) ==> BeforeStart(t))
  {
    ThreadFrame(s, i, high, scans);
    assert i == 0 || i == 1 || i == 2;
  }

  lemma {:induction false} StartsAfterAlways(f: Font, s: State, more: seq<Action>, base: nat)
    requires ValidFont(f) && Shape(s) && Invariant(f, s) && StartsAfter(s, base)
    ensures StartsAfter(Run(f, s, more), base)
  {
    if more != [] {
      StartsAfterAlways(f, s, more[..|more| - 1], base);
      Always(f, s, more[..|more| - 1]);
      StartsAfterKept(f, Run(f, s, more[..|more| - 1]), more[|more| - 1], base);
    }
  }

  /** However a run goes on from before the start, it switches the machine off only if key 1 interrupts again. */
  lemma OffNeedsLaterPress(f: Font, s: State, run: seq<Action>, more: seq<Action>)
    requires ValidFont(f) && Init(s) && Shape(s)
    requires BeforeStart(Run(f, s, run)) && Run(f, s, run + more).main.Off?
    ensures Interrupts(run + more, 0) > Interrupts(run, 0)
  {
    IrqsAreInterrupts(f, s, run, 0);
    PhasesAreCaused(f, s, run + more);
    InvariantStarts(f, s);
    Always(f, s, run);
    StartsAfterAlways(f, Run(f, s, run), more, Interrupts(run, 0));
    RunOn(f, s, run, more);
    ReachablePhases(f, s, run + more);
  }

  // ----- The motor -----

  /** The motor runs exactly while main is between raising and lowering it; then all threads exist. */
  predicate MotorRight(t: State)
    requires Shape(t)
  {
    && (MOTOR_PIN in t.latch <==> MotorRuns(t.main, t.bodies))
    && (MOTOR_PIN in t.latch ==> t.mac >= 1 && Created(t, 3))
    && t.raises <= 1 && (MOTOR_PIN in t.latch || PastJoins(t) ==> t.raises == 1)
  }

  /** In every reachable state, and in every run its pin has gone high as often as main raised it: once at most. */
  lemma MotorIsSafe(f: Font, s: State, run: seq<Action>)
    requires ValidFont(f) && Init(s) && Shape(s)
    ensures MotorRight(Run(f, s, run))
    ensures Rises(f, s, run) == Run(f, s, run).raises
  {
    InvariantStarts(f, s);
    Always(f, s, run);
    MotorFollows(Run(f, s, run));
    RaisesAreRises(f, s, run);
  }

  lemma {:induction false} RaisesAreRises(f: Font, s: State, run: seq<Action>)
    requires ValidFont(f) && Init(s) && Shape(s)
    ensures Run(f, s, run).raises == Rises(f, s, run)
  {
    if run != [] {
      RaisesAreRises(f, s, run[..|run| - 1]);
      ReachableMotor(f, s, run[..|run| - 1]);
      ReachableMotor(f, s, run);
      StepMotorMoves(f, Run(f, s, run[..|run| - 1]), run[|run| - 1]);
    }
  }

  lemma ReachableMotor(f: Font, s: State, run: seq<Action>)
    requires ValidFont(f) && Init(s) && Shape(s)
    ensures Control(Run(f, s, run)) && MotorSafe(Run(f, s, run))
  {
    InvariantStarts(f, s);
    Always(f, s, run);
  }

  lemma MotorFollows(t: State)
    requires Shape(t) && Control(t) && MotorSafe(t)
    ensures MotorRight(t)
  {
  }

  /** A report is refused only for an overflow, so never while each counter is at most 3303820. */
  lemma NoOverflowBelowBound(f: Font, s: State, run: seq<Action>)
    requires ValidFont(f) && Init(s) && Shape(s)
    requires forall i | 0 <= i < 3 :: Run(f, s, run).coins[i] <= 3303820
    ensures !Run(f, s, run).main.Undefined?
  {
    InvariantStarts(f, s);
    Always(f, s, run);
  }

  // ----- A poll error -----

  lemma {:induction false} AbortedStays(f: Font, s: State, more: seq<Action>)
    requires ValidFont(f) && Shape(s) && s.main == Aborted
    ensures Run(f, s, more).main == Aborted && Run(f, s, more).latch == s.latch
  {
    if more != [] {
      AbortedStays(f, s, more[..|more| - 1]);
      var t, a := Run(f, s, more[..|more| - 1]), more[|more| - 1];
      if a.ThreadStep? && a.i < 3 {
        ThreadFrame(t, a.i, a.high, a.scans);
      }
    }
  }

  /** A failing poll of main stops it for good: whatever follows, main does nothing and the output lines stay. */
  lemma FailStops(f: Font, s: State, reps: seq<nat>, more: seq<Action>)
    requires ValidFont(f) && Shape(s) && (s.main.PrepTest? || s.main.MenuTest?)
    ensures var t := Run(f, s, [MainStep(reps, true)] + more);
      t.main == Aborted && t.latch == s.latch
  {
    OneStep(f, s, MainStep(reps, true));
    RunOn(f, s, [MainStep(reps, true)], more);
    AbortedStays(f, Run(f, s, [MainStep(reps, true)]), more);
  }

  // ----- What becomes of key interrupts -----

  lemma ReachablePolls(f: Font, s: State, run: seq<Action>, key: nat)
    requires ValidFont(f) && Init(s) && Shape(s) && key < 4
    ensures Alternating(Run(f, s, run).logs[key], Pollers(key))
  {
    InvariantStarts(f, s);
    Always(f, s, run);
    assert KeyPolls(Run(f, s, run), key);
  }

  /** In every run, an interrupt of key 2 makes at most three polls report it, one of another key at most one. */
  lemma KeyReportsBounded(f: Font, s: State, run: seq<Action>, key: nat)
    requires ValidFont(f) && Init(s) && Shape(s) && key < 4
    ensures ReadyTests(Run(f, s, run).logs[key]) <= Pollers(key) * Irqs(Run(f, s, run).logs[key])
  {
    ReachablePolls(f, s, run, key);
    ReportsBounded(Run(f, s, run).logs[key], Pollers(key));
  }

  /**
    In every run, a cleared interrupt goes unreported exactly if it fell inside a poll that
    had read zero and nobody tested before the clear.
   */
  lemma KeyInterruptLost(f: Font, s: State, run: seq<Action>, key: nat, i: nat, c: nat)
    requires ValidFont(f) && Init(s) && Shape(s) && key < 4 && Wipes(Run(f, s, run).logs[key], i, c)
    ensures !Reported(Run(f, s, run).logs[key], i) <==> LostInside(Run(f, s, run).logs[key], i, c)
  {
    ReachablePolls(f, s, run, key);
    LostInsidePoll(Run(f, s, run).logs[key], Pollers(key), i, c);
  }

  /**
    Every finished report took an interrupt of its own key: the money report of key 2, the
    counts of key 3, their sum of key 4.
   */
  lemma ReportsTakePresses(f: Font, s: State, run: seq<Action>)
    requires ValidFont(f) && Init(s) && Shape(s)
    ensures var t := Run(f, s, run);
      && ReportsOfKind(t.reports, Money) <= Interrupts(run, 1)
      && ReportsOfKind(t.reports, Each) <= Interrupts(run, 2)
      && ReportsOfKind(t.reports, Count) <= Interrupts(run, 3)
  {
    ReachableCovered(f, s, run);
    IrqsAreInterrupts(f, s, run, 1);
    IrqsAreInterrupts(f, s, run, 2);
    IrqsAreInterrupts(f, s, run, 3);
  }

  lemma ReachableCovered(f: Font, s: State, run: seq<Action>)
    requires ValidFont(f) && Init(s) && Shape(s)
    ensures AllCovered(Run(f, s, run))
  {
    InvariantStarts(f, s);
    Always(f, s, run);
  }

  // ----- Key 2 before the start -----

  lemma {:induction false} EndedBySinceAlways(f: Font, s: State, more: seq<Action>, base: nat)
    requires ValidFont(f) && Shape(s) && Invariant(f, s) && EndedBySince(s, base)
    ensures EndedBySince(Run(f, s, more), base)
  {
    if more != [] {
      EndedBySinceAlways(f, s, more[..|more| - 1], base);
      Always(f, s, more[..|more| - 1]);
      EndedBySinceKept(f, Run(f, s, more[..|more| - 1]), more[|more| - 1], base);
    }
  }

  /** Main is about to create the threads for the first time. */
  predicate AboutToStart(s: State) {
    s.main == LoopGuard && s.bodies == 0
  }

  /** Insertion ends, in this continuation, without a further interrupt of key 2. */
  predicate EndsByItself(f: Font, s: State, more: seq<Action>)
    requires ValidFont(f) && Shape(s)
  {
    Run(f, s, more).mac == 2 && Irqs(Run(f, s, more).logs[1]) == Irqs(s.logs[1])
  }

  // Main passes the loop guard and creates the first thread, which runs on its own through one iteration.
  const GO := MainStep([], false)
  const IDLE := ThreadStep(0, false, 0)
  const HALF: seq<Action> := [IDLE] + [IDLE] + [IDLE]
  const EARLY_END: seq<Action> := [GO] + [GO] + HALF + HALF

  lemma OneStep(f: Font, s: State, a: Action)
    requires ValidFont(f) && Shape(s)
    ensures Run(f, s, [a]) == Next(f, s, a)
  {
    assert [a][..0] == [];
  }

  lemma ThreeRuns(f: Font, s: State, run: seq<Action>)
    requires ValidFont(f) && Shape(s)
    ensures Run(f, s, run + run + run) == Run(f, Run(f, Run(f, s, run), run), run)
  {
    RunOn(f, s, run + run, run);
    RunOn(f, s, run, run);
  }

  lemma ThreadAlone(f: Font, s: State)
    requires ValidFont(f) && Shape(s)
    ensures Run(f, s, [IDLE]) == ThreadNext(s, 0, false, 0)
  {
    OneStep(f, s, IDLE);
  }

  /** The thread's own steps change neither main, nor the counters, nor the reports, nor other keys and threads. */
  predicate OwnSteps(s: State, t: State)
    requires Shape(s) && Shape(t)
  {
    && t.main == s.main && t.coins == s.coins && t.reports == s.reports
    && t.flags[0] == s.flags[0] && t.flags[2] == s.flags[2] && t.flags[3] == s.flags[3]
    && t.threads[1] == s.threads[1] && t.threads[2] == s.threads[2]
    && Irqs(t.logs[1]) == Irqs(s.logs[1])
  }

  /** The first thread takes a step without reading a high sample. */
  lemma SampleStep(f: Font, s: State)
    requires ValidFont(f) && Shape(s) && (s.threads[0] == Guard || s.threads[0] == Sample)
    ensures var t := Run(f, s, [IDLE]);
      && t.flags == s.flags && t.mac == s.mac && OwnSteps(s, t)
      && t.threads[0] == if s.threads[0] == Sample then PollTest(false, 0) else if s.mac == 1 then Sample else Finished
  {
    ThreadAlone(f, s);
  }

  lemma TestStep(f: Font, s: State)
    requires ValidFont(f) && Shape(s) && s.threads[0] == PollTest(false, 0)
    ensures var t := Run(f, s, [IDLE]);
      && t.flags == s.flags && t.mac == s.mac && OwnSteps(s, t)
      && t.threads[0] == PollClear(false, 0, s.flags[1] > 0)
  {
    ThreadAlone(f, s);
    FlagSnoc(s.logs[1], Test(0));
  }

  lemma ClearStep(f: Font, s: State)
    requires ValidFont(f) && Shape(s) && s.threads[0] == PollClear(false, 0, true)
    ensures var t := Run(f, s, [IDLE]);
      t.threads[0] == CountHit(false, true) && OwnSteps(s, t)
  {
    ThreadAlone(f, s);
    FlagSnoc(s.logs[1], Clear(0));
  }

  lemma EndStep(f: Font, s: State)
    requires ValidFont(f) && Shape(s) && (s.threads[0] == CountHit(false, true) || s.threads[0] == EndTest(true))
    ensures var t := Run(f, s, [IDLE]);
      && OwnSteps(s, t)
      && if s.threads[0] == EndTest(true) then t.threads[0] == Guard && t.mac == 2 else t.threads[0] == EndTest(true)
  {
    ThreadAlone(f, s);
  }

  /** From its guard to a poll that reads a raised flag. */
  lemma ThreadPolls(f: Font, s: State)
    requires ValidFont(f) && Shape(s) && s.mac == 1 && s.threads[0] == Guard && s.flags[1] > 0
    ensures var t := Run(f, s, HALF);
      t.threads[0] == PollClear(false, 0, true) && OwnSteps(s, t)
  {
    SampleStep(f, s);
    var s1 := Run(f, s, [IDLE]);
    SampleStep(f, s1);
    TestStep(f, Run(f, s1, [IDLE]));
    ThreeRuns(f, s, [IDLE]);
  }

  /** From a ready poll to the end of insertion. */
  lemma ThreadEnds(f: Font, s: State)
    requires ValidFont(f) && Shape(s) && s.threads[0] == PollClear(false, 0, true)
    ensures var t := Run(f, s, HALF);
      t.threads[0] == Guard && t.mac == 2 && OwnSteps(s, t)
  {
    ClearStep(f, s);
    var s1 := Run(f, s, [IDLE]);
    EndStep(f, s1);
    EndStep(f, Run(f, s1, [IDLE]));
    ThreeRuns(f, s, [IDLE]);
  }

  lemma MainAlone(f: Font, s: State)
    requires ValidFont(f) && Shape(s) && !InPrep(s.main) && !InMenu(s.main)
    ensures Run(f, s, [GO]) == InsertNext(f, s)
  {
    OneStep(f, s, GO);
  }

  lemma EntersLoop(f: Font, s: State)
    requires ValidFont(f) && Shape(s) && s.main == LoopGuard && s.mac == 1
    ensures var t := Run(f, s, [GO]);
      t.main == Create(0) && t.mac == 1 && t.flags == s.flags && t.logs == s.logs
  {
    MainAlone(f, s);
  }

  lemma CreatesFirst(f: Font, s: State)
    requires ValidFont(f) && Shape(s) && s.main == Create(0)
    ensures var t := Run(f, s, [GO]);
      t.threads[0] == Guard && t.mac == s.mac && t.flags == s.flags && t.logs == s.logs
  {
    MainAlone(f, s);
  }

  /** Two steps of main from the loop guard: the first thread exists. */
  lemma StartsThread(f: Font, s: State)
    requires ValidFont(f) && Shape(s) && AboutToStart(s) && s.mac == 1
    ensures var t := Run(f, s, [GO] + [GO]);
      t.mac == 1 && t.threads[0] == Guard && t.flags == s.flags && t.logs == s.logs
  {
    EntersLoop(f, s);
    CreatesFirst(f, Run(f, s, [GO]));
    RunOn(f, s, [GO], [GO]);
  }

  lemma PendingKeyEnds(f: Font, s: State)
    requires ValidFont(f) && Shape(s) && AboutToStart(s) && s.mac == 1 && s.flags[1] > 0
    ensures EndsByItself(f, s, EARLY_END)
  {
    StartsThread(f, s);
    RunOn(f, s, [GO] + [GO], HALF);
    ThreadPolls(f, Run(f, s, [GO] + [GO]));
    RunOn(f, s, [GO] + [GO] + HALF, HALF);
    ThreadEnds(f, Run(f, s, [GO] + [GO] + HALF));
  }

  /**
    Ending insertion takes a press of key 2, but not necessarily one after the start: from
    the moment the machine starts, insertion can end without a further interrupt of key 2
    exactly when key 2 had already interrupted before.
   */
  lemma EarlyKey2Counts(f: Font, s: State, run: seq<Action>)
    requires ValidFont(f) && Init(s) && Shape(s) && AboutToStart(Run(f, s, run))
    ensures var t := Run(f, s, run);
      (exists more :: EndsByItself(f, t, more)) <==> Irqs(t.logs[1]) > 0
  {
    InvariantStarts(f, s);
    Always(f, s, run);
    var t := Run(f, s, run);
    if Irqs(t.logs[1]) > 0 {
      PendingKeyEnds(f, t);
    } else {
      forall more
        ensures !EndsByItself(f, t, more)
      {
        EndedBySinceAlways(f, t, more, 0);
      }
    }
  }

  // ----- Threads stop -----

  /** How many steps of thread `i` a run holds. */
  function StepsOf(run: seq<Action>, i: nat): nat {
    if run == [] then 0
    else StepsOf(run[..|run| - 1], i) + if run[|run| - 1].ThreadStep? && run[|run| - 1].i == i then 1 else 0
  }

  predicate ScansAtMost(run: seq<Action>, b: nat) {
    forall a | a in run && a.ThreadStep? :: a.scans <= b
  }

  predicate Running(pc: ThreadPc) {
    pc != NotCreated && pc != Finished
  }

  /**
    Once insertion is over, a running thread finishes within StepsLeft of its own steps
    (at most 14 plus two per extra scan), whatever the others do, and counts at most one
    more coin.
   */
  lemma {:induction false} ThreadsStop(f: Font, s: State, more: seq<Action>, i: nat, b: nat)
    requires ValidFont(f) && Shape(s) && Invariant(f, s) && s.mac == 2 && i < 3
    requires Bounded(s.threads[i], b) && ScansAtMost(more, b) && s.threads[i] != NotCreated
    ensures var t := Run(f, s, more);
      && t.mac == 2 && t.threads[i] != NotCreated && Bounded(t.threads[i], b)
      && (t.threads[i] == Finished || StepsLeft(t.threads[i], b) + StepsOf(more, i) <= StepsLeft(s.threads[i], b))
      && t.coins[i] + MayCount(t.threads[i]) <= s.coins[i] + MayCount(s.threads[i])
  {
    if more != [] {
      var init, a := more[..|more| - 1], more[|more| - 1];
      ThreadsStop(f, s, init, i, b);
      Always(f, s, init);
      StateNeverDecreases(f, s, more);
      assert a in more;
      OneThreadStop(f, Run(f, s, init), a, i, b);
    }
  }

  /** What one step does to a thread after insertion. */
  predicate StopsSoon(s: State, t: State, own: bool, i: nat, b: nat)
    requires Shape(s) && Shape(t) && i < 3
  {
    && t.threads[i] != NotCreated && Bounded(t.threads[i], b)
    && (s.threads[i] == Finished ==> t.threads[i] == Finished)
    && (t.threads[i] == Finished
        || StepsLeft(t.threads[i], b) + (if own then 1 else 0) <= StepsLeft(s.threads[i], b))
    && t.coins[i] + MayCount(t.threads[i]) <= s.coins[i] + MayCount(s.threads[i])
  }

  lemma OneThreadStop(f: Font, s: State, a: Action, i: nat, b: nat)
    requires ValidFont(f) && Shape(s) && Control(s) && s.mac == 2 && i < 3
    requires Bounded(s.threads[i], b) && s.threads[i] != NotCreated && (a.ThreadStep? ==> a.scans <= b)
    ensures Shape(Next(f, s, a)) && StopsSoon(s, Next(f, s, a), a.ThreadStep? && a.i == i, i, b)
  {
    ShapeKept(f, s, a);
    match a
    case Interrupt(key) =>
    case MainStep(reps, fail) => MainLeavesThread(f, s, reps, fail, i);
    case ThreadStep(j, high, scans) =>
      if j == i {
        OwnStepStops(s, i, high, scans, b);
      } else if j < 3 {
        OtherThreads(s, j, high, scans);
      }
  }

  lemma MainLeavesThread(f: Font, s: State, reps: seq<nat>, fail: bool, i: nat)
    requires ValidFont(f) && Shape(s) && Control(s) && i < 3 && s.threads[i] != NotCreated
    requires Shape(MainNext(f, s, reps, fail))
    ensures MainNext(f, s, reps, fail).threads[i] == s.threads[i]
    ensures MainNext(f, s, reps, fail).coins[i] == s.coins[i]
  {
    if InMenu(s.main) {
      MenuFrame(f, s, reps, fail);
    } else if !InPrep(s.main) {
      InsertCounts(f, s);
    }
  }

  lemma OwnStepStops(s: State, i: nat, high: bool, scans: nat, b: nat)
    requires Shape(s) && s.mac == 2 && i < 3 && Shape(ThreadNext(s, i, high, scans))
    requires Bounded(s.threads[i], b) && s.threads[i] != NotCreated && scans <= b
    ensures StopsSoon(s, ThreadNext(s, i, high, scans), true, i, b)
  {
    ThreadFrame(s, i, high, scans);
    ThreadMayCount(s, i, high, scans);
    if s.threads[i] != Finished {
      ThreadProgress(s, i, high, scans, b);
    }
  }
}
