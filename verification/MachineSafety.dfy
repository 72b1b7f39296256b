/**
  What holds in every reachable state of the coin machine, whatever the order in
  which main, the sensor threads and the interrupts run.
 */
module MachineSafety {
  import opened Cells
  import opened KeyEvents
  import opened Glyphs
  import opened Machine

  // ----- Phases -----

  predicate AllFinished(s: State)
    requires Shape(s)
  {
    s.threads[0] == Finished && s.threads[1] == Finished && s.threads[2] == Finished
  }

  /** Exactly the first `n` threads exist. */
  predicate Created(s: State, n: nat)
    requires Shape(s)
  {
    && (s.threads[0] == NotCreated <==> n <= 0)
    && (s.threads[1] == NotCreated <==> n <= 1)
    && (s.threads[2] == NotCreated <==> n <= 2)
  }

  predicate FinishedBefore(s: State, n: nat)
    requires Shape(s)
  {
    (n > 0 ==> s.threads[0] == Finished) && (n > 1 ==> s.threads[1] == Finished)
  }

  /** A thread exists only once the machine has started, and has finished only once insertion is over. */
  predicate ThreadPhase(pc: ThreadPc, mac: nat) {
    (pc != NotCreated ==> mac >= 1) && (pc == Finished ==> mac == 2)
  }

  /** Where main is says which threads exist, how often the loop body ran and how often the motor was raised. */
  predicate MainAgrees(s: State)
    requires Shape(s)
  {
    match s.main
    case PrepGuard => s.mac <= 1 && s.bodies == 0 && s.raises == 0 && Created(s, 0)
    case PrepTest => s.mac == 0 && s.bodies == 0 && s.raises == 0 && Created(s, 0)
    case PrepClear(_) => s.mac == 0 && s.bodies == 0 && s.raises == 0 && Created(s, 0)
    case PrepBranch(_) => s.mac == 0 && s.bodies == 0 && s.raises == 0 && Created(s, 0)
    case FirstBlank(_) => s.mac == 1 && s.bodies == 0 && s.raises == 0 && Created(s, 0)
    case LoopGuard =>
      || (s.mac == 1 && s.bodies == 0 && s.raises == 0 && Created(s, 0))
      || (s.bodies == 1 && s.raises == 1 && AllFinished(s))
    case Create(i) => s.bodies == 1 && s.raises == 0 && Created(s, i)
    case MotorOn => s.bodies == 1 && s.raises == 0 && Created(s, 3)
    case SecondBlank(_) => s.bodies == 1 && s.raises == 1 && Created(s, 3)
    case Join(i) => s.bodies == 1 && s.raises == 1 && Created(s, 3) && FinishedBefore(s, i)
    case Off(byKey) => byKey && s.bodies == 1 && s.raises == 1 && AllFinished(s)
    case Aborted =>
      || (s.mac == 0 && s.bodies == 0 && s.raises == 0 && Created(s, 0))
      || (s.bodies == 1 && s.raises == 1 && AllFinished(s))
    case _ => s.bodies == 1 && s.raises == 1 && AllFinished(s)
  }

  predicate Control(s: State)
    requires Shape(s)
  {
    && s.mac <= 2
    && (s.main.Create? ==> s.mac >= 1)
    && ThreadPhase(s.threads[0], s.mac) && ThreadPhase(s.threads[1], s.mac) && ThreadPhase(s.threads[2], s.mac)
    && MainAgrees(s)
  }

  lemma ControlKept(f: Font, s: State, a: Action)
    requires ValidFont(f) && Shape(s) && Control(s)
    ensures Shape(Next(f, s, a)) && Control(Next(f, s, a))
    ensures s.mac <= Next(f, s, a).mac
  {
    ShapeKept(f, s, a);
    match a
    case Interrupt(key) =>
    case MainStep(reps, fail) =>
      if InPrep(s.main) {
        PrepControl(s, fail);
      } else if InMenu(s.main) {
        MenuControl(f, s, reps, fail);
      } else {
        InsertControl(f, s);
      }
    case ThreadStep(i, high, scans) =>
      if i < 3 {
        ThreadControl(s, i, high, scans);
      }
  }

  lemma PrepControl(s: State, fail: bool)
    requires Shape(s) && Control(s) && InPrep(s.main)
    ensures Shape(PrepNext(s, fail)) && Control(PrepNext(s, fail)) && s.mac <= PrepNext(s, fail).mac
  {
  }

  /** A menu step changes neither the machine state, nor the threads, nor what they counted. */
  lemma MenuFrame(f: Font, s: State, reps: seq<nat>, fail: bool)
    requires ValidFont(f) && Shape(s) && InMenu(s.main)
    ensures var t := MenuNext(f, s, reps, fail);
      && t.mac == s.mac && t.threads == s.threads && t.coins == s.coins && t.samples == s.samples
      && t.bodies == s.bodies && t.raises == s.raises && t.startIrqs == s.startIrqs
      && (InMenu(t.main) || t.main.Aborted? || t.main.Undefined? || t.main.Off?)
      && (t.main == Off(false) ==> s.mac != 2)
  {
  }

  lemma MenuControl(f: Font, s: State, reps: seq<nat>, fail: bool)
    requires ValidFont(f) && Shape(s) && Control(s) && InMenu(s.main)
    ensures Shape(MenuNext(f, s, reps, fail)) && Control(MenuNext(f, s, reps, fail))
    ensures MenuNext(f, s, reps, fail).mac == s.mac
  {
    MenuShape(f, s, reps, fail);
    MenuFrame(f, s, reps, fail);
  }

  lemma InsertControl(f: Font, s: State)
    requires ValidFont(f) && Shape(s) && Control(s) && !InPrep(s.main) && !InMenu(s.main)
    ensures Shape(InsertNext(f, s)) && Control(InsertNext(f, s)) && InsertNext(f, s).mac == s.mac
  {
    InsertShape(f, s);
    match s.main
    case Create(i) => CreateControl(f, s, i);
    case Join(i) => JoinControl(f, s, i);
    case _ =>
  }

  lemma CreateControl(f: Font, s: State, i: nat)
    requires ValidFont(f) && Shape(s) && Control(s) && s.main == Create(i)
    ensures Shape(InsertNext(f, s)) && Control(InsertNext(f, s))
  {
    InsertShape(f, s);
    var t := InsertNext(f, s);
    assert t.threads == s.threads[i := Guard] && t.mac == s.mac;
    if i == 0 {} else if i == 1 {} else { assert i == 2; }
  }

  lemma JoinControl(f: Font, s: State, i: nat)
    requires ValidFont(f) && Shape(s) && Control(s) && s.main == Join(i)
    ensures Shape(InsertNext(f, s)) && Control(InsertNext(f, s))
  {
    InsertShape(f, s);
    if i == 0 {} else if i == 1 {} else { assert i == 2; }
  }

  /** A thread step touches one thread and its counter and samples; it ends insertion only after a ready poll. */
  lemma ThreadFrame(s: State, i: nat, high: bool, scans: nat)
    requires Shape(s) && i < 3
    ensures var t := ThreadNext(s, i, high, scans);
      && t.main == s.main && t.bodies == s.bodies && t.raises == s.raises && t.startIrqs == s.startIrqs
      && t.latch == s.latch && t.from == s.from && t.seen == s.seen && t.reports == s.reports
      && |t.threads| == 3 && (forall j | 0 <= j < 3 && j != i :: t.threads[j] == s.threads[j])
      && (t.mac == s.mac || (t.mac == 2 && s.threads[i] == EndTest(true)))
      && (s.threads[i] == NotCreated || s.threads[i] == Finished ==> t == s)
      && (s.threads[i] != NotCreated ==> t.threads[i] != NotCreated)
      && (t.threads[i] == Finished ==> s.threads[i] == Finished || s.mac != 1)
  {
    ThreadKeeps(s, i, high, scans);
  }

  lemma ThreadKeeps(s: State, i: nat, high: bool, scans: nat)
    requires Shape(s) && i < 3
    ensures var t := ThreadNext(s, i, high, scans);
      && t.main == s.main && t.bodies == s.bodies && t.raises == s.raises && t.startIrqs == s.startIrqs
      && t.latch == s.latch && t.from == s.from && t.seen == s.seen && t.reports == s.reports
      && t.threads == s.threads[i := t.threads[i]]
  {
    ThreadAtMoves(s, i, high, scans);
  }

  lemma ThreadAtMoves(s: State, i: nat, high: bool, scans: nat)
    requires Shape(s) && i < 3
    ensures |ThreadNext(s, i, high, scans).threads| == 3
    ensures ThreadNext(s, i, high, scans).threads == s.threads[i := ThreadNext(s, i, high, scans).threads[i]]
  {
  }

  lemma ThreadControl(s: State, i: nat, high: bool, scans: nat)
    requires Shape(s) && Control(s) && i < 3
    ensures Shape(ThreadNext(s, i, high, scans)) && Control(ThreadNext(s, i, high, scans))
    ensures s.mac <= ThreadNext(s, i, high, scans).mac
  {
    ThreadShape(s, i, high, scans);
    ThreadFrame(s, i, high, scans);
    if s.threads[i] != NotCreated && s.threads[i] != Finished {
      OneThreadMoves(s, ThreadNext(s, i, high, scans), i);
    }
  }

  lemma OneThreadMoves(s: State, t: State, i: nat)
    requires Shape(s) && Control(s) && Shape(t) && i < 3
    requires s.threads[i] != NotCreated && s.threads[i] != Finished && t.threads[i] != NotCreated
    requires t.main == s.main && t.bodies == s.bodies && t.raises == s.raises
    requires forall j | 0 <= j < 3 && j != i :: t.threads[j] == s.threads[j]
    requires t.mac == s.mac || t.mac == 2
    requires t.threads[i] == Finished ==> s.mac != 1
    ensures Control(t)
  {
    if i == 0 {
      assert t.threads[1] == s.threads[1] && t.threads[2] == s.threads[2];
    } else if i == 1 {
      assert t.threads[0] == s.threads[0] && t.threads[2] == s.threads[2];
    } else {
      assert i == 2 && t.threads[0] == s.threads[0] && t.threads[1] == s.threads[1];
    }
    assert s.main.Create? || s.main.MotorOn? || s.main.SecondBlank? || s.main.Join?;
  }

  // ----- Key events -----

  /** Every driver's flag is what its event history says. */
  predicate FlagsTrue(s: State)
    requires Shape(s)
  {
    forall key | 0 <= key < 4 :: s.flags[key] == Flag(s.logs[key])
  }

  /** What a step may do to one key: nothing, an interrupt, a test or a clear. */
  predicate KeyMoves(s: State, t: State, key: nat, e: Event)
    requires Shape(s) && Shape(t) && key < 4
  {
    && t.logs == s.logs[key := s.logs[key] + [e]]
    && t.flags == match e
       case Irq => s.flags[key := s.flags[key] + 1]
       case Test(_) => s.flags
       case Clear(_) => s.flags[key := 0]
  }

  lemma KeyMoveTrue(s: State, t: State, key: nat, e: Event)
    requires Shape(s) && Shape(t) && key < 4 && FlagsTrue(s) && KeyMoves(s, t, key, e)
    ensures FlagsTrue(t)
    ensures t.flags[key] == Flag(t.logs[key])
    ensures Irqs(t.logs[key]) == Irqs(s.logs[key]) + if e.Irq? then 1 else 0
  {
    FlagSnoc(s.logs[key], e);
  }

  /** The key event that a step performs, if any. */
  function EventOf(s: State, a: Action): Option<(nat, Event)>
    requires Shape(s)
  {
    match a
    case Interrupt(key) => if key < 4 then Some((key, Irq)) else Option.None
    case MainStep(_, fail) => (
      match s.main
      case PrepTest => if fail then Option.None else Some((0, Test(MAIN)))
      case PrepClear(_) => Some((0, Clear(MAIN)))
      case MenuTest(i, _) => if fail then Option.None else Some((i, Test(MAIN)))
      case MenuClear(i, _) => Some((i, Clear(MAIN)))
      case _ => Option.None)
    case ThreadStep(i, _, _) =>
      if i >= 3 then Option.None
      else if s.threads[i].PollTest? then Some((1, Test(i)))
      else if s.threads[i].PollClear? then Some((1, Clear(i)))
      else Option.None
  }

  lemma StepEvent(f: Font, s: State, a: Action)
    requires ValidFont(f) && Shape(s)
    ensures Shape(Next(f, s, a))
    ensures match EventOf(s, a)
      case None => Next(f, s, a).logs == s.logs && Next(f, s, a).flags == s.flags
      case Some(ke) => KeyMoves(s, Next(f, s, a), ke.0, ke.1)
  {
    ShapeKept(f, s, a);
    match a
    case Interrupt(key) =>
    case MainStep(reps, fail) => MainEvent(f, s, reps, fail);
    case ThreadStep(i, high, scans) =>
      if i < 3 {
        ThreadEvent(s, i, high, scans);
      }
  }

  lemma MainEvent(f: Font, s: State, reps: seq<nat>, fail: bool)
    requires ValidFont(f) && Shape(s) && Shape(MainNext(f, s, reps, fail))
    ensures match EventOf(s, MainStep(reps, fail))
      case None => MainNext(f, s, reps, fail).logs == s.logs && MainNext(f, s, reps, fail).flags == s.flags
      case Some(ke) => KeyMoves(s, MainNext(f, s, reps, fail), ke.0, ke.1)
  {
    if InMenu(s.main) {
      MenuEvent(f, s, reps, fail);
    } else if !InPrep(s.main) {
      InsertEvent(f, s);
    }
  }

  lemma MenuEvent(f: Font, s: State, reps: seq<nat>, fail: bool)
    requires ValidFont(f) && Shape(s) && InMenu(s.main) && Shape(MenuNext(f, s, reps, fail))
    ensures match EventOf(s, MainStep(reps, fail))
      case None => MenuNext(f, s, reps, fail).logs == s.logs && MenuNext(f, s, reps, fail).flags == s.flags
      case Some(ke) => KeyMoves(s, MenuNext(f, s, reps, fail), ke.0, ke.1)
  {
  }

  lemma InsertEvent(f: Font, s: State)
    requires ValidFont(f) && Shape(s) && !InPrep(s.main) && !InMenu(s.main)
    ensures InsertNext(f, s).logs == s.logs && InsertNext(f, s).flags == s.flags
  {
  }

  lemma ThreadEvent(s: State, i: nat, high: bool, scans: nat)
    requires Shape(s) && i < 3 && Shape(ThreadNext(s, i, high, scans))
    ensures match EventOf(s, ThreadStep(i, high, scans))
      case None => ThreadNext(s, i, high, scans).logs == s.logs && ThreadNext(s, i, high, scans).flags == s.flags
      case Some(ke) => KeyMoves(s, ThreadNext(s, i, high, scans), ke.0, ke.1)
  {
  }

  lemma FlagsKept(f: Font, s: State, a: Action)
    requires ValidFont(f) && Shape(s) && FlagsTrue(s)
    ensures Shape(Next(f, s, a)) && FlagsTrue(Next(f, s, a))
    ensures forall key | 0 <= key < 4 :: Irqs(s.logs[key]) <= Irqs(Next(f, s, a).logs[key])
  {
    StepEvent(f, s, a);
    match EventOf(s, a)
    case None =>
    case Some(ke) => KeyMoveTrue(s, Next(f, s, a), ke.0, ke.1);
  }

  /** A flag never holds interrupts that were set aside before. */
  lemma FlagHoldsLater(f: Font, s: State, a: Action, key: nat, base: nat)
    requires ValidFont(f) && Shape(s) && FlagsTrue(s) && key < 4
    requires s.flags[key] + base <= Irqs(s.logs[key])
    ensures Shape(Next(f, s, a))
    ensures Next(f, s, a).flags[key] + base <= Irqs(Next(f, s, a).logs[key])
    ensures Irqs(s.logs[key]) <= Irqs(Next(f, s, a).logs[key])
  {
    StepEvent(f, s, a);
    match EventOf(s, a)
    case None =>
    case Some(ke) => KeyMoveTrue(s, Next(f, s, a), ke.0, ke.1);
  }

  // ----- Insertion ends only after key 2 -----

  predicate HoldsReady(pc: ThreadPc) {
    match pc
    case PollClear(_, _, ready) => ready
    case CountHit(_, ready) => ready
    case Skipping(_, ready) => ready
    case EndTest(ready) => ready
    case _ => false
  }

  /**
    With `base` interrupts of key 2 set aside: the flag holds only later ones, and a
    thread that got a ready poll, or the end of insertion, implies that there was one.
   */
  predicate EndedBySince(s: State, base: nat)
    requires Shape(s)
  {
    && s.flags[1] + base <= Irqs(s.logs[1])
    && (s.mac == 2 || HoldsReady(s.threads[0]) || HoldsReady(s.threads[1]) || HoldsReady(s.threads[2])
        ==> Irqs(s.logs[1]) > base)
  }

  lemma EndedBySinceKept(f: Font, s: State, a: Action, base: nat)
    requires ValidFont(f) && Shape(s) && Control(s) && FlagsTrue(s) && EndedBySince(s, base)
    ensures Shape(Next(f, s, a)) && EndedBySince(Next(f, s, a), base)
  {
    FlagHoldsLater(f, s, a, 1, base);
    match a
    case Interrupt(key) =>
    case MainStep(reps, fail) => MainReady(f, s, reps, fail);
    case ThreadStep(i, high, scans) =>
      if i < 3 {
        ThreadFrame(s, i, high, scans);
        ThreadReady(s, i, high, scans);
        OneReady(s, Next(f, s, a), i, base);
      }
  }

  lemma OneReady(s: State, t: State, i: nat, base: nat)
    requires Shape(s) && Shape(t) && i < 3 && EndedBySince(s, base)
    requires forall j | 0 <= j < 3 && j != i :: t.threads[j] == s.threads[j]
    requires HoldsReady(t.threads[i]) ==> HoldsReady(s.threads[i]) || s.flags[1] > 0
    requires t.mac == s.mac || HoldsReady(s.threads[i])
    requires Irqs(s.logs[1]) <= Irqs(t.logs[1]) && t.flags[1] + base <= Irqs(t.logs[1])
    ensures EndedBySince(t, base)
  {
    assert i != 0 ==> t.threads[0] == s.threads[0];
    assert i != 1 ==> t.threads[1] == s.threads[1];
    assert i != 2 ==> t.threads[2] == s.threads[2];
    assert i == 0 || i == 1 || i == 2;
  }

  /** A main step leaves every thread where it is, or creates one. */
  lemma MainReady(f: Font, s: State, reps: seq<nat>, fail: bool)
    requires ValidFont(f) && Shape(s) && Control(s)
    ensures var t := MainNext(f, s, reps, fail);
      && |t.threads| == 3
      && (forall i | 0 <= i < 3 :: t.threads[i] == s.threads[i] || t.threads[i] == Guard)
      && (t.mac == s.mac || t.mac == 1)
  {
    if InMenu(s.main) {
      MenuFrame(f, s, reps, fail);
    } else if InPrep(s.main) {
    } else {
      InsertReady(f, s);
    }
  }

  lemma InsertReady(f: Font, s: State)
    requires ValidFont(f) && Shape(s) && !InPrep(s.main) && !InMenu(s.main)
    ensures var t := InsertNext(f, s);
      && |t.threads| == 3 && t.mac == s.mac
      && (forall i | 0 <= i < 3 :: t.threads[i] == s.threads[i] || t.threads[i] == Guard)
  {
  }

  lemma ThreadReady(s: State, i: nat, high: bool, scans: nat)
    requires Shape(s) && i < 3 && |ThreadNext(s, i, high, scans).threads| == 3
    ensures HoldsReady(ThreadNext(s, i, high, scans).threads[i])
        ==> HoldsReady(s.threads[i]) || (s.threads[i].PollTest? && s.flags[1] > 0)
  {
  }

  // ----- The machine starts, and is switched off, only after key 1 -----

  predicate HoldsKey1(m: MainPc) {
    match m
    case MenuTest(i, keys) => |keys| > 0 && keys[0]
    case MenuClear(i, keys) => |keys| > 0 && keys[0]
    case Dispatch(i, keys) => |keys| > 0 && keys[0]
    case Show(i, keys, _, _, _) => |keys| > 0 && keys[0]
    case Off(byKey) => byKey
    case _ => false
  }

  /** Key 1: interrupts set aside when a poll cleared the flag, and what a later ready poll implies. */
  predicate StartedByKey1(s: State)
    requires Shape(s)
  {
    && s.flags[0] + s.startIrqs <= Irqs(s.logs[0])
    && (s.main == PrepClear(true) ==> Irqs(s.logs[0]) > 0)
    && (s.mac >= 1 || s.main == PrepBranch(true) ==> s.startIrqs > 0)
    && (HoldsKey1(s.main) ==> Irqs(s.logs[0]) > s.startIrqs)
  }

  lemma StartedByKey1Kept(f: Font, s: State, a: Action)
    requires ValidFont(f) && Shape(s) && Control(s) && FlagsTrue(s) && StartedByKey1(s)
    ensures Shape(Next(f, s, a)) && StartedByKey1(Next(f, s, a))
  {
    FlagHoldsLater(f, s, a, 0, s.startIrqs);
    match a
    case Interrupt(key) =>
    case MainStep(reps, fail) =>
      if InPrep(s.main) {
        PrepKey1(s, fail);
      } else if InMenu(s.main) {
        MenuFrame(f, s, reps, fail);
        MenuKey1(f, s, reps, fail);
      } else {
        InsertKey1(f, s);
      }
    case ThreadStep(i, high, scans) =>
      if i < 3 {
        ThreadFrame(s, i, high, scans);
        assert s.threads[i] == NotCreated || s.mac >= 1 by {
          assert i == 0 || i == 1 || i == 2;
        }
      }
  }

  lemma PrepKey1(s: State, fail: bool)
    requires Shape(s) && Control(s) && FlagsTrue(s) && StartedByKey1(s) && InPrep(s.main)
    ensures Shape(PrepNext(s, fail)) && StartedByKey1(PrepNext(s, fail))
  {
    FlagSnoc(s.logs[0], Test(MAIN));
    FlagSnoc(s.logs[0], Clear(MAIN));
  }

  lemma InsertKey1(f: Font, s: State)
    requires ValidFont(f) && Shape(s) && Control(s) && !InPrep(s.main) && !InMenu(s.main)
    ensures var t := InsertNext(f, s);
      && t.mac == s.mac && t.startIrqs == s.startIrqs && !t.main.PrepClear? && !t.main.PrepBranch?
      && (HoldsKey1(t.main) ==> HoldsKey1(s.main))
  {
  }

  lemma MenuKey1(f: Font, s: State, reps: seq<nat>, fail: bool)
    requires ValidFont(f) && Shape(s) && InMenu(s.main)
    ensures var t := MenuNext(f, s, reps, fail);
      HoldsKey1(t.main) ==> HoldsKey1(s.main) || (s.main.MenuTest? && s.main.i == 0 && s.flags[0] > 0)
  {
  }
}
