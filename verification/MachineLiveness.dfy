/**
  Nothing blocks for good: from every reachable state that has not stopped with a poll
  error or an overflow, some continuation switches the machine off with key 1.
 */
module MachineLiveness {
  import opened Glyphs
  import opened Machine
  import opened MachineSafety
  import opened MachineRuns
  import opened MachineProgress

  /** Some run leads from one state to the other. */
  ghost predicate Leads(f: Font, s: State, t: State)
    requires ValidFont(f) && Shape(s)
  {
    exists run :: Run(f, s, run) == t
  }

  lemma LeadsOn(f: Font, s: State, t: State, u: State)
    requires ValidFont(f) && Shape(s) && Shape(t) && Leads(f, s, t) && Leads(f, t, u)
    ensures Leads(f, s, u)
  {
    var run :| Run(f, s, run) == t;
    var more :| Run(f, t, more) == u;
    RunOn(f, s, run, more);
    assert Run(f, s, run + more) == u;
  }

  lemma LeadsNowhere(f: Font, s: State)
    requires ValidFont(f) && Shape(s)
    ensures Leads(f, s, s)
  {
    assert Run(f, s, []) == s;
  }

  lemma MainIsEnough(f: Font, s: State, t: State)
    requires ValidFont(f) && Shape(s) && MainLeads(f, s, t)
    ensures Leads(f, s, t)
  {
    var run :| MainOnly(run) && Run(f, s, run) == t;
  }

  lemma OneAction(f: Font, s: State, a: Action) returns (t: State)
    requires ValidFont(f) && Shape(s)
    ensures t == Next(f, s, a) && Shape(t) && Leads(f, s, t)
  {
    ShapeKept(f, s, a);
    t := Next(f, s, a);
    OneStep(f, s, a);
    assert Run(f, s, [a]) == t;
  }

  lemma Press(f: Font, s: State, key: nat) returns (t: State)
    requires ValidFont(f) && Shape(s) && key < 4
    ensures Shape(t) && Leads(f, s, t) && t == Raise(s, key)
  {
    t := OneAction(f, s, Interrupt(key));
  }

  lemma PrepStep(f: Font, s: State) returns (t: State)
    requires ValidFont(f) && Shape(s) && InPrep(s.main)
    ensures Shape(t) && Leads(f, s, t) && t == PrepNext(s, false)
  {
    t := OneAction(f, s, MainStep([], false));
  }

  lemma InsertStep(f: Font, s: State) returns (t: State)
    requires ValidFont(f) && Shape(s) && !InPrep(s.main) && !InMenu(s.main)
    ensures Shape(t) && Leads(f, s, t) && t == InsertNext(f, s)
  {
    t := OneAction(f, s, MainStep([], false));
  }

  lemma ThreadStepOf(f: Font, s: State, i: nat) returns (t: State)
    requires ValidFont(f) && Shape(s) && i < 3
    ensures Shape(t) && Leads(f, s, t) && t == ThreadNext(s, i, false, 0)
  {
    t := OneAction(f, s, ThreadStep(i, false, 0));
  }

  lemma LeadsKeeps(f: Font, s: State, t: State)
    requires ValidFont(f) && Shape(s) && Invariant(f, s) && Leads(f, s, t)
    ensures Invariant(f, t)
  {
    var run :| Run(f, s, run) == t;
    Always(f, s, run);
  }

  // ----- Starting -----

  /** What the threads, the menu and key 2 care about is as it was. */
  predicate SameWork(s: State, t: State)
    requires Shape(s) && Shape(t)
  {
    t.threads == s.threads && SameCount(s, t) && t.flags[1] == s.flags[1] && t.logs[1] == s.logs[1]
  }

  predicate SameCount(s: State, t: State)
    requires Shape(s) && Shape(t)
  {
    && t.coins == s.coins && t.reports == s.reports
    && (t.flags[0] == s.flags[0] || t.flags[0] == 0) && t.flags[2] == s.flags[2] && t.flags[3] == s.flags[3]
  }

  /** Also the loop body has not run in between. */
  predicate NotStarted(s: State, t: State)
    requires Shape(s) && Shape(t)
  {
    SameWork(s, t) && t.bodies == s.bodies
  }

  lemma PrepLoops(f: Font, s: State) returns (t: State)
    requires ValidFont(f) && Shape(s) && InPrep(s.main)
    ensures Shape(t) && Leads(f, s, t) && t.main == PrepGuard
  {
    LeadsNowhere(f, s);
    t := s;
    if t.main.PrepTest? {
      t := PrepStep(f, s);
    }
    if t.main.PrepClear? {
      var u := t;
      t := PrepStep(f, u);
      LeadsOn(f, s, u, t);
    }
    if t.main.PrepBranch? {
      var u := t;
      t := PrepStep(f, u);
      LeadsOn(f, s, u, t);
    }
  }

  lemma PrepPolls(f: Font, s: State) returns (t: State)
    requires ValidFont(f) && Shape(s) && s.main == PrepGuard && s.mac == 0 && s.flags[0] > 0
    ensures Shape(t) && Leads(f, s, t) && t.main == PrepGuard && t.mac == 1 && NotStarted(s, t)
    ensures t.flags[0] == 0
  {
    var u := PrepTests(f, s);
    t := PrepClears(f, u);
    LeadsOn(f, s, u, t);
  }

  lemma PrepTests(f: Font, s: State) returns (t: State)
    requires ValidFont(f) && Shape(s) && s.main == PrepGuard && s.mac == 0 && s.flags[0] > 0
    ensures Shape(t) && Leads(f, s, t) && t.main == PrepClear(true) && NotStarted(s, t)
  {
    var u := PrepStep(f, s);
    t := PrepStep(f, u);
    LeadsOn(f, s, u, t);
  }

  lemma PrepClears(f: Font, s: State) returns (t: State)
    requires ValidFont(f) && Shape(s) && s.main == PrepClear(true)
    ensures Shape(t) && Leads(f, s, t) && t.main == PrepGuard && t.mac == 1 && NotStarted(s, t)
    ensures t.flags[0] == 0
  {
    var u := PrepStep(f, s);
    t := PrepStep(f, u);
    LeadsOn(f, s, u, t);
  }

  /** A press of key 1 starts the machine. */
  lemma PrepStarts(f: Font, s: State) returns (t: State)
    requires ValidFont(f) && Shape(s) && s.main == PrepGuard && s.mac == 0
    ensures Shape(t) && Leads(f, s, t) && t.main == FirstBlank(0) && t.mac == 1 && NotStarted(s, t)
    ensures t.flags[0] == 0
  {
    var u := Press(f, s, 0);
    var v := PrepPolls(f, u);
    LeadsOn(f, s, u, v);
    t := PrepLeaves(f, v);
    LeadsOn(f, s, v, t);
  }

  lemma PrepLeaves(f: Font, s: State) returns (t: State)
    requires ValidFont(f) && Shape(s) && s.main == PrepGuard && s.mac != 0
    ensures Shape(t) && Leads(f, s, t) && t.main == FirstBlank(0) && t.mac == s.mac && NotStarted(s, t)
  {
    t := PrepStep(f, s);
  }

  lemma PrepEnds(f: Font, s: State) returns (t: State)
    requires ValidFont(f) && Shape(s) && InPrep(s.main)
    ensures Shape(t) && Leads(f, s, t) && t.main == FirstBlank(0)
  {
    var u := PrepLoops(f, s);
    if u.mac == 0 {
      t := PrepStarts(f, u);
    } else {
      t := PrepLeaves(f, u);
    }
    LeadsOn(f, s, u, t);
  }

  lemma {:induction false} FirstBlankEnds(f: Font, s: State) returns (t: State)
    requires ValidFont(f) && Shape(s) && s.main.FirstBlank?
    ensures Shape(t) && Leads(f, s, t) && t.main == LoopGuard && NotStarted(s, t) && t.mac == s.mac
    decreases 32 - s.main.k
  {
    t := InsertStep(f, s);
    if s.main.k < 32 {
      var u := t;
      t := FirstBlankEnds(f, u);
      LeadsOn(f, s, u, t);
    }
  }

  lemma {:induction false} SecondBlankEnds(f: Font, s: State) returns (t: State)
    requires ValidFont(f) && Shape(s) && s.main.SecondBlank?
    ensures Shape(t) && Leads(f, s, t) && t.main == Join(0) && t.mac == s.mac && SameWork(s, t)
    decreases 32 - s.main.k
  {
    t := InsertStep(f, s);
    if s.main.k < 32 {
      var u := t;
      t := SecondBlankEnds(f, u);
      LeadsOn(f, s, u, t);
    }
  }

  lemma {:induction false} CreateEnds(f: Font, s: State) returns (t: State)
    requires ValidFont(f) && Shape(s) && s.main.Create?
    ensures Shape(t) && Leads(f, s, t) && t.main == MotorOn && t.mac == s.mac
    ensures t.logs[1] == s.logs[1] && t.flags[1] == s.flags[1] && SameCount(s, t)
    ensures forall j | 0 <= j < 3 :: t.threads[j] == if j < s.main.i then s.threads[j] else Guard
    decreases 3 - s.main.i
  {
    t := CreateOne(f, s);
    if s.main.i < 2 {
      var u := t;
      t := CreateEnds(f, u);
      LeadsOn(f, s, u, t);
    }
  }

  lemma CreateOne(f: Font, s: State) returns (t: State)
    requires ValidFont(f) && Shape(s) && s.main.Create?
    ensures Shape(t) && Leads(f, s, t) && t.mac == s.mac
    ensures t.main == if s.main.i < 2 then Create(s.main.i + 1) else MotorOn
    ensures t.logs[1] == s.logs[1] && t.flags[1] == s.flags[1] && SameCount(s, t)
    ensures t.threads == s.threads[s.main.i := Guard]
  {
    t := InsertStep(f, s);
  }

  // ----- Threads -----

  /** Own steps that lead a running thread back to its guard, if polls are not scanned again. */
  function ToGuard(pc: ThreadPc): nat {
    match pc
    case Sample => 12
    case PollTest(_, n) => 11 + 2 * n
    case PollClear(_, n, _) => 10 + 2 * n
    case CountHit(_, _) => 9
    case Skipping(left, _) => left + 2
    case EndTest(_) => 1
    case _ => 0
  }

  lemma ThreadCloser(s: State, i: nat)
    requires Shape(s) && i < 3 && Running(s.threads[i]) && s.threads[i] != Guard
    requires Shape(ThreadNext(s, i, false, 0))
    ensures var t := ThreadNext(s, i, false, 0);
      && t.main == s.main && (t.mac == s.mac || t.mac == 2) && Running(t.threads[i])
      && ToGuard(t.threads[i]) < ToGuard(s.threads[i])
  {
  }

  /** A running thread comes back to its guard on its own. */
  lemma {:induction false} ThreadLoops(f: Font, s: State, i: nat) returns (t: State)
    requires ValidFont(f) && Shape(s) && i < 3 && Running(s.threads[i])
    ensures Shape(t) && Leads(f, s, t) && t.main == s.main && t.threads[i] == Guard && (t.mac == s.mac || t.mac == 2)
    decreases ToGuard(s.threads[i])
  {
    if s.threads[i] == Guard {
      LeadsNowhere(f, s);
      t := s;
    } else {
      var u := ThreadStepOf(f, s, i);
      ThreadCloser(s, i);
      t := ThreadLoops(f, u, i);
      LeadsOn(f, s, u, t);
    }
  }

  /** When insertion is over, a running thread can finish. */
  lemma ThreadFinishes(f: Font, s: State, i: nat) returns (t: State)
    requires ValidFont(f) && Shape(s) && i < 3 && Running(s.threads[i]) && s.mac == 2
    ensures Shape(t) && Leads(f, s, t) && t.main == s.main && t.threads[i] == Finished
  {
    var u := ThreadLoops(f, s, i);
    t := ThreadStepOf(f, u, i);
    LeadsOn(f, s, u, t);
  }

  /** While coins are inserted, a press of key 2 lets the first thread end it. */
  lemma InsertionEnds(f: Font, s: State) returns (t: State)
    requires ValidFont(f) && Shape(s) && Running(s.threads[0]) && s.mac == 1
    ensures Shape(t) && Leads(f, s, t) && t.main == s.main && t.mac == 2
  {
    var u := ThreadLoops(f, s, 0);
    t := u;
    if u.mac == 1 {
      var v := Press(f, u, 1);
      LeadsOn(f, s, u, v);
      t := GuardEnds(f, v);
      LeadsOn(f, s, v, t);
    }
  }

  lemma GuardEnds(f: Font, s: State) returns (t: State)
    requires ValidFont(f) && Shape(s) && s.mac == 1 && s.threads[0] == Guard && s.flags[1] > 0
    ensures Shape(t) && Leads(f, s, t) && t.mac == 2 && t.threads[0] == Guard && OwnSteps(s, t)
  {
    ThreadPolls(f, s);
    var u := Run(f, s, HALF);
    ThreadEnds(f, u);
    t := Run(f, u, HALF);
    OwnTwice(s, u, t);
    LeadsOn(f, s, u, t);
  }

  lemma OwnTwice(s: State, u: State, t: State)
    requires Shape(s) && Shape(u) && Shape(t) && OwnSteps(s, u) && OwnSteps(u, t)
    ensures OwnSteps(s, t)
  {
  }

  // ----- Joining -----

  /** The thread that main waits for can finish. */
  lemma JoinedFinishes(f: Font, s: State) returns (t: State)
    requires ValidFont(f) && Shape(s) && Invariant(f, s) && s.main.Join?
    ensures Shape(t) && Leads(f, s, t) && t.main == s.main && t.threads[s.main.i] == Finished && t.mac == 2
  {
    LeadsNowhere(f, s);
    t := s;
    JoiningThreads(s);
    if s.mac == 1 {
      t := InsertionEnds(f, s);
      LeadsKeeps(f, s, t);
      JoiningThreads(t);
    }
    if t.threads[s.main.i] != Finished {
      var u := t;
      t := ThreadFinishes(f, u, s.main.i);
      LeadsOn(f, s, u, t);
      LeadsKeeps(f, s, t);
      JoiningThreads(t);
    }
  }

  lemma JoiningThreads(s: State)
    requires Shape(s) && Control(s) && s.main.Join?
    ensures s.threads[0] != NotCreated && s.threads[1] != NotCreated && s.threads[2] != NotCreated
    ensures s.mac == 1 || s.mac == 2
    ensures s.mac == 1 ==> Running(s.threads[0])
    ensures s.threads[s.main.i] != NotCreated
    ensures s.threads[s.main.i] == Finished ==> s.mac == 2
  {
    assert s.main.i == 0 || s.main.i == 1 || s.main.i == 2;
  }

  lemma {:induction false} JoinsEnd(f: Font, s: State) returns (t: State)
    requires ValidFont(f) && Shape(s) && Invariant(f, s) && s.main.Join?
    ensures Shape(t) && Leads(f, s, t) && t.main == LoopGuard && t.mac == 2
    decreases 3 - s.main.i
  {
    var u := JoinedFinishes(f, s);
    t := InsertStep(f, u);
    LeadsOn(f, s, u, t);
    if s.main.i < 2 {
      var v := t;
      LeadsKeeps(f, s, v);
      t := JoinsEnd(f, v);
      LeadsOn(f, s, v, t);
    }
  }

  lemma InsertionOver(f: Font, s: State) returns (t: State)
    requires ValidFont(f) && Shape(s) && s.main == LoopGuard && s.mac == 2
    ensures Shape(t) && Leads(f, s, t) && t.main == MenuGuard && t.mac == 2 && SameCount(s, t)
  {
    var u := InsertStep(f, s);
    t := InsertStep(f, u);
    LeadsOn(f, s, u, t);
  }

  // ----- To the menu -----

  lemma ThreadsStart(f: Font, s: State) returns (t: State)
    requires ValidFont(f) && Shape(s) && s.main == LoopGuard && s.mac == 1
    ensures Shape(t) && Leads(f, s, t) && t.main == Create(0) && t.mac == 1
    ensures SameWork(s, t)
  {
    t := InsertStep(f, s);
  }

  lemma MotorStarts(f: Font, s: State) returns (t: State)
    requires ValidFont(f) && Shape(s) && s.main == MotorOn
    ensures Shape(t) && Leads(f, s, t) && t.main == SecondBlank(0) && t.mac == s.mac && SameWork(s, t)
  {
    t := InsertStep(f, s);
  }

  /** Main is before its first blanking, or inside the loop that creates and joins the threads, or just past it. */
  predicate BeforeMenu(m: MainPc) {
    InPrep(m) || m.FirstBlank? || m.LoopGuard? || m.Create? || m.MotorOn? || m.SecondBlank? || m.Join? || m.MotorOff?
  }

  lemma LoopPhase(s: State)
    requires Shape(s) && Control(s)
    ensures s.main.LoopGuard? ==> s.mac == 1 || s.mac == 2
    ensures s.main.MotorOff? || InMenu(s.main) ==> s.mac == 2
  {
  }

  /** Every place before the menu leads to the loop's guard, or past it. */
  lemma ReachesLoop(f: Font, s: State) returns (t: State)
    requires ValidFont(f) && Shape(s) && BeforeMenu(s.main)
    ensures Shape(t) && Leads(f, s, t)
    ensures t.main == LoopGuard || t.main.Create? || t.main == MotorOn || t.main.SecondBlank? || t.main.Join?
         || t.main == MotorOff
  {
    LeadsNowhere(f, s);
    t := s;
    if InPrep(t.main) {
      t := PrepEnds(f, s);
    }
    if t.main.FirstBlank? {
      var u := t;
      t := FirstBlankEnds(f, u);
      LeadsOn(f, s, u, t);
    }
  }

  /** Once the loop body is entered, it comes to the joins. */
  lemma ReachesJoin(f: Font, s: State) returns (t: State)
    requires ValidFont(f) && Shape(s)
    requires s.main.Create? || s.main == MotorOn || s.main.SecondBlank? || s.main.Join?
    ensures Shape(t) && Leads(f, s, t) && t.main.Join?
  {
    LeadsNowhere(f, s);
    t := s;
    if t.main.Create? {
      t := CreateEnds(f, s);
    }
    if t.main == MotorOn {
      var u := t;
      t := MotorStarts(f, u);
      LeadsOn(f, s, u, t);
    }
    if t.main.SecondBlank? {
      var u := t;
      t := SecondBlankEnds(f, u);
      LeadsOn(f, s, u, t);
    }
  }

  lemma BodyEnds(f: Font, s: State) returns (t: State)
    requires ValidFont(f) && Shape(s) && Invariant(f, s)
    requires s.main.Create? || s.main == MotorOn || s.main.SecondBlank? || s.main.Join?
    ensures Shape(t) && Leads(f, s, t) && t.main == LoopGuard && t.mac == 2
  {
    var u := ReachesJoin(f, s);
    LeadsKeeps(f, s, u);
    t := JoinsEnd(f, u);
    LeadsOn(f, s, u, t);
  }

  lemma LoopEnds(f: Font, s: State) returns (t: State)
    requires ValidFont(f) && Shape(s) && Invariant(f, s) && s.main == LoopGuard
    ensures Shape(t) && Leads(f, s, t) && t.main == LoopGuard && t.mac == 2
  {
    LoopPhase(s);
    if s.mac == 1 {
      var u := ThreadsStart(f, s);
      LeadsKeeps(f, s, u);
      t := BodyEnds(f, u);
      LeadsOn(f, s, u, t);
    } else {
      LeadsNowhere(f, s);
      t := s;
    }
  }

  /** The menu can be reached from every place before it. */
  lemma ReachesMenu(f: Font, s: State) returns (t: State)
    requires ValidFont(f) && Shape(s) && Invariant(f, s) && BeforeMenu(s.main)
    ensures Shape(t) && Leads(f, s, t) && t.main == MenuGuard && t.mac == 2
  {
    var u := ReachesLoop(f, s);
    LeadsKeeps(f, s, u);
    if u.main == MotorOff {
      LoopPhase(u);
      t := InsertStep(f, u);
      LeadsOn(f, s, u, t);
    } else {
      var v;
      if u.main == LoopGuard {
        v := LoopEnds(f, u);
      } else {
        v := BodyEnds(f, u);
      }
      LeadsOn(f, s, u, v);
      t := InsertionOver(f, v);
      LeadsOn(f, s, v, t);
    }
  }

  // ----- Out of the menu -----

  /** From the menu's guard, or from the test of key 1: press it, and main goes off. */
  lemma SwitchesOff(f: Font, s: State) returns (t: State)
    requires ValidFont(f) && Shape(s) && s.mac == 2
    requires s.main == MenuGuard || s.main == MenuTest(0, [])
    ensures Shape(t) && Leads(f, s, t) && t.main == Off(true)
  {
    var u := Press(f, s, 0);
    t := RoundOff(f, u);
    MainIsEnough(f, u, t);
    LeadsOn(f, s, u, t);
  }

  /** Where key 1 wins, main's round ends with the machine off. */
  lemma {:induction false} RoundOff(f: Font, s: State) returns (t: State)
    requires ValidFont(f) && Shape(s) && InMenu(s.main) && s.mac == 2 && KeyOneWins(s)
    ensures Shape(t) && MainLeads(f, s, t) && t.main == Off(true)
    decreases RoundLeft(s.main)
  {
    t := RoundOffStep(f, s);
    if t.main != Off(true) {
      var u := t;
      t := RoundOff(f, u);
      MainLeadsOn(f, s, u, t);
    }
  }

  lemma RoundOffStep(f: Font, s: State) returns (t: State)
    requires ValidFont(f) && Shape(s) && InMenu(s.main) && s.mac == 2 && KeyOneWins(s)
    ensures Shape(t) && MainLeads(f, s, t) && t.mac == 2
    ensures t.main == Off(true) || (InMenu(t.main) && KeyOneWins(t) && RoundLeft(t.main) < RoundLeft(s.main))
  {
    match s.main
    case MenuGuard => t := MenuEnters(f, s);
    case MenuTest(i, keys) =>
      t := PollOne(f, s);
      PollWins(s, t);
    case MenuClear(i, keys) =>
      t := ClearOne(f, s);
    case Dispatch(i, keys) => t := FirstKey(f, s);
  }

  lemma PollWins(s: State, t: State)
    requires Shape(s) && Shape(t) && s.main.MenuTest? && KeyOneWins(s) && PollMoves(s, t)
    ensures InMenu(t.main) && KeyOneWins(t) && RoundLeft(t.main) < RoundLeft(s.main)
  {
    assert (s.main.keys + [s.flags[s.main.i] > 0])[0] == if s.main.i == 0 then s.flags[0] > 0 else s.main.keys[0];
  }

  /** Main has stopped, or a report it has to make this round is not an int and key 1 comes too late. */
  predicate Doomed(s: State)
    requires Shape(s)
  {
    || s.main.Aborted? || s.main.Undefined?
    || (InMenu(s.main) && s.main != MenuGuard && s.main != MenuTest(0, []) && !Answerable(s))
  }

  lemma DoomedKept(f: Font, s: State, a: Action)
    requires ValidFont(f) && Shape(s) && Control(s) && Doomed(s)
    ensures Shape(Next(f, s, a)) && Doomed(Next(f, s, a))
  {
    ShapeKept(f, s, a);
    match a
    case Interrupt(key) =>
      if key < 4 && InMenu(s.main) {
        PressDooms(s, key);
      }
    case MainStep(reps, fail) =>
      if InMenu(s.main) {
        MenuDooms(f, s, reps, fail);
      }
    case ThreadStep(i, high, scans) =>
      if i < 3 {
        ThreadDooms(f, s, i, high, scans);
      }
  }

  /** A further press only adds to what is pending. */
  lemma PressDooms(s: State, key: nat)
    requires Shape(s) && key < 4 && Doomed(s) && InMenu(s.main)
    ensures Doomed(Raise(s, key))
  {
    var t := Raise(s, key);
    assert forall j | 1 <= j < 4 :: Pending(s, j) ==> Pending(t, j);
    assert KeyOneWins(t) == KeyOneWins(s);
  }

  lemma ThreadDooms(f: Font, s: State, i: nat, high: bool, scans: nat)
    requires ValidFont(f) && Shape(s) && Control(s) && Doomed(s) && i < 3
    requires Shape(ThreadNext(s, i, high, scans))
    ensures Doomed(ThreadNext(s, i, high, scans))
  {
    ThreadFrame(s, i, high, scans);
    if InMenu(s.main) {
      assert i == 0 || i == 1 || i == 2;
      assert s.threads[i] == Finished;
    }
  }

  lemma MenuDooms(f: Font, s: State, reps: seq<nat>, fail: bool)
    requires ValidFont(f) && Shape(s) && Doomed(s) && InMenu(s.main)
    requires Shape(MenuNext(f, s, reps, fail))
    ensures Doomed(MenuNext(f, s, reps, fail))
  {
    match s.main
    case MenuGuard =>
    case MenuTest(i, keys) => TestDooms(f, s, reps, fail);
    case MenuClear(i, keys) => ClearDooms(f, s, reps, fail);
    case Dispatch(i, keys) => DispatchDooms(f, s, reps, fail);
    case Show(i, keys, buf, rs, k) => ShowDooms(f, s, reps, fail);
  }

  lemma TestDooms(f: Font, s: State, reps: seq<nat>, fail: bool)
    requires ValidFont(f) && Shape(s) && Doomed(s) && s.main.MenuTest?
    requires Shape(MenuNext(f, s, reps, fail))
    ensures Doomed(MenuNext(f, s, reps, fail))
  {
    assert s.main.i == 1 || s.main.i == 2 || s.main.i == 3;
  }

  lemma ClearDooms(f: Font, s: State, reps: seq<nat>, fail: bool)
    requires ValidFont(f) && Shape(s) && Doomed(s) && s.main.MenuClear?
    requires Shape(MenuNext(f, s, reps, fail))
    ensures Doomed(MenuNext(f, s, reps, fail))
  {
    assert s.main.i == 0 || s.main.i == 1 || s.main.i == 2 || s.main.i == 3;
  }

  lemma DispatchDooms(f: Font, s: State, reps: seq<nat>, fail: bool)
    requires ValidFont(f) && Shape(s) && Doomed(s) && s.main.Dispatch?
    requires Shape(MenuNext(f, s, reps, fail))
    ensures Doomed(MenuNext(f, s, reps, fail))
  {
    if s.main.i == 0 || s.main.i == 4 {
      EndDooms(f, s, reps, fail);
    } else {
      KeyDooms(f, s, reps, fail);
    }
  }

  lemma EndDooms(f: Font, s: State, reps: seq<nat>, fail: bool)
    requires ValidFont(f) && Shape(s) && Doomed(s) && s.main.Dispatch? && (s.main.i == 0 || s.main.i == 4)
    requires Shape(MenuNext(f, s, reps, fail))
    ensures Doomed(MenuNext(f, s, reps, fail))
  {
  }

  lemma KeyDooms(f: Font, s: State, reps: seq<nat>, fail: bool)
    requires ValidFont(f) && Shape(s) && Doomed(s) && s.main.Dispatch? && 1 <= s.main.i < 4
    requires Shape(MenuNext(f, s, reps, fail))
    ensures Doomed(MenuNext(f, s, reps, fail))
  {
    var t := MenuNext(f, s, reps, fail);
    KeyDispatches(f, s, reps, fail);
    if t.main != s.main && t.main != Undefined {
      PassingKeyDooms(s, t);
    }
  }

  lemma KeyDispatches(f: Font, s: State, reps: seq<nat>, fail: bool)
    requires ValidFont(f) && Shape(s) && s.main.Dispatch? && 1 <= s.main.i < 4
    ensures var t := MenuNext(f, s, reps, fail);
      && t.coins == s.coins
      && (t.main == s.main || t.main == Undefined || PassesKey(s, t))
  {
    if s.main.keys[s.main.i] && Fits(KindOf(s.main.i), s.coins) {
      ShowBegins(f, s, reps, fail);
    }
  }

  lemma ShowBegins(f: Font, s: State, reps: seq<nat>, fail: bool)
    requires ValidFont(f) && Shape(s) && s.main.Dispatch? && 1 <= s.main.i < 4
    requires s.main.keys[s.main.i] && Fits(KindOf(s.main.i), s.coins)
    ensures var t := MenuNext(f, s, reps, fail);
      && t.coins == s.coins
      && (t.main == s.main || (t.main.Show? && t.main.i == s.main.i && t.main.keys == s.main.keys))
  {
  }

  /** Main goes past a key that was not asked for, or begins a report that fits. */
  predicate PassesKey(s: State, t: State)
    requires Shape(s) && s.main.Dispatch? && 1 <= s.main.i < 4
  {
    && t.coins == s.coins
    && if s.main.keys[s.main.i]
       then Fits(KindOf(s.main.i), s.coins) && t.main.Show? && t.main.i == s.main.i && t.main.keys == s.main.keys
       else t.main == Dispatch(s.main.i + 1, s.main.keys)
  }

  lemma PassingKeyDooms(s: State, t: State)
    requires Shape(s) && Shape(t) && Doomed(s) && s.main.Dispatch? && 1 <= s.main.i < 4 && PassesKey(s, t)
    ensures Doomed(t)
  {
    var i := s.main.i;
    assert i == 1 || i == 2 || i == 3;
  }

  lemma ShowDooms(f: Font, s: State, reps: seq<nat>, fail: bool)
    requires ValidFont(f) && Shape(s) && Doomed(s) && s.main.Show?
    requires Shape(MenuNext(f, s, reps, fail))
    ensures Doomed(MenuNext(f, s, reps, fail))
  {
  }

  lemma {:induction false} DoomedStays(f: Font, s: State, more: seq<Action>)
    requires ValidFont(f) && Shape(s) && Invariant(f, s) && Doomed(s)
    ensures Doomed(Run(f, s, more))
  {
    if more != [] {
      DoomedStays(f, s, more[..|more| - 1]);
      Always(f, s, more[..|more| - 1]);
      DoomedKept(f, Run(f, s, more[..|more| - 1]), more[|more| - 1]);
    }
  }

  /**
    A reachable state has a continuation that switches the machine off by key 1 if and only
    if it is not doomed: main has not stopped, and in the menu key 1 can still come first or
    every report that main has yet to make in this round fits an int.
   */
  lemma CanSwitchOff(f: Font, s: State, run: seq<Action>)
    requires ValidFont(f) && Init(s) && Shape(s)
    ensures (exists more :: Run(f, s, run + more).main == Off(true)) <==> !Doomed(Run(f, s, run))
  {
    InvariantStarts(f, s);
    Always(f, s, run);
    var t := Run(f, s, run);
    if Doomed(t) {
      forall more
        ensures Run(f, s, run + more).main != Off(true)
      {
        RunOn(f, s, run, more);
        NeverOff(f, t, more);
      }
    } else {
      var more := ReachesOff(f, t);
      RunOn(f, s, run, more);
      assert Run(f, s, run + more).main == Off(true);
    }
  }

  lemma NeverOff(f: Font, s: State, more: seq<Action>)
    requires ValidFont(f) && Shape(s) && Invariant(f, s) && Doomed(s)
    ensures Run(f, s, more).main != Off(true)
  {
    DoomedStays(f, s, more);
  }

  lemma ReachesOff(f: Font, s: State) returns (more: seq<Action>)
    requires ValidFont(f) && Shape(s) && Invariant(f, s) && !Doomed(s)
    ensures Run(f, s, more).main == Off(true)
  {
    var t := OffFrom(f, s);
    more :| Run(f, s, more) == t;
  }

  lemma OffFrom(f: Font, s: State) returns (t: State)
    requires ValidFont(f) && Shape(s) && Invariant(f, s) && !Doomed(s)
    ensures Shape(t) && Leads(f, s, t) && t.main == Off(true)
  {
    if BeforeMenu(s.main) {
      var u := ReachesMenu(f, s);
      t := SwitchesOff(f, u);
      LeadsOn(f, s, u, t);
    } else if InMenu(s.main) {
      LoopPhase(s);
      t := OffFromMenu(f, s);
    } else {
      OffByKey(s);
      LeadsNowhere(f, s);
      t := s;
    }
  }

  lemma OffFromMenu(f: Font, s: State) returns (t: State)
    requires ValidFont(f) && Shape(s) && InMenu(s.main) && s.mac == 2 && !Doomed(s)
    ensures Shape(t) && Leads(f, s, t) && t.main == Off(true)
  {
    if s.main == MenuGuard || s.main == MenuTest(0, []) {
      t := SwitchesOff(f, s);
    } else {
      var u := RoundEnds(f, s);
      MainIsEnough(f, s, u);
      t := u;
      if u.main == MenuGuard {
        t := SwitchesOff(f, u);
        LeadsOn(f, s, u, t);
      }
    }
  }

  lemma OffByKey(s: State)
    requires Shape(s) && Control(s) && !BeforeMenu(s.main) && !InMenu(s.main) && !s.main.Aborted? && !s.main.Undefined?
    ensures s.main == Off(true)
  {
  }
}
