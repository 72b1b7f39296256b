/**
  Runs that exist: what the bounds and conditions of the other theorems allow does
  happen in the machine.
 */
module MachineWitnesses {
  import Debounce
  import opened Digits
  import opened KeyEvents
  import opened Glyphs
  import opened Machine
  import opened MachineSafety
  import opened MachineKeys
  import opened MachineRuns
  import opened MachineEnding
  import opened MachineLiveness
  import opened MachineProgress
  import opened Reports

  // ----- The start of insertion, with and without an early press of key 2 -----

  lemma ReachesStart(f: Font, s: State) returns (t: State)
    requires ValidFont(f) && Shape(s) && s.main == PrepGuard && s.mac == 0
    ensures Shape(t) && Leads(f, s, t) && t.main == LoopGuard && t.mac == 1 && NotStarted(s, t)
  {
    var u := PrepStarts(f, s);
    t := FirstBlankEnds(f, u);
    LeadsOn(f, s, u, t);
  }

  /** Both sides of the condition for ending insertion early occur: key 2 pressed before the start, or not. */
  lemma EarlyPressOccurs(f: Font, s: State, early: bool) returns (run: seq<Action>)
    requires ValidFont(f) && Init(s) && Shape(s)
    ensures AboutToStart(Run(f, s, run)) && (Irqs(Run(f, s, run).logs[1]) > 0 <==> early)
  {
    var u := s;
    if early {
      u := Press(f, s, 1);
      FlagSnoc(s.logs[1], Irq);
    } else {
      LeadsNowhere(f, s);
    }
    var t := ReachesStart(f, u);
    LeadsOn(f, s, u, t);
    run :| Run(f, s, run) == t;
  }

  // ----- A lost interrupt -----

  /** Main tests key 1, the key interrupts, main clears: nobody ever reports it. */
  lemma InterruptIsLost(f: Font, s: State) returns (run: seq<Action>)
    requires ValidFont(f) && Init(s) && Shape(s)
    ensures var log := Run(f, s, run).logs[0];
      Wipes(log, 1, 2) && !Reported(log, 1)
  {
    var t := PressInsidePoll(f, s);
    run :| Run(f, s, run) == t;
    var log := t.logs[0];
    assert log[..0] == [];
    assert IsPoll(log, 0, 2) && !Ready(log, 0) && UntestedUntil(log, 1, 2);
    KeyInterruptLost(f, s, run, 0, 1, 2);
  }

  lemma PressInsidePoll(f: Font, s: State) returns (t: State)
    requires ValidFont(f) && Init(s) && Shape(s)
    ensures Shape(t) && Leads(f, s, t) && t.logs[0] == [Test(MAIN), Irq, Clear(MAIN)]
  {
    var u := TestsKey1(f, s);
    t := PressBeforeClear(f, u);
    LeadsOn(f, s, u, t);
    assert [] + [Test(MAIN)] + [Irq, Clear(MAIN)] == [Test(MAIN), Irq, Clear(MAIN)];
  }

  lemma PressBeforeClear(f: Font, s: State) returns (t: State)
    requires ValidFont(f) && Shape(s) && s.main.PrepClear?
    ensures Shape(t) && Leads(f, s, t) && t.logs[0] == s.logs[0] + [Irq, Clear(MAIN)]
  {
    var u := Press(f, s, 0);
    t := PrepStep(f, u);
    LeadsOn(f, s, u, t);
    assert s.logs[0] + [Irq] + [Clear(MAIN)] == s.logs[0] + [Irq, Clear(MAIN)];
  }

  lemma TestsKey1(f: Font, s: State) returns (t: State)
    requires ValidFont(f) && Shape(s) && s.main == PrepGuard && s.mac == 0
    ensures Shape(t) && Leads(f, s, t) && t.main.PrepClear? && t.logs[0] == s.logs[0] + [Test(MAIN)]
  {
    var u := PrepStep(f, s);
    t := PrepStep(f, u);
    LeadsOn(f, s, u, t);
  }

  // ----- One interrupt, three reports -----

  /** A thread at its guard samples and is about to poll. */
  lemma ComesToPoll(f: Font, s: State, i: nat) returns (t: State)
    requires ValidFont(f) && Shape(s) && i < 3 && s.mac == 1 && s.threads[i] == Guard
    ensures Shape(t) && Leads(f, s, t) && t.mac == 1 && t.logs[1] == s.logs[1] && t.flags[1] == s.flags[1]
    ensures t.threads == s.threads[i := PollTest(false, 0)]
  {
    var u := ThreadStepOf(f, s, i);
    t := ThreadStepOf(f, u, i);
    LeadsOn(f, s, u, t);
  }

  lemma TestsKey2(f: Font, s: State, i: nat) returns (t: State)
    requires ValidFont(f) && Shape(s) && i < 3 && s.threads[i].PollTest?
    ensures Shape(t) && Leads(f, s, t) && t.logs[1] == s.logs[1] + [Test(i)] && t.flags[1] == s.flags[1]
    ensures forall j | 0 <= j < 3 && j != i :: t.threads[j] == s.threads[j]
  {
    t := ThreadStepOf(f, s, i);
  }

  lemma ThreeAtPoll(f: Font, s: State) returns (t: State)
    requires ValidFont(f) && Shape(s) && s.mac == 1
    requires AllAtGuard(s)
    ensures Shape(t) && Leads(f, s, t) && t.logs[1] == s.logs[1] && t.flags[1] == s.flags[1]
    ensures t.threads[0].PollTest? && t.threads[1].PollTest? && t.threads[2].PollTest?
  {
    var u := ComesToPoll(f, s, 0);
    var v := ComesToPoll(f, u, 1);
    LeadsOn(f, s, u, v);
    t := ComesToPoll(f, v, 2);
    LeadsOn(f, s, v, t);
  }

  lemma ThreeTest(f: Font, s: State) returns (t: State)
    requires ValidFont(f) && Shape(s)
    requires s.threads[0].PollTest? && s.threads[1].PollTest? && s.threads[2].PollTest?
    ensures Shape(t) && Leads(f, s, t) && t.logs[1] == s.logs[1] + [Test(0)] + [Test(1)] + [Test(2)]
  {
    var u := TestsKey2(f, s, 0);
    var v := TestsKey2(f, u, 1);
    LeadsOn(f, s, u, v);
    t := TestsKey2(f, v, 2);
    LeadsOn(f, s, v, t);
  }

  lemma ThreadsExist(f: Font, s: State) returns (t: State)
    requires ValidFont(f) && Shape(s) && s.main == PrepGuard && s.mac == 0
    ensures Shape(t) && Leads(f, s, t) && t.main == MotorOn && t.mac == 1 && t.logs[1] == s.logs[1]
    ensures AllAtGuard(t) && SameCount(s, t) && t.flags[1] == s.flags[1]
  {
    var u := ReachesStart(f, s);
    var v := ThreadsStart(f, u);
    LeadsOn(f, s, u, v);
    t := CreateEnds(f, v);
    LeadsOn(f, s, v, t);
  }

  predicate AllAtGuard(s: State)
    requires Shape(s)
  {
    s.threads[0] == Guard && s.threads[1] == Guard && s.threads[2] == Guard
  }

  lemma CountTests(log: seq<Event>)
    requires Flag(log) > 0
    ensures ReadyTests(log + [Test(0)] + [Test(1)] + [Test(2)]) == ReadyTests(log) + 3
    ensures Irqs(log + [Test(0)] + [Test(1)] + [Test(2)]) == Irqs(log)
  {
    FlagSnoc(log, Test(0));
    FlagSnoc(log + [Test(0)], Test(1));
    FlagSnoc(log + [Test(0)] + [Test(1)], Test(2));
  }

  lemma ThreePollsReport(f: Font, s: State) returns (t: State)
    requires ValidFont(f) && Shape(s) && s.mac == 1 && AllAtGuard(s) && s.logs[1] == []
    ensures Shape(t) && Leads(f, s, t) && ReadyTests(t.logs[1]) == 3 && Irqs(t.logs[1]) == 1
  {
    var u := ThreeAtPoll(f, s);
    var v := Press(f, u, 1);
    LeadsOn(f, s, u, v);
    t := ThreeTest(f, v);
    LeadsOn(f, s, v, t);
    FlagSnoc([], Irq);
    assert v.logs[1] == [] + [Irq];
    CountTests(v.logs[1]);
  }

  /** From power-on: one interrupt of key 2, and each of the three threads reports it. */
  lemma ThreeReportsOccur(f: Font, s: State) returns (run: seq<Action>)
    requires ValidFont(f) && Init(s) && Shape(s)
    ensures var log := Run(f, s, run).logs[1];
      ReadyTests(log) == 3 && Irqs(log) == 1
  {
    var u := ThreadsExist(f, s);
    var t := ThreePollsReport(f, u);
    LeadsOn(f, s, u, t);
    run :| Run(f, s, run) == t;
  }

  /** That a press is reported at most once, in every run, holds of every key but key 2. */
  lemma ReportedOnceExactly(f: Font, s: State, key: nat)
    requires ValidFont(f) && Init(s) && Shape(s) && key < 4
    ensures (forall run :: ReadyTests(Run(f, s, run).logs[key]) <= Irqs(Run(f, s, run).logs[key])) <==> key != 1
  {
    if key == 1 {
      var run := ThreeReportsOccur(f, s);
    } else {
      forall run
        ensures ReadyTests(Run(f, s, run).logs[key]) <= Irqs(Run(f, s, run).logs[key])
      {
        KeyReportsBounded(f, s, run, key);
      }
    }
  }

  /** The first thread is at `pc`, the others are at their guards, and insertion goes on. */
  predicate FirstAt(s: State, pc: ThreadPc)
    requires Shape(s)
  {
    s.mac == 1 && s.threads == [pc, Guard, Guard]
  }

  lemma TestsZero(f: Font, s: State) returns (t: State)
    requires ValidFont(f) && Shape(s) && FirstAt(s, PollTest(false, 0)) && s.flags[1] == 0
    ensures Shape(t) && Leads(f, s, t) && FirstAt(t, PollClear(false, 0, false))
    ensures t.logs[1] == s.logs[1] + [Test(0)]
  {
    t := ThreadStepOf(f, s, 0);
  }

  lemma ClearsUnseen(f: Font, s: State) returns (t: State)
    requires ValidFont(f) && Shape(s) && FirstAt(s, PollClear(false, 0, false))
    ensures Shape(t) && Leads(f, s, t) && FirstAt(t, CountHit(false, false)) && t.flags[1] == 0
    ensures t.logs[1] == s.logs[1] + [Clear(0)]
  {
    t := ThreadStepOf(f, s, 0);
  }

  /** The key interrupts between test and clear. */
  lemma PressUnseen(f: Font, s: State) returns (t: State)
    requires ValidFont(f) && Shape(s) && FirstAt(s, PollClear(false, 0, false))
    ensures Shape(t) && Leads(f, s, t) && FirstAt(t, CountHit(false, false)) && t.flags[1] == 0
    ensures t.logs[1] == s.logs[1] + [Irq, Clear(0)]
  {
    var u := Press(f, s, 1);
    t := ClearsUnseen(f, u);
    LeadsOn(f, s, u, t);
    assert s.logs[1] + [Irq] + [Clear(0)] == s.logs[1] + [Irq, Clear(0)];
  }

  /** From the guards: the first thread polls key 2 and reads zero, the key interrupts, the thread clears. */
  lemma PressInsideThreadPoll(f: Font, s: State) returns (t: State)
    requires ValidFont(f) && Shape(s) && s.mac == 1 && AllAtGuard(s) && s.flags[1] == 0
    ensures Shape(t) && Leads(f, s, t) && FirstAt(t, CountHit(false, false)) && t.flags[1] == 0
    ensures t.logs[1] == s.logs[1] + [Test(0)] + [Irq, Clear(0)]
  {
    var u := ComesToPoll(f, s, 0);
    var v := TestsZero(f, u);
    LeadsOn(f, s, u, v);
    t := PressUnseen(f, v);
    LeadsOn(f, s, v, t);
  }

  /** A press of key 2 was lost during insertion: the flag is down and no thread is ending insertion. */
  ghost predicate EndLost(t: State)
    requires Shape(t)
  {
    && t.mac == 1 && !SomeEnds(t) && t.flags[1] == 0
    && Wipes(t.logs[1], 1, 2) && LostInside(t.logs[1], 1, 2)
  }

  lemma LostInLog(t: State)
    requires Shape(t) && FirstAt(t, CountHit(false, false)) && t.flags[1] == 0
    requires t.logs[1] == [] + [Test(0)] + [Irq, Clear(0)]
    ensures EndLost(t)
  {
    var log := t.logs[1];
    assert log == [Test(0), Irq, Clear(0)] && log[..0] == [];
    assert IsPoll(log, 0, 2) && !Ready(log, 0) && UntestedUntil(log, 1, 2);
  }

  lemma LosesPress(f: Font, s: State) returns (t: State)
    requires ValidFont(f) && Init(s) && Shape(s)
    ensures Shape(t) && Leads(f, s, t) && EndLost(t)
  {
    var u := ThreadsExist(f, s);
    t := PressInsideThreadPoll(f, u);
    LeadsOn(f, s, u, t);
    LostInLog(t);
  }

  /** From power-on, a run in which a press of key 2 is lost and insertion goes on. */
  lemma EndPressIsLost(f: Font, s: State) returns (run: seq<Action>)
    requires ValidFont(f) && Init(s) && Shape(s)
    ensures EndLost(Run(f, s, run))
  {
    var t := LosesPress(f, s);
    run :| Run(f, s, run) == t;
  }

  // ----- A report of every kind -----

  /** From the threads' creation to the joins, with key 2 pressed and no coin inserted. */
  lemma NoCoins(f: Font, s: State) returns (t: State)
    requires ValidFont(f) && Shape(s) && s.main == MotorOn && s.mac == 1 && AllAtGuard(s)
    ensures Shape(t) && Leads(f, s, t) && t.main == Join(0) && t.mac == 2 && AllAtGuard(t) && SameCount(s, t)
  {
    var u := MotorStarts(f, s);
    var v := SecondBlankEnds(f, u);
    LeadsOn(f, s, u, v);
    var w := Press(f, v, 1);
    LeadsOn(f, s, v, w);
    t := GuardEnds(f, w);
    LeadsOn(f, s, w, t);
  }

  /** A thread at its guard finishes when insertion is over. */
  lemma LeavesGuard(f: Font, s: State, i: nat) returns (t: State)
    requires ValidFont(f) && Shape(s) && i < 3 && s.mac == 2 && s.threads[i] == Guard
    ensures Shape(t) && Leads(f, s, t) && t.main == s.main && t.mac == 2 && SameCount(s, t)
    ensures t.threads == s.threads[i := Finished]
  {
    t := ThreadStepOf(f, s, i);
  }

  lemma AllLeaveGuard(f: Font, s: State) returns (t: State)
    requires ValidFont(f) && Shape(s) && s.mac == 2 && AllAtGuard(s)
    ensures Shape(t) && Leads(f, s, t) && t.main == s.main && t.mac == 2 && SameCount(s, t)
    ensures t.threads[0] == Finished && t.threads[1] == Finished && t.threads[2] == Finished
  {
    var u := LeavesGuard(f, s, 0);
    var v := LeavesGuard(f, u, 1);
    LeadsOn(f, s, u, v);
    t := LeavesGuard(f, v, 2);
    LeadsOn(f, s, v, t);
  }

  lemma {:induction false} JoinsPass(f: Font, s: State) returns (t: State)
    requires ValidFont(f) && Shape(s) && s.main.Join? && s.mac == 2
    requires s.threads[0] == Finished && s.threads[1] == Finished && s.threads[2] == Finished
    ensures Shape(t) && Leads(f, s, t) && t.main == LoopGuard && t.mac == 2 && SameCount(s, t)
    decreases 3 - s.main.i
  {
    assert s.main.i == 0 || s.main.i == 1 || s.main.i == 2;
    t := InsertStep(f, s);
    if s.main.i < 2 {
      var u := t;
      t := JoinsPass(f, u);
      LeadsOn(f, s, u, t);
    }
  }

  /** From the threads' creation to the menu, with no further coin. */
  lemma ToMenu(f: Font, s: State) returns (t: State)
    requires ValidFont(f) && Shape(s) && s.main == MotorOn && s.mac == 1 && AllAtGuard(s)
    ensures Shape(t) && Leads(f, s, t) && t.main == MenuGuard && t.mac == 2 && SameCount(s, t)
  {
    var v := NoCoins(f, s);
    var w := AllLeaveGuard(f, v);
    LeadsOn(f, s, v, w);
    var x := JoinsPass(f, w);
    LeadsOn(f, s, w, x);
    t := InsertionOver(f, x);
    LeadsOn(f, s, x, t);
  }

  lemma AnswersPress(f: Font, s: State, i: nat) returns (t: State)
    requires ValidFont(f) && Shape(s) && s.main == MenuGuard && s.mac == 2 && NothingOverflows(s)
    requires 1 <= i < 4 && s.flags[0] == 0 && s.flags[i] > 0
    ensures Shape(t) && Leads(f, s, t) && t.coins == s.coins
    ensures ReportsOfKind(t.reports, KindOf(i)) == ReportsOfKind(s.reports, KindOf(i)) + 1
  {
    NoOverflowIsAnswerable(s);
    var run := MenuReturns(f, s);
    MenuAnswers(f, s, run);
    t := Run(f, s, run);
    assert Leads(f, s, t);
    OneAnswer(s, t, i);
  }

  lemma OneAnswer(s: State, t: State, i: nat)
    requires Shape(s) && Shape(t) && RoundDone(s, t) && 1 <= i < 4 && s.flags[0] == 0 && s.flags[i] > 0
    ensures ReportsOfKind(t.reports, KindOf(i)) == ReportsOfKind(s.reports, KindOf(i)) + 1
  {
    assert i == 1 || i == 2 || i == 3;
  }

  // ----- Polls that look again -----

  lemma TestsDown(f: Font, s: State, i: nat) returns (t: State)
    requires ValidFont(f) && Shape(s) && i < 3 && s.threads[i].PollTest? && s.flags[1] == 0
    ensures Shape(t) && Leads(f, s, t) && t.flags[1] == 0 && |t.logs[1]| == |s.logs[1]| + 1
    ensures t.threads[i] == PollClear(s.threads[i].hit, s.threads[i].scans, false)
  {
    t := ThreadStepOf(f, s, i);
  }

  lemma ClearsDown(f: Font, s: State, i: nat, hit: bool, n: nat) returns (t: State)
    requires ValidFont(f) && Shape(s) && i < 3 && s.threads[i] == PollClear(hit, n, false)
    ensures Shape(t) && Leads(f, s, t) && t.flags[1] == 0 && |t.logs[1]| == |s.logs[1]| + 1
    ensures t.threads[i] == if n > 0 then PollTest(hit, n - 1) else CountHit(hit, false)
  {
    t := ThreadStepOf(f, s, i);
  }

  lemma LooksOnce(f: Font, s: State, i: nat) returns (t: State)
    requires ValidFont(f) && Shape(s) && i < 3 && s.threads[i].PollTest? && s.flags[1] == 0
    ensures Shape(t) && Leads(f, s, t) && t.flags[1] == 0 && |t.logs[1]| == |s.logs[1]| + 2
    ensures t.threads[i] == if s.threads[i].scans > 0 then PollTest(s.threads[i].hit, s.threads[i].scans - 1)
                            else CountHit(s.threads[i].hit, false)
  {
    var u := TestsDown(f, s, i);
    t := ClearsDown(f, u, i, s.threads[i].hit, s.threads[i].scans);
    LeadsOn(f, s, u, t);
  }

  /** While key 2 is down, a thread's poll tests and clears once and then once more for each extra scan. */
  lemma {:induction false} LooksAgain(f: Font, s: State, i: nat) returns (t: State)
    requires ValidFont(f) && Shape(s) && i < 3 && s.threads[i].PollTest? && s.flags[1] == 0
    ensures Shape(t) && Leads(f, s, t) && t.threads[i] == CountHit(s.threads[i].hit, false)
    ensures |t.logs[1]| == |s.logs[1]| + 2 * (s.threads[i].scans + 1)
    decreases s.threads[i].scans
  {
    t := LooksOnce(f, s, i);
    if s.threads[i].scans > 0 {
      var u := t;
      t := LooksAgain(f, u, i);
      LeadsOn(f, s, u, t);
    }
  }

  // ----- Reports at any pace -----

  /** The last finished report is of this kind and showed its windows this often. */
  predicate LastShown(t: State, kind: Kind, reps: seq<nat>) {
    |t.reports| > 0 && t.reports[|t.reports| - 1].kind == kind && t.reports[|t.reports| - 1].reps == reps
  }

  lemma ShowGoes(f: Font, s: State)
    requires ValidFont(f) && Shape(s) && s.main.Show?
    ensures var t := MenuNext(f, s, [], false);
      if WritesLeft(s.main) > 0 then
        Shape(t) && t.main.Show? && t.main.i == s.main.i && t.main.reps == s.main.reps
        && WritesLeft(t.main) < WritesLeft(s.main)
      else LastShown(t, KindOf(s.main.i), s.main.reps)
  {
    MenuShape(f, s, [], false);
  }

  lemma {:induction false} ShowsAll(f: Font, s: State) returns (t: State)
    requires ValidFont(f) && Shape(s) && s.main.Show?
    ensures Shape(t) && Leads(f, s, t) && LastShown(t, KindOf(s.main.i), s.main.reps)
    decreases WritesLeft(s.main)
  {
    ShowGoes(f, s);
    t := OneAction(f, s, MainStep([], false));
    if WritesLeft(s.main) > 0 {
      var u := t;
      t := ShowsAll(f, u);
      LeadsOn(f, s, u, t);
    }
  }

  lemma MoneyBegins(f: Font, s: State, reps: seq<nat>) returns (t: State)
    requires ValidFont(f) && Shape(s) && s.main.Dispatch? && s.main.i == 1 && s.main.keys[1] && Fits(Money, s.coins)
    requires |ImageOf(f, Money, s.coins)| == |reps| + 7 && forall r | r in reps :: r >= 1
    ensures Shape(t) && Leads(f, s, t) && t.main.Show? && t.main.i == 1 && t.main.reps == reps
  {
    ImageHasGlyphs(f, Money, s.coins);
    assert forall k | 0 <= k < |reps| :: reps[k] in reps;
    t := OneAction(f, s, MainStep(reps, false));
  }

  lemma MoneyAsked(f: Font, s: State, a: nat, b: nat, c: nat) returns (t: State)
    requires ValidFont(f) && Init(s) && Shape(s)
    ensures Shape(t) && Leads(f, s, t) && t.coins == [a, b, c]
    ensures t.main.Dispatch? && t.main.i == 0 && !t.main.keys[0] && t.main.keys[1]
  {
    var u := MenuWithCoins(f, s, a, b, c);
    var v := Press(f, u, 1);
    LeadsOn(f, s, u, v);
    t := AsksForMoney(f, v);
    LeadsOn(f, s, v, t);
  }

  lemma AsksForMoney(f: Font, s: State) returns (t: State)
    requires ValidFont(f) && Shape(s) && s.main == MenuGuard && s.mac == 2 && s.flags[0] == 0 && s.flags[1] > 0
    ensures Shape(t) && Leads(f, s, t) && t.coins == s.coins
    ensures t.main.Dispatch? && t.main.i == 0 && !t.main.keys[0] && t.main.keys[1]
  {
    var u := MenuEnters(f, s);
    t := PollsKeys(f, u);
    MainLeadsOn(f, s, u, t);
    MainIsEnough(f, s, t);
  }

  lemma MoneyShownAt(f: Font, s: State, reps: seq<nat>) returns (t: State)
    requires ValidFont(f) && Shape(s) && s.main.Dispatch? && s.main.i == 0 && !s.main.keys[0] && s.main.keys[1]
    requires Fits(Money, s.coins)
    requires |ImageOf(f, Money, s.coins)| == |reps| + 7 && forall r | r in reps :: r >= 1
    ensures Shape(t) && Leads(f, s, t) && LastShown(t, Money, reps)
  {
    var u := FirstKey(f, s);
    MainIsEnough(f, s, u);
    var v := MoneyBegins(f, u, reps);
    LeadsOn(f, s, u, v);
    t := ShowsAll(f, v);
    LeadsOn(f, s, v, t);
  }

  /** From power-on, for every pace with each window shown once at least: a run shows the total at that pace. */
  lemma AnyPaceOccurs(f: Font, s: State, a: nat, b: nat, c: nat, reps: seq<nat>) returns (run: seq<Action>)
    requires ValidFont(f) && Init(s) && Shape(s) && Total(a, b, c) <= INT_MAX
    requires |ImageOf(f, Money, [a, b, c])| == |reps| + 7 && forall r | r in reps :: r >= 1
    ensures LastShown(Run(f, s, run), Money, reps)
  {
    var u := MoneyAsked(f, s, a, b, c);
    var t := MoneyShownAt(f, u, reps);
    LeadsOn(f, s, u, t);
    run :| Run(f, s, run) == t;
  }

  // ----- Counting -----

  /** All that the steps of thread `i` leave alone while key 2 is down. */
  function Others(s: State, i: nat): State
    requires Shape(s) && i < 3
  {
    s.(threads := s.threads[i := Finished], coins := s.coins[i := 0], logs := [], samples := [])
  }

  /** Thread `i` counts `n` coins; nothing else happens, and key 2 is not raised. */
  predicate CountedBy(s: State, t: State, i: nat, n: nat)
    requires Shape(s) && Shape(t) && i < 3
  {
    Others(t, i) == Others(s, i) && s.flags[1] == t.flags[1] == 0 && t.coins[i] == s.coins[i] + n
  }

  lemma OthersSame(s: State, t: State, i: nat, j: nat)
    requires Shape(s) && Shape(t) && i < 3 && j < 3 && i != j && Others(t, i) == Others(s, i)
    ensures t.threads[j] == s.threads[j] && t.coins[j] == s.coins[j]
    ensures t.main == s.main && t.mac == s.mac && t.reports == s.reports && t.flags == s.flags
  {
    assert Others(t, i).threads[j] == t.threads[j] && Others(s, i).threads[j] == s.threads[j];
    assert Others(t, i).coins[j] == t.coins[j] && Others(s, i).coins[j] == s.coins[j];
  }

  lemma CountsOn(s: State, t: State, u: State, i: nat, m: nat, n: nat)
    requires Shape(s) && Shape(t) && Shape(u) && i < 3 && CountedBy(s, t, i, m) && CountedBy(t, u, i, n)
    ensures CountedBy(s, u, i, m + n)
  {
  }

  /** Where a thread goes with a high sample and key 2 down. */
  function HighNext(pc: ThreadPc, mac: nat): ThreadPc {
    match pc
    case Guard => if mac == 1 then Sample else Finished
    case Sample => PollTest(true, 0)
    case PollTest(hit, n) => PollClear(hit, n, false)
    case PollClear(hit, n, ready) => if !ready && n > 0 then PollTest(hit, n - 1) else CountHit(hit, ready)
    case CountHit(hit, ready) => if hit then Skipping(Debounce.SKIP, ready) else EndTest(ready)
    case Skipping(left, ready) => if left > 0 then Skipping(left - 1, ready) else EndTest(ready)
    case EndTest(_) => Guard
    case pc => pc
  }

  function CoinNow(pc: ThreadPc): nat {
    if pc.CountHit? && pc.hit then 1 else 0
  }

  lemma HighStep(f: Font, s: State, i: nat) returns (t: State)
    requires ValidFont(f) && Shape(s) && i < 3 && s.flags[1] == 0 && s.threads[i] != EndTest(true)
    ensures Shape(t) && Leads(f, s, t)
    ensures t.threads[i] == HighNext(s.threads[i], s.mac)
    ensures CountedBy(s, t, i, CoinNow(s.threads[i]))
  {
    t := OneAction(f, s, ThreadStep(i, true, 0));
    HighMoves(s, i);
    HighKeeps(s, i);
  }

  lemma HighMoves(s: State, i: nat)
    requires Shape(s) && i < 3 && s.flags[1] == 0
    ensures var t := ThreadNext(s, i, true, 0);
      && |t.threads| == |t.coins| == 3 && |t.flags| == 4
      && t.threads[i] == HighNext(s.threads[i], s.mac)
      && t.coins[i] == s.coins[i] + CoinNow(s.threads[i])
      && t.flags == s.flags
  {
    assert s.flags[1 := 0] == s.flags;
  }

  lemma HighKeeps(s: State, i: nat)
    requires Shape(s) && i < 3 && s.flags[1] == 0 && s.threads[i] != EndTest(true)
    requires Shape(ThreadNext(s, i, true, 0))
    ensures Others(ThreadNext(s, i, true, 0), i) == Others(s, i)
  {
    HighMoves(s, i);
    var t := ThreadNext(s, i, true, 0);
    assert t.threads[i := Finished] == s.threads[i := Finished];
    assert t.coins[i := 0] == s.coins[i := 0];
  }

  /** The thread has read its high sample and not yet counted it, and its poll is not ready. */
  predicate CoinAhead(pc: ThreadPc) {
    match pc
    case Sample => true
    case PollTest(hit, _) => hit
    case PollClear(hit, _, ready) => hit && !ready
    case CountHit(hit, ready) => hit && !ready
    case _ => false
  }

  predicate CoinBehind(pc: ThreadPc) {
    match pc
    case Skipping(_, ready) => !ready
    case EndTest(ready) => !ready
    case _ => false
  }

  function Owed(pc: ThreadPc): nat {
    if CoinAhead(pc) then 1 else 0
  }

  /** Each such step brings the thread closer to its guard and pays what it owes. */
  lemma HighCloser(pc: ThreadPc, mac: nat)
    requires CoinAhead(pc) || CoinBehind(pc)
    ensures var next := HighNext(pc, mac);
      && CoinNow(pc) + Owed(next) == Owed(pc)
      && (next == Guard || ((CoinAhead(next) || CoinBehind(next)) && ToGuard(next) < ToGuard(pc)))
  {
  }

  lemma {:induction false} ComesBack(f: Font, s: State, i: nat) returns (t: State)
    requires ValidFont(f) && Shape(s) && i < 3 && s.flags[1] == 0
    requires CoinAhead(s.threads[i]) || CoinBehind(s.threads[i])
    ensures Shape(t) && Leads(f, s, t) && t.threads[i] == Guard
    ensures CountedBy(s, t, i, Owed(s.threads[i]))
    decreases ToGuard(s.threads[i])
  {
    var u := HighStep(f, s, i);
    HighCloser(s.threads[i], s.mac);
    if u.threads[i] == Guard {
      t := u;
    } else {
      t := ComesBack(f, u, i);
      LeadsOn(f, s, u, t);
      CountsOn(s, u, t, i, CoinNow(s.threads[i]), Owed(u.threads[i]));
    }
  }

  lemma CountsCoin(f: Font, s: State, i: nat) returns (t: State)
    requires ValidFont(f) && Shape(s) && i < 3 && s.mac == 1 && s.threads[i] == Guard && s.flags[1] == 0
    ensures Shape(t) && Leads(f, s, t) && t.threads[i] == Guard && CountedBy(s, t, i, 1)
  {
    var u := HighStep(f, s, i);
    t := ComesBack(f, u, i);
    LeadsOn(f, s, u, t);
    CountsOn(s, u, t, i, 0, 1);
  }

  lemma CountsNothing(s: State, i: nat)
    requires Shape(s) && i < 3 && s.flags[1] == 0
    ensures CountedBy(s, s, i, 0)
  {
  }

  /** Each sensor can count any number of coins. */
  lemma {:induction false} CountsMany(f: Font, s: State, i: nat, n: nat) returns (t: State)
    requires ValidFont(f) && Shape(s) && i < 3 && s.mac == 1 && s.threads[i] == Guard && s.flags[1] == 0
    ensures Shape(t) && Leads(f, s, t) && t.threads[i] == Guard && CountedBy(s, t, i, n)
    decreases n
  {
    if n == 0 {
      LeadsNowhere(f, s);
      CountsNothing(s, i);
      t := s;
    } else {
      var u := CountsCoin(f, s, i);
      t := CountsMany(f, u, i, n - 1);
      LeadsOn(f, s, u, t);
      CountsOn(s, u, t, i, 1, n - 1);
    }
  }

  // ----- Any amount -----

  /** All threads are at their guards again and have counted these coins; main, the reports and key 2 are as before. */
  predicate Inserted(s: State, t: State, a: nat, b: nat, c: nat)
    requires Shape(s) && Shape(t)
  {
    && AllAtGuard(t) && t.main == s.main && t.mac == s.mac && t.reports == s.reports
    && t.flags[0] == s.flags[0] && t.flags[1] == 0
    && t.coins[0] == s.coins[0] + a && t.coins[1] == s.coins[1] + b && t.coins[2] == s.coins[2] + c
  }

  lemma InsertsFirst(f: Font, s: State, a: nat) returns (t: State)
    requires ValidFont(f) && Shape(s) && s.mac == 1 && AllAtGuard(s) && s.flags[1] == 0
    ensures Shape(t) && Leads(f, s, t) && Inserted(s, t, a, 0, 0)
  {
    t := CountsMany(f, s, 0, a);
    OthersSame(s, t, 0, 1);
    OthersSame(s, t, 0, 2);
  }

  lemma InsertsSecond(f: Font, s: State, b: nat) returns (t: State)
    requires ValidFont(f) && Shape(s) && s.mac == 1 && AllAtGuard(s) && s.flags[1] == 0
    ensures Shape(t) && Leads(f, s, t) && Inserted(s, t, 0, b, 0)
  {
    t := CountsMany(f, s, 1, b);
    OthersSame(s, t, 1, 0);
    OthersSame(s, t, 1, 2);
  }

  lemma InsertsThird(f: Font, s: State, c: nat) returns (t: State)
    requires ValidFont(f) && Shape(s) && s.mac == 1 && AllAtGuard(s) && s.flags[1] == 0
    ensures Shape(t) && Leads(f, s, t) && Inserted(s, t, 0, 0, c)
  {
    t := CountsMany(f, s, 2, c);
    OthersSame(s, t, 2, 0);
    OthersSame(s, t, 2, 1);
  }

  lemma InsertsTwo(f: Font, s: State, a: nat, b: nat) returns (t: State)
    requires ValidFont(f) && Shape(s) && s.mac == 1 && AllAtGuard(s) && s.flags[1] == 0
    ensures Shape(t) && Leads(f, s, t) && Inserted(s, t, a, b, 0)
  {
    var u := InsertsFirst(f, s, a);
    t := InsertsSecond(f, u, b);
    LeadsOn(f, s, u, t);
  }

  lemma InsertsCoins(f: Font, s: State, a: nat, b: nat, c: nat) returns (t: State)
    requires ValidFont(f) && Shape(s) && s.mac == 1 && AllAtGuard(s) && s.flags[1] == 0
    ensures Shape(t) && Leads(f, s, t) && Inserted(s, t, a, b, c)
  {
    var u := InsertsTwo(f, s, a, b);
    t := InsertsThird(f, u, c);
    LeadsOn(f, s, u, t);
  }

  /** From the threads' creation to the menu with these coins counted. */
  lemma CoinsThenMenu(f: Font, s: State, a: nat, b: nat, c: nat) returns (t: State)
    requires ValidFont(f) && Shape(s) && s.main == MotorOn && s.mac == 1 && AllAtGuard(s) && s.flags[1] == 0
    ensures Shape(t) && Leads(f, s, t) && t.main == MenuGuard && t.mac == 2 && InMenuWith(s, t, a, b, c)
  {
    var u := InsertsCoins(f, s, a, b, c);
    t := ToMenu(f, u);
    LeadsOn(f, s, u, t);
    SameInMenu(s, u, t, a, b, c);
  }

  predicate InMenuWith(s: State, t: State, a: nat, b: nat, c: nat)
    requires Shape(s) && Shape(t)
  {
    && t.coins[0] == s.coins[0] + a && t.coins[1] == s.coins[1] + b && t.coins[2] == s.coins[2] + c
    && t.reports == s.reports && (t.flags[0] == s.flags[0] || t.flags[0] == 0)
  }

  lemma SameInMenu(s: State, u: State, t: State, a: nat, b: nat, c: nat)
    requires Shape(s) && Shape(u) && Shape(t) && Inserted(s, u, a, b, c) && SameCount(u, t)
    ensures InMenuWith(s, t, a, b, c)
  {
  }

  /** The same from power-on. */
  lemma MenuWithCoins(f: Font, s: State, a: nat, b: nat, c: nat) returns (t: State)
    requires ValidFont(f) && Init(s) && Shape(s)
    ensures Shape(t) && Leads(f, s, t) && t.main == MenuGuard && t.mac == 2
    ensures t.coins == [a, b, c] && t.reports == [] && t.flags[0] == 0
  {
    var u := ThreadsExist(f, s);
    t := CoinsThenMenu(f, u, a, b, c);
    LeadsOn(f, s, u, t);
    FromNothing(s, u, t, a, b, c);
  }

  lemma FromNothing(s: State, u: State, t: State, a: nat, b: nat, c: nat)
    requires Init(s) && Shape(s) && Shape(u) && Shape(t) && SameCount(s, u) && InMenuWith(u, t, a, b, c)
    ensures t.coins == [a, b, c] && t.reports == [] && t.flags[0] == 0
  {
  }

  lemma ReportShownFor(f: Font, s: State, i: nat, a: nat, b: nat, c: nat) returns (t: State)
    requires ValidFont(f) && Init(s) && Shape(s) && 1 <= i < 4 && Total(a, b, c) <= INT_MAX
    ensures Shape(t) && Leads(f, s, t)
    ensures ReportsOfKind(t.reports, KindOf(i)) == 1 && t.coins == [a, b, c]
  {
    var u := MenuWithCoins(f, s, a, b, c);
    var v := Press(f, u, i);
    LeadsOn(f, s, u, v);
    t := AnswersPress(f, v, i);
    LeadsOn(f, s, v, t);
  }

  /** From power-on, whatever the counts, as long as each report's number is an int: the report of a key gets shown. */
  lemma ReportOccurs(f: Font, s: State, i: nat, a: nat, b: nat, c: nat) returns (run: seq<Action>)
    requires ValidFont(f) && Init(s) && Shape(s) && 1 <= i < 4 && Total(a, b, c) <= INT_MAX
    ensures ReportsOfKind(Run(f, s, run).reports, KindOf(i)) == 1 && Run(f, s, run).coins == [a, b, c]
  {
    var t := ReportShownFor(f, s, i, a, b, c);
    run :| Run(f, s, run) == t;
  }

  // ----- An overflow -----

  /** Main computes a total beyond an int when key 2 is raised and key 1 is not. */
  lemma TotalOverflows(f: Font, s: State) returns (t: State)
    requires ValidFont(f) && Shape(s) && s.main == MenuGuard && s.mac == 2
    requires s.flags[0] == 0 && s.flags[1] > 0 && !NothingOverflows(s)
    ensures Shape(t) && MainLeads(f, s, t) && t.main.Undefined?
  {
    var u := MenuEnters(f, s);
    var v := PollsKeys(f, u);
    MainLeadsOn(f, s, u, v);
    t := DispatchOverflows(f, v);
    MainLeadsOn(f, s, v, t);
  }

  lemma DispatchOverflows(f: Font, s: State) returns (t: State)
    requires ValidFont(f) && Shape(s) && !NothingOverflows(s)
    requires s.main.Dispatch? && s.main.i == 0 && !s.main.keys[0] && s.main.keys[1]
    ensures Shape(t) && MainLeads(f, s, t) && t.main.Undefined?
  {
    var u := FirstKey(f, s);
    t := MenuNext(f, u, [], false);
    MenuStepLeads(f, u, [], t);
    MainLeadsOn(f, s, u, t);
  }

  lemma PollsKeys(f: Font, s: State) returns (t: State)
    requires ValidFont(f) && Shape(s) && s.main == MenuTest(0, []) && s.flags[0] == 0 && s.flags[1] > 0
    ensures Shape(t) && MainLeads(f, s, t) && t.coins == s.coins
    ensures t.main.Dispatch? && t.main.i == 0 && !t.main.keys[0] && t.main.keys[1]
  {
    var u := FirstPolls(f, s);
    t := LastPolls(f, u);
    MainLeadsOn(f, s, u, t);
  }

  lemma FirstPolls(f: Font, s: State) returns (t: State)
    requires ValidFont(f) && Shape(s) && s.main == MenuTest(0, []) && s.flags[0] == 0 && s.flags[1] > 0
    ensures Shape(t) && MainLeads(f, s, t) && t.coins == s.coins
    ensures t.main.MenuTest? && t.main.i == 2 && !t.main.keys[0] && t.main.keys[1]
  {
    var u := PollOne(f, s);
    assert u.main.keys == [false] && u.flags[1] > 0;
    t := PollOne(f, u);
    MainLeadsOn(f, s, u, t);
  }

  lemma LastPolls(f: Font, s: State) returns (t: State)
    requires ValidFont(f) && Shape(s) && s.main.MenuTest? && s.main.i == 2
    ensures Shape(t) && MainLeads(f, s, t) && t.coins == s.coins
    ensures t.main.Dispatch? && t.main.i == 0
    ensures t.main.keys[0] == s.main.keys[0] && t.main.keys[1] == s.main.keys[1]
  {
    var u := PollOne(f, s);
    assert u.main.keys[0] == s.main.keys[0] && u.main.keys[1] == s.main.keys[1];
    t := PollOne(f, u);
    MainLeadsOn(f, s, u, t);
  }

  /** From power-on, with enough coins, asking for the total overflows. */
  lemma OverflowOccurs(f: Font, s: State) returns (run: seq<Action>)
    requires ValidFont(f) && Init(s) && Shape(s)
    ensures Run(f, s, run).main.Undefined?
  {
    var w := MenuWithCoins(f, s, 4294968, 0, 0);
    var x := Press(f, w, 1);
    LeadsOn(f, s, w, x);
    var t := TotalOverflows(f, x);
    MainIsEnough(f, x, t);
    LeadsOn(f, s, x, t);
    run :| Run(f, s, run) == t;
  }
}
