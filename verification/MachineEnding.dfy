/**
  What ends coin insertion: exactly when a press of key 2 has been reported, some thread has
  ended it or will within ten of its own steps, whatever the others do in between.
 */
module MachineEnding {
  import opened Cells
  import opened Debounce
  import opened KeyEvents
  import opened Glyphs
  import opened Machine
  import opened MachineSafety
  import opened MachineCounting
  import opened MachineKeys
  import opened MachineRuns

  // ----- A ready poll ends insertion -----

  /** Own steps until a thread that got a ready poll ends insertion. */
  function StepsToEnd(pc: ThreadPc): nat {
    match pc
    case PollClear(hit, _, _) => if hit then 10 else 3
    case CountHit(hit, _) => if hit then 9 else 2
    case Skipping(left, _) => left + 2
    case EndTest(_) => 1
    case _ => 0
  }

  predicate Ends(s: State, i: nat)
    requires Shape(s) && i < 3
  {
    s.mac == 2 || HoldsReady(s.threads[i])
  }

  /** The thread comes no further from the end by others' steps, and closer by its own. */
  predicate Closer(s: State, t: State, own: nat, i: nat)
    requires Shape(s) && Shape(t) && i < 3
  {
    t.mac == 2 || (HoldsReady(t.threads[i]) && StepsToEnd(t.threads[i]) + own <= StepsToEnd(s.threads[i]))
  }

  lemma OwnStepCloser(s: State, i: nat, high: bool, scans: nat)
    requires Shape(s) && i < 3 && HoldsReady(s.threads[i]) && Shape(ThreadNext(s, i, high, scans))
    ensures Closer(s, ThreadNext(s, i, high, scans), 1, i)
  {
  }

  lemma StepCloser(f: Font, s: State, a: Action, i: nat)
    requires ValidFont(f) && Shape(s) && Control(s) && i < 3 && HoldsReady(s.threads[i])
    ensures Shape(Next(f, s, a)) && Closer(s, Next(f, s, a), if a.ThreadStep? && a.i == i then 1 else 0, i)
  {
    ShapeKept(f, s, a);
    match a
    case Interrupt(key) =>
    case MainStep(reps, fail) => MainLeavesThread(f, s, reps, fail, i);
    case ThreadStep(j, high, scans) =>
      if j == i {
        OwnStepCloser(s, i, high, scans);
      } else if j < 3 {
        OtherThreads(s, j, high, scans);
      }
  }

  lemma {:induction false} RunCloser(f: Font, s: State, more: seq<Action>, i: nat)
    requires ValidFont(f) && Shape(s) && Invariant(f, s) && i < 3 && HoldsReady(s.threads[i])
    ensures Closer(s, Run(f, s, more), StepsOf(more, i), i)
  {
    if more != [] {
      var init, a := more[..|more| - 1], more[|more| - 1];
      RunCloser(f, s, init, i);
      Always(f, s, init);
      ControlKept(f, Run(f, s, init), a);
      if Run(f, s, init).mac != 2 {
        StepCloser(f, Run(f, s, init), a, i);
      } else {
        Always(f, s, more);
      }
    }
  }

  /**
    A thread with a ready poll in hand ends insertion within so many of its own steps, at most
    ten if it has at most six samples to skip, under every interleaving.
   */
  lemma ReadyEnds(f: Font, s: State, more: seq<Action>, i: nat)
    requires ValidFont(f) && Shape(s) && Invariant(f, s) && i < 3 && Ends(s, i)
    requires StepsOf(more, i) >= StepsToEnd(s.threads[i])
    ensures Run(f, s, more).mac == 2
  {
    if s.mac == 2 {
      StateNeverDecreases(f, s, more);
    } else {
      RunCloser(f, s, more, i);
    }
  }

  // ----- Insertion ends exactly by reported presses -----

  predicate SomeEnds(s: State)
    requires Shape(s)
  {
    s.mac == 2 || HoldsReady(s.threads[0]) || HoldsReady(s.threads[1]) || HoldsReady(s.threads[2])
  }

  predicate EndReported(s: State)
    requires Shape(s)
  {
    SomeEnds(s) <==> ReadyTests(s.logs[1]) > 0
  }

  /** The step is a poll's test of key 2 and reads a raised flag. */
  predicate ReadsRaised(s: State, a: Action)
    requires Shape(s)
  {
    EventOf(s, a).Some? && EventOf(s, a).value.0 == 1 && EventOf(s, a).value.1.Test? && s.flags[1] > 0
  }

  lemma TestsAfter(f: Font, s: State, a: Action)
    requires ValidFont(f) && Shape(s) && FlagsTrue(s)
    ensures Shape(Next(f, s, a))
    ensures ReadyTests(Next(f, s, a).logs[1]) == ReadyTests(s.logs[1]) + if ReadsRaised(s, a) then 1 else 0
  {
    StepEvent(f, s, a);
    match EventOf(s, a)
    case None =>
    case Some(ke) => FlagSnoc(s.logs[ke.0], ke.1);
  }

  lemma OnlyEndTestEnds(s: State, i: nat, high: bool, scans: nat)
    requires Shape(s) && i < 3
    ensures ThreadNext(s, i, high, scans).mac == if s.threads[i] == EndTest(true) then 2 else s.mac
  {
  }

  lemma StillReady(s: State, i: nat, high: bool, scans: nat)
    requires Shape(s) && i < 3 && Shape(ThreadNext(s, i, high, scans))
    ensures HoldsReady(ThreadNext(s, i, high, scans).threads[i])
       <==> (HoldsReady(s.threads[i]) && !s.threads[i].EndTest?) || (s.threads[i].PollTest? && s.flags[1] > 0)
  {
  }

  lemma ThreadAtEnds(s: State, i: nat, high: bool, scans: nat)
    requires Shape(s) && i < 3 && Shape(ThreadNext(s, i, high, scans))
    ensures Ends(ThreadNext(s, i, high, scans), i)
       <==> Ends(s, i) || (s.threads[i].PollTest? && s.flags[1] > 0)
  {
    OnlyEndTestEnds(s, i, high, scans);
    StillReady(s, i, high, scans);
  }

  /** Main neither ends insertion nor moves a thread that is on its way to. */
  lemma MainEnding(f: Font, s: State, reps: seq<nat>, fail: bool)
    requires ValidFont(f) && Shape(s) && Control(s) && Shape(MainNext(f, s, reps, fail))
    ensures SomeEnds(MainNext(f, s, reps, fail)) <==> SomeEnds(s)
    ensures ReadsRaised(s, MainStep(reps, fail)) ==> SomeEnds(s)
  {
    if InMenu(s.main) {
      MenuFrame(f, s, reps, fail);
    } else if !InPrep(s.main) {
      InsertReady(f, s);
      InsertCounts(f, s);
    }
  }

  lemma OneEnds(s: State, t: State, i: nat, raised: bool)
    requires Shape(s) && Shape(t) && i < 3
    requires forall j | 0 <= j < 3 && j != i :: t.threads[j] == s.threads[j]
    requires Ends(t, i) <==> Ends(s, i) || raised
    requires s.mac == 2 ==> t.mac == 2
    requires t.mac == s.mac || Ends(s, i)
    ensures SomeEnds(t) <==> SomeEnds(s) || raised
  {
    assert i != 0 ==> t.threads[0] == s.threads[0];
    assert i != 1 ==> t.threads[1] == s.threads[1];
    assert i != 2 ==> t.threads[2] == s.threads[2];
    assert i == 0 || i == 1 || i == 2;
  }

  lemma ThreadStepEnds(s: State, i: nat, high: bool, scans: nat)
    requires Shape(s) && Control(s) && i < 3 && Shape(ThreadNext(s, i, high, scans))
    ensures SomeEnds(ThreadNext(s, i, high, scans)) <==> SomeEnds(s) || ReadsRaised(s, ThreadStep(i, high, scans))
  {
    ThreadFrame(s, i, high, scans);
    ThreadAtEnds(s, i, high, scans);
    OneEnds(s, ThreadNext(s, i, high, scans), i, ReadsRaised(s, ThreadStep(i, high, scans)));
  }

  lemma EndReportedKept(f: Font, s: State, a: Action)
    requires ValidFont(f) && Shape(s) && Control(s) && FlagsTrue(s) && EndReported(s)
    ensures Shape(Next(f, s, a)) && EndReported(Next(f, s, a))
  {
    TestsAfter(f, s, a);
    match a
    case Interrupt(key) =>
    case MainStep(reps, fail) => MainEnding(f, s, reps, fail);
    case ThreadStep(i, high, scans) =>
      if i < 3 {
        ThreadStepEnds(s, i, high, scans);
      }
  }

  lemma {:induction false} EndReportedAlways(f: Font, s: State, run: seq<Action>)
    requires ValidFont(f) && Init(s) && Shape(s)
    ensures EndReported(Run(f, s, run))
  {
    if run != [] {
      EndReportedAlways(f, s, run[..|run| - 1]);
      InvariantStarts(f, s);
      Always(f, s, run[..|run| - 1]);
      EndReportedKept(f, Run(f, s, run[..|run| - 1]), run[|run| - 1]);
    }
  }

  lemma {:induction false} SomeTestReady(log: seq<Event>)
    ensures ReadyTests(log) > 0 <==> exists t: nat :: t < |log| && log[t].Test? && Ready(log, t)
  {
    if log != [] {
      var init, n := log[..|log| - 1], |log| - 1;
      SomeTestReady(init);
      if t: nat :| t < |init| && init[t].Test? && Ready(init, t) {
        assert init[..t] == log[..t];
        assert log[t].Test? && Ready(log, t);
      }
      if t: nat :| t < |log| && log[t].Test? && Ready(log, t) {
        if t < n {
          assert init[..t] == log[..t];
          assert init[t].Test? && Ready(init, t);
        }
      }
      if log[n].Test? && Flag(init) > 0 {
        assert Ready(log, n);
      }
    }
  }

  /** Some test is ready exactly when some interrupt is reported. */
  lemma SomeReported(log: seq<Event>)
    ensures ReadyTests(log) > 0 <==> exists i: nat :: Reported(log, i)
  {
    SomeTestReady(log);
    if t: nat :| t < |log| && log[t].Test? && Ready(log, t) {
      ReadyMeansPending(log, t);
      var i :| PendingAt(log, i, t);
      assert Reported(log, i);
    }
  }

  /**
    In every reachable state, insertion is over or some thread is on its way to ending it
    if and only if some press of key 2 has been reported.
   */
  lemma EndsByReportsOnly(f: Font, s: State, run: seq<Action>)
    requires ValidFont(f) && Init(s) && Shape(s)
    ensures SomeEnds(Run(f, s, run)) <==> exists i: nat :: Reported(Run(f, s, run).logs[1], i)
  {
    EndReportedAlways(f, s, run);
    SomeReported(Run(f, s, run).logs[1]);
  }

  /** However the steps interleave, insertion is over once thread `i` has made ten more of its own. */
  ghost predicate OverInTen(f: Font, s: State, i: nat)
    requires ValidFont(f) && Shape(s)
  {
    forall more | StepsOf(more, i) >= 10 :: Run(f, s, more).mac == 2
  }

  lemma AtMostTen(s: State, i: nat)
    requires Shape(s) && Sampling(s) && i < 3
    ensures StepsToEnd(s.threads[i]) <= 10
  {
    ScanCounts(s.samples[i]);
    assert Counts(s.threads[i], Scan(s.samples[i]), s.coins[i]);
  }

  lemma EndsInTen(f: Font, s: State, i: nat)
    requires ValidFont(f) && Shape(s) && Invariant(f, s) && i < 3 && Ends(s, i)
    ensures OverInTen(f, s, i)
  {
    AtMostTen(s, i);
    forall more | StepsOf(more, i) >= 10
      ensures Run(f, s, more).mac == 2
    {
      ReadyEnds(f, s, more, i);
    }
  }

  /** A reported press of key 2 ends insertion: some thread does it within ten of its own steps. */
  lemma ReportedPressEnds(f: Font, s: State, run: seq<Action>, i: nat) returns (j: nat)
    requires ValidFont(f) && Init(s) && Shape(s) && Reported(Run(f, s, run).logs[1], i)
    ensures j < 3 && OverInTen(f, Run(f, s, run), j)
  {
    EndsByReportsOnly(f, s, run);
    InvariantStarts(f, s);
    Always(f, s, run);
    var t := Run(f, s, run);
    j := if HoldsReady(t.threads[1]) then 1 else if HoldsReady(t.threads[2]) then 2 else 0;
    EndsInTen(f, t, j);
  }

  /** So a press of key 2 that has been cleared ends insertion, unless it was lost inside a poll. */
  lemma PressEndsUnlessLost(f: Font, s: State, run: seq<Action>, i: nat, c: nat) returns (j: nat)
    requires ValidFont(f) && Init(s) && Shape(s) && Wipes(Run(f, s, run).logs[1], i, c)
    ensures j < 3
    ensures OverInTen(f, Run(f, s, run), j) || LostInside(Run(f, s, run).logs[1], i, c)
  {
    KeyInterruptLost(f, s, run, 1, i, c);
    j := 0;
    if Reported(Run(f, s, run).logs[1], i) {
      j := ReportedPressEnds(f, s, run, i);
    }
  }
}
