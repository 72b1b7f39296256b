/**
  What the actions of a run put into the machine: the levels that each sensor thread reads
  and the interrupts of each key, counted over the run and not over what the machine
  remembers of it; and that it remembers exactly that.
 */
module MachineInputs {
  import opened Cells
  import opened KeyEvents
  import opened Glyphs
  import opened Devices
  import opened Gpio
  import opened Machine
  import opened Reports
  import opened MachineSafety
  import opened MachineDisplay

  // ----- Levels -----

  /** A step from this place reads the sensor. */
  predicate Reads(pc: ThreadPc) {
    pc.Sample? || (pc.Skipping? && pc.left > 0)
  }

  /** The level of sensor `i` that a step reads, if it is a step of its thread that reads one. */
  function Level(s: State, a: Action, i: nat): seq<bool>
    requires Shape(s) && i < 3
  {
    if a.ThreadStep? && a.i == i && Reads(s.threads[i]) then [a.high] else []
  }

  /** All levels of sensor `i` that were read in a run. */
  function Heard(f: Font, s: State, run: seq<Action>, i: nat): seq<bool>
    requires ValidFont(f) && Shape(s) && i < 3
  {
    if run == [] then []
    else
      var init := run[..|run| - 1];
      Heard(f, s, init, i) + Level(Run(f, s, init), run[|run| - 1], i)
  }

  lemma ThreadHears(s: State, i: nat, high: bool, scans: nat)
    requires Shape(s) && i < 3 && Shape(ThreadNext(s, i, high, scans))
    ensures ThreadNext(s, i, high, scans).samples
         == s.samples[i := s.samples[i] + if Reads(s.threads[i]) then [high] else []]
  {
    var same := s.samples[i];
    assert same + [] == same && s.samples[i := same] == s.samples;
  }

  lemma MainHearsNothing(f: Font, s: State, reps: seq<nat>, fail: bool)
    requires ValidFont(f) && Shape(s)
    ensures MainNext(f, s, reps, fail).samples == s.samples
  {
    if InMenu(s.main) {
      MenuFrame(f, s, reps, fail);
    }
  }

  lemma StepHears(f: Font, s: State, a: Action, i: nat)
    requires ValidFont(f) && Shape(s) && i < 3
    ensures Shape(Next(f, s, a)) && Next(f, s, a).samples[i] == s.samples[i] + Level(s, a, i)
  {
    ShapeKept(f, s, a);
    match a
    case Interrupt(key) =>
    case MainStep(reps, fail) => MainHearsNothing(f, s, reps, fail);
    case ThreadStep(j, high, scans) =>
      if j < 3 {
        ThreadHears(s, j, high, scans);
      }
  }

  /** Each thread's history of samples is exactly what its sensor delivered at its reads. */
  lemma {:induction false} SamplesAreHeard(f: Font, s: State, run: seq<Action>, i: nat)
    requires ValidFont(f) && Shape(s) && Init(s) && i < 3
    ensures Run(f, s, run).samples[i] == Heard(f, s, run, i)
  {
    if run != [] {
      SamplesAreHeard(f, s, run[..|run| - 1], i);
      StepHears(f, Run(f, s, run[..|run| - 1]), run[|run| - 1], i);
    }
  }

  // ----- Interrupts -----

  /** The interrupts of a key in a run. */
  function Interrupts(run: seq<Action>, key: nat): nat {
    if run == [] then 0
    else Interrupts(run[..|run| - 1], key) + if run[|run| - 1] == Interrupt(key) then 1 else 0
  }

  lemma StepInterrupts(f: Font, s: State, a: Action, key: nat)
    requires ValidFont(f) && Shape(s) && key < 4
    ensures Shape(Next(f, s, a))
    ensures Irqs(Next(f, s, a).logs[key]) == Irqs(s.logs[key]) + if a == Interrupt(key) then 1 else 0
  {
    StepEvent(f, s, a);
    match EventOf(s, a)
    case None =>
    case Some(ke) => FlagSnoc(s.logs[ke.0], ke.1);
  }

  /** The log of a key holds exactly the interrupts that the run has of it. */
  lemma {:induction false} IrqsAreInterrupts(f: Font, s: State, run: seq<Action>, key: nat)
    requires ValidFont(f) && Shape(s) && Init(s) && key < 4
    ensures Irqs(Run(f, s, run).logs[key]) == Interrupts(run, key)
  {
    if run != [] {
      IrqsAreInterrupts(f, s, run[..|run| - 1], key);
      StepInterrupts(f, Run(f, s, run[..|run| - 1]), run[|run| - 1], key);
    }
  }

  // ----- The display -----

  /** The latch values of the report in progress: one after each of main's register writes. */
  function Watched(f: Font, s: State, run: seq<Action>): seq<Word>
    requires ValidFont(f) && Shape(s)
  {
    if run == [] || !Run(f, s, run[..|run| - 1]).main.Show? then []
    else
      Watched(f, s, run[..|run| - 1])
      + if run[|run| - 1].MainStep? && Run(f, s, run).main.Show? then [Run(f, s, run).latch] else []
  }

  /** The kinds and latch values of all reports that were finished in a run. */
  function WatchedReports(f: Font, s: State, run: seq<Action>): seq<(Kind, seq<Word>)>
    requires ValidFont(f) && Shape(s)
  {
    if run == [] then []
    else
      var init := run[..|run| - 1];
      var t := Run(f, s, init);
      WatchedReports(f, s, init)
      + if t.main.Show? && !Run(f, s, run).main.Show? then [(KindOf(t.main.i), Watched(f, s, init))] else []
  }

  /** What a step of main or of another does to the report in progress and to the finished ones. */
  predicate DisplayMoves(s: State, t: State, main: bool)
    requires Shape(s)
  {
    && (s.main.Show? && t.main.Show? ==> t.seen == s.seen + if main then [t.latch] else [])
    && (!s.main.Show? && t.main.Show? ==> t.seen == [])
    && (if s.main.Show? && !t.main.Show?
        then t.reports == s.reports + [Report(KindOf(s.main.i), s.main.reps, s.seen)]
        else t.reports == s.reports)
  }

  lemma MenuDisplayMoves(f: Font, s: State, reps: seq<nat>, fail: bool)
    requires ValidFont(f) && Shape(s) && InMenu(s.main)
    ensures DisplayMoves(s, MenuNext(f, s, reps, fail), true)
  {
  }

  lemma OtherDisplayMoves(f: Font, s: State, reps: seq<nat>, fail: bool)
    requires ValidFont(f) && Shape(s) && !InMenu(s.main)
    ensures DisplayMoves(s, MainNext(f, s, reps, fail), true)
  {
  }

  lemma ThreadDisplayMoves(s: State, i: nat, high: bool, scans: nat)
    requires Shape(s) && i < 3
    ensures DisplayMoves(s, ThreadNext(s, i, high, scans), false)
  {
    ThreadKeeps(s, i, high, scans);
  }

  lemma StepDisplayMoves(f: Font, s: State, a: Action)
    requires ValidFont(f) && Shape(s)
    ensures DisplayMoves(s, Next(f, s, a), a.MainStep?)
  {
    match a
    case Interrupt(key) =>
    case MainStep(reps, fail) =>
      if InMenu(s.main) {
        MenuDisplayMoves(f, s, reps, fail);
      } else {
        OtherDisplayMoves(f, s, reps, fail);
      }
    case ThreadStep(i, high, scans) =>
      if i < 3 {
        ThreadDisplayMoves(s, i, high, scans);
      }
  }

  predicate SameReports(reports: seq<Report>, watched: seq<(Kind, seq<Word>)>) {
    |reports| == |watched| && forall k | 0 <= k < |reports| :: (reports[k].kind, reports[k].seen) == watched[k]
  }

  /** Every finished report, in order, is of the kind and has the latch values that the run had. */
  lemma {:induction false} ReportsAreWatched(f: Font, s: State, run: seq<Action>)
    requires ValidFont(f) && Shape(s) && Init(s)
    ensures Run(f, s, run).main.Show? ==> Run(f, s, run).seen == Watched(f, s, run)
    ensures SameReports(Run(f, s, run).reports, WatchedReports(f, s, run))
  {
    if run != [] {
      ReportsAreWatched(f, s, run[..|run| - 1]);
      StepDisplayMoves(f, Run(f, s, run[..|run| - 1]), run[|run| - 1]);
    }
  }

  // ----- Main's deeds, counted over the run -----

  /** Main is at its loop's guard and about to create the threads. */
  predicate Enters(s: State, a: Action) {
    a.MainStep? && s.main == LoopGuard && s.mac == 1
  }

  /** How often main has found the machine started at its loop's guard and gone on to create the threads. */
  function Entries(f: Font, s: State, run: seq<Action>): nat
    requires ValidFont(f) && Shape(s)
  {
    if run == [] then 0
    else
      Entries(f, s, run[..|run| - 1])
      + if Enters(Run(f, s, run[..|run| - 1]), run[|run| - 1]) then 1 else 0
  }

  /** How often the motor pin has gone from low to high. */
  function Rises(f: Font, s: State, run: seq<Action>): nat
    requires ValidFont(f) && Shape(s)
  {
    if run == [] then 0
    else
      Rises(f, s, run[..|run| - 1])
      + if MOTOR_PIN !in Run(f, s, run[..|run| - 1]).latch && MOTOR_PIN in Run(f, s, run).latch then 1 else 0
  }

  lemma StepEnters(f: Font, s: State, a: Action)
    requires ValidFont(f) && Shape(s)
    ensures Next(f, s, a).bodies == s.bodies + if Enters(s, a) then 1 else 0
  {
    match a
    case Interrupt(key) =>
    case MainStep(reps, fail) =>
      if InMenu(s.main) {
        MenuFrame(f, s, reps, fail);
      }
    case ThreadStep(i, high, scans) =>
      if i < 3 {
        ThreadFrame(s, i, high, scans);
      }
  }

  /** The step takes main to the places where the motor runs, or from there, or neither. */
  predicate MotorMoves(s: State, t: State) {
    t.raises == s.raises + if !MotorRuns(s.main, s.bodies) && MotorRuns(t.main, t.bodies) then 1 else 0
  }

  lemma InsertMotorMoves(f: Font, s: State)
    requires ValidFont(f) && Shape(s) && Control(s) && !InPrep(s.main) && !InMenu(s.main)
    ensures MotorMoves(s, InsertNext(f, s))
  {
  }

  lemma PrepMotorMoves(s: State, fail: bool)
    requires Shape(s) && Control(s) && InPrep(s.main)
    ensures MotorMoves(s, PrepNext(s, fail))
  {
  }

  lemma MenuMotorMoves(f: Font, s: State, reps: seq<nat>, fail: bool)
    requires ValidFont(f) && Shape(s) && InMenu(s.main)
    ensures MotorMoves(s, MenuNext(f, s, reps, fail))
  {
    MenuFrame(f, s, reps, fail);
  }

  lemma MainMotorMoves(f: Font, s: State, reps: seq<nat>, fail: bool)
    requires ValidFont(f) && Shape(s) && Control(s)
    ensures MotorMoves(s, MainNext(f, s, reps, fail))
  {
    if InMenu(s.main) {
      MenuMotorMoves(f, s, reps, fail);
    } else if InPrep(s.main) {
      PrepMotorMoves(s, fail);
    } else {
      InsertMotorMoves(f, s);
    }
  }

  lemma StepMotorMoves(f: Font, s: State, a: Action)
    requires ValidFont(f) && Shape(s) && Control(s)
    ensures MotorMoves(s, Next(f, s, a))
  {
    match a
    case Interrupt(key) =>
    case MainStep(reps, fail) => MainMotorMoves(f, s, reps, fail);
    case ThreadStep(i, high, scans) =>
      if i < 3 {
        ThreadFrame(s, i, high, scans);
      }
  }
}
