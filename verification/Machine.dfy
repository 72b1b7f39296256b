/**
  The coin machine as interleaved steps: the main program, three sensor threads and
  the key interrupts, over the shared machine state, the counters, the drivers' event
  flags and the output latch. A step that cannot be taken leaves the state alone.

  The second half of the state is history: it is written and never read.
 */
module Machine {
  import opened Gpio
  import opened DotMatrix
  import opened Devices
  import opened KeyEvents
  import Debounce
  import opened Digits
  import opened Glyphs
  import opened Reports
  import opened Scroll

  // The poller number of the main program; sensor threads are pollers 0, 1, 2.
  const MAIN: nat := 3

  /** Where a sensor thread stands. `scans`: how often the kernel will look again before a poll times out. */
  datatype ThreadPc =
    | NotCreated
    | Guard
    | Sample
    | PollTest(hit: bool, scans: nat)
    | PollClear(hit: bool, scans: nat, ready: bool)
    | CountHit(hit: bool, ready: bool)
    | Skipping(left: nat, ready: bool)
    | EndTest(ready: bool)
    | Finished

  datatype MainPc =
    | PrepGuard
    | PrepTest
    | PrepClear(ready: bool)
    | PrepBranch(ready: bool)
    | FirstBlank(k: nat)
    | LoopGuard
    | Create(i: nat)
    | MotorOn
    | SecondBlank(k: nat)
    | Join(i: nat)
    | MotorOff
    | MenuGuard
    | MenuTest(i: nat, keys: seq<bool>)
    | MenuClear(i: nat, keys: seq<bool>)
    | Dispatch(i: nat, keys: seq<bool>)
    | Show(i: nat, keys: seq<bool>, buf: seq<bv8>, reps: seq<nat>, k: nat)
    | Off(byKey: bool)
    | Aborted
    | Undefined

  /** A finished report: which one, how often each window was written, every latch value while it was shown. */
  datatype Report = Report(kind: Kind, reps: seq<nat>, seen: seq<Word>)

  datatype State = State(
    mac: nat,
    coins: seq<nat>,
    main: MainPc,
    threads: seq<ThreadPc>,
    flags: seq<nat>,
    latch: Word,
    // history
    logs: seq<seq<Event>>,
    samples: seq<seq<bool>>,
    startIrqs: nat,
    bodies: nat,
    raises: nat,
    from: Word,
    seen: seq<Word>,
    reports: seq<Report>)

  datatype Action =
    | Interrupt(key: nat)
    | MainStep(reps: seq<nat>, fail: bool)
    | ThreadStep(i: nat, high: bool, scans: nat)

  /** Sizes and indices. */
  predicate Shape(s: State) {
    && |s.coins| == |s.threads| == |s.samples| == 3
    && |s.flags| == |s.logs| == 4
    && PcShape(s.main)
  }

  predicate PcShape(m: MainPc) {
    match m
    case FirstBlank(k) => k <= 32
    case Create(i) => i < 3
    case SecondBlank(k) => k <= 32
    case Join(i) => i < 3
    case MenuTest(i, keys) => i < 4 && |keys| == i
    case MenuClear(i, keys) => i < 4 && |keys| == i + 1
    case Dispatch(i, keys) => i <= 4 && |keys| == 4
    case Show(i, keys, buf, reps, k) =>
      1 <= i < 4 && |keys| == 4 && |buf| == |reps| + 7 && k <= |ScrollOps(buf, reps, |reps|)|
    case _ => true
  }

  // ----- Key events -----

  function Log(s: State, key: nat, e: Event): State
    requires Shape(s) && key < 4
  {
    s.(logs := s.logs[key := s.logs[key] + [e]])
  }

  function Raise(s: State, key: nat): State
    requires Shape(s) && key < 4
  {
    Log(s, key, Irq).(flags := s.flags[key := s.flags[key] + 1])
  }

  function Lower(s: State, key: nat, poller: nat): State
    requires Shape(s) && key < 4
  {
    Log(s, key, Clear(poller)).(flags := s.flags[key := 0])
  }

  // ----- Sensor threads -----

  function Goto(s: State, i: nat, pc: ThreadPc): State
    requires Shape(s) && i < 3
  {
    s.(threads := s.threads[i := pc])
  }

  function ReadSensor(s: State, i: nat, high: bool): State
    requires Shape(s) && i < 3
  {
    s.(samples := s.samples[i := s.samples[i] + [high]])
  }

  function ThreadNext(s: State, i: nat, high: bool, scans: nat): State
    requires Shape(s) && i < 3
  {
    match s.threads[i]
    case NotCreated => s
    case Guard => Goto(s, i, if s.mac == 1 then Sample else Finished)
    case Sample => Goto(ReadSensor(s, i, high), i, PollTest(high, scans))
    case PollTest(hit, n) => Goto(Log(s, 1, Test(i)), i, PollClear(hit, n, s.flags[1] > 0))
    case PollClear(hit, n, ready) =>
      Goto(Lower(s, 1, i), i, if !ready && n > 0 then PollTest(hit, n - 1) else CountHit(hit, ready))
    case CountHit(hit, ready) =>
      if hit then Goto(s.(coins := s.coins[i := s.coins[i] + 1]), i, Skipping(Debounce.SKIP, ready))
      else Goto(s, i, EndTest(ready))
    case Skipping(left, ready) =>
      if left > 0 then Goto(ReadSensor(s, i, high), i, Skipping(left - 1, ready)) else Goto(s, i, EndTest(ready))
    case EndTest(ready) => Goto(if ready then s.(mac := 2) else s, i, Guard)
    case Finished => s
  }

  // ----- The main program -----

  /** The write of the blank glyph that clears the display. */
  function BlankOps(f: Font): (ops: seq<RegOp>)
    requires ValidFont(f)
    ensures |ops| == 32
  {
    WriteOps(RECEIVE, Code(f, Glyph.Blank), 8)
  }

  function Write(s: State, op: RegOp): State {
    s.(latch := Apply(s.latch, op))
  }

  function PrepNext(s: State, fail: bool): State
    requires Shape(s)
  {
    match s.main
    case PrepGuard => if s.mac == 0 then s.(main := PrepTest) else s.(main := FirstBlank(0), from := s.latch)
    case PrepTest =>
      if fail then s.(main := Aborted) else Log(s, 0, Test(MAIN)).(main := PrepClear(s.flags[0] > 0))
    case PrepClear(ready) =>
      Lower(s, 0, MAIN).(main := PrepBranch(ready), startIrqs := Irqs(s.logs[0]))
    case PrepBranch(ready) => if ready then s.(mac := 1, main := PrepGuard) else s.(main := PrepGuard)
    case _ => s
  }

  function InsertNext(f: Font, s: State): State
    requires ValidFont(f) && Shape(s)
  {
    match s.main
    case FirstBlank(k) =>
      if k < 32 then Write(s, BlankOps(f)[k]).(main := FirstBlank(k + 1)) else s.(main := LoopGuard)
    case LoopGuard => if s.mac == 1 then s.(main := Create(0), bodies := s.bodies + 1) else s.(main := MotorOff)
    case Create(i) => Goto(s, i, Guard).(main := if i < 2 then Create(i + 1) else MotorOn)
    case MotorOn =>
      Write(s, SetPins({MOTOR_PIN})).(main := SecondBlank(0), raises := s.raises + 1, from := s.latch + {MOTOR_PIN})
    case SecondBlank(k) =>
      if k < 32 then Write(s, BlankOps(f)[k]).(main := SecondBlank(k + 1)) else s.(main := Join(0))
    case Join(i) =>
      if s.threads[i] == Finished then s.(main := if i < 2 then Join(i + 1) else LoopGuard) else s
    case MotorOff => Write(s, ClearPins({MOTOR_PIN})).(main := MenuGuard)
    case _ => s
  }

  function KindOf(i: nat): Kind
    requires 1 <= i < 4
  {
    if i == 1 then Money else if i == 2 then Each else Count
  }

  /** The numbers of a report are C ints; beyond them the source's arithmetic is undefined. */
  predicate Fits(kind: Kind, c: seq<nat>)
    requires |c| == 3
  {
    match kind
    case Money => Total(c[0], c[1], c[2]) <= INT_MAX
    case Each => c[0] <= INT_MAX && c[1] <= INT_MAX && c[2] <= INT_MAX
    case Count => c[0] + c[1] + c[2] <= INT_MAX
  }

  /** A report is computed exactly when every number that its text names is at most the largest int. */
  lemma FitsExactly(kind: Kind, c: seq<nat>)
    requires |c| == 3
    ensures var text := Text(kind, c[0], c[1], c[2]);
      Fits(kind, c) <==>
        match kind
        case Money => ParseMoney(text).Some? && ParseMoney(text).value <= 2147483647
        case Each => ParseCoins(text).Some? && forall p | p in ParseCoins(text).value :: p.1 <= 2147483647
        case Count => ParseCount(text).Some? && ParseCount(text).value <= 2147483647
  {
    EachFaces(c[0], c[1], c[2]);
    MoneyRoundTrip(c[0], c[1], c[2]);
    CountRoundTrip(c[0], c[1], c[2]);
  }

  function ImageOf(f: Font, kind: Kind, c: seq<nat>): seq<bv8>
    requires ValidFont(f) && |c| == 3
  {
    Image(f, Text(kind, c[0], c[1], c[2]))
  }

  function MenuNext(f: Font, s: State, reps: seq<nat>, fail: bool): State
    requires ValidFont(f) && Shape(s)
  {
    match s.main
    case MenuGuard => if s.mac == 2 then s.(main := MenuTest(0, [])) else s.(main := Off(false))
    case MenuTest(i, keys) =>
      if fail then s.(main := Aborted) else Log(s, i, Test(MAIN)).(main := MenuClear(i, keys + [s.flags[i] > 0]))
    case MenuClear(i, keys) =>
      Lower(s, i, MAIN).(main := if i < 3 then MenuTest(i + 1, keys) else Dispatch(0, keys))
    case Dispatch(i, keys) =>
      if i == 4 then s.(main := MenuGuard)
      else if !keys[i] then s.(main := Dispatch(i + 1, keys))
      else if i == 0 then s.(main := Off(true))
      else if !Fits(KindOf(i), s.coins) then s.(main := Undefined)
      else
        var buf := ImageOf(f, KindOf(i), s.coins);
        if AllShown(reps) && |buf| == |reps| + 7 then
          s.(main := Show(i, keys, buf, reps, 0), from := s.latch, seen := [])
        else s
    case Show(i, keys, buf, reps, k) =>
      var ops := ScrollOps(buf, reps, |reps|);
      if k < |ops| then
        Write(s, ops[k]).(main := Show(i, keys, buf, reps, k + 1), seen := s.seen + [Apply(s.latch, ops[k])])
      else
        s.(main := Dispatch(i + 1, keys), reports := s.reports + [Report(KindOf(i), reps, s.seen)])
    case _ => s
  }

  predicate InPrep(m: MainPc) {
    m.PrepGuard? || m.PrepTest? || m.PrepClear? || m.PrepBranch?
  }

  predicate InMenu(m: MainPc) {
    m.MenuGuard? || m.MenuTest? || m.MenuClear? || m.Dispatch? || m.Show?
  }

  function MainNext(f: Font, s: State, reps: seq<nat>, fail: bool): State
    requires ValidFont(f) && Shape(s)
  {
    if InPrep(s.main) then PrepNext(s, fail)
    else if InMenu(s.main) then MenuNext(f, s, reps, fail)
    else InsertNext(f, s)
  }

  function Next(f: Font, s: State, a: Action): State
    requires ValidFont(f) && Shape(s)
  {
    match a
    case Interrupt(key) => if key < 4 then Raise(s, key) else s
    case MainStep(reps, fail) => MainNext(f, s, reps, fail)
    case ThreadStep(i, high, scans) => if i < 3 then ThreadNext(s, i, high, scans) else s
  }

  lemma ShapeKept(f: Font, s: State, a: Action)
    requires ValidFont(f) && Shape(s)
    ensures Shape(Next(f, s, a))
  {
    match a
    case Interrupt(key) =>
    case MainStep(reps, fail) =>
      if InPrep(s.main) {
      } else if InMenu(s.main) {
        MenuShape(f, s, reps, fail);
      } else {
        InsertShape(f, s);
      }
    case ThreadStep(i, high, scans) =>
      if i < 3 {
        ThreadShape(s, i, high, scans);
      }
  }

  lemma MenuShape(f: Font, s: State, reps: seq<nat>, fail: bool)
    requires ValidFont(f) && Shape(s) && InMenu(s.main)
    ensures Shape(MenuNext(f, s, reps, fail))
  {
  }

  lemma InsertShape(f: Font, s: State)
    requires ValidFont(f) && Shape(s)
    ensures Shape(InsertNext(f, s))
  {
  }

  lemma ThreadShape(s: State, i: nat, high: bool, scans: nat)
    requires Shape(s) && i < 3
    ensures Shape(ThreadNext(s, i, high, scans))
  {
  }

  function Run(f: Font, s: State, run: seq<Action>): (r: State)
    requires ValidFont(f) && Shape(s)
    ensures Shape(r)
  {
    if run == [] then s
    else
      var before := Run(f, s, run[..|run| - 1]);
      ShapeKept(f, before, run[|run| - 1]);
      Next(f, before, run[|run| - 1])
  }

  /** Power-on: the motor pin is low; the display lines may be anything. */
  predicate Init(s: State) {
    && s.mac == 0 && s.coins == [0, 0, 0] && s.main == PrepGuard
    && s.threads == [NotCreated, NotCreated, NotCreated]
    && s.flags == [0, 0, 0, 0] && s.logs == [[], [], [], []] && s.samples == [[], [], []]
    && s.startIrqs == 0 && s.bodies == 0 && s.raises == 0 && s.reports == []
    && MOTOR_PIN !in s.latch
  }
}
