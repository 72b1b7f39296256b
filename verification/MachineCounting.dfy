/**
  The counters: in every reachable state each counter is what the debounce rule gives
  for the samples its thread has read, and the threads stop soon after insertion ends.
 */
module MachineCounting {
  import opened Debounce
  import opened Glyphs
  import opened Machine
  import opened MachineSafety

  /** A thread's place says how its counter stands to the samples it has read. */
  predicate Counts(pc: ThreadPc, scan: Counter, coins: nat) {
    match pc
    case PollTest(hit, _) => scan == if hit then Counter(coins + 1, SKIP) else Counter(coins, 0)
    case PollClear(hit, _, _) => scan == if hit then Counter(coins + 1, SKIP) else Counter(coins, 0)
    case CountHit(hit, _) => scan == if hit then Counter(coins + 1, SKIP) else Counter(coins, 0)
    case Skipping(left, _) => scan == Counter(coins, left)
    case _ => scan == Counter(coins, 0)
  }

  predicate Sampling(s: State)
    requires Shape(s)
  {
    forall i | 0 <= i < 3 :: Counts(s.threads[i], Scan(s.samples[i]), s.coins[i])
  }

  lemma SamplingKept(f: Font, s: State, a: Action)
    requires ValidFont(f) && Shape(s) && Control(s) && Sampling(s)
    ensures Shape(Next(f, s, a)) && Sampling(Next(f, s, a))
  {
    ShapeKept(f, s, a);
    match a
    case Interrupt(key) =>
    case MainStep(reps, fail) =>
      if InMenu(s.main) {
        MenuFrame(f, s, reps, fail);
      } else if !InPrep(s.main) {
        InsertCounts(f, s);
      }
    case ThreadStep(i, high, scans) =>
      if i < 3 {
        ThreadCounts(s, i, high, scans);
        OtherThreads(s, i, high, scans);
      }
  }

  lemma InsertCounts(f: Font, s: State)
    requires ValidFont(f) && Shape(s) && Control(s) && !InPrep(s.main) && !InMenu(s.main)
    ensures var t := InsertNext(f, s);
      && t.samples == s.samples && t.coins == s.coins && |t.threads| == 3
      && forall i | 0 <= i < 3 :: t.threads[i] == s.threads[i] || (s.threads[i] == NotCreated && t.threads[i] == Guard)
  {
    match s.main
    case Create(i) =>
      if i == 0 {} else if i == 1 {} else { assert i == 2; }
    case _ =>
  }

  lemma ThreadCounts(s: State, i: nat, high: bool, scans: nat)
    requires Shape(s) && i < 3 && Shape(ThreadNext(s, i, high, scans))
    requires Counts(s.threads[i], Scan(s.samples[i]), s.coins[i])
    ensures var t := ThreadNext(s, i, high, scans);
      Counts(t.threads[i], Scan(t.samples[i]), t.coins[i])
  {
    ScanSnoc(s.samples[i], high);
  }

  lemma OtherThreads(s: State, i: nat, high: bool, scans: nat)
    requires Shape(s) && i < 3 && Shape(ThreadNext(s, i, high, scans))
    ensures var t := ThreadNext(s, i, high, scans);
      forall j | 0 <= j < 3 && j != i ::
        t.threads[j] == s.threads[j] && t.samples[j] == s.samples[j] && t.coins[j] == s.coins[j]
  {
    ThreadAtMoves(s, i, high, scans);
    OneCounterMoves(s, i, high, scans);
  }

  lemma OneCounterMoves(s: State, i: nat, high: bool, scans: nat)
    requires Shape(s) && i < 3 && Shape(ThreadNext(s, i, high, scans))
    ensures var t := ThreadNext(s, i, high, scans);
      t.samples == s.samples[i := t.samples[i]] && t.coins == s.coins[i := t.coins[i]]
  {
  }

  /** When a thread has finished, its counter is the debounced count of all it ever read. */
  lemma FinishedCounts(s: State, i: nat)
    requires Shape(s) && Sampling(s) && i < 3 && s.threads[i] == Finished
    ensures s.coins[i] == Coins(s.samples[i])
  {
    ScanCounts(s.samples[i]);
  }

  // ----- Nothing is counted any more once all threads have finished -----

  lemma FinishedStays(f: Font, s: State, a: Action)
    requires ValidFont(f) && Shape(s) && Control(s) && AllFinished(s)
    ensures Shape(Next(f, s, a))
    ensures Next(f, s, a).coins == s.coins && Next(f, s, a).samples == s.samples && AllFinished(Next(f, s, a))
  {
    ShapeKept(f, s, a);
    match a
    case Interrupt(key) =>
    case MainStep(reps, fail) =>
      if InMenu(s.main) {
        MenuFrame(f, s, reps, fail);
      }
    case ThreadStep(i, high, scans) =>
      if i < 3 {
        ThreadFrame(s, i, high, scans);
        assert i == 0 || i == 1 || i == 2;
      }
  }

  // ----- How far a thread still has to go when insertion is over -----

  /** Own steps left until the thread has finished, if no poll is ever scanned more than `b` extra times. */
  function StepsLeft(pc: ThreadPc, b: nat): nat {
    match pc
    case NotCreated => 0
    case Guard => 1
    case Sample => 14 + 2 * b
    case PollTest(hit, n) => 13 + 2 * n
    case PollClear(hit, n, _) => 12 + 2 * n
    case CountHit(hit, _) => 10
    case Skipping(left, _) => left + 3
    case EndTest(_) => 2
    case Finished => 0
  }

  /** The bounds that every thread keeps: at most six samples to skip, at most `b` extra scans. */
  predicate Bounded(pc: ThreadPc, b: nat) {
    match pc
    case PollTest(_, n) => n <= b
    case PollClear(_, n, _) => n <= b
    case Skipping(left, _) => left <= SKIP
    case _ => true
  }

  /** Once insertion is over, every step of a running thread brings it closer to its end. */
  lemma ThreadProgress(s: State, i: nat, high: bool, scans: nat, b: nat)
    requires Shape(s) && i < 3 && s.mac == 2 && Shape(ThreadNext(s, i, high, scans))
    requires Bounded(s.threads[i], b) && scans <= b
    requires s.threads[i] != NotCreated && s.threads[i] != Finished
    ensures var t := ThreadNext(s, i, high, scans);
      && t.mac == 2 && Bounded(t.threads[i], b)
      && StepsLeft(t.threads[i], b) < StepsLeft(s.threads[i], b)
  {
  }

  /** How many coins a thread may still count once insertion is over. */
  function MayCount(pc: ThreadPc): nat {
    match pc
    case Sample => 1
    case PollTest(hit, _) => if hit then 1 else 0
    case PollClear(hit, _, _) => if hit then 1 else 0
    case CountHit(hit, _) => if hit then 1 else 0
    case _ => 0
  }

  lemma ThreadMayCount(s: State, i: nat, high: bool, scans: nat)
    requires Shape(s) && i < 3 && s.mac == 2 && Shape(ThreadNext(s, i, high, scans))
    ensures var t := ThreadNext(s, i, high, scans);
      && t.mac == 2
      && t.coins[i] + MayCount(t.threads[i]) <= s.coins[i] + MayCount(s.threads[i])
  {
  }
}
