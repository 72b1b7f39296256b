/**
  The four keys of the machine: who is polling which key in every reachable state, so
  that the results about alternating pollers hold for the logs of every run.
 */
module MachineKeys {
  import opened Cells
  import opened KeyEvents
  import opened Glyphs
  import opened Machine
  import opened MachineSafety
  import opened MachineCounting
  import opened MachineDisplay
  import opened Reports

  /** Main stands between the test and the clear of a poll of this key. */
  predicate MainPolls(m: MainPc, key: nat) {
    match m
    case PrepClear(_) => key == 0
    case MenuClear(i, _) => key == i
    case _ => false
  }

  function ThreadsPolling(s: State): set<nat>
    requires Shape(s)
  {
    set i | 0 <= i < 3 && s.threads[i].PollClear?
  }

  function Polling(s: State, key: nat): set<nat>
    requires Shape(s)
  {
    (if MainPolls(s.main, key) then {MAIN} else {}) + (if key == 1 then ThreadsPolling(s) else {})
  }

  /** Three threads poll key 2; the other keys are polled by main alone. */
  function Pollers(key: nat): nat {
    if key == 1 then 3 else 1
  }

  predicate KeyPolls(s: State, key: nat)
    requires Shape(s) && key < 4
  {
    Alternating(s.logs[key], Pollers(key)) && InPoll(s.logs[key]) == Polling(s, key)
  }

  predicate PollsOk(s: State)
    requires Shape(s)
  {
    forall key | 0 <= key < 4 :: KeyPolls(s, key)
  }

  lemma PollsKept(f: Font, s: State, a: Action)
    requires ValidFont(f) && Shape(s) && Control(s) && PollsOk(s)
    ensures Shape(Next(f, s, a)) && PollsOk(Next(f, s, a))
  {
    ShapeKept(f, s, a);
    forall key | 0 <= key < 4
      ensures KeyPolls(Next(f, s, a), key)
    {
      assert KeyPolls(s, key);
      KeyPollsKept(f, s, a, key);
    }
  }

  lemma KeyPollsKept(f: Font, s: State, a: Action, key: nat)
    requires ValidFont(f) && Shape(s) && Control(s) && key < 4 && KeyPolls(s, key)
    ensures Shape(Next(f, s, a)) && KeyPolls(Next(f, s, a), key)
  {
    StepEvent(f, s, a);
    PollingMoves(f, s, a, key);
    match EventOf(s, a)
    case None =>
    case Some(ke) =>
      if ke.0 == key {
        EventFits(s, a, key, ke.1);
        AlternatingSnoc(s.logs[key], ke.1, Pollers(key));
      }
  }

  /** A test starts a poll by someone not polling, while there is room; a clear ends one in progress. */
  lemma EventFits(s: State, a: Action, key: nat, e: Event)
    requires Shape(s) && Control(s) && EventOf(s, a) == Some((key, e))
    ensures match e
      case Irq => true
      case Test(p) => p !in Polling(s, key) && |Polling(s, key)| < Pollers(key)
      case Clear(p) => p in Polling(s, key)
  {
    match e
    case Irq =>
    case Clear(p) =>
    case Test(p) =>
      if a.MainStep? {
        MainTests(s, key);
      } else {
        ThreadTests(s, p, key);
      }
  }

  lemma MainTests(s: State, key: nat)
    requires Shape(s) && Control(s) && (s.main.PrepTest? || s.main.MenuTest?)
    ensures Polling(s, key) == {}
  {
    forall i | 0 <= i < 3
      ensures !s.threads[i].PollClear?
    {
      assert i == 0 || i == 1 || i == 2;
    }
  }

  lemma ThreadTests(s: State, i: nat, key: nat)
    requires Shape(s) && Control(s) && i < 3 && s.threads[i].PollTest? && key == 1
    ensures i !in Polling(s, key) && |Polling(s, key)| < 3
  {
    assert i == 0 || i == 1 || i == 2;
    assert !MainPolls(s.main, key);
    SubsetIsSmaller(Polling(s, key), {0, 1, 2} - {i});
  }

  /** The polls in progress after a step. */
  function After(polling: set<nat>, e: Event): set<nat> {
    match e
    case Irq => polling
    case Test(p) => polling + {p}
    case Clear(p) => polling - {p}
  }

  /** What a step does to the polls in progress on this key. */
  predicate Moves(s: State, t: State, event: Option<(nat, Event)>, key: nat)
    requires Shape(s) && Shape(t)
  {
    Polling(t, key)
    == if event.Some? && event.value.0 == key then After(Polling(s, key), event.value.1) else Polling(s, key)
  }

  lemma PollingMoves(f: Font, s: State, a: Action, key: nat)
    requires ValidFont(f) && Shape(s) && Control(s) && key < 4 && Shape(Next(f, s, a))
    ensures Moves(s, Next(f, s, a), EventOf(s, a), key)
  {
    match a
    case Interrupt(k) =>
    case MainStep(reps, fail) => MainPollsMove(f, s, reps, fail, key);
    case ThreadStep(i, high, scans) =>
      if i < 3 {
        ThreadMoves(s, i, high, scans, key);
      }
  }

  lemma MainPollsMove(f: Font, s: State, reps: seq<nat>, fail: bool, key: nat)
    requires ValidFont(f) && Shape(s) && Control(s) && key < 4 && Shape(MainNext(f, s, reps, fail))
    ensures Moves(s, MainNext(f, s, reps, fail), EventOf(s, MainStep(reps, fail)), key)
  {
    MainMoves(f, s, reps, fail, key);
    ThreadsRest(f, s, reps, fail);
    NoThreadIsMain(s);
  }

  lemma NoThreadIsMain(s: State)
    requires Shape(s)
    ensures MAIN !in ThreadsPolling(s)
  {
  }

  lemma ThreadsRest(f: Font, s: State, reps: seq<nat>, fail: bool)
    requires ValidFont(f) && Shape(s) && Control(s) && Shape(MainNext(f, s, reps, fail))
    ensures ThreadsPolling(MainNext(f, s, reps, fail)) == ThreadsPolling(s)
  {
    if InMenu(s.main) {
      MenuFrame(f, s, reps, fail);
    } else if !InPrep(s.main) {
      InsertRests(f, s);
    }
  }

  lemma InsertRests(f: Font, s: State)
    requires ValidFont(f) && Shape(s) && Control(s) && !InPrep(s.main) && !InMenu(s.main)
    requires Shape(InsertNext(f, s))
    ensures ThreadsPolling(InsertNext(f, s)) == ThreadsPolling(s)
  {
    InsertCounts(f, s);
  }

  /** Where main stands on its polls before and after one of its steps. */
  predicate MainEventRight(m: MainPc, n: MainPc, event: Option<(nat, Event)>, key: nat) {
    match event
    case None => MainPolls(n, key) == MainPolls(m, key)
    case Some(ke) =>
      || (ke.1 == Test(MAIN) && !MainPolls(m, key) && (MainPolls(n, key) <==> ke.0 == key))
      || (ke.1 == Clear(MAIN) && !MainPolls(n, key) && (MainPolls(m, key) <==> ke.0 == key))
  }

  lemma MainMoves(f: Font, s: State, reps: seq<nat>, fail: bool, key: nat)
    requires ValidFont(f) && Shape(s) && key < 4
    ensures MainEventRight(s.main, MainNext(f, s, reps, fail).main, EventOf(s, MainStep(reps, fail)), key)
  {
    if InMenu(s.main) {
      MenuMoves(f, s, reps, fail, key);
    } else if !InPrep(s.main) {
      InsertMoves(f, s);
    }
  }

  lemma MenuMoves(f: Font, s: State, reps: seq<nat>, fail: bool, key: nat)
    requires ValidFont(f) && Shape(s) && key < 4 && InMenu(s.main)
    ensures MainEventRight(s.main, MenuNext(f, s, reps, fail).main, EventOf(s, MainStep(reps, fail)), key)
  {
  }

  lemma InsertMoves(f: Font, s: State)
    requires ValidFont(f) && Shape(s) && !InPrep(s.main) && !InMenu(s.main)
    ensures forall key :: !MainPolls(InsertNext(f, s).main, key)
  {
  }

  lemma ThreadMoves(s: State, i: nat, high: bool, scans: nat, key: nat)
    requires Shape(s) && i < 3 && Shape(ThreadNext(s, i, high, scans))
    ensures Moves(s, ThreadNext(s, i, high, scans), EventOf(s, ThreadStep(i, high, scans)), key)
  {
    ThreadFrame(s, i, high, scans);
    ThreadsPollingMoves(s, i, high, scans);
  }

  lemma ThreadsPollingMoves(s: State, i: nat, high: bool, scans: nat)
    requires Shape(s) && i < 3 && Shape(ThreadNext(s, i, high, scans))
    ensures ThreadsPolling(ThreadNext(s, i, high, scans))
         == match s.threads[i]
            case PollTest(_, _) => ThreadsPolling(s) + {i}
            case PollClear(_, _, _) => ThreadsPolling(s) - {i}
            case _ => ThreadsPolling(s)
  {
  }

  // ----- Every report takes a press of its key -----

  function ReportsOfKind(reports: seq<Report>, kind: Kind): nat {
    if reports == [] then 0
    else ReportsOfKind(reports[..|reports| - 1], kind) + if reports[|reports| - 1].kind == kind then 1 else 0
  }

  /** Main has a press of key `i` in hand, taken from the flag and not yet answered. */
  predicate Owes(m: MainPc, i: nat)
    requires PcShape(m) && i < 4
  {
    match m
    case MenuTest(j, keys) => i < j && keys[i]
    case MenuClear(j, keys) => i < j && keys[i]
    case Dispatch(j, keys) => j <= i && keys[i]
    case Show(j, keys, _, _, _) => j <= i && keys[i]
    case _ => false
  }

  /** A press that main has seen is still in the flag until main clears it; a report in progress was asked for. */
  predicate InHand(s: State, i: nat)
    requires Shape(s) && i < 4
  {
    && (s.main.MenuClear? && s.main.i == i && s.main.keys[i] ==> s.flags[i] > 0)
    && (s.main.Show? && s.main.i == i ==> s.main.keys[i])
  }

  /** Reports shown, a press in hand and presses in the flag never exceed the interrupts of the key. */
  predicate Covered(s: State, i: nat)
    requires Shape(s) && 1 <= i < 4
  {
    && InHand(s, i)
    && ReportsOfKind(s.reports, KindOf(i)) + (if Owes(s.main, i) then 1 else 0) + s.flags[i] <= Irqs(s.logs[i])
  }

  predicate AllCovered(s: State)
    requires Shape(s)
  {
    Covered(s, 1) && Covered(s, 2) && Covered(s, 3)
  }

  lemma CoveredKept(f: Font, s: State, a: Action, i: nat)
    requires ValidFont(f) && Shape(s) && Control(s) && FlagsTrue(s) && 1 <= i < 4 && Covered(s, i)
    ensures Shape(Next(f, s, a)) && Covered(Next(f, s, a), i)
  {
    ShapeKept(f, s, a);
    match a
    case Interrupt(key) =>
      if key < 4 {
        RaiseCovered(s, key, i);
      }
    case MainStep(reps, fail) => MainCovered(f, s, reps, fail, i);
    case ThreadStep(j, high, scans) =>
      if j < 3 {
        ThreadCovered(s, j, high, scans, i);
      }
  }

  lemma MainCovered(f: Font, s: State, reps: seq<nat>, fail: bool, i: nat)
    requires ValidFont(f) && Shape(s) && FlagsTrue(s) && 1 <= i < 4 && Covered(s, i)
    requires Shape(MainNext(f, s, reps, fail))
    ensures Covered(MainNext(f, s, reps, fail), i)
  {
    if InMenu(s.main) {
      MenuCovered(f, s, reps, fail, i);
    } else {
      OutsideMenuCovered(f, s, reps, fail, i);
    }
  }

  /** Steps that leave main and the reports alone keep the balance, if they take no press away. */
  lemma BalanceKept(s: State, t: State, i: nat)
    requires Shape(s) && Shape(t) && 1 <= i < 4 && Covered(s, i) && t.main == s.main && t.reports == s.reports
    requires t.flags[i] + Irqs(s.logs[i]) <= s.flags[i] + Irqs(t.logs[i])
    requires InMenu(s.main) ==> t.flags[i] >= s.flags[i]
    ensures Covered(t, i)
  {
  }

  lemma RaiseCovered(s: State, key: nat, i: nat)
    requires Shape(s) && key < 4 && 1 <= i < 4 && Covered(s, i)
    ensures Covered(Raise(s, key), i)
  {
    FlagSnoc(s.logs[key], Irq);
    BalanceKept(s, Raise(s, key), i);
  }

  lemma ThreadCovered(s: State, j: nat, high: bool, scans: nat, i: nat)
    requires Shape(s) && Control(s) && FlagsTrue(s) && j < 3 && 1 <= i < 4 && Covered(s, i)
    requires Shape(ThreadNext(s, j, high, scans))
    ensures Covered(ThreadNext(s, j, high, scans), i)
  {
    ThreadFrame(s, j, high, scans);
    ThreadBalance(s, j, high, scans, i);
    MenuHasNoThreads(s, j);
    BalanceKept(s, ThreadNext(s, j, high, scans), i);
  }

  lemma MenuHasNoThreads(s: State, j: nat)
    requires Shape(s) && Control(s) && j < 3
    ensures InMenu(s.main) ==> s.threads[j] == Finished
  {
    assert j == 0 || j == 1 || j == 2;
  }

  lemma ThreadBalance(s: State, j: nat, high: bool, scans: nat, i: nat)
    requires Shape(s) && j < 3 && 1 <= i < 4 && Shape(ThreadNext(s, j, high, scans))
    ensures var t := ThreadNext(s, j, high, scans);
      t.flags[i] + Irqs(s.logs[i]) <= s.flags[i] + Irqs(t.logs[i])
  {
    ThreadEvent(s, j, high, scans);
    match EventOf(s, ThreadStep(j, high, scans))
    case None =>
    case Some(ke) => MoveBalance(s, ThreadNext(s, j, high, scans), ke.0, ke.1, i);
  }

  lemma MoveBalance(s: State, t: State, key: nat, e: Event, i: nat)
    requires Shape(s) && Shape(t) && key < 4 && i < 4 && KeyMoves(s, t, key, e)
    ensures t.flags[i] + Irqs(s.logs[i]) <= s.flags[i] + Irqs(t.logs[i])
  {
    FlagSnoc(s.logs[key], e);
  }

  lemma OutsideMenuCovered(f: Font, s: State, reps: seq<nat>, fail: bool, i: nat)
    requires ValidFont(f) && Shape(s) && !InMenu(s.main) && FlagsTrue(s) && 1 <= i < 4 && Covered(s, i)
    requires Shape(MainNext(f, s, reps, fail))
    ensures Covered(MainNext(f, s, reps, fail), i)
  {
    if InPrep(s.main) {
      PrepCovered(s, fail, i);
    } else {
      InsertCovered(f, s);
    }
  }

  lemma PrepCovered(s: State, fail: bool, i: nat)
    requires Shape(s) && InPrep(s.main) && 1 <= i < 4 && Shape(PrepNext(s, fail))
    ensures var t := PrepNext(s, fail);
      && t.reports == s.reports && t.flags[i] == s.flags[i] && t.logs[i] == s.logs[i]
      && !t.main.MenuClear? && !t.main.Show? && !Owes(t.main, i)
  {
  }

  lemma InsertCovered(f: Font, s: State)
    requires ValidFont(f) && Shape(s) && !InPrep(s.main) && !InMenu(s.main)
    ensures var t := InsertNext(f, s);
      && t.reports == s.reports && t.flags == s.flags && t.logs == s.logs
      && (t.main == s.main || (!t.main.MenuTest? && !t.main.MenuClear? && !t.main.Dispatch? && !t.main.Show?))
  {
  }

  lemma MenuCovered(f: Font, s: State, reps: seq<nat>, fail: bool, i: nat)
    requires ValidFont(f) && Shape(s) && InMenu(s.main) && FlagsTrue(s) && 1 <= i < 4 && Covered(s, i)
    requires Shape(MenuNext(f, s, reps, fail))
    ensures Covered(MenuNext(f, s, reps, fail), i)
  {
    match s.main
    case MenuGuard =>
    case MenuTest(j, keys) => PollCovered(f, s, reps, fail, i);
    case MenuClear(j, keys) => PollCovered(f, s, reps, fail, i);
    case Dispatch(j, keys) => DispatchCovered(f, s, reps, fail, i);
    case Show(j, keys, buf, rs, k) => ShowCovered(f, s, reps, fail, i);
  }

  lemma PollCovered(f: Font, s: State, reps: seq<nat>, fail: bool, i: nat)
    requires ValidFont(f) && Shape(s) && (s.main.MenuTest? || s.main.MenuClear?) && 1 <= i < 4 && Covered(s, i)
    requires Shape(MenuNext(f, s, reps, fail))
    ensures Covered(MenuNext(f, s, reps, fail), i)
  {
    FlagSnoc(s.logs[s.main.i], Test(MAIN));
    FlagSnoc(s.logs[s.main.i], Clear(MAIN));
  }

  lemma DispatchCovered(f: Font, s: State, reps: seq<nat>, fail: bool, i: nat)
    requires ValidFont(f) && Shape(s) && s.main.Dispatch? && 1 <= i < 4
    requires Shape(MenuNext(f, s, reps, fail))
    ensures var t := MenuNext(f, s, reps, fail);
      && t.reports == s.reports && t.flags == s.flags && t.logs == s.logs && InHand(t, i)
      && (Owes(t.main, i) ==> Owes(s.main, i))
  {
  }

  lemma ShowCovered(f: Font, s: State, reps: seq<nat>, fail: bool, i: nat)
    requires ValidFont(f) && Shape(s) && s.main.Show? && 1 <= i < 4 && InHand(s, i)
    requires Shape(MenuNext(f, s, reps, fail))
    ensures var t := MenuNext(f, s, reps, fail);
      && t.flags == s.flags && t.logs == s.logs && InHand(t, i)
      && ReportsOfKind(t.reports, KindOf(i)) + (if Owes(t.main, i) then 1 else 0)
         <= ReportsOfKind(s.reports, KindOf(i)) + (if Owes(s.main, i) then 1 else 0)
  {
    ReportStep(f, s, reps, fail);
    OneMoreOfKind(s.reports, Report(KindOf(s.main.i), s.main.reps, s.seen), KindOf(i));
  }

  lemma OneMoreOfKind(reports: seq<Report>, r: Report, kind: Kind)
    ensures ReportsOfKind(reports + [r], kind) == ReportsOfKind(reports, kind) + if r.kind == kind then 1 else 0
  {
    assert (reports + [r])[..|reports|] == reports;
  }
}