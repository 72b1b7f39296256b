/**
  The menu: whatever main does there on its own, each raised key is answered by exactly
  one report, key 1 switches the machine off, and main can always finish its round.
 */
module MachineProgress {
  import opened Digits
  import opened Glyphs
  import opened Reports
  import opened Scroll
  import opened Machine
  import opened MachineKeys
  import opened MachineRuns

  // ----- Runs of main alone -----

  /** Only main steps, and no poll fails. */
  predicate MainOnly(run: seq<Action>) {
    forall a | a in run :: a.MainStep? && !a.fail
  }

  /** Some run of main alone leads from one state to the other. */
  ghost predicate MainLeads(f: Font, s: State, t: State)
    requires ValidFont(f) && Shape(s)
  {
    exists run :: MainOnly(run) && Run(f, s, run) == t
  }

  lemma MainLeadsOn(f: Font, s: State, t: State, u: State)
    requires ValidFont(f) && Shape(s) && Shape(t) && MainLeads(f, s, t) && MainLeads(f, t, u)
    ensures MainLeads(f, s, u)
  {
    var run :| MainOnly(run) && Run(f, s, run) == t;
    var more :| MainOnly(more) && Run(f, t, more) == u;
    RunOn(f, s, run, more);
    assert MainOnly(run + more) && Run(f, s, run + more) == u;
  }

  lemma MenuStepLeads(f: Font, s: State, reps: seq<nat>, t: State)
    requires ValidFont(f) && Shape(s) && InMenu(s.main) && t == MenuNext(f, s, reps, false)
    ensures Shape(t) && MainLeads(f, s, t)
  {
    var a := MainStep(reps, false);
    MenuShape(f, s, reps, false);
    OneStep(f, s, a);
    assert MainOnly([a]) && Run(f, s, [a]) == t;
  }

  /** Counters, threads and flags do not change. */
  predicate Quiet(s: State, t: State) {
    t.mac == s.mac && t.coins == s.coins && t.threads == s.threads && t.flags == s.flags
  }

  /** The reports of each kind from key 2 to key 4 grew by these numbers. */
  predicate Answered(s: State, t: State, a: nat, b: nat, c: nat) {
    && ReportsOfKind(t.reports, Money) == ReportsOfKind(s.reports, Money) + a
    && ReportsOfKind(t.reports, Each) == ReportsOfKind(s.reports, Each) + b
    && ReportsOfKind(t.reports, Count) == ReportsOfKind(s.reports, Count) + c
  }

  function One(yes: bool): nat {
    if yes then 1 else 0
  }

  // ----- A report in progress -----

  function WritesLeft(m: MainPc): nat
    requires PcShape(m) && m.Show?
  {
    |ScrollOps(m.buf, m.reps, |m.reps|)| - m.k
  }

  /** One register write of a report, or its end. */
  predicate ShowMoves(s: State, t: State)
    requires PcShape(s.main) && s.main.Show?
  {
    && Quiet(s, t)
    && if WritesLeft(s.main) > 0 then t.main == s.main.(k := s.main.k + 1) && t.reports == s.reports
       else t.main == Dispatch(s.main.i + 1, s.main.keys) && ReportAdded(s, t, s.main.i)
  }

  predicate ReportAdded(s: State, t: State, i: nat) {
    Answered(s, t, One(i == 1), One(i == 2), One(i == 3))
  }

  lemma ShowNext(f: Font, s: State, reps: seq<nat>)
    requires ValidFont(f) && Shape(s) && s.main.Show?
    ensures ShowMoves(s, MenuNext(f, s, reps, false))
  {
    var r := Report(KindOf(s.main.i), s.main.reps, s.seen);
    OneMoreOfKind(s.reports, r, Money);
    OneMoreOfKind(s.reports, r, Each);
    OneMoreOfKind(s.reports, r, Count);
  }

  lemma ShowStep(f: Font, s: State) returns (t: State)
    requires ValidFont(f) && Shape(s) && s.main.Show?
    ensures Shape(t) && MainLeads(f, s, t) && Quiet(s, t)
    ensures WritesLeft(s.main) > 0 ==>
      && t.main.Show? && t.main.i == s.main.i && t.main.keys == s.main.keys && t.reports == s.reports
      && WritesLeft(t.main) < WritesLeft(s.main)
    ensures WritesLeft(s.main) == 0 ==> ReportDone(s, t, s.main.i, s.main.keys)
  {
    ShowNext(f, s, []);
    t := MenuNext(f, s, [], false);
    MenuStepLeads(f, s, [], t);
  }

  /** A report has been finished between these states. */
  predicate ReportDone(s: State, t: State, i: nat, keys: seq<bool>) {
    Quiet(s, t) && t.main == Dispatch(i + 1, keys) && ReportAdded(s, t, i)
  }

  lemma {:induction false} ShowFinishes(f: Font, s: State) returns (t: State)
    requires ValidFont(f) && Shape(s) && s.main.Show?
    ensures Shape(t) && MainLeads(f, s, t) && ReportDone(s, t, s.main.i, s.main.keys)
    decreases WritesLeft(s.main)
  {
    var u := ShowStep(f, s);
    if WritesLeft(s.main) > 0 {
      t := ShowFinishes(f, u);
      MainLeadsOn(f, s, u, t);
      DoneEarlier(s, u, t, s.main.i, s.main.keys);
    } else {
      t := u;
    }
  }

  lemma DoneEarlier(s: State, u: State, t: State, i: nat, keys: seq<bool>)
    requires Quiet(s, u) && u.reports == s.reports && ReportDone(u, t, i, keys)
    ensures ReportDone(s, t, i, keys)
  {
  }

  // ----- One key of the menu -----

  predicate NothingOverflows(s: State)
    requires Shape(s)
  {
    Total(s.coins[0], s.coins[1], s.coins[2]) <= INT_MAX
  }

  lemma AllFit(kind: Kind, coins: seq<nat>)
    requires |coins| == 3 && Total(coins[0], coins[1], coins[2]) <= INT_MAX
    ensures Fits(kind, coins)
  {
  }

  /** Showing each window of a report once. */
  lemma ShownOnce(f: Font, kind: Kind, coins: seq<nat>) returns (reps: seq<nat>)
    requires ValidFont(f) && |coins| == 3
    ensures AllShown(reps) && |ImageOf(f, kind, coins)| == |reps| + 7
  {
    ImageHasGlyphs(f, kind, coins);
    reps := OnceEach(|ImageOf(f, kind, coins)| - 7);
  }

  lemma OnceEach(n: nat) returns (reps: seq<nat>)
    requires n > 0
    ensures AllShown(reps) && |reps| == n
  {
    reps := seq(n, _ => 1);
  }

  lemma ImageHasGlyphs(f: Font, kind: Kind, coins: seq<nat>)
    requires ValidFont(f) && |coins| == 3
    ensures |ImageOf(f, kind, coins)| >= 8
  {
    assert |Text(kind, coins[0], coins[1], coins[2])| >= 1;
  }

  /** Main goes past a key that is not asked for, or begins the report of one that is. */
  predicate DispatchMoves(s: State, t: State)
    requires PcShape(s.main) && s.main.Dispatch? && 1 <= s.main.i < 4
  {
    && Quiet(s, t) && t.reports == s.reports
    && if s.main.keys[s.main.i] then t.main.Show? && t.main.i == s.main.i && t.main.keys == s.main.keys
       else t.main == Dispatch(s.main.i + 1, s.main.keys)
  }

  lemma KeyBegins(f: Font, s: State, reps: seq<nat>)
    requires ValidFont(f) && Shape(s) && s.main.Dispatch? && 1 <= s.main.i < 4
    requires s.main.keys[s.main.i] ==>
      && Fits(KindOf(s.main.i), s.coins)
      && AllShown(reps) && |ImageOf(f, KindOf(s.main.i), s.coins)| == |reps| + 7
    ensures DispatchMoves(s, MenuNext(f, s, reps, false))
  {
  }

  lemma KeyStep(f: Font, s: State) returns (t: State)
    requires ValidFont(f) && Shape(s) && s.main.Dispatch? && 1 <= s.main.i < 4
    requires s.main.keys[s.main.i] ==> Fits(KindOf(s.main.i), s.coins)
    ensures Shape(t) && MainLeads(f, s, t) && DispatchMoves(s, t)
  {
    var reps := ShownOnce(f, KindOf(s.main.i), s.coins);
    KeyBegins(f, s, reps);
    t := MenuNext(f, s, reps, false);
    MenuStepLeads(f, s, reps, t);
  }

  lemma DispatchOne(f: Font, s: State) returns (t: State)
    requires ValidFont(f) && Shape(s) && s.main.Dispatch? && 1 <= s.main.i < 4
    requires s.main.keys[s.main.i] ==> Fits(KindOf(s.main.i), s.coins)
    ensures Shape(t) && MainLeads(f, s, t) && KeyDone(s, t)
  {
    var u := KeyStep(f, s);
    if s.main.keys[s.main.i] {
      t := ShowFinishes(f, u);
      MainLeadsOn(f, s, u, t);
      KeyThenReport(s, u, t);
    } else {
      t := u;
    }
  }

  /** One key of the round is dealt with: its report shown if it was asked for. */
  predicate KeyDone(s: State, t: State)
    requires PcShape(s.main) && s.main.Dispatch? && 1 <= s.main.i < 4
  {
    && Quiet(s, t) && t.main == Dispatch(s.main.i + 1, s.main.keys)
    && if s.main.keys[s.main.i] then ReportAdded(s, t, s.main.i) else t.reports == s.reports
  }

  lemma KeyThenReport(s: State, u: State, t: State)
    requires PcShape(s.main) && s.main.Dispatch? && 1 <= s.main.i < 4 && s.main.keys[s.main.i]
    requires DispatchMoves(s, u) && ReportDone(u, t, s.main.i, s.main.keys)
    ensures KeyDone(s, t)
  {
  }

  // ----- A round of the menu, whatever main does -----

  predicate Back(m: MainPc) {
    m == MenuGuard || m.Off?
  }

  function Raised(flags: seq<nat>): (keys: seq<bool>)
    requires |flags| == 4
    ensures |keys| == 4
  {
    [flags[0] > 0, flags[1] > 0, flags[2] > 0, flags[3] > 0]
  }

  /** The first `n` flags are down, the others as they were. */
  predicate Lowered(flags: seq<nat>, now: seq<nat>, n: nat)
    requires |flags| == |now| == 4
  {
    && now[0] == (if n > 0 then 0 else flags[0]) && now[1] == (if n > 1 then 0 else flags[1])
    && now[2] == (if n > 2 then 0 else flags[2]) && now[3] == (if n > 3 then 0 else flags[3])
  }

  /** The keys before key `n` of a round that began with these flags have been answered. */
  predicate AnsweredBefore(s: State, t: State, n: nat)
    requires Shape(s)
  {
    && s.flags[0] == 0
    && Answered(s, t, One(n > 1 && s.flags[1] > 0), One(n > 2 && s.flags[2] > 0), One(n > 3 && s.flags[3] > 0))
  }

  /** Where main may stand after steps of its own from the menu's guard in state `s`. */
  predicate InRound(s: State, t: State)
    requires Shape(s) && Shape(t)
  {
    && t.mac == 2 && t.coins == s.coins && t.threads == s.threads
    && match t.main
       case MenuTest(i, keys) =>
         keys == Raised(s.flags)[..i] && Lowered(s.flags, t.flags, i) && t.reports == s.reports
       case MenuClear(i, keys) =>
         keys == Raised(s.flags)[..i + 1] && Lowered(s.flags, t.flags, i) && t.reports == s.reports
       case Dispatch(i, keys) =>
         && keys == Raised(s.flags) && Lowered(s.flags, t.flags, 4)
         && if i == 0 then t.reports == s.reports else AnsweredBefore(s, t, i)
       case Show(i, keys, _, _, _) =>
         && keys == Raised(s.flags) && Lowered(s.flags, t.flags, 4)
         && s.flags[i] > 0 && AnsweredBefore(s, t, i)
       case MenuGuard => Lowered(s.flags, t.flags, 4) && AnsweredBefore(s, t, 4)
       case Off(byKey) => byKey && Lowered(s.flags, t.flags, 4) && s.flags[0] > 0 && t.reports == s.reports
       case Undefined => !NothingOverflows(s)
       case _ => false
  }

  lemma RoundBegins(f: Font, s: State, reps: seq<nat>)
    requires ValidFont(f) && Shape(s) && s.main == MenuGuard && s.mac == 2
    ensures Shape(MenuNext(f, s, reps, false)) && InRound(s, MenuNext(f, s, reps, false))
  {
    MenuShape(f, s, reps, false);
    assert [] == Raised(s.flags)[..0];
  }

  lemma RoundKept(f: Font, s: State, t: State, reps: seq<nat>)
    requires ValidFont(f) && Shape(s) && Shape(t) && InRound(s, t) && InMenu(t.main) && t.main != MenuGuard
    ensures Shape(MenuNext(f, t, reps, false)) && InRound(s, MenuNext(f, t, reps, false))
  {
    MenuShape(f, t, reps, false);
    match t.main
    case MenuTest(i, keys) => RoundTests(f, s, t, reps);
    case MenuClear(i, keys) => RoundClears(f, s, t, reps);
    case Dispatch(i, keys) => RoundDispatches(f, s, t, reps);
    case Show(i, keys, _, _, _) => RoundShows(f, s, t, reps);
  }

  lemma RoundTests(f: Font, s: State, t: State, reps: seq<nat>)
    requires ValidFont(f) && Shape(s) && Shape(t) && InRound(s, t) && t.main.MenuTest?
    requires Shape(MenuNext(f, t, reps, false))
    ensures InRound(s, MenuNext(f, t, reps, false))
  {
    var i := t.main.i;
    assert i == 0 || i == 1 || i == 2 || i == 3;
    assert t.flags[i] == s.flags[i];
    assert Raised(s.flags)[..i + 1] == Raised(s.flags)[..i] + [s.flags[i] > 0];
  }

  lemma RoundClears(f: Font, s: State, t: State, reps: seq<nat>)
    requires ValidFont(f) && Shape(s) && Shape(t) && InRound(s, t) && t.main.MenuClear?
    requires Shape(MenuNext(f, t, reps, false))
    ensures InRound(s, MenuNext(f, t, reps, false))
  {
    var i := t.main.i;
    assert i == 0 || i == 1 || i == 2 || i == 3;
    assert Raised(s.flags)[..4] == Raised(s.flags);
  }

  lemma RoundDispatches(f: Font, s: State, t: State, reps: seq<nat>)
    requires ValidFont(f) && Shape(s) && Shape(t) && InRound(s, t) && t.main.Dispatch?
    requires Shape(MenuNext(f, t, reps, false))
    ensures InRound(s, MenuNext(f, t, reps, false))
  {
    if t.main.i == 0 || t.main.i == 4 {
      EndKeys(f, s, t, reps);
    } else {
      ReportKeys(f, s, t, reps);
    }
  }

  lemma EndKeys(f: Font, s: State, t: State, reps: seq<nat>)
    requires ValidFont(f) && Shape(s) && Shape(t) && InRound(s, t) && t.main.Dispatch?
    requires t.main.i == 0 || t.main.i == 4
    requires Shape(MenuNext(f, t, reps, false))
    ensures InRound(s, MenuNext(f, t, reps, false))
  {
  }

  lemma ReportKeys(f: Font, s: State, t: State, reps: seq<nat>)
    requires ValidFont(f) && Shape(s) && Shape(t) && InRound(s, t) && t.main.Dispatch? && 1 <= t.main.i < 4
    requires Shape(MenuNext(f, t, reps, false))
    ensures InRound(s, MenuNext(f, t, reps, false))
  {
    if NothingOverflows(s) {
      AllFit(KindOf(t.main.i), s.coins);
    }
    ReportKeyMoves(f, t, reps);
    assert t.main.i == 1 || t.main.i == 2 || t.main.i == 3;
  }

  /** Main waits for the right repetitions, goes past a key, begins its report, or finds that it overflows. */
  lemma ReportKeyMoves(f: Font, s: State, reps: seq<nat>)
    requires ValidFont(f) && Shape(s) && s.main.Dispatch? && 1 <= s.main.i < 4
    ensures var t := MenuNext(f, s, reps, false);
      && Quiet(s, t) && t.reports == s.reports
      && (t.main == s.main || DispatchMoves(s, t)
          || (t.main == Undefined && s.main.keys[s.main.i] && !Fits(KindOf(s.main.i), s.coins)))
  {
  }

  lemma RoundShows(f: Font, s: State, t: State, reps: seq<nat>)
    requires ValidFont(f) && Shape(s) && Shape(t) && InRound(s, t) && t.main.Show?
    requires Shape(MenuNext(f, t, reps, false))
    ensures InRound(s, MenuNext(f, t, reps, false))
  {
    ShowNext(f, t, reps);
    assert t.main.i == 1 || t.main.i == 2 || t.main.i == 3;
  }

  /** No state strictly between the ends of the run is back at the menu's guard or off. */
  predicate FirstReturn(f: Font, s: State, run: seq<Action>)
    requires ValidFont(f) && Shape(s)
  {
    forall k | 0 < k < |run| :: !Back(Run(f, s, run[..k]).main)
  }

  lemma {:induction false} AlwaysInRound(f: Font, s: State, run: seq<Action>)
    requires ValidFont(f) && Shape(s) && s.main == MenuGuard && s.mac == 2
    requires MainOnly(run) && run != [] && FirstReturn(f, s, run)
    ensures InRound(s, Run(f, s, run))
  {
    var init, a := run[..|run| - 1], run[|run| - 1];
    assert a in run;
    if init == [] {
      RoundBegins(f, s, a.reps);
    } else {
      var t := Run(f, s, init);
      assert !Back(t.main);
      InitReturns(f, s, run);
      AlwaysInRound(f, s, init);
      if InMenu(t.main) {
        RoundKept(f, s, t, a.reps);
      }
    }
  }

  lemma InitReturns(f: Font, s: State, run: seq<Action>)
    requires ValidFont(f) && Shape(s) && MainOnly(run) && run != [] && FirstReturn(f, s, run)
    ensures MainOnly(run[..|run| - 1]) && FirstReturn(f, s, run[..|run| - 1])
  {
    var init := run[..|run| - 1];
    forall k | 0 < k < |init|
      ensures !Back(Run(f, s, init[..k]).main)
    {
      assert init[..k] == run[..k];
    }
  }

  /** What a round of the menu has done when main is back. */
  predicate RoundDone(s: State, t: State)
    requires Shape(s) && Shape(t)
  {
    && t.flags == [0, 0, 0, 0] && t.coins == s.coins && t.threads == s.threads && t.mac == 2
    && if s.flags[0] > 0 then t.main == Off(true) && t.reports == s.reports
       else t.main == MenuGuard && Answered(s, t, One(s.flags[1] > 0), One(s.flags[2] > 0), One(s.flags[3] > 0))
  }

  /**
    However main goes through its menu without being interrupted: when it is back for the
    first time all four flags are down; a raised key 1 has switched the machine off without
    a report; otherwise each of the keys 2, 3, 4 whose flag was raised, however often it had
    interrupted, has got exactly one report, and the others none.
   */
  lemma MenuAnswers(f: Font, s: State, run: seq<Action>)
    requires ValidFont(f) && Shape(s) && s.main == MenuGuard && s.mac == 2
    requires MainOnly(run) && run != [] && FirstReturn(f, s, run) && Back(Run(f, s, run).main)
    ensures RoundDone(s, Run(f, s, run))
  {
    AlwaysInRound(f, s, run);
    BackIsDone(s, Run(f, s, run));
  }

  lemma BackIsDone(s: State, t: State)
    requires Shape(s) && Shape(t) && InRound(s, t) && Back(t.main)
    ensures RoundDone(s, t)
  {
    assert t.flags == [t.flags[0], t.flags[1], t.flags[2], t.flags[3]];
  }

  // ----- Main can finish a round on its own -----

  /** One poll of the menu: its test and its clear. */
  predicate PollMoves(s: State, t: State)
    requires Shape(s) && s.main.MenuTest?
  {
    && t.mac == s.mac && t.coins == s.coins && t.threads == s.threads && t.reports == s.reports
    && t.flags == s.flags[s.main.i := 0]
    && var keys := s.main.keys + [s.flags[s.main.i] > 0];
       t.main == if s.main.i < 3 then MenuTest(s.main.i + 1, keys) else Dispatch(0, keys)
  }

  lemma PollNext(f: Font, s: State, u: State)
    requires ValidFont(f) && Shape(s) && s.main.MenuTest? && u == MenuNext(f, s, [], false) && Shape(u)
    ensures u.main.MenuClear? && PollMoves(s, MenuNext(f, u, [], false))
  {
  }

  lemma PollOne(f: Font, s: State) returns (t: State)
    requires ValidFont(f) && Shape(s) && s.main.MenuTest?
    ensures Shape(t) && MainLeads(f, s, t) && PollMoves(s, t)
  {
    var u := MenuNext(f, s, [], false);
    MenuStepLeads(f, s, [], u);
    PollNext(f, s, u);
    t := MenuNext(f, u, [], false);
    MenuStepLeads(f, u, [], t);
    MainLeadsOn(f, s, u, t);
  }

  lemma ClearOne(f: Font, s: State) returns (t: State)
    requires ValidFont(f) && Shape(s) && s.main.MenuClear?
    ensures Shape(t) && MainLeads(f, s, t) && t.mac == s.mac && t.coins == s.coins
    ensures t.flags == s.flags[s.main.i := 0]
    ensures t.main == if s.main.i < 3 then MenuTest(s.main.i + 1, s.main.keys) else Dispatch(0, s.main.keys)
  {
    t := MenuNext(f, s, [], false);
    MenuStepLeads(f, s, [], t);
  }

  /** From the menu's guard to its polls, when insertion is over. */
  lemma MenuEnters(f: Font, s: State) returns (t: State)
    requires ValidFont(f) && Shape(s) && s.main == MenuGuard && s.mac == 2
    ensures Shape(t) && MainLeads(f, s, t) && t == s.(main := MenuTest(0, [])) == MenuNext(f, s, [], false)
  {
    t := MenuNext(f, s, [], false);
    MenuStepLeads(f, s, [], t);
  }

  /** Key 1 is looked at first. */
  lemma FirstKey(f: Font, s: State) returns (t: State)
    requires ValidFont(f) && Shape(s) && s.main.Dispatch? && s.main.i == 0
    ensures Shape(t) && MainLeads(f, s, t)
    ensures t == s.(main := if s.main.keys[0] then Off(true) else Dispatch(1, s.main.keys))
  {
    t := MenuNext(f, s, [], false);
    MenuStepLeads(f, s, [], t);
  }

  lemma LastKey(f: Font, s: State) returns (t: State)
    requires ValidFont(f) && Shape(s) && s.main.Dispatch? && s.main.i == 4
    ensures Shape(t) && MainLeads(f, s, t) && t == s.(main := MenuGuard)
  {
    t := MenuNext(f, s, [], false);
    MenuStepLeads(f, s, [], t);
  }

  /** Key 1 is raised or in hand, so this round ends the menu before any report. */
  predicate KeyOneWins(s: State)
    requires Shape(s)
  {
    match s.main
    case MenuGuard => s.flags[0] > 0
    case MenuTest(i, keys) => if i == 0 then s.flags[0] > 0 else keys[0]
    case MenuClear(i, keys) => keys[0]
    case Dispatch(i, keys) => i == 0 && keys[0]
    case _ => false
  }

  /** Main has still to begin the report of key `j` in this round: its press is in hand, or in a flag not yet polled. */
  predicate Pending(s: State, j: nat)
    requires Shape(s) && 1 <= j < 4
  {
    match s.main
    case MenuGuard => s.flags[j] > 0
    case MenuTest(i, keys) => if j < i then keys[j] else s.flags[j] > 0
    case MenuClear(i, keys) => if j <= i then keys[j] else s.flags[j] > 0
    case Dispatch(i, keys) => i <= j && keys[j]
    case Show(i, keys, _, _, _) => i < j && keys[j]
    case _ => false
  }

  predicate PendingFits(s: State, j: nat)
    requires Shape(s) && 1 <= j < 4
  {
    Pending(s, j) ==> Fits(KindOf(j), s.coins)
  }

  /** Nothing in this round makes main compute a number that is not an int. */
  predicate Answerable(s: State)
    requires Shape(s)
  {
    KeyOneWins(s) || (PendingFits(s, 1) && PendingFits(s, 2) && PendingFits(s, 3))
  }

  lemma NoOverflowIsAnswerable(s: State)
    requires Shape(s) && NothingOverflows(s)
    ensures Answerable(s)
  {
    AllFit(KindOf(1), s.coins);
    AllFit(KindOf(2), s.coins);
    AllFit(KindOf(3), s.coins);
  }

  /** How far a round of the menu still has to go. */
  function RoundLeft(m: MainPc): nat
    requires PcShape(m)
  {
    match m
    case MenuGuard => 21
    case MenuTest(i, _) => 20 - 2 * i
    case MenuClear(i, _) => 19 - 2 * i
    case Dispatch(i, _) => 10 - 2 * i
    case Show(i, _, _, _, _) => 9 - 2 * i
    case _ => 0
  }

  /** What a part of a round keeps and gains. */
  predicate RoundGoesOn(s: State, t: State)
    requires Shape(s) && Shape(t)
  {
    && t.mac == 2
    && (InMenu(t.main) || t.main == Off(true))
    && (t.main == MenuGuard || RoundLeft(t.main) < RoundLeft(s.main))
    && (InMenu(t.main) && t.main != MenuGuard ==> Answerable(t))
  }

  lemma EnterGoesOn(s: State, t: State)
    requires Shape(s) && Shape(t) && s.main == MenuGuard && s.mac == 2 && Answerable(s)
    requires t == s.(main := MenuTest(0, []))
    ensures RoundGoesOn(s, t)
  {
  }

  lemma ShowGoesOn(s: State, t: State)
    requires Shape(s) && Shape(t) && s.main.Show? && s.mac == 2 && Answerable(s)
    requires ReportDone(s, t, s.main.i, s.main.keys)
    ensures RoundGoesOn(s, t)
  {
    assert s.main.i == 1 || s.main.i == 2 || s.main.i == 3;
  }

  lemma PollGoesOn(s: State, t: State)
    requires Shape(s) && Shape(t) && s.main.MenuTest? && s.mac == 2 && Answerable(s) && PollMoves(s, t)
    ensures RoundGoesOn(s, t)
  {
    assert s.main.i == 0 || s.main.i == 1 || s.main.i == 2 || s.main.i == 3;
  }

  lemma ClearGoesOn(f: Font, s: State) returns (t: State)
    requires ValidFont(f) && Shape(s) && s.main.MenuClear? && s.mac == 2 && Answerable(s)
    ensures Shape(t) && MainLeads(f, s, t) && RoundGoesOn(s, t)
  {
    t := ClearOne(f, s);
    assert s.main.i == 0 || s.main.i == 1 || s.main.i == 2 || s.main.i == 3;
  }

  lemma DispatchGoesOn(f: Font, s: State) returns (t: State)
    requires ValidFont(f) && Shape(s) && s.main.Dispatch? && s.mac == 2 && Answerable(s)
    ensures Shape(t) && MainLeads(f, s, t) && RoundGoesOn(s, t)
  {
    if s.main.i == 0 {
      t := FirstKey(f, s);
    } else if s.main.i < 4 {
      KeyFits(s);
      t := DispatchOne(f, s);
      KeyGoesOn(s, t);
    } else {
      t := LastKey(f, s);
    }
  }

  lemma KeyFits(s: State)
    requires Shape(s) && s.main.Dispatch? && 1 <= s.main.i < 4 && Answerable(s)
    ensures s.main.keys[s.main.i] ==> Fits(KindOf(s.main.i), s.coins)
  {
    assert PendingFits(s, 1) && PendingFits(s, 2) && PendingFits(s, 3);
    assert s.main.i == 1 || s.main.i == 2 || s.main.i == 3;
  }

  lemma KeyGoesOn(s: State, t: State)
    requires Shape(s) && Shape(t) && s.main.Dispatch? && 1 <= s.main.i < 4 && s.mac == 2 && Answerable(s)
    requires KeyDone(s, t)
    ensures RoundGoesOn(s, t)
  {
    assert PendingFits(s, 1) && PendingFits(s, 2) && PendingFits(s, 3);
  }

  /** A part of a round: a poll, a key, a report. */
  lemma RoundStep(f: Font, s: State) returns (t: State)
    requires ValidFont(f) && Shape(s) && InMenu(s.main) && s.mac == 2 && Answerable(s)
    ensures Shape(t) && MainLeads(f, s, t) && RoundGoesOn(s, t)
  {
    match s.main
    case MenuGuard =>
      t := MenuEnters(f, s);
      EnterGoesOn(s, t);
    case MenuTest(i, keys) =>
      t := PollOne(f, s);
      PollGoesOn(s, t);
    case MenuClear(i, keys) => t := ClearGoesOn(f, s);
    case Dispatch(i, keys) => t := DispatchGoesOn(f, s);
    case Show(i, keys, buf, reps, k) =>
      t := ShowFinishes(f, s);
      ShowGoesOn(s, t);
  }

  /** From every place in the menu main can come back on its own, if the reports ahead fit an int. */
  lemma {:induction false} RoundEnds(f: Font, s: State) returns (t: State)
    requires ValidFont(f) && Shape(s) && InMenu(s.main) && s.mac == 2 && Answerable(s)
    ensures Shape(t) && MainLeads(f, s, t) && t.mac == 2 && (t.main == MenuGuard || t.main == Off(true))
    decreases RoundLeft(s.main)
  {
    t := RoundStep(f, s);
    if InMenu(t.main) && t.main != MenuGuard {
      var u := t;
      t := RoundEnds(f, u);
      MainLeadsOn(f, s, u, t);
    }
  }

  /** Such a round of main alone, up to its first return, exists whenever the reports ahead fit an int. */
  lemma MenuReturns(f: Font, s: State) returns (run: seq<Action>)
    requires ValidFont(f) && Shape(s) && s.main == MenuGuard && s.mac == 2 && Answerable(s)
    ensures MainOnly(run) && run != [] && FirstReturn(f, s, run) && Back(Run(f, s, run).main)
  {
    var u := MenuEnters(f, s);
    var more := RoundRun(f, u);
    var first := MainStep([], false);
    OneStep(f, s, first);
    RunOn(f, s, [first], more);
    run := Shortest(f, s, [first] + more);
  }

  lemma RoundRun(f: Font, s: State) returns (run: seq<Action>)
    requires ValidFont(f) && Shape(s) && InMenu(s.main) && s.mac == 2 && Answerable(s)
    ensures MainOnly(run) && Back(Run(f, s, run).main)
  {
    var t := RoundEnds(f, s);
    run :| MainOnly(run) && Run(f, s, run) == t;
  }

  lemma {:induction false} Shortest(f: Font, s: State, run: seq<Action>) returns (short: seq<Action>)
    requires ValidFont(f) && Shape(s) && MainOnly(run) && run != [] && Back(Run(f, s, run).main)
    ensures MainOnly(short) && short != [] && FirstReturn(f, s, short) && Back(Run(f, s, short).main)
    decreases |run|
  {
    if FirstReturn(f, s, run) {
      short := run;
    } else {
      var k :| 0 < k < |run| && Back(Run(f, s, run[..k]).main);
      short := Shortest(f, s, run[..k]);
    }
  }
}
