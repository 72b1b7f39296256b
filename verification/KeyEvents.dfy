/**
  The interrupt/poll event flag of the key drivers. The handler is atomic; a poll
  is two steps, a test of the flag and a clear of it, between which interrupts and
  other pollers may run. The history of one key is a sequence of events.
 */
module KeyEvents {
  import opened Gpio
  import opened FunctionSelect

  datatype Event = Irq | Test(poller: nat) | Clear(poller: nat)

  /** The driver's flag after a history. */
  function Flag(log: seq<Event>): nat {
    if log == [] then 0
    else
      match log[|log| - 1]
      case Irq => Flag(log[..|log| - 1]) + 1
      case Test(_) => Flag(log[..|log| - 1])
      case Clear(_) => 0
  }

  function Irqs(log: seq<Event>): nat {
    if log == [] then 0 else Irqs(log[..|log| - 1]) + if log[|log| - 1].Irq? then 1 else 0
  }

  /** The number of polls whose test read a raised flag. */
  function ReadyTests(log: seq<Event>): nat {
    if log == [] then 0
    else ReadyTests(log[..|log| - 1]) + if log[|log| - 1].Test? && Flag(log[..|log| - 1]) > 0 then 1 else 0
  }

  /** The test at `t` reads a raised flag, so its poll reports the key. */
  predicate Ready(log: seq<Event>, t: nat)
    requires t < |log|
  {
    Flag(log[..t]) > 0
  }

  /** The interrupt at `i` is still in the flag just before position `k`. */
  predicate PendingAt(log: seq<Event>, i: nat, k: nat)
    requires k <= |log|
  {
    i < k && log[i].Irq? && forall c | i < c < k :: !log[c].Clear?
  }

  lemma FlagSnoc(log: seq<Event>, e: Event)
    ensures Flag(log + [e]) == match e case Irq => Flag(log) + 1 case Test(_) => Flag(log) case Clear(_) => 0
    ensures Irqs(log + [e]) == Irqs(log) + if e.Irq? then 1 else 0
    ensures ReadyTests(log + [e]) == ReadyTests(log) + if e.Test? && Flag(log) > 0 then 1 else 0
  {
    assert (log + [e])[..|log|] == log;
  }

  /** The flag counts the interrupts since the last clear. */
  lemma {:induction false} FlagCountsSinceClear(before: seq<Event>, p: nat, since: seq<Event>)
    requires forall e | e in since :: !e.Clear?
    ensures Flag(before + [Clear(p)] + since) == Irqs(since)
    decreases |since|
  {
    if since == [] {
      assert before + [Clear(p)] + since == before + [Clear(p)];
      FlagSnoc(before, Clear(p));
    } else {
      var init, last := since[..|since| - 1], since[|since| - 1];
      FlagCountsSinceClear(before, p, init);
      assert before + [Clear(p)] + since == (before + [Clear(p)] + init) + [last];
      FlagSnoc(before + [Clear(p)] + init, last);
    }
  }

  /** A poll reports the key exactly when some interrupt is pending at its test. */
  lemma {:induction false} ReadyMeansPending(log: seq<Event>, t: nat)
    requires t <= |log|
    ensures Flag(log[..t]) > 0 <==> exists i :: PendingAt(log, i, t)
  {
    if t == 0 {
    } else {
      ReadyMeansPending(log, t - 1);
      assert log[..t] == log[..t - 1] + [log[t - 1]];
      FlagSnoc(log[..t - 1], log[t - 1]);
      match log[t - 1]
      case Irq => assert PendingAt(log, t - 1, t);
      case Test(_) =>
        var u := t - 1;
        if i :| PendingAt(log, i, u) {
          assert PendingAt(log, i, t);
        }
        if i :| PendingAt(log, i, t) {
          assert PendingAt(log, i, u);
        }
      case Clear(_) =>
        assert forall i :: !PendingAt(log, i, t);
    }
  }

  // ----- Which interrupts are never reported -----

  /** Test and clear of one poll: the poller's clear at `c` belongs to its test at `t`. */
  predicate IsPoll(log: seq<Event>, t: nat, c: nat) {
    && t < c < |log| && log[t].Test? && log[c] == Clear(log[t].poller)
    && forall k | t < k < c :: log[k] != Clear(log[t].poller) && log[k] != log[t]
  }

  /** The first clear after an interrupt: the one that wipes it from the flag. */
  predicate Wipes(log: seq<Event>, i: nat, c: nat) {
    c < |log| && log[c].Clear? && PendingAt(log, i, c)
  }

  /** A test that reads the raised flag sees the interrupt, or the poll that wipes it returns ready. */
  ghost predicate Reported(log: seq<Event>, i: nat) {
    || (exists t :: 0 <= t < |log| && log[t].Test? && Ready(log, t) && PendingAt(log, i, t))
    || (exists t, c :: IsPoll(log, t, c) && Ready(log, t) && Wipes(log, i, c))
  }

  /** No poll tests while the interrupt is pending. */
  predicate UntestedUntil(log: seq<Event>, i: nat, c: nat)
    requires c <= |log|
  {
    forall k | i < k < c :: !log[k].Test?
  }

  /**
    Lost interrupts, exactly: an interrupt wiped by the clear at `c` is never reported
    if and only if it fell between the test and the clear of that poll, the test had read
    a flag of zero, and no poll tested in between.
   */
  lemma LostExactly(log: seq<Event>, i: nat, t: nat, c: nat)
    requires IsPoll(log, t, c) && Wipes(log, i, c)
    ensures !Reported(log, i) <==> t < i && !Ready(log, t) && UntestedUntil(log, i, c)
  {
    ReadyMeansPending(log, t);
    if i < t {
      assert PendingAt(log, i, t);
      assert Ready(log, t);
    }
    if Ready(log, t) {
      assert Reported(log, i);
    } else if !UntestedUntil(log, i, c) {
      var k :| i < k < c && log[k].Test?;
      assert PendingAt(log, i, k);
      ReadyMeansPending(log, k);
      assert Reported(log, i);
    }
  }

  /** The pollers that are between their test and their clear. */
  function InPoll(log: seq<Event>): set<nat> {
    if log == [] then {}
    else
      match log[|log| - 1]
      case Irq => InPoll(log[..|log| - 1])
      case Test(p) => InPoll(log[..|log| - 1]) + {p}
      case Clear(p) => InPoll(log[..|log| - 1]) - {p}
  }

  /** Each poller alternates test and clear, and never more than `n` polls are in progress. */
  predicate Alternating(log: seq<Event>, n: nat) {
    if log == [] then true
    else
      var init := log[..|log| - 1];
      Alternating(init, n)
      && match log[|log| - 1]
         case Irq => true
         case Test(p) => p !in InPoll(init) && |InPoll(init)| < n
         case Clear(p) => p in InPoll(init)
  }

  /** A poll of poller `p` that tested at `t` and has not cleared before `k`. */
  predicate OpenPoll(log: seq<Event>, t: nat, k: nat, p: nat)
    requires k <= |log|
  {
    t < k && log[t] == Test(p) && forall u | t < u < k :: log[u] != Clear(p) && log[u] != Test(p)
  }

  lemma {:induction false} PollIsOpen(log: seq<Event>, k: nat, p: nat)
    requires k <= |log| && p in InPoll(log[..k])
    ensures exists t :: OpenPoll(log, t, k, p)
  {
    assert log[..k][..k - 1] == log[..k - 1];
    if log[k - 1] == Test(p) {
      assert OpenPoll(log, k - 1, k, p);
    } else {
      PollIsOpen(log, k - 1, p);
      var t :| OpenPoll(log, t, k - 1, p);
      assert OpenPoll(log, t, k, p);
    }
  }

  lemma {:induction false} AlternatingPrefix(log: seq<Event>, n: nat, k: nat)
    requires Alternating(log, n) && k <= |log|
    ensures Alternating(log[..k], n)
  {
    if k < |log| {
      AlternatingPrefix(log[..|log| - 1], n, k);
      assert log[..|log| - 1][..k] == log[..k];
    } else {
      assert log[..k] == log;
    }
  }

  /** Every clear ends a poll. */
  lemma ClearEndsPoll(log: seq<Event>, n: nat, c: nat)
    requires Alternating(log, n) && c < |log| && log[c].Clear?
    ensures exists t :: IsPoll(log, t, c)
  {
    AlternatingPrefix(log, n, c + 1);
    assert log[..c + 1][..c] == log[..c];
    PollIsOpen(log, c, log[c].poller);
    var t :| OpenPoll(log, t, c, log[c].poller);
    assert IsPoll(log, t, c);
  }

  /** The interrupt came inside the poll cleared at `c`, which had read zero, and nobody tested before the clear. */
  ghost predicate LostInside(log: seq<Event>, i: nat, c: nat)
    requires c < |log|
  {
    exists t: nat :: IsPoll(log, t, c) && t < i && !Ready(log, t) && UntestedUntil(log, i, c)
  }

  /** Where pollers alternate: a wiped interrupt is lost exactly inside a poll that had read zero. */
  lemma LostInsidePoll(log: seq<Event>, n: nat, i: nat, c: nat)
    requires Alternating(log, n) && Wipes(log, i, c)
    ensures !Reported(log, i) <==> LostInside(log, i, c)
  {
    ClearEndsPoll(log, n, c);
    forall t: nat | IsPoll(log, t, c)
      ensures !Reported(log, i) <==> t < i && !Ready(log, t) && UntestedUntil(log, i, c)
    {
      LostExactly(log, i, t, c);
    }
  }

  // ----- How often one interrupt is reported -----

  /** The pollers that have tested since the last clear by anyone. */
  function Fresh(log: seq<Event>): set<nat> {
    if log == [] then {}
    else
      match log[|log| - 1]
      case Irq => Fresh(log[..|log| - 1])
      case Test(p) => Fresh(log[..|log| - 1]) + {p}
      case Clear(_) => {}
  }

  /** Interrupts before the last clear. */
  function ClearedIrqs(log: seq<Event>): nat {
    if log == [] then 0
    else if log[|log| - 1].Clear? then Irqs(log[..|log| - 1])
    else ClearedIrqs(log[..|log| - 1])
  }

  /** With at most `n` polls at a time, an interrupt is reported at most `n` times. */
  lemma ReportsBounded(log: seq<Event>, n: nat)
    requires Alternating(log, n)
    ensures ReadyTests(log) <= n * Irqs(log)
  {
    ReportsInEpochs(log, n);
    FreshIsSmall(log, n);
    OneMoreEpoch(n, ClearedIrqs(log), Flag(log), |Fresh(log)|);
  }

  lemma OneMoreEpoch(n: nat, a: nat, b: nat, extra: nat)
    requires extra <= n
    ensures n * a + (if b > 0 then extra else 0) <= n * (a + b)
  {
    if b > 0 {
      assert n * b >= n;
    }
  }

  lemma {:induction false} ReportsInEpochs(log: seq<Event>, n: nat)
    requires Alternating(log, n)
    ensures Irqs(log) == ClearedIrqs(log) + Flag(log)
    ensures ReadyTests(log) <= n * ClearedIrqs(log) + if Flag(log) > 0 then |Fresh(log)| else 0
    ensures Fresh(log) <= InPoll(log)
  {
    if log != [] {
      var init, e := log[..|log| - 1], log[|log| - 1];
      ReportsInEpochs(init, n);
      match e
      case Irq =>
        assert ReadyTests(log) == ReadyTests(init) && ClearedIrqs(log) == ClearedIrqs(init);
        assert Fresh(log) == Fresh(init);
      case Test(p) =>
        assert p !in Fresh(init) && Fresh(log) == Fresh(init) + {p};
        assert |Fresh(init) + {p}| == |Fresh(init)| + 1;
        assert ReadyTests(log) == ReadyTests(init) + if Flag(init) > 0 then 1 else 0;
        assert ClearedIrqs(log) == ClearedIrqs(init) && Flag(log) == Flag(init);
      case Clear(p) =>
        FreshIsSmall(init, n);
        OneMoreEpoch(n, ClearedIrqs(init), Flag(init), |Fresh(init)|);
        assert ReadyTests(log) == ReadyTests(init) && ClearedIrqs(log) == Irqs(init) && Flag(log) == 0;
    }
  }

  lemma FreshIsSmall(log: seq<Event>, n: nat)
    requires Alternating(log, n) && Fresh(log) <= InPoll(log)
    ensures |Fresh(log)| <= n
  {
    PollsAtMost(log, n);
    SubsetIsSmaller(Fresh(log), InPoll(log));
  }

  lemma {:induction false} PollsAtMost(log: seq<Event>, n: nat)
    requires Alternating(log, n)
    ensures |InPoll(log)| <= n
  {
    if log != [] {
      var init := log[..|log| - 1];
      PollsAtMost(init, n);
      match log[|log| - 1]
      case Irq =>
      case Test(p) =>
      case Clear(p) => SubsetIsSmaller(InPoll(log), InPoll(init));
    }
  }

  lemma {:induction false} SubsetIsSmaller(a: set<nat>, b: set<nat>)
    requires a <= b
    ensures |a| <= |b|
  {
    if a != {} {
      var x :| x in a;
      SubsetIsSmaller(a - {x}, b - {x});
    }
  }

  lemma AlternatingSnoc(log: seq<Event>, e: Event, n: nat)
    requires Alternating(log, n)
    requires match e
      case Irq => true
      case Test(p) => p !in InPoll(log) && |InPoll(log)| < n
      case Clear(p) => p in InPoll(log)
    ensures Alternating(log + [e], n)
    ensures InPoll(log + [e])
         == match e case Irq => InPoll(log) case Test(p) => InPoll(log) + {p} case Clear(p) => InPoll(log) - {p}
  {
    assert (log + [e])[..|log|] == log;
  }

  // ----- The driver -----

  predicate IsKey(d: Device) {
    d == Key1 || d == Key2 || d == Key3 || d == Key4
  }

  function KeyPin(d: Device): nat
    requires IsKey(d)
  {
    if d == Key1 then 2 else if d == Key2 then 3 else if d == Key3 then 4 else 6
  }

  function KeyEdge(d: Device): nat
    requires IsKey(d)
  {
    if d == Key1 then 2 else if d == Key2 then 3 else if d == Key3 then 2 else 5
  }

  /**
    Opening a key makes the pin that its handler reads an input, keeps the function of every
    other pin and enables one more edge. Keys 1 to 4 are on pins 2, 3, 4 and 6, with edges 2, 3, 2 and 5.
   */
  lemma KeyOpens(d: Device, w: Setup, p: nat)
    requires IsKey(d) && p < 30
    ensures Mode(Open(d, w), p) == if p == KeyPin(d) then INPUT else Mode(w, p)
    ensures Open(d, w).edge == w.edge + {KeyEdge(d)}
    ensures (KeyPin(d), KeyEdge(d))
         == match d case Key1 => (2, 2) case Key2 => (3, 3) case Key3 => (4, 2) case _ => (6, 5)
  {
    ClearThenOrIsFieldUpdate(w.f0, KeyPin(d), INPUT);
  }

  /** The four key drivers differ in the pin, the edge bit they enable and the device they are. */
  class KeyDriver {
    const device: Device
    const regs: Registers
    var usage: nat
    var eventFlag: nat
    var tmpBuf: nat
    ghost var log: seq<Event>
    ghost var lows: nat

    ghost predicate Valid()
      reads this, regs
    {
      && regs.Valid()
      && IsKey(device)
      && eventFlag == Flag(log)
      && tmpBuf == lows % 256
    }

    constructor (device: Device, regs: Registers)
      requires IsKey(device) && regs.Valid()
      ensures Valid() && this.device == device && this.regs == regs
      ensures log == [] && lows == 0 && usage == 0
    {
      this.device := device;
      this.regs := regs;
      usage, eventFlag, tmpBuf := 0, 0, 0;
      log, lows := [], 0;
    }

    method Open() returns (ok: bool)
      requires Valid()
      modifies this`usage, regs`fsel, regs`edge
      ensures Valid()
      ensures ok == (old(usage) == 0) && usage == if ok then 1 else old(usage)
      ensures regs.Words() == if ok then FunctionSelect.Open(device, old(regs.Words())) else old(regs.Words())
    {
      if usage != 0 {
        return false;
      }
      usage := 1;
      var pin := KeyPin(device);
      regs.fsel := regs.fsel[0 := regs.fsel[0] - Ones(3 * pin, 3)];
      regs.fsel := regs.fsel[0 := regs.fsel[0] + CodeAt(pin, INPUT)];
      regs.edge := regs.edge + {KeyEdge(device)};
      return true;
    }

    /** The interrupt handler: counts a press when the pin reads low, and always raises the flag. */
    method Handler()
      requires Valid()
      modifies this`eventFlag, this`tmpBuf, this`log, this`lows
      ensures Valid()
      ensures log == old(log) + [Irq] && eventFlag == old(eventFlag) + 1
      ensures lows == old(lows) + if KeyPin(device) in regs.level then 0 else 1
    {
      var tmpKey := if KeyPin(device) in regs.level then 1 else 0;
      if tmpKey == 0 {
        tmpBuf := (tmpBuf + 1) % 256;
        lows := lows + 1;
      }
      eventFlag := eventFlag + 1;
      FlagSnoc(log, Irq);
      log := log + [Irq];
    }

    /** First half of the poll: reads the flag. */
    method PollTest(poller: nat) returns (ready: bool)
      requires Valid()
      modifies this`log
      ensures Valid()
      ensures log == old(log) + [Test(poller)] && Ready(log, |old(log)|) == ready
    {
      ready := eventFlag > 0;
      FlagSnoc(log, Test(poller));
      log := log + [Test(poller)];
      assert log[..|old(log)|] == old(log);
    }

    /** Second half of the poll: zeroes the flag, whatever it holds by now. */
    method PollClear(poller: nat)
      requires Valid()
      modifies this`eventFlag, this`log
      ensures Valid()
      ensures log == old(log) + [Clear(poller)] && eventFlag == 0
    {
      eventFlag := 0;
      FlagSnoc(log, Clear(poller));
      log := log + [Clear(poller)];
    }

    /** The press counter is a byte: presses modulo 256. */
    method Read() returns (b: nat)
      requires Valid()
      ensures b == lows % 256
    {
      b := tmpBuf;
    }
  }
}
