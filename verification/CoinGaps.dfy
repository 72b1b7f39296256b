/**
  Exactly when the six-sample skip counts every pulse in full: for any stream of samples
  the count is the sum of ceil(length / 7) over its pulses if and only if no pulse ends
  too early after an earlier one. For coins of at most seven samples that says which gaps
  between them can be told apart.
 */
module CoinGaps {
  import opened Debounce
  import opened Sequences

  /** Runs of high samples; a run has at least one. */
  predicate AllRuns(pulses: seq<Pulse>) {
    forall p | p in pulses :: p.high > 0
  }

  // ----- Every stream is made of runs -----

  /** The low samples that a stream begins with, and its runs with the gaps after them. */
  function Parse(samples: seq<bool>): (r: (nat, seq<Pulse>))
    ensures Reading(r.0, r.1) == samples
    ensures AllRuns(r.1) && forall i | 0 <= i < |r.1| - 1 :: r.1[i].low > 0
  {
    if samples == [] then (0, [])
    else
      var (lead, pulses) := Parse(samples[1..]);
      if !samples[0] then
        LowFirst(samples, lead, pulses);
        (lead + 1, pulses)
      else if lead > 0 || pulses == [] then
        HighFirst(samples, lead, pulses);
        (0, [Pulse(1, lead)] + pulses)
      else
        HighMore(samples, pulses);
        (0, [Pulse(pulses[0].high + 1, pulses[0].low)] + pulses[1..])
  }

  lemma LowFirst(samples: seq<bool>, lead: nat, pulses: seq<Pulse>)
    requires samples != [] && !samples[0] && Reading(lead, pulses) == samples[1..]
    ensures Reading(lead + 1, pulses) == samples
  {
    assert Repeat(false, lead + 1) == [false] + Repeat(false, lead);
    assert samples == [samples[0]] + samples[1..];
    Assoc([false], Repeat(false, lead), Stream(pulses));
  }

  lemma HighFirst(samples: seq<bool>, lead: nat, pulses: seq<Pulse>)
    requires samples != [] && samples[0] && Reading(lead, pulses) == samples[1..]
    ensures Reading(0, [Pulse(1, lead)] + pulses) == samples
  {
    var all := [Pulse(1, lead)] + pulses;
    StreamAhead(all);
    NoLead(all);
    assert all[1..] == pulses && Repeat(true, 1) == [true];
    assert samples == [samples[0]] + samples[1..];
  }

  lemma HighMore(samples: seq<bool>, pulses: seq<Pulse>)
    requires samples != [] && samples[0] && pulses != [] && Reading(0, pulses) == samples[1..]
    ensures Reading(0, [Pulse(pulses[0].high + 1, pulses[0].low)] + pulses[1..]) == samples
  {
    assert pulses == [pulses[0]] + pulses[1..];
    NoLead(pulses);
    NoLead([Pulse(pulses[0].high + 1, pulses[0].low)] + pulses[1..]);
    LongerRun(pulses[0].high, pulses[0].low, pulses[1..]);
    assert samples == [samples[0]] + samples[1..];
  }

  lemma LongerRun(h: nat, low: nat, rest: seq<Pulse>)
    ensures Stream([Pulse(h + 1, low)] + rest) == [true] + Stream([Pulse(h, low)] + rest)
  {
    StreamCons(h, low, rest);
    StreamCons(h + 1, low, rest);
    LongerAhead(h, low, Stream(rest));
  }

  lemma StreamCons(h: nat, low: nat, rest: seq<Pulse>)
    ensures Stream([Pulse(h, low)] + rest) == Ahead(h, low, Stream(rest))
  {
    var all := [Pulse(h, low)] + rest;
    assert all[1..] == rest;
    StreamAhead(all);
  }

  lemma NoLead(pulses: seq<Pulse>)
    ensures Reading(0, pulses) == Stream(pulses)
  {
  }

  lemma LongerAhead(h: nat, low: nat, rest: seq<bool>)
    ensures Ahead(h + 1, low, rest) == [true] + Ahead(h, low, rest)
  {
    assert Repeat(true, h + 1) == [true] + Repeat(true, h);
    Assoc([true], Repeat(true, h), Repeat(false, low) + rest);
  }

  // ----- One pulse under a running skip -----

  /** The samples left when the next `skip` are ignored. */
  function After(samples: seq<bool>, skip: nat): seq<bool> {
    if skip < |samples| then samples[skip..] else []
  }

  function Monus(a: nat, b: nat): nat {
    if b < a then a - b else 0
  }

  /** How often a pulse is counted when the next `skip` samples are ignored. */
  function Hits(h: nat, skip: nat): nat {
    Sevenths(Monus(h, skip))
  }

  /** The skip still running when the next pulse begins. */
  function Carry(p: Pulse, skip: nat): nat {
    Monus(skip + (SKIP + 1) * Hits(p.high, skip), p.high + p.low)
  }

  lemma AfterPart(a: seq<bool>, b: seq<bool>, skip: nat)
    requires |a| <= skip
    ensures After(a + b, skip) == After(b, skip - |a|)
  {
  }

  /** A skip that reaches into a gap, or beyond it, leaves what follows the gap. */
  lemma SkipGap(low: nat, rest: seq<bool>, skip: nat)
    ensures Coins(After(Repeat(false, low) + rest, skip)) == Coins(After(rest, Monus(skip, low)))
  {
    if low <= skip {
      AfterPart(Repeat(false, low), rest, skip);
    } else {
      assert After(Repeat(false, low) + rest, skip) == Repeat(false, low - skip) + rest;
      LowsCountNothing(low - skip, rest);
      assert After(rest, 0) == rest;
    }
  }

  /** A pulse, its gap and what follows. */
  function Ahead(h: nat, low: nat, rest: seq<bool>): (s: seq<bool>)
    ensures |s| == h + low + |rest|
  {
    Repeat(true, h) + (Repeat(false, low) + rest)
  }

  lemma StreamAhead(pulses: seq<Pulse>)
    requires pulses != []
    ensures Stream(pulses) == Ahead(pulses[0].high, pulses[0].low, Stream(pulses[1..]))
  {
    Assoc(Repeat(true, pulses[0].high), Repeat(false, pulses[0].low), Stream(pulses[1..]));
  }

  /** A pulse that the running skip covers is not counted. */
  lemma CoveredPulse(h: nat, low: nat, rest: seq<bool>, skip: nat)
    requires h <= skip
    ensures Coins(After(Ahead(h, low, rest), skip)) == Coins(After(rest, Monus(skip, h + low)))
  {
    AfterPart(Repeat(true, h), Repeat(false, low) + rest, skip);
    SkipGap(low, rest, skip - h);
  }

  lemma AheadAfter(h: nat, low: nat, rest: seq<bool>, skip: nat)
    requires skip < h
    ensures After(Ahead(h, low, rest), skip) == Ahead(h - skip, low, rest)
  {
  }

  lemma FirstHit(x: seq<bool>)
    requires |x| > 0 && x[0]
    ensures Coins(x) == 1 + Coins(After(x, SKIP + 1))
  {
    assert After(x, SKIP + 1) == x[if |x| < 1 + SKIP then |x| else 1 + SKIP..];
  }

  lemma HitsStep(h: nat, skip: nat)
    requires h > skip
    ensures Hits(h, skip) == 1 + Hits(h - skip, SKIP + 1)
  {
  }

  /** A pulse of any length: its hits, and the skip they leave behind it. */
  lemma {:induction false} OnePulse(h: nat, low: nat, rest: seq<bool>, skip: nat)
    ensures Coins(After(Ahead(h, low, rest), skip))
         == Hits(h, skip) + Coins(After(rest, Carry(Pulse(h, low), skip)))
    decreases Monus(h, skip)
  {
    if h <= skip {
      CoveredPulse(h, low, rest, skip);
    } else {
      AheadAfter(h, low, rest, skip);
      FirstHit(Ahead(h - skip, low, rest));
      OnePulse(h - skip, low, rest, SKIP + 1);
      HitsStep(h, skip);
    }
  }

  // ----- Pulses that are counted in full -----

  /** The samples of a pulse from its last counted one on, when nothing hides its beginning. */
  function Tail(h: nat): int {
    h - (SKIP + 1) * (Sevenths(h) - 1)
  }

  /** A pulse loses nothing exactly when the skip ends within that tail's length. */
  lemma FullHits(h: nat, skip: nat)
    requires h > 0
    ensures Hits(h, skip) <= Sevenths(h)
    ensures Hits(h, skip) == Sevenths(h) <==> skip < Tail(h)
  {
  }

  /** Every pulse is heard in full under the skip that is running when it begins. */
  predicate AllHeard(pulses: seq<Pulse>, skip: nat) {
    pulses == [] || (skip < Tail(pulses[0].high) && AllHeard(pulses[1..], Carry(pulses[0], skip)))
  }

  /** No pulse counts more than ceil(length / 7), and all count that much exactly when all are heard in full. */
  lemma {:induction false} CountsHeard(pulses: seq<Pulse>, skip: nat)
    requires AllRuns(pulses)
    ensures Coins(After(Stream(pulses), skip)) <= Expected(pulses)
    ensures Coins(After(Stream(pulses), skip)) == Expected(pulses) <==> AllHeard(pulses, skip)
  {
    if pulses != [] {
      var p := pulses[0];
      assert p in pulses;
      CountsHeard(pulses[1..], Carry(p, skip));
      StreamAhead(pulses);
      OnePulse(p.high, p.low, Stream(pulses[1..]), skip);
      FullHits(p.high, skip);
    }
  }

  // ----- In closed form -----

  /** Samples before pulse `i`, less seven for every coin that the pulses before it should count. */
  function Slack(pulses: seq<Pulse>, i: nat): int
    requires i <= |pulses|
  {
    if i == 0 then 0
    else Slack(pulses, i - 1) + pulses[i - 1].high + pulses[i - 1].low - (SKIP + 1) * Sevenths(pulses[i - 1].high)
  }

  /** Seven samples for every coin due from pulse `j` up to pulse `i` are over before the tail of pulse `i` is. */
  predicate Roomy(pulses: seq<Pulse>, j: nat, i: nat)
    requires j <= i < |pulses|
  {
    Slack(pulses, j) < Slack(pulses, i) + Tail(pulses[i].high)
  }

  predicate Apart(pulses: seq<Pulse>) {
    forall j, i | 0 <= j <= i < |pulses| :: Roomy(pulses, j, i)
  }

  /** The same from the beginning, with a skip already running. */
  predicate RoomyAfter(pulses: seq<Pulse>, skip: nat, i: nat)
    requires i < |pulses|
  {
    skip < Slack(pulses, i) + Tail(pulses[i].high)
  }

  predicate ApartAfter(pulses: seq<Pulse>, skip: nat) {
    Apart(pulses) && forall i | 0 <= i < |pulses| :: RoomyAfter(pulses, skip, i)
  }

  lemma {:induction false} SlackOfRest(pulses: seq<Pulse>, i: nat)
    requires i < |pulses|
    ensures Slack(pulses, i + 1) == Slack(pulses, 1) + Slack(pulses[1..], i)
  {
    if i > 0 {
      SlackOfRest(pulses, i - 1);
    }
  }

  lemma RoomyRest(pulses: seq<Pulse>, j: nat, i: nat)
    requires j <= i && i + 1 < |pulses|
    ensures Roomy(pulses, j + 1, i + 1) <==> Roomy(pulses[1..], j, i)
  {
    SlackOfRest(pulses, i);
    SlackOfRest(pulses, j);
  }

  /** The skip left by a pulse that was heard in full. */
  lemma HeardCarry(pulses: seq<Pulse>, skip: nat)
    requires pulses != [] && pulses[0].high > 0 && skip < Tail(pulses[0].high)
    ensures Carry(pulses[0], skip) == if skip > Slack(pulses, 1) then skip - Slack(pulses, 1) else 0
  {
    FullHits(pulses[0].high, skip);
    assert Slack(pulses, 0) == 0;
  }

  /** Room after the first pulse: behind it, and with the skip it leaves running. */
  lemma RoomyCarry(pulses: seq<Pulse>, skip: nat, i: nat)
    requires i + 1 < |pulses| && pulses[0].high > 0 && skip < Tail(pulses[0].high)
    ensures RoomyAfter(pulses[1..], Carry(pulses[0], skip), i)
       <==> Roomy(pulses[1..], 0, i) && RoomyAfter(pulses, skip, i + 1)
  {
    SlackOfRest(pulses, i);
    HeardCarry(pulses, skip);
    assert Slack(pulses[1..], 0) == 0;
  }

  lemma {:induction false} HeardMeansApart(pulses: seq<Pulse>, skip: nat)
    requires AllRuns(pulses)
    ensures AllHeard(pulses, skip) <==> ApartAfter(pulses, skip)
  {
    if pulses != [] {
      var rest := pulses[1..];
      assert pulses[0] in pulses && Slack(pulses, 0) == 0;
      assert RoomyAfter(pulses, skip, 0) <==> skip < Tail(pulses[0].high);
      if skip < Tail(pulses[0].high) {
        HeardMeansApart(rest, Carry(pulses[0], skip));
        if ApartAfter(rest, Carry(pulses[0], skip)) {
          RestApart(pulses, skip);
        }
        if ApartAfter(pulses, skip) {
          ApartRest(pulses, skip);
        }
      }
    }
  }

  lemma RestApart(pulses: seq<Pulse>, skip: nat)
    requires pulses != [] && AllRuns(pulses) && skip < Tail(pulses[0].high)
    requires ApartAfter(pulses[1..], Carry(pulses[0], skip))
    ensures ApartAfter(pulses, skip)
  {
    assert pulses[0] in pulses && Slack(pulses, 0) == 0;
    forall i | 0 <= i < |pulses|
      ensures RoomyAfter(pulses, skip, i)
    {
      if i > 0 {
        RoomyCarry(pulses, skip, i - 1);
      }
    }
    forall j, i | 0 <= j <= i < |pulses|
      ensures Roomy(pulses, j, i)
    {
      if j > 0 {
        RoomyRest(pulses, j - 1, i - 1);
      } else {
        assert RoomyAfter(pulses, skip, i);
      }
    }
  }

  lemma ApartRest(pulses: seq<Pulse>, skip: nat)
    requires pulses != [] && AllRuns(pulses) && skip < Tail(pulses[0].high) && ApartAfter(pulses, skip)
    ensures ApartAfter(pulses[1..], Carry(pulses[0], skip))
  {
    assert pulses[0] in pulses;
    forall j, i | 0 <= j <= i < |pulses[1..]|
      ensures Roomy(pulses[1..], j, i)
    {
      RoomyRest(pulses, j, i);
    }
    forall i | 0 <= i < |pulses[1..]|
      ensures RoomyAfter(pulses[1..], Carry(pulses[0], skip), i)
    {
      RoomyCarry(pulses, skip, i);
    }
  }

  /**
    For every stream, as low samples and then runs of any lengths with any gaps: no run counts
    more than ceil(length / 7), and all count that much if and only if they are far enough apart.
   */
  lemma PulsesExactly(lead: nat, pulses: seq<Pulse>)
    requires AllRuns(pulses)
    ensures Coins(Reading(lead, pulses)) <= Expected(pulses)
    ensures Coins(Reading(lead, pulses)) == Expected(pulses) <==> Apart(pulses)
  {
    LowsCountNothing(lead, Stream(pulses));
    assert After(Stream(pulses), 0) == Stream(pulses);
    CountsHeard(pulses, 0);
    HeardMeansApart(pulses, 0);
    forall i | 0 <= i < |pulses|
      ensures RoomyAfter(pulses, 0, i) <==> Roomy(pulses, 0, i)
    {
      assert Slack(pulses, 0) == 0;
    }
  }

  /** The same for any samples whatever. */
  lemma StreamExactly(samples: seq<bool>)
    ensures Coins(samples) <= Expected(Parse(samples).1)
    ensures Coins(samples) == Expected(Parse(samples).1) <==> Apart(Parse(samples).1)
  {
    PulsesExactly(Parse(samples).0, Parse(samples).1);
  }

  // ----- Coins -----

  /** The first sample of pulse `i`. */
  function Start(pulses: seq<Pulse>, i: nat): nat
    requires i <= |pulses|
  {
    if i == 0 then 0 else Start(pulses, i - 1) + pulses[i - 1].high + pulses[i - 1].low
  }

  lemma {:induction false} SlackOfCoins(pulses: seq<Pulse>, i: nat)
    requires AllCoins(pulses) && i <= |pulses|
    ensures Slack(pulses, i) == Start(pulses, i) - (SKIP + 1) * i
  {
    if i > 0 {
      assert IsCoin(pulses[i - 1]);
      SlackOfCoins(pulses, i - 1);
    }
  }

  /** For coins: from the start of one to the end of the n-th after it there are more than 7n samples. */
  lemma RoomyCoins(pulses: seq<Pulse>, j: nat, i: nat)
    requires AllCoins(pulses) && j <= i < |pulses|
    ensures Roomy(pulses, j, i) <==> Start(pulses, i) + pulses[i].high - Start(pulses, j) > (SKIP + 1) * (i - j)
  {
    assert IsCoin(pulses[i]);
    SlackOfCoins(pulses, i);
    SlackOfCoins(pulses, j);
  }

  /** What a sensor delivered for these pulses. */
  ghost predicate Delivered(samples: seq<bool>, pulses: seq<Pulse>) {
    AllRuns(pulses) && exists lead: nat :: samples == Reading(lead, pulses)
  }

  lemma DeliveredCounts(samples: seq<bool>, pulses: seq<Pulse>)
    requires Delivered(samples, pulses)
    ensures Coins(samples) <= Expected(pulses)
    ensures Coins(samples) == Expected(pulses) <==> Apart(pulses)
  {
    var lead: nat :| samples == Reading(lead, pulses);
    PulsesExactly(lead, pulses);
  }

  /**
    Coins of one to seven samples, with any samples before, between and after them low: none
    counts twice, and all are counted if and only if they are far enough apart.
   */
  lemma CoinsExactly(lead: nat, pulses: seq<Pulse>)
    requires AllCoins(pulses)
    ensures Coins(Reading(lead, pulses)) <= |pulses|
    ensures Coins(Reading(lead, pulses)) == |pulses| <==> Apart(pulses)
  {
    CoinsAreRuns(pulses);
    PulsesExactly(lead, pulses);
    OneEach(pulses);
  }

  lemma CoinsAreRuns(pulses: seq<Pulse>)
    requires AllCoins(pulses)
    ensures AllRuns(pulses)
  {
    forall p | p in pulses
      ensures p.high > 0
    {
      assert IsCoin(p);
    }
  }

  /** These samples came from `n` coins far enough apart. */
  ghost predicate FromCoins(samples: seq<bool>, n: nat) {
    exists pulses :: Delivered(samples, pulses) && AllCoins(pulses) && Apart(pulses) && |pulses| == n
  }

  lemma CoinsOf(samples: seq<bool>, n: nat)
    requires FromCoins(samples, n)
    ensures Coins(samples) == n
  {
    var pulses :| Delivered(samples, pulses) && AllCoins(pulses) && Apart(pulses) && |pulses| == n;
    DeliveredCounts(samples, pulses);
    OneEach(pulses);
  }

  /** A sensor that saw no coin delivers only low samples. */
  lemma IdleIsNoCoin(lead: nat)
    ensures FromCoins(Repeat(false, lead), 0)
  {
    assert Reading(lead, []) == Repeat(false, lead);
    assert Delivered(Repeat(false, lead), []) && AllCoins([]) && Apart([]);
  }

  /** Two coins in a stream: counted as two exactly when they span at least eight samples. */
  lemma TwoCoins(lead: nat, first: nat, gap: nat, second: nat, end: nat)
    requires 1 <= first <= SKIP + 1 && 1 <= second <= SKIP + 1
    ensures Coins(Reading(lead, [Pulse(first, gap), Pulse(second, end)])) == 2 <==> first + gap + second >= 8
  {
    var pulses := [Pulse(first, gap), Pulse(second, end)];
    CoinsExactly(lead, pulses);
    RoomyCoins(pulses, 0, 0);
    RoomyCoins(pulses, 0, 1);
    RoomyCoins(pulses, 1, 1);
    assert Start(pulses, 1) == Start(pulses, 0) + first + gap;
  }

  /** Gaps of at least six samples are always enough. */
  lemma SpacedIsApart(pulses: seq<Pulse>)
    requires AllRuns(pulses) && WellSpaced(pulses)
    ensures Apart(pulses)
  {
    forall j, i | 0 <= j <= i < |pulses|
      ensures Roomy(pulses, j, i)
    {
      SpacedIsRoomy(pulses, j, i);
    }
  }

  lemma {:induction false} SpacedIsRoomy(pulses: seq<Pulse>, j: nat, i: nat)
    requires AllRuns(pulses) && WellSpaced(pulses) && j <= i < |pulses|
    ensures Slack(pulses, i) >= Slack(pulses, j)
    ensures Roomy(pulses, j, i)
  {
    assert pulses[i] in pulses;
    if j < i {
      assert pulses[i - 1] in pulses;
      SpacedIsRoomy(pulses, j, i - 1);
    }
  }
}
