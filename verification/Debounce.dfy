/**
  Counting coins from a sensor: each sample is one read of the sensor pin. A high
  sample is a coin, and the six samples after it are read and ignored.
 */
module Debounce {
  const SKIP: nat := 6

  /** The counter as a machine over samples: coins so far and samples still to ignore. */
  datatype Counter = Counter(coins: nat, skip: nat)

  function Sampled(c: Counter, high: bool): Counter {
    if c.skip > 0 then c.(skip := c.skip - 1)
    else if high then Counter(c.coins + 1, SKIP)
    else c
  }

  function Scan(samples: seq<bool>): Counter {
    if samples == [] then Counter(0, 0)
    else Sampled(Scan(samples[..|samples| - 1]), samples[|samples| - 1])
  }

  /** Coins by the rule: a high sample counts and hides the six after it. */
  function Coins(samples: seq<bool>): nat {
    if samples == [] then 0
    else if !samples[0] then Coins(samples[1..])
    else 1 + Coins(samples[if |samples| < 1 + SKIP then |samples| else 1 + SKIP..])
  }

  lemma ScanSnoc(samples: seq<bool>, high: bool)
    ensures Scan(samples + [high]) == Sampled(Scan(samples), high)
  {
    assert (samples + [high])[..|samples|] == samples;
  }

  /** What the machine does with the samples still to come. */
  function Rest(c: Counter, samples: seq<bool>): nat {
    c.coins + Coins(if c.skip < |samples| then samples[c.skip..] else [])
  }

  lemma SampledRest(c: Counter, samples: seq<bool>)
    requires |samples| > 0 && c.skip <= SKIP
    ensures Rest(Sampled(c, samples[0]), samples[1..]) == Rest(c, samples)
  {
    if c.skip > 0 {
      if c.skip < |samples| {
        assert samples[1..][c.skip - 1..] == samples[c.skip..];
      }
    } else {
      assert samples[0..] == samples;
      if samples[0] {
        if SKIP < |samples[1..]| {
          assert samples[1..][SKIP..] == samples[1 + SKIP..];
        } else {
          assert samples[if |samples| < 1 + SKIP then |samples| else 1 + SKIP..] == [];
        }
      } else {
        assert samples[1..][0..] == samples[1..];
      }
    }
  }

  lemma {:induction false} ScanRest(samples: seq<bool>, n: nat)
    requires n <= |samples|
    ensures Scan(samples[..n]).skip <= SKIP
    ensures Rest(Scan(samples[..n]), samples[n..]) == Coins(samples)
  {
    if n == 0 {
      assert samples[0..] == samples;
      if samples != [] {
        assert samples[0..][0..] == samples;
      }
    } else {
      ScanRest(samples, n - 1);
      assert samples[..n] == samples[..n - 1] + [samples[n - 1]];
      ScanSnoc(samples[..n - 1], samples[n - 1]);
      SampledRest(Scan(samples[..n - 1]), samples[n - 1..]);
      assert samples[n - 1..][1..] == samples[n..];
    }
  }

  /** The machine counts exactly the coins of the rule, on every stream. */
  lemma ScanCounts(samples: seq<bool>)
    ensures Scan(samples).coins == Coins(samples)
    ensures Scan(samples).skip <= SKIP
  {
    ScanRest(samples, |samples|);
    assert samples[..|samples|] == samples;
  }

  // ----- The count is the largest number of hits seven samples apart -----

  /** Positions of high samples, each at least seven after the one before. */
  predicate Separated(samples: seq<bool>, hits: seq<nat>) {
    && (forall i | 0 <= i < |hits| :: hits[i] < |samples| && samples[hits[i]])
    && (forall i | 0 < i < |hits| :: hits[i - 1] + SKIP < hits[i])
  }

  predicate AllFrom(hits: seq<nat>, n: nat) {
    forall i | 0 <= i < |hits| :: n <= hits[i]
  }

  lemma {:induction false} SeparatedGrows(samples: seq<bool>, hits: seq<nat>, i: nat)
    requires Separated(samples, hits) && i < |hits|
    ensures hits[0] <= hits[i]
  {
    if i > 0 {
      SeparatedGrows(samples, hits, i - 1);
    }
  }

  /** No choice of separated high samples is larger than the count. */
  lemma {:induction false} CoinsIsLargest(samples: seq<bool>, hits: seq<nat>, from: nat)
    requires from <= |samples| && Separated(samples, hits) && AllFrom(hits, from)
    ensures |hits| <= Coins(samples[from..])
    decreases |samples| - from
  {
    assert |hits| > 0 ==> from <= hits[0] < |samples|;
    if from == |samples| {
    } else if !samples[from] {
      if |hits| > 0 {
        assert hits[0] != from;
        forall i | 0 <= i < |hits|
          ensures from + 1 <= hits[i]
        {
          SeparatedGrows(samples, hits, i);
        }
      }
      assert samples[from..][1..] == samples[from + 1..];
      CoinsIsLargest(samples, hits, from + 1);
    } else {
      var next := if |samples| < from + 1 + SKIP then |samples| else from + 1 + SKIP;
      assert samples[from..][next - from..] == samples[next..];
      if |hits| > 0 {
        var rest := hits[1..];
        forall i | 0 <= i < |rest|
          ensures next <= rest[i]
        {
          SeparatedGrows(samples, hits, i);
          LaterHits(samples, hits, i + 1);
        }
        assert Separated(samples, rest) by {
          forall i | 0 < i < |rest|
            ensures rest[i - 1] + SKIP < rest[i]
          {
            assert rest[i - 1] == hits[i] && rest[i] == hits[i + 1];
          }
        }
        CoinsIsLargest(samples, rest, next);
      }
    }
  }

  lemma {:induction false} LaterHits(samples: seq<bool>, hits: seq<nat>, i: nat)
    requires Separated(samples, hits) && 0 < i < |hits|
    ensures hits[0] + SKIP < hits[i]
  {
    if i > 1 {
      LaterHits(samples, hits, i - 1);
    }
  }

  /** And some choice has that many. */
  lemma {:induction false} CoinsIsAttained(samples: seq<bool>, from: nat) returns (hits: seq<nat>)
    requires from <= |samples|
    ensures Separated(samples, hits) && AllFrom(hits, from)
    ensures |hits| == Coins(samples[from..])
    decreases |samples| - from
  {
    if from == |samples| {
      hits := [];
    } else if !samples[from] {
      assert samples[from..][1..] == samples[from + 1..];
      hits := CoinsIsAttained(samples, from + 1);
    } else {
      var next := if |samples| < from + 1 + SKIP then |samples| else from + 1 + SKIP;
      assert samples[from..][next - from..] == samples[next..];
      var rest := CoinsIsAttained(samples, next);
      hits := [from] + rest;
    }
  }

  // ----- Debounce exactness on separated pulses -----

  /** A pulse: `high` high samples, then `low` low ones. */
  datatype Pulse = Pulse(high: nat, low: nat)

  function Repeat(b: bool, n: nat): (s: seq<bool>)
    ensures |s| == n && forall i | 0 <= i < n :: s[i] == b
  {
    seq(n, i => b)
  }

  function Stream(pulses: seq<Pulse>): seq<bool> {
    if pulses == [] then []
    else Repeat(true, pulses[0].high) + Repeat(false, pulses[0].low) + Stream(pulses[1..])
  }

  /** All that a sensor delivers: low samples before the first pulse, then the pulses with their gaps. */
  function Reading(lead: nat, pulses: seq<Pulse>): seq<bool> {
    Repeat(false, lead) + Stream(pulses)
  }

  /** ceil(n / 7) */
  function Sevenths(n: nat): nat {
    (n + SKIP) / (SKIP + 1)
  }

  function Expected(pulses: seq<Pulse>): nat {
    if pulses == [] then 0 else Sevenths(pulses[0].high) + Expected(pulses[1..])
  }

  /** Between two pulses there are at least six low samples; the last gap may be shorter. */
  predicate WellSpaced(pulses: seq<Pulse>) {
    forall i | 0 <= i < |pulses| - 1 :: pulses[i].low >= SKIP
  }

  lemma {:induction false} LowsCountNothing(n: nat, rest: seq<bool>)
    ensures Coins(Repeat(false, n) + rest) == Coins(rest)
  {
    if n == 0 {
      assert Repeat(false, 0) + rest == rest;
    } else {
      LowsCountNothing(n - 1, rest);
      assert (Repeat(false, n) + rest)[1..] == Repeat(false, n - 1) + rest;
    }
  }

  /** One pulse of `h` samples counts ceil(h / 7), provided the skip after its last hit ends before the next one. */
  lemma {:induction false} PulseCounts(h: nat, low: nat, rest: seq<bool>)
    requires low >= SKIP || rest == []
    ensures Coins(Repeat(true, h) + Repeat(false, low) + rest) == Sevenths(h) + Coins(rest)
    decreases h
  {
    var s := Repeat(true, h) + Repeat(false, low) + rest;
    if h == 0 {
      assert s == Repeat(false, low) + rest;
      LowsCountNothing(low, rest);
    } else if h > SKIP {
      assert s[SKIP + 1..] == Repeat(true, h - 7) + Repeat(false, low) + rest;
      PulseCounts(h - 7, low, rest);
    } else if |s| > SKIP {
      assert s[SKIP + 1..] == Repeat(false, low - (SKIP + 1 - h)) + rest;
      LowsCountNothing(low - (SKIP + 1 - h), rest);
    } else {
      assert s[|s|..] == [];
      assert rest == [];
    }
  }

  lemma {:induction false} SpacedPulsesCount(pulses: seq<Pulse>)
    requires WellSpaced(pulses)
    ensures Coins(Stream(pulses)) == Expected(pulses)
  {
    if pulses != [] {
      if |pulses| > 1 {
        assert pulses[0].low >= SKIP;
      }
      assert WellSpaced(pulses[1..]) by {
        forall i | 0 <= i < |pulses[1..]| - 1
          ensures pulses[1..][i].low >= SKIP
        {
          assert pulses[1..][i] == pulses[i + 1];
        }
      }
      SpacedPulsesCount(pulses[1..]);
      PulseCounts(pulses[0].high, pulses[0].low, Stream(pulses[1..]));
    }
  }

  /** For every stream whose pulses are separated by at least six low samples: the sum of ceil(length / 7). */
  lemma DebounceExact(lead: nat, pulses: seq<Pulse>)
    requires WellSpaced(pulses)
    ensures Coins(Reading(lead, pulses)) == Expected(pulses)
  {
    LowsCountNothing(lead, Stream(pulses));
    SpacedPulsesCount(pulses);
  }

  predicate IsCoin(p: Pulse) {
    1 <= p.high <= SKIP + 1
  }

  predicate AllCoins(pulses: seq<Pulse>) {
    forall p | p in pulses :: IsCoin(p)
  }

  /** In particular, pulses of one to seven samples are counted once each. */
  lemma ShortPulsesCountOnce(lead: nat, pulses: seq<Pulse>)
    requires WellSpaced(pulses) && AllCoins(pulses)
    ensures Coins(Reading(lead, pulses)) == |pulses|
  {
    DebounceExact(lead, pulses);
    OneEach(pulses);
  }

  lemma {:induction false} OneEach(pulses: seq<Pulse>)
    requires AllCoins(pulses)
    ensures Expected(pulses) == |pulses|
  {
    if pulses != [] {
      assert IsCoin(pulses[0]);
      OneEach(pulses[1..]);
    }
  }

  // ----- The sampling loop -----

  /**
    The counting part of a sensor thread on a finite stream of reads, with its `fir`
    flag and its skip loop; it ends when the stream does.
   */
  method CountCoins(samples: seq<bool>) returns (coins: nat)
    ensures coins == Coins(samples)
  {
    coins := 0;
    var fir := 0;
    var next := 0;
    while next < |samples|
      invariant next <= |samples| && fir == 0
      invariant coins + Coins(samples[next..]) == Coins(samples)
    {
      ghost var at := next;
      var value := samples[next];
      next := next + 1;
      if value && fir == 0 {
        fir := 1;
        coins := coins + 1;
      }
      if fir == 1 {
        var j := 0;
        while j < 6 && next < |samples|
          invariant 0 <= j <= 6 && next == at + 1 + j <= |samples|
        {
          next := next + 1;
          j := j + 1;
        }
        fir := 0;
      }
      assert samples[at..][next - at..] == samples[next..];
    }
    assert samples[next..] == [];
  }
}
