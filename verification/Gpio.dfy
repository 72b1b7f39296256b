/**
  The GPIO register block of the BCM2835 (BCM2835 ARM Peripherals, section 6.1)
  as the drivers use it: words 0..2 select the function of ten pins each (three
  bits a pin), a write to word 7 drives pins high, a write to word 10 drives them
  low, word 13 is the level of every pin and word 22 enables edge detection.
  The output latch remembers the last set/clear of every pin.

  A 32-bit word is the set of its one-bits: `|` is union, `& ~` is difference,
  and no shift of the drivers moves a bit past position 29.
 */
module Gpio {
  type Word = set<nat>

  datatype RegOp = SetPins(mask: Word) | ClearPins(mask: Word)

  /** The words that `open` writes. */
  datatype Setup = Setup(f0: Word, f1: Word, f2: Word, edge: Word)

  predicate InSpan(p: nat, first: nat, n: nat) {
    first <= p < first + n
  }

  /** `n` consecutive one-bits from `first`: 0xFF << 20 is Ones(20, 8). */
  function Ones(first: nat, n: nat): Word {
    set p | first <= p < first + n && InSpan(p, first, n)
  }

  predicate HasBit(b: bv8, c: nat)
    requires c < 8
  {
    b & [1, 2, 4, 8, 0x10, 0x20, 0x40, 0x80][c] != 0
  }

  /** An unsigned byte shifted left: `b << first`. */
  function Shifted(b: bv8, first: nat): Word {
    set c | 0 <= c < 8 && HasBit(b, c) :: first + c
  }

  lemma ShiftedBit(b: bv8, first: nat, c: nat)
    requires c < 8
    ensures first + c in Shifted(b, first) <==> HasBit(b, c)
  {
  }

  /** A byte is determined by its bits. */
  lemma SameBits(a: bv8, b: bv8)
    requires forall c | 0 <= c < 8 :: HasBit(a, c) == HasBit(b, c)
    ensures a == b
  {
    assert HasBit(a, 0) == HasBit(b, 0) && HasBit(a, 1) == HasBit(b, 1);
    assert HasBit(a, 2) == HasBit(b, 2) && HasBit(a, 3) == HasBit(b, 3);
    assert HasBit(a, 4) == HasBit(b, 4) && HasBit(a, 5) == HasBit(b, 5);
    assert HasBit(a, 6) == HasBit(b, 6) && HasBit(a, 7) == HasBit(b, 7);
  }

  function Apply(latch: Word, op: RegOp): Word {
    match op
    case SetPins(m) => latch + m
    case ClearPins(m) => latch - m
  }

  function ApplyAll(latch: Word, ops: seq<RegOp>): Word {
    if ops == [] then latch
    else Apply(ApplyAll(latch, ops[..|ops| - 1]), ops[|ops| - 1])
  }

  /** The value of the latch after each of the writes: every micro-state. */
  function States(latch: Word, ops: seq<RegOp>): seq<Word> {
    if ops == [] then []
    else States(latch, ops[..|ops| - 1]) + [ApplyAll(latch, ops)]
  }

  lemma ApplySnoc(latch: Word, ops: seq<RegOp>, op: RegOp)
    ensures ApplyAll(latch, ops + [op]) == Apply(ApplyAll(latch, ops), op)
    ensures States(latch, ops + [op]) == States(latch, ops) + [ApplyAll(latch, ops + [op])]
  {
    assert (ops + [op])[..|ops|] == ops;
  }

  lemma RunTwo(latch: Word, a: RegOp, b: RegOp)
    ensures States(latch, [a, b]) == [Apply(latch, a), Apply(Apply(latch, a), b)]
    ensures ApplyAll(latch, [a, b]) == Apply(Apply(latch, a), b)
  {
    ApplySnoc(latch, [], a);
    ApplySnoc(latch, [a], b);
    assert [] + [a] == [a] && [a] + [b] == [a, b];
  }

  lemma RunFour(latch: Word, a: RegOp, b: RegOp, c: RegOp, d: RegOp)
    ensures var l := Apply(Apply(latch, a), b);
      && States(latch, [a, b, c, d]) == [Apply(latch, a), l, Apply(l, c), Apply(Apply(l, c), d)]
      && ApplyAll(latch, [a, b, c, d]) == Apply(Apply(l, c), d)
  {
    RunTwo(latch, a, b);
    RunTwo(ApplyAll(latch, [a, b]), c, d);
    RunConcat(latch, [a, b], [c, d]);
    assert [a, b] + [c, d] == [a, b, c, d];
  }

  lemma {:induction false} RunConcat(latch: Word, a: seq<RegOp>, b: seq<RegOp>)
    ensures ApplyAll(latch, a + b) == ApplyAll(ApplyAll(latch, a), b)
    ensures States(latch, a + b) == States(latch, a) + States(ApplyAll(latch, a), b)
    decreases |b|
  {
    if b == [] {
      assert a + b == a;
    } else {
      var init, last := b[..|b| - 1], b[|b| - 1];
      RunConcat(latch, a, init);
      assert a + b == (a + init) + [last];
      assert b == init + [last];
      ApplySnoc(latch, a + init, last);
      ApplySnoc(ApplyAll(latch, a), init, last);
    }
  }

  lemma AfterReturning(latch: Word, a: seq<RegOp>, b: seq<RegOp>)
    requires ApplyAll(latch, a) == latch
    ensures ApplyAll(latch, a + b) == ApplyAll(latch, b)
  {
    RunConcat(latch, a, b);
  }

  lemma {:induction false} StatesAt(latch: Word, ops: seq<RegOp>, k: nat)
    requires k < |ops|
    ensures |States(latch, ops)| == |ops|
    ensures States(latch, ops)[k] == ApplyAll(latch, ops[..k + 1])
    decreases |ops|
  {
    var init := ops[..|ops| - 1];
    if |ops| == 1 {
      assert ops[..k + 1] == ops;
      assert States(latch, init) == [];
    } else {
      StatesAt(latch, init, if k < |init| then k else 0);
      if k == |init| {
        assert ops[..k + 1] == ops;
      } else {
        assert init[..k + 1] == ops[..k + 1];
      }
    }
  }

  class Registers {
    var fsel: seq<Word>
    var edge: Word
    var latch: Word
    var level: Word
    ghost var writes: seq<RegOp>

    ghost predicate Valid()
      reads this
    {
      |fsel| == 3
    }

    ghost function Words(): Setup
      reads this
      requires Valid()
    {
      Setup(fsel[0], fsel[1], fsel[2], edge)
    }

    method WriteSet(v: Word)
      modifies this`latch, this`writes
      ensures latch == Apply(old(latch), SetPins(v))
      ensures writes == old(writes) + [SetPins(v)]
    {
      latch := latch + v;
      writes := writes + [SetPins(v)];
    }

    method WriteClear(v: Word)
      modifies this`latch, this`writes
      ensures latch == Apply(old(latch), ClearPins(v))
      ensures writes == old(writes) + [ClearPins(v)]
    {
      latch := latch - v;
      writes := writes + [ClearPins(v)];
    }
  }
}
