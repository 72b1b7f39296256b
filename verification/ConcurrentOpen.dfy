/**
  Two sensor threads open their devices at the same time. Pins 7 and 8 share
  function-select word 0, and each `open` updates it by two read-modify-writes, so
  one opener can write back a word it read before the other one's update.
 */
module ConcurrentOpen {
  import opened Gpio
  import opened FunctionSelect

  // The fields of the second and third sensor in word 0.
  const FIRST: nat := 7
  const SECOND: nat := 8

  /** How many of its four memory accesses an opener has made, and the word it last read. */
  datatype Opener = Opener(pc: nat, reg: Word)

  datatype Shared = Shared(word: Word, a: Opener, b: Opener)

  /** One memory access: read, write the field cleared, read, write the code in. */
  function Access(o: Opener, word: Word, field: nat): (Opener, Word) {
    if o.pc == 0 || o.pc == 2 then (Opener(o.pc + 1, word), word)
    else if o.pc == 1 then (Opener(2, o.reg), o.reg - Ones(3 * field, 3))
    else if o.pc == 3 then (Opener(4, o.reg), o.reg + CodeAt(field, INPUT))
    else (o, word)
  }

  function Turn(s: Shared, first: bool): Shared {
    if first then
      var (o, word) := Access(s.a, s.word, FIRST);
      Shared(word, o, s.b)
    else
      var (o, word) := Access(s.b, s.word, SECOND);
      Shared(word, s.a, o)
  }

  /** The turns of a schedule: true for the first opener. */
  function Turns(word: Word, schedule: seq<bool>): Shared {
    if schedule == [] then Shared(word, Opener(0, {}), Opener(0, {}))
    else Turn(Turns(word, schedule[..|schedule| - 1]), schedule[|schedule| - 1])
  }

  predicate Done(s: Shared) {
    s.a.pc == 4 && s.b.pc == 4
  }

  /** Word 0 after one open and then the other. */
  function InTurn(word: Word): Word {
    Open(Sens3, Open(Sens2, Setup(word, {}, {}, {}))).f0
  }

  /** Every complete schedule ends with the word of the sequential opens. */
  ghost predicate OrderDoesNotMatter(word: Word) {
    forall schedule :: Done(Turns(word, schedule)) ==> Turns(word, schedule).word == InTurn(word)
  }

  function FourTurns(s: Shared, first: bool): Shared {
    Turn(Turn(Turn(Turn(s, first), first), first), first)
  }

  /** Four accesses in a row of an opener that begins are its driver's open. */
  lemma FirstOpens(s: Shared)
    requires s.a.pc == 0
    ensures var t := FourTurns(s, true);
      t.word == ClearThenOr(s.word, 7, INPUT) && t.a.pc == 4 && t.b == s.b
  {
    var s1 := Turn(s, true);
    assert s1 == Shared(s.word, Opener(1, s.word), s.b);
    var s2 := Turn(s1, true);
    assert s2 == Shared(s.word - Ones(21, 3), Opener(2, s.word), s.b);
    var s3 := Turn(s2, true);
    assert s3 == Shared(s2.word, Opener(3, s2.word), s.b);
  }

  lemma SecondOpens(s: Shared)
    requires s.b.pc == 0
    ensures var t := FourTurns(s, false);
      t.word == ClearThenOr(s.word, 8, INPUT) && t.b.pc == 4 && t.a == s.a
  {
    var s1 := Turn(s, false);
    assert s1 == Shared(s.word, s.a, Opener(1, s.word));
    var s2 := Turn(s1, false);
    assert s2 == Shared(s.word - Ones(24, 3), s.a, Opener(2, s.word));
    var s3 := Turn(s2, false);
    assert s3 == Shared(s2.word, s.a, Opener(3, s2.word));
  }

  lemma TurnsFour(word: Word, schedule: seq<bool>, first: bool)
    ensures Turns(word, schedule + [first] + [first] + [first] + [first]) == FourTurns(Turns(word, schedule), first)
  {
    TurnsSnoc(word, schedule, first);
    TurnsSnoc(word, schedule + [first], first);
    TurnsSnoc(word, schedule + [first] + [first], first);
    TurnsSnoc(word, schedule + [first] + [first] + [first], first);
  }

  lemma TwoOpens(s: Shared, first: bool)
    requires s.a.pc == 0 && s.b.pc == 0
    ensures var t := FourTurns(FourTurns(s, first), !first);
      Done(t) && t.word == InTurn(s.word)
  {
    if first {
      FirstOpens(s);
      SecondOpens(FourTurns(s, true));
    } else {
      SecondOpens(s);
      FirstOpens(FourTurns(s, false));
      EitherOrder(s.word);
    }
  }

  lemma EitherOrder(word: Word)
    ensures ClearThenOr(ClearThenOr(word, 8, INPUT), 7, INPUT) == InTurn(word)
  {
    assert CodeAt(7, INPUT) == {} && CodeAt(8, INPUT) == {};
  }

  /** One open in full and then the other, in either order, end as the two drivers' opens do. */
  lemma SequentialTurns(word: Word, first: bool) returns (schedule: seq<bool>)
    ensures Done(Turns(word, schedule)) && Turns(word, schedule).word == InTurn(word)
    ensures |schedule| == 8 && forall k | 0 <= k < 8 :: schedule[k] == (if k < 4 then first else !first)
  {
    var half := [] + [first] + [first] + [first] + [first];
    TurnsFour(word, [], first);
    TurnsFour(word, half, !first);
    TwoOpens(Turns(word, []), first);
    schedule := half + [!first] + [!first] + [!first] + [!first];
  }

  /** Words that differ at most in the two fields. */
  predicate SameElsewhere(w: Word, v: Word) {
    w - Ones(3 * FIRST, 6) == v - Ones(3 * FIRST, 6) && v <= w
  }

  /** Under every schedule only the two fields change, and only by losing bits. */
  lemma {:induction false} OtherFieldsKept(word: Word, schedule: seq<bool>)
    ensures var s := Turns(word, schedule);
      && SameElsewhere(word, s.word)
      && (s.a.pc > 0 ==> SameElsewhere(word, s.a.reg))
      && (s.b.pc > 0 ==> SameElsewhere(word, s.b.reg))
  {
    if schedule != [] {
      OtherFieldsKept(word, schedule[..|schedule| - 1]);
    }
  }

  /**
    Opening both sensors at once is safe under every schedule exactly when both pins
    already are inputs.
   */
  lemma ConcurrentOpensExact(word: Word)
    ensures OrderDoesNotMatter(word) <==> Field(word, 7) == INPUT && Field(word, 8) == INPUT
  {
    if Field(word, FIRST) == INPUT && Field(word, SECOND) == INPUT {
      assert InTurn(word) == word;
      forall schedule
        ensures Turns(word, schedule).word == word
      {
        NothingToLose(word, schedule);
      }
    } else if Field(word, FIRST) != INPUT {
      LostUpdate(word, false);
      FieldDiffers(word, FIRST);
    } else {
      LostUpdate(word, true);
      FieldDiffers(word, SECOND);
    }
  }

  lemma {:induction false} NothingToLose(word: Word, schedule: seq<bool>)
    requires Field(word, FIRST) == INPUT && Field(word, SECOND) == INPUT
    ensures var s := Turns(word, schedule);
      && s.word == word && (s.a.pc > 0 ==> s.a.reg == word) && (s.b.pc > 0 ==> s.b.reg == word)
  {
    if schedule != [] {
      NothingToLose(word, schedule[..|schedule| - 1]);
    }
  }

  /** One opener reads, the other opens in full, the first one goes on with the word it read. */
  function Late(who: bool): seq<bool> {
    [who, !who, !who, !who, !who, who, who, who]
  }

  lemma LostUpdate(word: Word, who: bool)
    ensures Done(Turns(word, Late(who)))
    ensures Turns(word, Late(who)).word == ClearThenOr(word, if who then FIRST else SECOND, INPUT)
  {
    var field := if who then FIRST else SECOND;
    var l1 := [who];
    var l2, l3 := l1 + [!who], l1 + [!who] + [!who];
    var l4, l5 := l3 + [!who], l3 + [!who] + [!who];
    var l6, l7 := l5 + [who], l5 + [who] + [who];
    TurnsSnoc(word, [], who);
    assert [] + [who] == l1;
    TurnsSnoc(word, l1, !who);
    TurnsSnoc(word, l2, !who);
    TurnsSnoc(word, l3, !who);
    TurnsSnoc(word, l4, !who);
    TurnsSnoc(word, l5, who);
    assert Turns(word, l6).word == word - Ones(3 * field, 3);
    TurnsSnoc(word, l6, who);
    TurnsSnoc(word, l7, who);
    assert l7 + [who] == Late(who);
  }

  lemma TurnsSnoc(word: Word, schedule: seq<bool>, first: bool)
    ensures Turns(word, schedule + [first]) == Turn(Turns(word, schedule), first)
  {
    assert (schedule + [first])[..|schedule|] == schedule;
  }

  lemma FieldDiffers(word: Word, field: nat)
    requires (field == FIRST || field == SECOND) && Field(word, field) != INPUT
    ensures ClearThenOr(word, if field == FIRST then SECOND else FIRST, INPUT) != InTurn(word)
  {
    var other := if field == FIRST then SECOND else FIRST;
    ClearThenOrIsFieldUpdate(word, other, INPUT);
    ClearThenOrIsFieldUpdate(word, FIRST, INPUT);
    ClearThenOrIsFieldUpdate(ClearThenOr(word, FIRST, INPUT), SECOND, INPUT);
  }
}
