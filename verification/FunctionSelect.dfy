/**
  Function-select setup: what the nine `open` functions of the coin machine (and
  the `open` of the second display wiring) do to words 0..2 and 22, and that the
  order in which the devices are opened does not matter.
 */
module FunctionSelect {
  import opened Gpio

  // The three-bit function codes 000 and 001, as sets of bits.
  const INPUT: Word := {}
  const OUTPUT: Word := {0}

  /** The three-bit function of field `k` of a word. */
  function Field(w: Word, k: nat): Word {
    (if 3 * k in w then {0} else {}) + (if 3 * k + 1 in w then {1} else {}) + (if 3 * k + 2 in w then {2} else {})
  }

  /** The function of a pin: ten pins a word. */
  function Mode(w: Setup, p: nat): Word
    requires p < 30
  {
    if p < 10 then Field(w.f0, p) else if p < 20 then Field(w.f1, p - 10) else Field(w.f2, p - 20)
  }

  /** A function code shifted to field `field`. */
  function CodeAt(field: nat, code: Word): Word {
    set b | b in code :: 3 * field + b
  }

  /** The drivers' two statements: clear a three-bit field, then or a code into it. */
  function ClearThenOr(w: Word, field: nat, code: Word): Word {
    (w - Ones(3 * field, 3)) + CodeAt(field, code)
  }

  /** Clear-then-or is an update of that one field: every other bit of the word stays. */
  lemma ClearThenOrIsFieldUpdate(w: Word, field: nat, code: Word)
    requires forall b | b in code :: b < 3
    ensures Field(ClearThenOr(w, field, code), field) == code
    ensures forall k: nat | k != field :: Field(ClearThenOr(w, field, code), k) == Field(w, k)
    ensures ClearThenOr(w, field, code) - Ones(3 * field, 3) == w - Ones(3 * field, 3)
  {
    var r := ClearThenOr(w, field, code);
    assert 3 * field in r <==> 0 in code;
    assert 3 * field + 1 in r <==> 1 in code;
    assert 3 * field + 2 in r <==> 2 in code;
    forall k: nat | k != field
      ensures Field(r, k) == Field(w, k)
    {
      assert 3 * k !in Ones(3 * field, 3) && 3 * k + 1 !in Ones(3 * field, 3) && 3 * k + 2 !in Ones(3 * field, 3);
    }
  }

  /** The low bits of fields `first..end`: all of them set to output. */
  function OutputCodes(first: nat, end: nat): Word {
    set k | first <= k < end :: 3 * k
  }

  /** Fields `first..end` of a word, all bits. */
  function Span(first: nat, end: nat): Word
    requires first <= end
  {
    Ones(3 * first, 3 * (end - first))
  }

  /** The word with fields `first..end` set to output and every other bit kept. */
  function OutputFields(w: Word, first: nat, end: nat): Word
    requires first <= end
  {
    (w - Span(first, end)) + OutputCodes(first, end)
  }

  /** One turn of the display drivers' setup loops. */
  lemma OutputOneMore(w: Word, first: nat, end: nat)
    requires first <= end
    ensures ClearThenOr(OutputFields(w, first, end), end, OUTPUT) == OutputFields(w, first, end + 1)
  {
    var l, r := ClearThenOr(OutputFields(w, first, end), end, OUTPUT), OutputFields(w, first, end + 1);
    assert CodeAt(end, OUTPUT) == {3 * end};
    assert OutputCodes(first, end + 1) == OutputCodes(first, end) + {3 * end};
    assert Span(first, end + 1) == Span(first, end) + Ones(3 * end, 3);
    assert OutputCodes(first, end) !! Ones(3 * end, 3);
  }

  datatype Device = Key1 | Key2 | Key3 | Key4 | Sens1 | Sens2 | Sens3 | Dot | Motor

  /** What opening one device does to the words. */
  function Open(d: Device, w: Setup): Setup {
    match d
    case Key1 => w.(f0 := ClearThenOr(w.f0, 2, INPUT), edge := w.edge + {2})
    case Key2 => w.(f0 := ClearThenOr(w.f0, 3, INPUT), edge := w.edge + {3})
    case Key3 => w.(f0 := ClearThenOr(w.f0, 4, INPUT), edge := w.edge + {2})
    case Key4 => w.(f0 := ClearThenOr(w.f0, 6, INPUT), edge := w.edge + {5})
    case Sens1 => w.(f1 := ClearThenOr(w.f1, 8, INPUT))
    case Sens2 => w.(f0 := ClearThenOr(w.f0, 7, INPUT))
    case Sens3 => w.(f0 := ClearThenOr(w.f0, 8, INPUT))
    case Dot => w.(f1 := OutputFields(w.f1, 0, 8), f2 := OutputFields(w.f2, 0, 8))
    case Motor => w.(f0 := ClearThenOr(w.f0, 9, OUTPUT))
  }

  function OpenAll(order: seq<Device>, w: Setup): Setup {
    if order == [] then w
    else Open(order[|order| - 1], OpenAll(order[..|order| - 1], w))
  }

  /** The bits of each word that opening a device overwrites. */
  function Touched(d: Device): Setup {
    match d
    case Key1 => Setup(Ones(6, 3), {}, {}, {2})
    case Key2 => Setup(Ones(9, 3), {}, {}, {3})
    case Key3 => Setup(Ones(12, 3), {}, {}, {2})
    case Key4 => Setup(Ones(18, 3), {}, {}, {5})
    case Sens1 => Setup({}, Ones(24, 3), {}, {})
    case Sens2 => Setup(Ones(21, 3), {}, {}, {})
    case Sens3 => Setup(Ones(24, 3), {}, {}, {})
    case Dot => Setup({}, Ones(0, 24), Ones(0, 24), {})
    case Motor => Setup(Ones(27, 3), {}, {}, {})
  }

  /** The one-bits that the devices leave in the bits they touch. */
  const FINAL := Setup({27}, OutputCodes(0, 8), OutputCodes(0, 8), {2, 3, 5})

  /** The bits of `m` taken from `f`, the rest from `w`. */
  function BlendWord(w: Word, m: Word, f: Word): Word {
    (w - m) + (f * m)
  }

  function Blend(w: Setup, m: Setup): Setup {
    Setup(BlendWord(w.f0, m.f0, FINAL.f0), BlendWord(w.f1, m.f1, FINAL.f1),
          BlendWord(w.f2, m.f2, FINAL.f2), BlendWord(w.edge, m.edge, FINAL.edge))
  }

  function Union(a: Setup, b: Setup): Setup {
    Setup(a.f0 + b.f0, a.f1 + b.f1, a.f2 + b.f2, a.edge + b.edge)
  }

  predicate Within(a: Setup, b: Setup) {
    a.f0 <= b.f0 && a.f1 <= b.f1 && a.f2 <= b.f2 && a.edge <= b.edge
  }

  function TouchedBy(order: seq<Device>): Setup {
    if order == [] then Setup({}, {}, {}, {})
    else Union(TouchedBy(order[..|order| - 1]), Touched(order[|order| - 1]))
  }

  lemma FieldBlend(w: Word, field: nat, code: Word, f: Word)
    requires f * Ones(3 * field, 3) == CodeAt(field, code)
    ensures ClearThenOr(w, field, code) == BlendWord(w, Ones(3 * field, 3), f)
  {
  }

  lemma InputBlend(w: Word, field: nat, f: Word)
    requires f !! Ones(3 * field, 3)
    ensures ClearThenOr(w, field, INPUT) == BlendWord(w, Ones(3 * field, 3), f)
  {
    FieldBlend(w, field, INPUT, f);
  }

  lemma OpenIsBlend(d: Device, w: Setup)
    ensures Open(d, w) == Blend(w, Touched(d))
  {
    match d
    case Key1 => InputBlend(w.f0, 2, FINAL.f0);
    case Key2 => InputBlend(w.f0, 3, FINAL.f0);
    case Key3 => InputBlend(w.f0, 4, FINAL.f0);
    case Key4 => InputBlend(w.f0, 6, FINAL.f0);
    case Sens1 => InputBlend(w.f1, 8, FINAL.f1);
    case Sens2 => InputBlend(w.f0, 7, FINAL.f0);
    case Sens3 => InputBlend(w.f0, 8, FINAL.f0);
    case Dot => assert OutputCodes(0, 8) * Ones(0, 24) == OutputCodes(0, 8);
    case Motor => FieldBlend(w.f0, 9, OUTPUT, FINAL.f0);
  }

  lemma {:induction false} OpenAllIsBlend(order: seq<Device>, w: Setup)
    ensures OpenAll(order, w) == Blend(w, TouchedBy(order))
  {
    if order == [] {
    } else {
      var init, last := order[..|order| - 1], order[|order| - 1];
      OpenAllIsBlend(init, w);
      OpenIsBlend(last, OpenAll(init, w));
      BlendTwice(w, TouchedBy(init), Touched(last));
    }
  }

  lemma BlendTwice(w: Setup, a: Setup, b: Setup)
    ensures Blend(Blend(w, a), b) == Blend(w, Union(a, b))
  {
  }

  /** Every device of an order contributes its bits. */
  lemma {:induction false} TouchedByCovers(order: seq<Device>, d: Device)
    requires d in order
    ensures Within(Touched(d), TouchedBy(order))
  {
    if d != order[|order| - 1] {
      TouchedByCovers(order[..|order| - 1], d);
    }
  }

  const ALL_TOUCHED := Setup(Ones(6, 9) + Ones(18, 12), Ones(0, 27), Ones(0, 24), {2, 3, 5})

  lemma {:induction false} TouchedByBounded(order: seq<Device>)
    ensures Within(TouchedBy(order), ALL_TOUCHED)
  {
    if order == [] {
    } else {
      TouchedByBounded(order[..|order| - 1]);
      TouchedBounded(order[|order| - 1]);
    }
  }

  lemma TouchedBounded(d: Device)
    ensures Within(Touched(d), ALL_TOUCHED)
  {
  }

  ghost predicate OpensEverything(order: seq<Device>) {
    forall d: Device :: d in order
  }

  lemma TouchedByAll(order: seq<Device>)
    requires OpensEverything(order)
    ensures TouchedBy(order) == ALL_TOUCHED
  {
    forall d: Device
      ensures Within(Touched(d), TouchedBy(order))
    {
      TouchedByCovers(order, d);
    }
    var t := TouchedBy(order);
    assert Within(Touched(Key1), t) && Within(Touched(Key2), t) && Within(Touched(Key3), t) && Within(Touched(Key4), t);
    assert Within(Touched(Sens1), t) && Within(Touched(Sens2), t) && Within(Touched(Sens3), t);
    assert Within(Touched(Dot), t) && Within(Touched(Motor), t);
    TouchedByBounded(order);
  }

  /** Whatever the registers held and whatever the order, the final words are the same. */
  lemma SetupCommutes(order: seq<Device>, other: seq<Device>, w: Setup)
    requires OpensEverything(order) && OpensEverything(other)
    ensures OpenAll(order, w) == OpenAll(other, w)
  {
    OpenAllIsBlend(order, w);
    OpenAllIsBlend(other, w);
    TouchedByAll(order);
    TouchedByAll(other);
  }

  /** Keys on pins 2, 3, 4, 6 and sensors on pins 18, 7, 8. */
  predicate IsInput(p: nat) {
    2 <= p <= 4 || 6 <= p <= 8 || p == 18
  }

  /** The motor on pin 9, display data on 10..17, display select lines on 20..27. */
  predicate IsOutput(p: nat) {
    9 <= p <= 17 || 20 <= p <= 27
  }

  /** After all opens: keys and sensors are inputs, motor and display outputs, the rest is untouched. */
  lemma FinalModes(order: seq<Device>, w: Setup, p: nat)
    requires OpensEverything(order) && p < 30
    ensures Mode(OpenAll(order, w), p)
         == if IsInput(p) then INPUT else if IsOutput(p) then OUTPUT else Mode(w, p)
  {
    OpenAllIsBlend(order, w);
    TouchedByAll(order);
    if p < 10 {
      LowPinField(w.f0, p);
    } else if p < 20 {
      MiddlePinField(w.f1, p - 10);
    } else {
      HighPinField(w.f2, p - 20);
    }
  }

  lemma LowPinField(w: Word, k: nat)
    requires k < 10
    ensures Field(BlendWord(w, ALL_TOUCHED.f0, FINAL.f0), k)
         == if IsInput(k) then INPUT else if k == 9 then OUTPUT else Field(w, k)
  {
    BlendedField(w, ALL_TOUCHED.f0, FINAL.f0, k);
  }

  lemma MiddlePinField(w: Word, k: nat)
    requires k < 10
    ensures Field(BlendWord(w, ALL_TOUCHED.f1, FINAL.f1), k)
         == if k == 8 then INPUT else if k < 8 then OUTPUT else Field(w, k)
  {
    BlendedField(w, ALL_TOUCHED.f1, FINAL.f1, k);
    OutputCode(k);
  }

  lemma HighPinField(w: Word, k: nat)
    requires k < 10
    ensures Field(BlendWord(w, ALL_TOUCHED.f2, FINAL.f2), k) == if k < 8 then OUTPUT else Field(w, k)
  {
    BlendedField(w, ALL_TOUCHED.f2, FINAL.f2, k);
    OutputCode(k);
  }

  lemma BlendedField(w: Word, m: Word, f: Word, k: nat)
    requires Ones(3 * k, 3) <= m || Ones(3 * k, 3) !! m
    ensures Field(BlendWord(w, m, f), k) == if Ones(3 * k, 3) <= m then Field(f, k) else Field(w, k)
  {
    assert 3 * k in Ones(3 * k, 3) && 3 * k + 1 in Ones(3 * k, 3) && 3 * k + 2 in Ones(3 * k, 3);
  }

  lemma OutputCode(k: nat)
    ensures Field(OutputCodes(0, 8), k) == if k < 8 then OUTPUT else INPUT
  {
  }

  /**
    The other bits: the top two of each word stay, and edge detection gains exactly
    pins 2, 3 and 5. Keys 3 and 4 interrupt on pins 4 and 6, whose bits stay as they were.
   */
  lemma FinalOtherBits(order: seq<Device>, w: Setup)
    requires OpensEverything(order)
    ensures var f := OpenAll(order, w);
      && (forall p | p >= 30 :: (p in f.f0 <==> p in w.f0) && (p in f.f1 <==> p in w.f1) && (p in f.f2 <==> p in w.f2))
      && f.edge == w.edge + {2, 3, 5}
  {
    OpenAllIsBlend(order, w);
    TouchedByAll(order);
  }
}
