/**
  Rendering the reports: the buffers are allocated from the digit counts and filled
  glyph by glyph; the write index ends exactly at the allocated length.
 */
module Rendering {
  import opened Buffers
  import opened Cells
  import opened Digits
  import opened Glyphs
  import opened Reports

  lemma ReversedDigit(number: nat, reversed: seq<nat>, i: nat)
    requires |reversed| == |Decimal(number)| && HoldsReversed(reversed, number) && i < |reversed|
    ensures reversed[|reversed| - 1 - i] == Decimal(number)[i] < 10
  {
    DecimalMeans(number);
    assert Decimal(number)[i] in Decimal(number);
  }

  lemma ReversedIndexes(number: nat, reversed: seq<nat>)
    requires |reversed| == |Decimal(number)| && HoldsReversed(reversed, number)
    ensures Indexes(reversed, 10)
  {
    forall i | 0 <= i < |reversed|
      ensures reversed[i] < 10
    {
      ReversedDigit(number, reversed, |reversed| - 1 - i);
    }
  }

  lemma DigitCells(f: Font, number: nat, reversed: seq<nat>)
    requires ValidFont(f) && |reversed| == |Decimal(number)| && HoldsReversed(reversed, number)
    requires Indexes(reversed, 10) && EightEach(f[..10])
    ensures Selected(f[..10], reversed) == Codes(f, Number(number))
  {
    var selected, cells := Selected(f[..10], reversed), Codes(f, Number(number));
    forall i | 0 <= i < |reversed|
      ensures selected[i] == cells[i]
    {
      ReversedDigit(number, reversed, i);
      assert Number(number)[i] == Digit(Decimal(number)[i]);
    }
  }

  /** Takes the number apart into `arr` and emits a head, its digits and an end mark. */
  method PutField(f: Font, buf: array<bv8>, m: nat, head: seq<Glyph>, arr: array<nat>, number: nat, mark: Glyph)
    returns (end: nat)
    requires ValidFont(f) && ProperText(head) && Proper(mark)
    requires arr.Length == |Decimal(number)| && arr as object != buf as object
    requires m + 8 * (|head| + arr.Length + 1) <= buf.Length
    modifies buf, arr
    ensures end == m + 8 * (|head| + arr.Length + 1)
    ensures buf[..end] == old(buf[..m]) + Image(f, NumberField(head, number, mark))
  {
    FieldImage(f, buf[..m], head, number, mark);
    ghost var before := buf[..m];
    var n := FillDigits(number, arr);
    assert buf[..m] == before;
    ReversedIndexes(number, arr[..]);
    DigitCells(f, number, arr[..]);
    end := PutCells(buf, m, Codes(f, head));
    end := PutReversed(buf, end, arr, f[..10]);
    end := PutCell(buf, end, Code(f, mark));
  }

  lemma FieldImage(f: Font, start: seq<bv8>, head: seq<Glyph>, number: nat, mark: Glyph)
    requires ValidFont(f) && ProperText(head) && Proper(mark)
    ensures start + Image(f, NumberField(head, number, mark))
         == ((start + Flatten(Codes(f, head))) + Flatten(Codes(f, Number(number)))) + Code(f, mark)
  {
    ImageConcat(f, head, Number(number));
    ImageConcat(f, head + Number(number), [mark]);
    ImageOne(f, mark);
    Regroup4(start, Flatten(Codes(f, head)), Flatten(Codes(f, Number(number))), Code(f, mark));
  }

  lemma Regroup4(s: seq<bv8>, x: seq<bv8>, y: seq<bv8>, z: seq<bv8>)
    ensures s + ((x + y) + z) == ((s + x) + y) + z
  {
  }

  /** Key 2. The counters are C ints and so must be the total. */
  method TotalMoney(f: Font, a: nat, b: nat, c: nat) returns (buf: array<bv8>, m: nat)
    requires ValidFont(f) && Total(a, b, c) <= INT_MAX
    ensures fresh(buf)
    ensures m == buf.Length == 8 * (|Decimal(Total(a, b, c))| + 3)
    ensures buf[..] == Image(f, Text(Money, a, b, c))
  {
    var number := (500 * a) + (100 * b) + (50 * c);
    var size := CountDigits(number);
    var arr := new nat[size];
    buf := new bv8[8 * (size + 3)];
    m := PutField(f, buf, 0, [T, Colon], arr, number, W);
    assert buf[..m] == buf[..];
  }

  /** Key 3. */
  method EachCoin(f: Font, a: nat, b: nat, c: nat) returns (buf: array<bv8>, m: nat)
    requires ValidFont(f) && a <= INT_MAX && b <= INT_MAX && c <= INT_MAX
    ensures fresh(buf)
    ensures m == buf.Length == 8 * (|Decimal(a)| + |Decimal(b)| + |Decimal(c)| + 16)
    ensures buf[..] == Image(f, Text(Each, a, b, c))
  {
    var size := CountDigits(a);
    var arr1 := new nat[size];
    var size2 := CountDigits(b);
    var arr2 := new nat[size2];
    var size3 := CountDigits(c);
    var arr3 := new nat[size3];
    buf := new bv8[8 * (size + size2 + size3 + 16)];
    m := PutEach(f, buf, arr1, arr2, arr3, a, b, c);
    assert buf[..m] == buf[..];
  }

  method PutEach(f: Font, buf: array<bv8>, arr1: array<nat>, arr2: array<nat>, arr3: array<nat>, a: nat, b: nat, c: nat)
    returns (m: nat)
    requires ValidFont(f)
    requires arr1.Length == |Decimal(a)| && arr2.Length == |Decimal(b)| && arr3.Length == |Decimal(c)|
    requires buf.Length == 8 * (arr1.Length + arr2.Length + arr3.Length + 16)
    requires (buf as object) !in {arr1 as object, arr2 as object, arr3 as object}
    modifies buf, arr1, arr2, arr3
    ensures m == buf.Length && buf[..m] == Image(f, Text(Each, a, b, c))
  {
    EachImage(f, a, b, c);
    m := PutField(f, buf, 0, LABEL500, arr1, a, Blank);
    m := PutField(f, buf, m, LABEL100, arr2, b, Blank);
    m := PutField(f, buf, m, LABEL50, arr3, c, Blank);
  }

  lemma EachImage(f: Font, a: nat, b: nat, c: nat)
    requires ValidFont(f)
    ensures Image(f, Text(Each, a, b, c))
         == (([] + Image(f, NumberField(LABEL500, a, Blank))) + Image(f, NumberField(LABEL100, b, Blank)))
          + Image(f, NumberField(LABEL50, c, Blank))
  {
    ThreeImages(f, NumberField(LABEL500, a, Blank), NumberField(LABEL100, b, Blank), NumberField(LABEL50, c, Blank));
  }

  lemma ThreeImages(f: Font, x: seq<Glyph>, y: seq<Glyph>, z: seq<Glyph>)
    requires ValidFont(f) && ProperText(x) && ProperText(y) && ProperText(z)
    ensures ProperText(x + y + z)
    ensures Image(f, x + y + z) == (([] + Image(f, x)) + Image(f, y)) + Image(f, z)
  {
    ImageConcat(f, x, y);
    ImageConcat(f, x + y, z);
    assert [] + Image(f, x) == Image(f, x);
  }

  /** Key 4. */
  method TotalCoins(f: Font, a: nat, b: nat, c: nat) returns (buf: array<bv8>, m: nat)
    requires ValidFont(f) && a + b + c <= INT_MAX
    ensures fresh(buf)
    ensures m == buf.Length == 8 * (|Decimal(a + b + c)| + 4)
    ensures buf[..] == Image(f, Text(Count, a, b, c))
  {
    var number := a + b + c;
    var size := CountDigits(number);
    var arr := new nat[size];
    buf := new bv8[8 * (size + 4)];
    m := PutField(f, buf, 0, [T, C, Colon], arr, number, Blank);
    assert buf[..m] == buf[..];
  }
}
