/**
  The three reports of the menu: their texts, the methods that render them into
  exactly allocated buffers, and parsers that read them back.
 */
module Reports {
  import opened Cells
  import opened Digits
  import opened Glyphs
  import opened Sequences

  datatype Kind = Money | Each | Count

  function Total(a: nat, b: nat, c: nat): nat {
    500 * a + 100 * b + 50 * c
  }

  function Number(n: nat): (text: seq<Glyph>)
    ensures ProperText(text) && |text| == |Decimal(n)|
  {
    DecimalMeans(n);
    assert forall i | 0 <= i < |Decimal(n)| :: Decimal(n)[i] in Decimal(n);
    DigitGlyphs(Decimal(n))
  }

  function DigitGlyphs(ds: seq<nat>): (text: seq<Glyph>)
    ensures |text| == |ds| && forall i | 0 <= i < |ds| :: text[i] == Digit(ds[i])
  {
    seq(|ds|, i requires 0 <= i < |ds| => Digit(ds[i]))
  }

  const LABEL500 := [C, Colon, Digit(5), Digit(0), Digit(0), Colon]
  const LABEL100 := [Digit(1), Digit(0), Digit(0), Colon]
  const LABEL50 := [Digit(5), Digit(0), Colon]

  /** A head, a number and an end mark. */
  function NumberField(head: seq<Glyph>, n: nat, end: Glyph): (text: seq<Glyph>)
    requires ProperText(head) && Proper(end)
    ensures ProperText(text) && |text| == |head| + |Decimal(n)| + 1
  {
    head + Number(n) + [end]
  }

  function Text(kind: Kind, a: nat, b: nat, c: nat): (text: seq<Glyph>)
    ensures ProperText(text)
  {
    match kind
    case Money => NumberField([T, Colon], Total(a, b, c), W)
    case Each => NumberField(LABEL500, a, Blank) + NumberField(LABEL100, b, Blank) + NumberField(LABEL50, c, Blank)
    case Count => NumberField([T, C, Colon], a + b + c, Blank)
  }

  // ----- Reading a text back -----

  /** The digits that a text starts with. */
  function LeadingDigits(text: seq<Glyph>): (ds: seq<nat>)
    ensures |ds| <= |text|
  {
    if text == [] || !text[0].Digit? then [] else [text[0].d] + LeadingDigits(text[1..])
  }

  /** A canonical number at the start of a text, and what follows it. */
  function ReadNumber(text: seq<Glyph>): Option<(nat, seq<Glyph>)> {
    var ds := LeadingDigits(text);
    if Canonical(ds) then Some((Value(ds), text[|ds|..])) else None
  }

  function ReadLabel(text: seq<Glyph>, head: seq<Glyph>): Option<seq<Glyph>> {
    if head <= text then Some(text[|head|..]) else None
  }

  /** A head, a number, an end mark, and the rest of the text. */
  function ReadField(text: seq<Glyph>, head: seq<Glyph>, end: Glyph): Option<(nat, seq<Glyph>)> {
    var t :- ReadLabel(text, head);
    var (n, u) :- ReadNumber(t);
    var v :- ReadLabel(u, [end]);
    Some((n, v))
  }

  function ParseMoney(text: seq<Glyph>): Option<nat> {
    var (n, rest) :- ReadField(text, [T, Colon], W);
    if rest == [] then Some(n) else None
  }

  function ParseCount(text: seq<Glyph>): Option<nat> {
    var (n, rest) :- ReadField(text, [T, C, Colon], Blank);
    if rest == [] then Some(n) else None
  }

  /** A face value, a colon, how many coins of it, a blank, and the rest of the text. */
  function ReadCoin(text: seq<Glyph>): (r: Option<(nat, nat, seq<Glyph>)>)
    ensures r.Some? ==> |r.value.2| < |text|
  {
    var (face, t) :- ReadNumber(text);
    var (n, rest) :- ReadField(t, [Colon], Blank);
    Some((face, n, rest))
  }

  /** A text of such pairs and nothing else. */
  function ReadCoins(text: seq<Glyph>): Option<seq<(nat, nat)>>
    decreases |text|
  {
    if text == [] then Some([])
    else
      var (face, n, rest) :- ReadCoin(text);
      var coins :- ReadCoins(rest);
      Some([(face, n)] + coins)
  }

  /** The face values and counts that the report of the counts names. */
  function ParseCoins(text: seq<Glyph>): Option<seq<(nat, nat)>> {
    var t :- ReadLabel(text, [C, Colon]);
    ReadCoins(t)
  }

  /** What coins are worth by their own face values. */
  function Worth(coins: seq<(nat, nat)>): nat {
    if coins == [] then 0 else coins[0].0 * coins[0].1 + Worth(coins[1..])
  }

  /** The counts, if the report names the faces 500, 100 and 50. */
  function ParseEach(text: seq<Glyph>): Option<(nat, nat, nat)> {
    var coins :- ParseCoins(text);
    if |coins| == 3 && coins[0].0 == 500 && coins[1].0 == 100 && coins[2].0 == 50
    then Some((coins[0].1, coins[1].1, coins[2].1))
    else None
  }

  lemma {:induction false} RunOfDigits(ds: seq<nat>, rest: seq<Glyph>)
    requires rest == [] || !rest[0].Digit?
    ensures LeadingDigits(DigitGlyphs(ds) + rest) == ds
  {
    var text := DigitGlyphs(ds) + rest;
    if ds == [] {
      assert text == rest;
    } else {
      assert text[1..] == DigitGlyphs(ds[1..]) + rest;
      RunOfDigits(ds[1..], rest);
    }
  }

  lemma {:induction false} RunIsPrefix(text: seq<Glyph>)
    ensures text == DigitGlyphs(LeadingDigits(text)) + text[|LeadingDigits(text)|..]
  {
    if text != [] && text[0].Digit? {
      var ds := LeadingDigits(text[1..]);
      RunIsPrefix(text[1..]);
      HeadAndRun(text, DigitGlyphs(ds), |ds|);
      assert DigitGlyphs([text[0].d] + ds) == [text[0]] + DigitGlyphs(ds);
    }
  }

  lemma HeadAndRun(text: seq<Glyph>, run: seq<Glyph>, n: nat)
    requires n < |text| && text[1..] == run + text[1..][n..]
    ensures text == [text[0]] + run + text[n + 1..]
  {
    assert text[1..][n..] == text[n + 1..];
    assert text == [text[0]] + text[1..];
  }

  /** A rendered field reads back as its number. */
  lemma FieldRoundTrip(head: seq<Glyph>, n: nat, end: Glyph, rest: seq<Glyph>)
    requires ProperText(head) && !end.Digit?
    ensures ReadField(NumberField(head, n, end) + rest, head, end) == Some((n, rest))
  {
    var tail := [end] + rest;
    var text := head + Number(n) + [end] + rest;
    assert text[|head|..] == Number(n) + tail;
    assert head <= text;
    DecimalMeans(n);
    RunOfDigits(Decimal(n), tail);
    assert (Number(n) + tail)[|Decimal(n)|..] == tail;
    assert tail[1..] == rest;
  }

  /** Only a rendered field reads as that number. */
  lemma FieldSound(text: seq<Glyph>, head: seq<Glyph>, end: Glyph)
    requires ProperText(head) && Proper(end) && ReadField(text, head, end).Some?
    ensures var (n, rest) := ReadField(text, head, end).value;
      text == NumberField(head, n, end) + rest
  {
    var t := text[|head|..];
    var ds := LeadingDigits(t);
    var u := t[|ds|..];
    RunIsPrefix(t);
    DecimalUnique(ds);
    assert t == Number(Value(ds)) + u;
    FieldParts(text, head, Number(Value(ds)), u, end);
  }

  lemma FieldParts(text: seq<Glyph>, head: seq<Glyph>, digits: seq<Glyph>, u: seq<Glyph>, end: Glyph)
    requires head <= text && [end] <= u && text[|head|..] == digits + u
    ensures text == head + digits + [end] + u[1..]
  {
    assert text == head + text[|head|..] && u == [end] + u[1..];
  }

  /** The money report parses to the total, and nothing else parses to it. */
  lemma MoneyRoundTrip(a: nat, b: nat, c: nat)
    ensures ParseMoney(Text(Money, a, b, c)) == Some(Total(a, b, c))
  {
    FieldRoundTrip([T, Colon], Total(a, b, c), W, []);
    assert Text(Money, a, b, c) + [] == Text(Money, a, b, c);
  }

  lemma MoneySound(text: seq<Glyph>, a: nat, b: nat, c: nat)
    requires ParseMoney(text) == Some(Total(a, b, c))
    ensures text == Text(Money, a, b, c)
  {
    FieldSound(text, [T, Colon], W);
  }

  lemma CountRoundTrip(a: nat, b: nat, c: nat)
    ensures ParseCount(Text(Count, a, b, c)) == Some(a + b + c)
  {
    FieldRoundTrip([T, C, Colon], a + b + c, Blank, []);
    assert Text(Count, a, b, c) + [] == Text(Count, a, b, c);
  }

  lemma CountSound(text: seq<Glyph>, a: nat, b: nat, c: nat)
    requires ParseCount(text) == Some(a + b + c)
    ensures text == Text(Count, a, b, c)
  {
    FieldSound(text, [T, C, Colon], Blank);
  }

  /** A face value, a colon, a number and a blank. */
  function CoinField(face: nat, n: nat): (text: seq<Glyph>)
    ensures ProperText(text)
  {
    Number(face) + NumberField([Colon], n, Blank)
  }

  /** The labels of the report are the face values. */
  lemma LabelsAreFaces()
    ensures LABEL500 == [C, Colon] + Number(500) + [Colon]
    ensures LABEL100 == Number(100) + [Colon]
    ensures LABEL50 == Number(50) + [Colon]
  {
    assert Decimal(50) == [5] + [0] == [5, 0] && Decimal(10) == [1] + [0] == [1, 0];
    assert Decimal(500) == Decimal(50) + [0] == [5, 0, 0] && Decimal(100) == Decimal(10) + [0] == [1, 0, 0];
  }

  lemma LabelledField(title: seq<Glyph>, head: seq<Glyph>, face: nat, n: nat)
    requires ProperText(title) && title == head + Number(face) + [Colon]
    ensures NumberField(title, n, Blank) == head + CoinField(face, n)
  {
  }

  /** A text of face values and counts. */
  function CoinFields(coins: seq<(nat, nat)>): seq<Glyph> {
    if coins == [] then [] else CoinField(coins[0].0, coins[0].1) + CoinFields(coins[1..])
  }

  function Faces(a: nat, b: nat, c: nat): seq<(nat, nat)> {
    [(500, a), (100, b), (50, c)]
  }

  lemma FieldsCons(face: nat, n: nat, coins: seq<(nat, nat)>)
    ensures CoinFields([(face, n)] + coins) == CoinField(face, n) + CoinFields(coins)
    ensures Worth([(face, n)] + coins) == face * n + Worth(coins)
  {
    assert ([(face, n)] + coins)[1..] == coins;
  }

  lemma ThreeFields(a: nat, b: nat, c: nat)
    ensures CoinFields(Faces(a, b, c)) == CoinField(500, a) + (CoinField(100, b) + (CoinField(50, c) + []))
    ensures Worth(Faces(a, b, c)) == 500 * a + 100 * b + 50 * c
  {
    FieldsCons(50, c, []);
    FieldsCons(100, b, [(50, c)]);
    FieldsCons(500, a, [(100, b), (50, c)]);
    assert [(50, c)] + [] == [(50, c)] && [(100, b)] + [(50, c)] == [(100, b), (50, c)];
    assert [(500, a)] + [(100, b), (50, c)] == Faces(a, b, c);
  }

  /** The report of the counts names the face values, each with its number of coins. */
  lemma EachNamesFaces(a: nat, b: nat, c: nat)
    ensures Text(Each, a, b, c) == [C, Colon] + CoinFields(Faces(a, b, c))
  {
    LabelsAreFaces();
    LabelledField(LABEL500, [C, Colon], 500, a);
    LabelledField(LABEL100, [], 100, b);
    LabelledField(LABEL50, [], 50, c);
    Regroup([C, Colon], CoinField(500, a), CoinField(100, b), CoinField(50, c));
    ThreeFields(a, b, c);
  }

  lemma Regroup(w: seq<Glyph>, x: seq<Glyph>, y: seq<Glyph>, z: seq<Glyph>)
    ensures (w + x) + ([] + y) + ([] + z) == w + (x + (y + (z + [])))
  {
  }

  lemma CoinRoundTrip(face: nat, n: nat, rest: seq<Glyph>)
    ensures ReadCoin(CoinField(face, n) + rest) == Some((face, n, rest))
  {
    var tail := NumberField([Colon], n, Blank) + rest;
    assert CoinField(face, n) + rest == Number(face) + tail;
    DecimalMeans(face);
    RunOfDigits(Decimal(face), tail);
    assert (Number(face) + tail)[|Decimal(face)|..] == tail;
    FieldRoundTrip([Colon], n, Blank, rest);
  }

  lemma NumberSound(text: seq<Glyph>)
    requires ReadNumber(text).Some?
    ensures text == Number(ReadNumber(text).value.0) + ReadNumber(text).value.1
  {
    RunIsPrefix(text);
    DecimalUnique(LeadingDigits(text));
  }

  lemma CoinSound(text: seq<Glyph>)
    requires ReadCoin(text).Some?
    ensures var (face, n, rest) := ReadCoin(text).value;
      text == CoinField(face, n) + rest
  {
    var (face, t) := ReadNumber(text).value;
    var (n, rest) := ReadField(t, [Colon], Blank).value;
    NumberSound(text);
    FieldSound(t, [Colon], Blank);
    Assoc(Number(face), NumberField([Colon], n, Blank), rest);
  }

  /** Any such text reads back as its coins. */
  lemma {:induction false} CoinsRoundTrip(coins: seq<(nat, nat)>)
    ensures ReadCoins(CoinFields(coins)) == Some(coins)
  {
    if coins != [] {
      CoinsRoundTrip(coins[1..]);
      CoinRoundTrip(coins[0].0, coins[0].1, CoinFields(coins[1..]));
      assert [coins[0]] + coins[1..] == coins;
    }
  }

  /** And no other text reads as them. */
  lemma {:induction false} CoinsSound(text: seq<Glyph>)
    requires ReadCoins(text).Some?
    ensures text == CoinFields(ReadCoins(text).value)
    decreases |text|
  {
    if text != [] {
      var (face, n, rest) := ReadCoin(text).value;
      CoinSound(text);
      CoinsSound(rest);
      assert ([(face, n)] + ReadCoins(rest).value)[1..] == ReadCoins(rest).value;
    }
  }

  lemma EachFaces(a: nat, b: nat, c: nat)
    ensures ParseCoins(Text(Each, a, b, c)) == Some([(500, a), (100, b), (50, c)])
  {
    EachNamesFaces(a, b, c);
    assert ([C, Colon] + CoinFields(Faces(a, b, c)))[2..] == CoinFields(Faces(a, b, c));
    CoinsRoundTrip(Faces(a, b, c));
  }

  /**
    Read without knowing its labels, the report of the counts is three face values with the
    numbers of coins, and worth what the money report of the same counters says.
   */
  lemma EachIsWorth(a: nat, b: nat, c: nat)
    ensures ParseCoins(Text(Each, a, b, c)) == Some([(500, a), (100, b), (50, c)])
    ensures ParseMoney(Text(Money, a, b, c)) == Some(Worth([(500, a), (100, b), (50, c)]))
  {
    EachFaces(a, b, c);
    ThreeFields(a, b, c);
    MoneyRoundTrip(a, b, c);
  }

  lemma EachRoundTrip(a: nat, b: nat, c: nat)
    ensures ParseEach(Text(Each, a, b, c)) == Some((a, b, c))
  {
    EachIsWorth(a, b, c);
  }

  lemma EachSound(text: seq<Glyph>, a: nat, b: nat, c: nat)
    requires ParseEach(text) == Some((a, b, c))
    ensures text == Text(Each, a, b, c)
  {
    assert text == [C, Colon] + text[2..];
    CoinsSound(text[2..]);
    assert ReadCoins(text[2..]).value == Faces(a, b, c);
    EachNamesFaces(a, b, c);
  }

  // ----- The three displays agree -----

  /** What a reader of the display buffer gets. */
  function ShownMoney(f: Font, bytes: seq<bv8>): Option<nat>
    requires ValidFont(f)
  {
    var text :- Decode(f, bytes);
    ParseMoney(text)
  }

  function ShownCount(f: Font, bytes: seq<bv8>): Option<nat>
    requires ValidFont(f)
  {
    var text :- Decode(f, bytes);
    ParseCount(text)
  }

  function ShownEach(f: Font, bytes: seq<bv8>): Option<(nat, nat, nat)>
    requires ValidFont(f)
  {
    var text :- Decode(f, bytes);
    ParseEach(text)
  }

  /** The buffers of the three reports of these counters. */
  predicate ReportsOf(f: Font, money: seq<bv8>, each: seq<bv8>, count: seq<bv8>, a: nat, b: nat, c: nat)
    requires ValidFont(f)
  {
    && money == Image(f, Text(Money, a, b, c))
    && each == Image(f, Text(Each, a, b, c))
    && count == Image(f, Text(Count, a, b, c))
  }

  /**
    Three buffers are the reports of counters (a, b, c) exactly when the each-coin report
    reads as (a, b, c), the money report as 500a + 100b + 50c and the count report as
    a + b + c.
   */
  lemma ReportsAgree(f: Font, money: seq<bv8>, each: seq<bv8>, count: seq<bv8>, a: nat, b: nat, c: nat)
    requires ValidFont(f)
    ensures ReportsOf(f, money, each, count, a, b, c)
       <==> (ShownEach(f, each) == Some((a, b, c)) && ShownMoney(f, money) == Some(Total(a, b, c))
             && ShownCount(f, count) == Some(a + b + c))
  {
    ShownRoundTrip(f, a, b, c);
    if ShownMoney(f, money) == Some(Total(a, b, c)) {
      DecodeSound(f, money);
      MoneySound(Decode(f, money).value, a, b, c);
    }
    if ShownEach(f, each) == Some((a, b, c)) {
      DecodeSound(f, each);
      EachSound(Decode(f, each).value, a, b, c);
    }
    if ShownCount(f, count) == Some(a + b + c) {
      DecodeSound(f, count);
      CountSound(Decode(f, count).value, a, b, c);
    }
  }

  /** Each buffer reads back as what it reports. */
  lemma ShownRoundTrip(f: Font, a: nat, b: nat, c: nat)
    requires ValidFont(f)
    ensures ShownMoney(f, Image(f, Text(Money, a, b, c))) == Some(Total(a, b, c))
    ensures ShownEach(f, Image(f, Text(Each, a, b, c))) == Some((a, b, c))
    ensures ShownCount(f, Image(f, Text(Count, a, b, c))) == Some(a + b + c)
  {
    DecodeImage(f, Text(Money, a, b, c));
    DecodeImage(f, Text(Each, a, b, c));
    DecodeImage(f, Text(Count, a, b, c));
    MoneyRoundTrip(a, b, c);
    EachRoundTrip(a, b, c);
    CountRoundTrip(a, b, c);
  }

  /** A buffer, read as a report of this kind, tells these counters. */
  predicate Tells(f: Font, kind: Kind, bytes: seq<bv8>, a: nat, b: nat, c: nat)
    requires ValidFont(f)
  {
    match kind
    case Money => ShownMoney(f, bytes) == Some(Total(a, b, c))
    case Each => ShownEach(f, bytes) == Some((a, b, c))
    case Count => ShownCount(f, bytes) == Some(a + b + c)
  }

  lemma ImageTells(f: Font, kind: Kind, a: nat, b: nat, c: nat)
    requires ValidFont(f)
    ensures Tells(f, kind, Image(f, Text(kind, a, b, c)), a, b, c)
  {
    ShownRoundTrip(f, a, b, c);
  }

  lemma MoneyTold(f: Font, bytes: seq<bv8>, a: nat, b: nat, c: nat, won: nat)
    requires ValidFont(f) && Tells(f, Money, bytes, a, b, c) && Total(a, b, c) == won
    ensures ShownMoney(f, bytes) == Some(won)
  {
  }
}
