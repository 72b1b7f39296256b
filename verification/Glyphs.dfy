/**
  Glyphs, texts of glyphs as display bytes in a given font, and reading a text back
  from its bytes.
 */
module Glyphs {
  import opened Cells

  datatype Glyph = Digit(d: nat) | T | C | Colon | W | Blank

  /** Fifteen rows: the digits 0..9, then t, c, colon, W and blank. */
  type Font = seq<seq<bv8>>

  /** What the reports need of a font: eight bytes a glyph, all glyphs distinct. */
  predicate ValidFont(f: Font) {
    && |f| == 15
    && EightEach(f)
    && forall i, j | 0 <= i < j < 15 :: f[i] != f[j]
  }

  predicate Proper(g: Glyph) {
    g.Digit? ==> g.d < 10
  }

  predicate ProperText(text: seq<Glyph>) {
    forall g | g in text :: Proper(g)
  }

  function RowOf(g: Glyph): (i: nat)
    requires Proper(g)
    ensures i < 15
  {
    match g
    case Digit(d) => d
    case T => 10
    case C => 11
    case Colon => 12
    case W => 13
    case Blank => 14
  }

  function Code(f: Font, g: Glyph): (bytes: seq<bv8>)
    requires ValidFont(f) && Proper(g)
    ensures |bytes| == 8
  {
    f[RowOf(g)]
  }

  lemma CodesDistinct(f: Font, g: Glyph, h: Glyph)
    requires ValidFont(f) && Proper(g) && Proper(h) && Code(f, g) == Code(f, h)
    ensures g == h
  {
  }

  function Codes(f: Font, text: seq<Glyph>): (cells: seq<seq<bv8>>)
    requires ValidFont(f) && ProperText(text)
    ensures |cells| == |text| && EightEach(cells)
    ensures forall i | 0 <= i < |text| :: cells[i] == Code(f, text[i])
  {
    seq(|text|, i requires 0 <= i < |text| => Code(f, text[i]))
  }

  /** The bytes of a text, eight to a glyph. */
  function Image(f: Font, text: seq<Glyph>): (bytes: seq<bv8>)
    requires ValidFont(f) && ProperText(text)
    ensures |bytes| == 8 * |text|
  {
    Flatten(Codes(f, text))
  }

  lemma ImageConcat(f: Font, a: seq<Glyph>, b: seq<Glyph>)
    requires ValidFont(f) && ProperText(a) && ProperText(b)
    ensures ProperText(a + b) && Image(f, a + b) == Image(f, a) + Image(f, b)
  {
    assert Codes(f, a + b) == Codes(f, a) + Codes(f, b);
    FlattenConcat(Codes(f, a), Codes(f, b));
  }

  lemma ImageOne(f: Font, g: Glyph)
    requires ValidFont(f) && Proper(g)
    ensures Image(f, [g]) == Code(f, g)
  {
    assert Codes(f, [g])[..0] == [];
  }

  predicate IsCode(f: Font, bytes: seq<bv8>)
    requires ValidFont(f)
  {
    bytes in f
  }

  /** The glyph with these eight bytes. */
  function DecodeGlyph(f: Font, bytes: seq<bv8>): (g: Glyph)
    requires ValidFont(f) && IsCode(f, bytes)
    ensures Proper(g) && Code(f, g) == bytes
  {
    var i := Find(f, bytes, 0);
    if i < 10 then Digit(i)
    else if i == 10 then T else if i == 11 then C else if i == 12 then Colon else if i == 13 then W else Blank
  }

  function Find(f: Font, bytes: seq<bv8>, i: nat): (k: nat)
    requires i <= |f| && bytes in f[i..]
    ensures i <= k < |f| && f[k] == bytes
    decreases |f| - i
  {
    if f[i] == bytes then i else Find(f, bytes, i + 1)
  }

  /** Reads a buffer as a text, if every eight bytes are a glyph. */
  function Decode(f: Font, bytes: seq<bv8>): Option<seq<Glyph>>
    requires ValidFont(f)
  {
    var cells := Split(bytes, |bytes| / 8);
    if |bytes| % 8 == 0 && forall i | 0 <= i < |cells| :: IsCode(f, cells[i]) then
      Some(seq(|cells|, i requires 0 <= i < |cells| => DecodeGlyph(f, cells[i])))
    else None
  }

  /** The bytes of a text read back as that text. */
  lemma DecodeImage(f: Font, text: seq<Glyph>)
    requires ValidFont(f) && ProperText(text)
    ensures Decode(f, Image(f, text)) == Some(text)
  {
    var cells := Codes(f, text);
    SplitFlatten(cells);
    assert |Image(f, text)| / 8 == |text|;
    forall i | 0 <= i < |text|
      ensures IsCode(f, cells[i]) && DecodeGlyph(f, cells[i]) == text[i]
    {
      CodesDistinct(f, text[i], DecodeGlyph(f, cells[i]));
    }
    assert Decode(f, Image(f, text)).value == text;
  }

  /** Only the bytes of a text read as that text. */
  lemma DecodeSound(f: Font, bytes: seq<bv8>)
    requires ValidFont(f) && Decode(f, bytes).Some?
    ensures ProperText(Decode(f, bytes).value) && Image(f, Decode(f, bytes).value) == bytes
  {
    var text, cells := Decode(f, bytes).value, Split(bytes, |bytes| / 8);
    assert Codes(f, text) == cells;
    FlattenSplit(bytes, |cells|);
  }
}
