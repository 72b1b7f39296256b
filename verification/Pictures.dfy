/** Pictures of eight lines of eight pixels, drawn as text, and the bytes that hold them. */
module Pictures {
  import opened Gpio

  /** A line of eight pixels, '#' for a lit one. */
  type Line = s: string | |s| == 8 witness "........"

  type Picture = p: seq<Line> | |p| == 8 witness seq(8, i => "........")

  predicate Inked(p: Picture, y: nat, x: nat)
    requires y < 8 && x < 8
  {
    p[y][x] == '#'
  }

  function Bit(pixel: char, b: bv8): bv8 {
    if pixel == '#' then b else 0
  }

  /** A line as a byte, its first pixel the highest bit. */
  function ByteOf(line: Line): bv8 {
    Bit(line[0], 0x80) | Bit(line[1], 0x40) | Bit(line[2], 0x20) | Bit(line[3], 0x10)
    | Bit(line[4], 8) | Bit(line[5], 4) | Bit(line[6], 2) | Bit(line[7], 1)
  }

  lemma BitOfLine(line: Line, x: nat)
    requires x < 8
    ensures HasBit(ByteOf(line), 7 - x) <==> line[x] == '#'
  {
    assert x == 0 || x == 1 || x == 2 || x == 3 || x == 4 || x == 5 || x == 6 || x == 7;
  }

  lemma BitOfInverse(b: bv8, c: nat)
    requires c < 8
    ensures HasBit(!b, c) <==> !HasBit(b, c)
  {
    assert c == 0 || c == 1 || c == 2 || c == 3 || c == 4 || c == 5 || c == 6 || c == 7;
  }

  /** Column `x`, from top to bottom. */
  function Column(p: Picture, x: nat): Line
    requires x < 8
  {
    [p[0][x], p[1][x], p[2][x], p[3][x], p[4][x], p[5][x], p[6][x], p[7][x]]
  }

  /** Eight bytes hold the picture line by line, a lit pixel as a one. */
  predicate HoldsLines(bytes: seq<bv8>, p: Picture) {
    && |bytes| == 8
    && bytes[0] == ByteOf(p[0]) && bytes[1] == ByteOf(p[1]) && bytes[2] == ByteOf(p[2]) && bytes[3] == ByteOf(p[3])
    && bytes[4] == ByteOf(p[4]) && bytes[5] == ByteOf(p[5]) && bytes[6] == ByteOf(p[6]) && bytes[7] == ByteOf(p[7])
  }

  function ColumnByte(p: Picture, x: nat): bv8
    requires x < 8
  {
    !ByteOf(Column(p, x))
  }

  /** Eight bytes hold the picture column by column, a lit pixel as a zero. */
  predicate HoldsColumns(bytes: seq<bv8>, p: Picture) {
    && |bytes| == 8
    && bytes[0] == ColumnByte(p, 0) && bytes[1] == ColumnByte(p, 1)
    && bytes[2] == ColumnByte(p, 2) && bytes[3] == ColumnByte(p, 3)
    && bytes[4] == ColumnByte(p, 4) && bytes[5] == ColumnByte(p, 5)
    && bytes[6] == ColumnByte(p, 6) && bytes[7] == ColumnByte(p, 7)
  }

  lemma PixelByLines(bytes: seq<bv8>, p: Picture, y: nat, x: nat)
    requires HoldsLines(bytes, p) && y < 8 && x < 8
    ensures HasBit(bytes[y], 7 - x) <==> Inked(p, y, x)
  {
    BitOfLine(p[y], x);
    assert y == 0 || y == 1 || y == 2 || y == 3 || y == 4 || y == 5 || y == 6 || y == 7;
  }

  lemma ColumnAt(p: Picture, x: nat, y: nat)
    requires y < 8 && x < 8
    ensures Column(p, x)[y] == p[y][x]
  {
    assert y == 0 || y == 1 || y == 2 || y == 3 || y == 4 || y == 5 || y == 6 || y == 7;
  }

  lemma HeldColumn(bytes: seq<bv8>, p: Picture, x: nat)
    requires HoldsColumns(bytes, p) && x < 8
    ensures bytes[x] == ColumnByte(p, x)
  {
    assert x == 0 || x == 1 || x == 2 || x == 3 || x == 4 || x == 5 || x == 6 || x == 7;
  }

  lemma PixelByColumns(bytes: seq<bv8>, p: Picture, y: nat, x: nat)
    requires HoldsColumns(bytes, p) && y < 8 && x < 8
    ensures HasBit(bytes[x], 7 - y) <==> !Inked(p, y, x)
  {
    HeldColumn(bytes, p, x);
    ColumnAt(p, x, y);
    BitOfLine(Column(p, x), y);
    BitOfInverse(ByteOf(Column(p, x)), 7 - y);
  }
}
