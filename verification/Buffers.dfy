/** The copy loops that fill a display buffer with eight-byte cells. */
module Buffers {
  import opened Cells

  /** Copies eight bytes to positions m..m+8. */
  method PutCell(buf: array<Byte>, m: nat, cell: seq<Byte>) returns (end: nat)
    requires |cell| == 8 && m + 8 <= buf.Length
    modifies buf
    ensures end == m + 8
    ensures buf[..end] == old(buf[..m]) + cell
  {
    end := m;
    var i := 0;
    while i < 8
      invariant 0 <= i <= 8 && end == m + i
      invariant buf[..m] == old(buf[..m])
      invariant buf[m..end] == cell[..i]
    {
      buf[end] := cell[i];
      end := end + 1;
      i := i + 1;
    }
    assert buf[..end] == buf[..m] + buf[m..end];
  }

  lemma OneMoreCell(start: seq<Byte>, cells: seq<seq<Byte>>, k: nat)
    requires EightEach(cells) && k < |cells|
    ensures start + Flatten(cells[..k + 1]) == (start + Flatten(cells[..k])) + cells[k]
  {
    assert cells[..k + 1] == cells[..k] + [cells[k]];
    FlattenSnoc(cells[..k], cells[k]);
  }

  /** Copies cells one after the other. */
  method PutCells(buf: array<Byte>, m: nat, cells: seq<seq<Byte>>) returns (end: nat)
    requires EightEach(cells) && m + 8 * |cells| <= buf.Length
    modifies buf
    ensures end == m + 8 * |cells|
    ensures buf[..end] == old(buf[..m]) + Flatten(cells)
  {
    end := m;
    ghost var start := buf[..m];
    var k := 0;
    while k < |cells|
      invariant 0 <= k <= |cells| && end == m + 8 * k
      invariant buf[..end] == start + Flatten(cells[..k])
    {
      OneMoreCell(start, cells, k);
      end := PutCell(buf, end, cells[k]);
      k := k + 1;
    }
    assert cells[..k] == cells;
  }

  predicate Indexes(digits: seq<nat>, n: nat) {
    forall i | 0 <= i < |digits| :: digits[i] < n
  }

  /** The cells that reversed digits select from a table. */
  function Selected(table: seq<seq<Byte>>, reversed: seq<nat>): (cells: seq<seq<Byte>>)
    requires EightEach(table) && Indexes(reversed, |table|)
    ensures |cells| == |reversed| && EightEach(cells)
    ensures forall i | 0 <= i < |cells| :: cells[i] == table[reversed[|reversed| - 1 - i]]
  {
    seq(|reversed|, i requires 0 <= i < |reversed| => table[reversed[|reversed| - 1 - i]])
  }

  /** Copies the table cells of an array of digits, last digit first. */
  method PutReversed(buf: array<Byte>, m: nat, arr: array<nat>, table: seq<seq<Byte>>) returns (end: nat)
    requires EightEach(table) && Indexes(arr[..], |table|)
    requires m + 8 * arr.Length <= buf.Length && arr as object != buf as object
    modifies buf
    ensures end == m + 8 * arr.Length
    ensures buf[..end] == old(buf[..m]) + Flatten(Selected(table, arr[..]))
  {
    end := m;
    ghost var start, digits := buf[..m], arr[..];
    ghost var cells := Selected(table, digits);
    var n := arr.Length - 1;
    while n >= 0
      invariant -1 <= n < |digits| && end == m + 8 * (|digits| - 1 - n)
      invariant forall i | 0 <= i < |digits| :: arr[i] == digits[i]
      invariant buf[..end] == start + Flatten(cells[..|digits| - 1 - n])
    {
      var k := arr[n];
      OneMoreCell(start, cells, |digits| - 1 - n);
      end := PutCell(buf, end, table[k]);
      n := n - 1;
    }
    assert cells[..|digits|] == cells;
    assert arr[..] == digits;
  }
}
