/** Buffers made of cells of eight bytes each. */
module Cells {
  import opened Sequences

  datatype Option<+T> = None | Some(value: T) {
    predicate IsFailure() {
      None?
    }

    function PropagateFailure<U>(): Option<U>
      requires None?
    {
      None
    }

    function Extract(): T
      requires Some?
    {
      value
    }
  }

  type Byte = bv8

  predicate EightEach(cells: seq<seq<Byte>>) {
    forall c | c in cells :: |c| == 8
  }

  function Flatten(cells: seq<seq<Byte>>): (bytes: seq<Byte>)
    requires EightEach(cells)
    ensures |bytes| == 8 * |cells|
  {
    if cells == [] then [] else Flatten(cells[..|cells| - 1]) + cells[|cells| - 1]
  }

  lemma {:induction false} FlattenConcat(a: seq<seq<Byte>>, b: seq<seq<Byte>>)
    requires EightEach(a) && EightEach(b)
    ensures Flatten(a + b) == Flatten(a) + Flatten(b)
    decreases |b|
  {
    if b == [] {
      assert a + b == a;
    } else {
      var init, last := b[..|b| - 1], b[|b| - 1];
      FlattenConcat(a, init);
      assert b == init + [last] && a + b == a + init + [last];
      FlattenSnoc(a + init, last);
      FlattenSnoc(init, last);
      Assoc(Flatten(a), Flatten(init), last);
    }
  }

  /** Cell `i` occupies bytes 8i..8i+8. */
  lemma {:induction false} FlattenAt(cells: seq<seq<Byte>>, i: nat)
    requires EightEach(cells) && i < |cells|
    ensures Flatten(cells)[8 * i..8 * i + 8] == cells[i]
    decreases |cells|
  {
    if i < |cells| - 1 {
      FlattenAt(cells[..|cells| - 1], i);
      assert Flatten(cells)[8 * i..8 * i + 8] == Flatten(cells[..|cells| - 1])[8 * i..8 * i + 8];
    }
  }

  /** The first `n` cells of a buffer. */
  function Split(bytes: seq<Byte>, n: nat): (cells: seq<seq<Byte>>)
    requires 8 * n <= |bytes|
    ensures EightEach(cells) && |cells| == n
    ensures forall i | 0 <= i < n :: cells[i] == bytes[8 * i..8 * i + 8]
  {
    seq(n, i requires 0 <= i < n => bytes[8 * i..8 * i + 8])
  }

  lemma SplitFlatten(cells: seq<seq<Byte>>)
    requires EightEach(cells)
    ensures Split(Flatten(cells), |cells|) == cells
  {
    forall i | 0 <= i < |cells|
      ensures Split(Flatten(cells), |cells|)[i] == cells[i]
    {
      FlattenAt(cells, i);
    }
  }

  lemma FlattenSnoc(cells: seq<seq<Byte>>, c: seq<Byte>)
    requires EightEach(cells) && |c| == 8
    ensures EightEach(cells + [c]) && Flatten(cells + [c]) == Flatten(cells) + c
  {
    assert (cells + [c])[..|cells|] == cells;
  }

  lemma SplitSnoc(bytes: seq<Byte>, n: nat)
    requires 8 * n + 8 <= |bytes|
    ensures Split(bytes, n + 1) == Split(bytes, n) + [bytes[8 * n..8 * n + 8]]
  {
  }

  lemma SliceJoin(s: seq<Byte>, i: nat, j: nat)
    requires i <= j <= |s|
    ensures s[..i] + s[i..j] == s[..j]
  {
  }

  lemma {:induction false} FlattenSplit(bytes: seq<Byte>, n: nat)
    requires 8 * n <= |bytes|
    ensures Flatten(Split(bytes, n)) == bytes[..8 * n]
  {
    if n > 0 {
      var m := n - 1;
      FlattenSplit(bytes, m);
      OneMoreCell(bytes, m);
    }
  }

  lemma OneMoreCell(bytes: seq<Byte>, n: nat)
    requires 8 * n + 8 <= |bytes|
    requires Flatten(Split(bytes, n)) == bytes[..8 * n]
    ensures Flatten(Split(bytes, n + 1)) == bytes[..8 * n + 8]
  {
    SplitSnoc(bytes, n);
    JoinCell(bytes, 8 * n, Split(bytes, n), bytes[8 * n..8 * n + 8]);
  }

  lemma JoinCell(bytes: seq<Byte>, k: nat, cells: seq<seq<Byte>>, cell: seq<Byte>)
    requires k + 8 <= |bytes| && EightEach(cells) && Flatten(cells) == bytes[..k] && cell == bytes[k..k + 8]
    ensures EightEach(cells + [cell]) && Flatten(cells + [cell]) == bytes[..k + 8]
  {
    FlattenSnoc(cells, cell);
    SliceJoin(bytes, k, k + 8);
  }
}
