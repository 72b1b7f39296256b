/**
  Decimal digits: the loop that measures a number, the loop that takes it apart, and
  the canonical decimal form they agree on.
 */
module Digits {
  const INT_MAX := 0x7FFF_FFFF

  /** The decimal digits of a number, most significant first; 0 has one digit. */
  function Decimal(n: nat): (ds: seq<nat>)
    ensures |ds| >= 1
  {
    if n < 10 then [n] else Decimal(n / 10) + [n % 10]
  }

  function Value(ds: seq<nat>): nat {
    if ds == [] then 0 else 10 * Value(ds[..|ds| - 1]) + ds[|ds| - 1]
  }

  predicate AllDigits(ds: seq<nat>) {
    forall d | d in ds :: d < 10
  }

  /** Digits without a leading zero, except for the number 0 itself. */
  predicate Canonical(ds: seq<nat>) {
    |ds| >= 1 && AllDigits(ds) && (|ds| > 1 ==> ds[0] != 0)
  }

  function Pow10(k: nat): nat {
    if k == 0 then 1 else 10 * Pow10(k - 1)
  }

  /** The decimal form is canonical and means the number. */
  lemma {:induction false} DecimalMeans(n: nat)
    ensures Canonical(Decimal(n)) && Value(Decimal(n)) == n
    ensures n > 0 ==> Decimal(n)[0] != 0
  {
    if n < 10 {
      assert [n][..0] == [];
    } else {
      DecimalMeans(n / 10);
      assert (Decimal(n / 10) + [n % 10])[..|Decimal(n / 10)|] == Decimal(n / 10);
    }
  }

  /** It is the only canonical form of that number. */
  lemma {:induction false} DecimalUnique(ds: seq<nat>)
    requires Canonical(ds)
    ensures Decimal(Value(ds)) == ds
    decreases |ds|
  {
    var init, last := ds[..|ds| - 1], ds[|ds| - 1];
    assert last in ds && ds == init + [last];
    if |ds| == 1 {
      assert Value(init) == 0;
      assert Value(ds) == last;
    } else {
      assert init[0] == ds[0];
      forall d | d in init
        ensures d < 10
      {
        assert d in ds;
      }
      DecimalUnique(init);
      LeadingDigit(init);
      assert Value(ds) == 10 * Value(init) + last;
      assert Value(ds) / 10 == Value(init) && Value(ds) % 10 == last;
    }
  }

  lemma {:induction false} LeadingDigit(ds: seq<nat>)
    requires |ds| >= 1 && ds[0] != 0
    ensures Value(ds) > 0
  {
    if |ds| > 1 {
      assert ds[..|ds| - 1][0] == ds[0];
      LeadingDigit(ds[..|ds| - 1]);
    }
  }

  /** A number has at most `k` digits exactly when it is below 10^k. */
  lemma {:induction false} DecimalLength(n: nat, k: nat)
    requires k >= 1
    ensures |Decimal(n)| <= k <==> n < Pow10(k)
    decreases k
  {
    if k == 1 {
      assert Pow10(1) == 10 * Pow10(0) == 10;
    } else if n >= 10 {
      DecimalLength(n / 10, k - 1);
    } else {
      PowAtLeast(k);
    }
  }

  lemma {:induction false} PowAtLeast(k: nat)
    requires k >= 1
    ensures Pow10(k) >= 10
  {
    if k > 1 {
      PowAtLeast(k - 1);
    }
  }

  /** Every C int needs at most ten digits. */
  lemma IntNeedsTenDigits(n: nat)
    requires n <= INT_MAX
    ensures |Decimal(n)| <= 10
  {
    DecimalLength(n, 10);
    assert Pow10(5) == 100000;
    assert Pow10(10) == 10_000_000_000;
  }

  /** The money total stays within an int for all counters up to `bound` exactly when `bound` is at most 3303820. */
  lemma MoneyFits(bound: nat)
    ensures (forall a: nat, b: nat, c: nat | a <= bound && b <= bound && c <= bound ::
               500 * a + 100 * b + 50 * c <= INT_MAX)
       <==> bound <= 3303820
  {
    if bound > 3303820 {
      assert 500 * bound + 100 * bound + 50 * bound > INT_MAX;
    }
  }

  // ----- The loops -----

  /** How many times a number can be divided by ten: the allocation size. */
  method CountDigits(number: nat) returns (size: nat)
    ensures size == |Decimal(number)|
  {
    var len := number;
    size := 0;
    while true
      invariant size + |Decimal(len)| == |Decimal(number)|
      decreases len
    {
      var before := len;
      len := len / 10;
      size := size + 1;
      if !(len > 0) {
        assert before < 10;
        break;
      }
    }
  }

  /** Digit `k` of the reversed form. */
  predicate HoldsReversed(a: seq<nat>, number: nat) {
    && |Decimal(number)| <= |a|
    && forall k | 0 <= k < |Decimal(number)| :: a[k] == Decimal(number)[|Decimal(number)| - 1 - k]
  }

  /** Stores the digits least significant first and returns how many there are. */
  method FillDigits(number: nat, a: array<nat>) returns (n: nat)
    requires |Decimal(number)| <= a.Length
    modifies a
    ensures n == |Decimal(number)| && HoldsReversed(a[..], number)
  {
    var rest := number;
    n := 0;
    while true
      invariant 0 <= n && n + |Decimal(rest)| == |Decimal(number)|
      invariant Decimal(rest) == Decimal(number)[..|Decimal(number)| - n]
      invariant forall k | 0 <= k < n :: a[k] == Decimal(number)[|Decimal(number)| - 1 - k]
      decreases rest
    {
      var digit := rest % 10;
      var b := rest / 10;
      assert digit == Decimal(rest)[|Decimal(rest)| - 1];
      if b != 0 {
        assert Decimal(b) == Decimal(rest)[..|Decimal(rest)| - 1];
      }
      rest := b;
      a[n] := digit;
      n := n + 1;
      if !(b != 0) {
        break;
      }
    }
  }
}
