/** Snapping a price onto the venue's tick grid, ties to even. */
module Grid {

  /** `Decimal.quantize(1, ROUND_HALF_EVEN)` of the exact quotient `n / d`. */
  function RoundHalfEven(n: int, d: int): (m: int)
    requires d > 0
  {
    var below := n / d;
    var rest := n % d;
    if 2 * rest < d || (2 * rest == d && below % 2 == 0) then below else below + 1
  }

  function SnapPriceToGrid(price: int, increment: int): (snapped: int)
    requires increment > 0
  {
    RoundHalfEven(price, increment) * increment
  }

  function Distance(a: int, b: int): (d: int)
    ensures d >= 0
  {
    if a < b then b - a else a - b
  }

  ghost predicate OnGrid(price: int, increment: int) {
    exists k :: price == k * increment
  }

  /** `m` is a nearest integer to `n / d`, and the even one when two are equally near. */
  ghost predicate IsHalfEven(n: int, d: int, m: int) {
    && 2 * Distance(n, m * d) <= d
    && (2 * Distance(n, m * d) == d ==> m % 2 == 0)
  }

  lemma {:induction false} AtLeast(k: nat, m: nat, d: nat)
    requires m <= k
    ensures m * d <= k * d
    decreases k - m
  {
    if m < k {
      AtLeast(k - 1, m, d);
      assert k * d == (k - 1) * d + d;
    }
  }

  lemma StepsApart(lo: int, hi: int, d: int)
    requires d > 0 && lo < hi
    ensures lo * d + d <= hi * d
    ensures hi > lo + 1 ==> lo * d + 2 * d <= hi * d
  {
    assert hi * d == lo * d + (hi - lo) * d;
    AtLeast(hi - lo, 1, d);
    if hi > lo + 1 {
      AtLeast(hi - lo, 2, d);
    }
  }

  lemma RoundIsHalfEven(n: int, d: int)
    requires d > 0
    ensures IsHalfEven(n, d, RoundHalfEven(n, d))
  {
    var q := n / d;
    assert n == q * d + n % d;
    assert (q + 1) * d == q * d + d;
  }

  lemma HalfEvenIsUnique(n: int, d: int, m: int)
    requires d > 0 && IsHalfEven(n, d, m)
    ensures m == RoundHalfEven(n, d)
  {
    var r := RoundHalfEven(n, d);
    RoundIsHalfEven(n, d);
    if m < r {
      NoSecondHalfEven(n, d, m, r);
    } else if r < m {
      NoSecondHalfEven(n, d, r, m);
    }
  }

  lemma NoSecondHalfEven(n: int, d: int, lo: int, hi: int)
    requires d > 0 && lo < hi && IsHalfEven(n, d, lo)
    ensures !IsHalfEven(n, d, hi)
  {
    StepsApart(lo, hi, d);
  }

  /** The snapped price is on the grid, no grid price is nearer, and a tie goes to the even multiple. */
  lemma SnapIsNearestMultiple(price: int, increment: int, other: int)
    requires increment > 0 && OnGrid(other, increment)
    ensures var s := SnapPriceToGrid(price, increment);
            && OnGrid(s, increment)
            && Distance(price, s) <= Distance(price, other)
            && 2 * Distance(price, s) <= increment
            && (other != s && Distance(price, s) == Distance(price, other) ==> OnGrid(s, 2 * increment))
  {
    var m := RoundHalfEven(price, increment);
    var k :| other == k * increment;
    RoundIsHalfEven(price, increment);
    if k < m {
      StepsApart(k, m, increment);
    } else if m < k {
      StepsApart(m, k, increment);
    }
    if m % 2 == 0 {
      EvenMultiple(m, increment);
    }
  }

  lemma EvenMultiple(m: int, d: int)
    requires m % 2 == 0
    ensures OnGrid(m * d, 2 * d)
  {
    assert m * d == (m / 2) * (2 * d);
  }

  /** Exactly the on-grid prices do not move. */
  lemma SnapFixesTheGrid(price: int, increment: int)
    requires increment > 0
    ensures SnapPriceToGrid(price, increment) == price <==> OnGrid(price, increment)
  {
    if k :| price == k * increment {
      assert IsHalfEven(price, increment, k);
      HalfEvenIsUnique(price, increment, k);
    }
    if SnapPriceToGrid(price, increment) == price {
      assert price == RoundHalfEven(price, increment) * increment;
    }
  }

  lemma SnapIsIdempotent(price: int, increment: int)
    requires increment > 0
    ensures var s := SnapPriceToGrid(price, increment); SnapPriceToGrid(s, increment) == s
  {
    var s := SnapPriceToGrid(price, increment);
    assert s == RoundHalfEven(price, increment) * increment;
    SnapFixesTheGrid(s, increment);
  }

  lemma SnapIsMonotone(p1: int, p2: int, increment: int)
    requires increment > 0 && p1 <= p2
    ensures SnapPriceToGrid(p1, increment) <= SnapPriceToGrid(p2, increment)
  {
    var m1, m2 := RoundHalfEven(p1, increment), RoundHalfEven(p2, increment);
    RoundIsHalfEven(p1, increment);
    RoundIsHalfEven(p2, increment);
    if p1 < p2 && m2 < m1 {
      StepsApart(m2, m1, increment);
    } else if m1 < m2 {
      StepsApart(m1, m2, increment);
    }
  }

  /** Rounding has no bias between the two signs. */
  lemma SnapIsOdd(price: int, increment: int)
    requires increment > 0
    ensures SnapPriceToGrid(-price, increment) == -SnapPriceToGrid(price, increment)
  {
    var m := RoundHalfEven(price, increment);
    RoundIsHalfEven(price, increment);
    HalfEvenIsOdd(price, increment, m);
    HalfEvenIsUnique(-price, increment, -m);
    NegatedMultiple(m, increment);
  }

  lemma NegatedMultiple(m: int, d: int)
    ensures (-m) * d == -(m * d)
  {
  }

  lemma HalfEvenIsOdd(n: int, d: int, m: int)
    requires IsHalfEven(n, d, m)
    ensures IsHalfEven(-n, d, -m)
  {
    NegatedMultiple(m, d);
    assert Distance(-n, (-m) * d) == Distance(n, m * d);
  }

  /** A coarse grid lies inside every grid whose tick divides its own. */
  lemma GridsNest(price: int, coarse: int, fine: int)
    requires OnGrid(price, coarse) && OnGrid(coarse, fine)
    ensures OnGrid(price, fine)
  {
    var k :| price == k * coarse;
    var j :| coarse == j * fine;
    assert price == (k * j) * fine;
  }
}
