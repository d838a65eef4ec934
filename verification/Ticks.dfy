/** The TWSE and TAIFEX tick tables, and how snapping fits them. */
module Ticks {
  import opened Wrappers
  import opened Prices
  import opened Grid

  /** A minimum price fluctuation and the number of decimals its prices are declared with. */
  datatype Tick = Tick(size: int, precision: nat)

  function TwseStockTickSize(reference: Float): Tick {
    if reference.Below(10 * ONE) then Tick(ONE / 100, 2)
    else if reference.Below(50 * ONE) then Tick(ONE / 20, 2)
    else if reference.Below(100 * ONE) then Tick(ONE / 10, 2)
    else if reference.Below(500 * ONE) then Tick(ONE / 2, 2)
    else if reference.Below(1000 * ONE) then Tick(ONE, 1)
    else Tick(5 * ONE, 1)
  }

  function TwseEtfTickSize(reference: Float): Tick {
    if reference.Below(50 * ONE) then Tick(ONE / 100, 2) else Tick(ONE / 20, 2)
  }

  function IndexFuturesTickSize(root: string): Option<Tick> {
    if root in ["TXF", "MXF", "T5F", "XIF"] then Some(Tick(ONE, 0))
    else if root == "ZEF" then Some(Tick(ONE / 20, 2))
    else if root == "ZFF" then Some(Tick(ONE / 5, 1))
    else None
  }

  function OptionsTickSize(reference: Float): Tick {
    if reference.Below(10 * ONE) then Tick(ONE / 10, 1) else Tick(ONE, 0)
  }

  /** What the contract tables look at. The single-stock futures table is the TWSE stock table. */
  datatype Contract =
    | Stock(category: string, reference: Float)
    | Futures(underlyingKind: string, root: string, reference: Float)
    | OptionContract(reference: Float)

  function TickForContract(c: Contract): Tick {
    match c
    case Stock(category, reference) =>
      if category == "00" then TwseEtfTickSize(reference) else TwseStockTickSize(reference)
    case Futures(kind, root, reference) =>
      if kind == "I" then IndexFuturesTickSize(root).GetOr(Tick(ONE, 0))
      else if kind == "S" then TwseStockTickSize(reference)
      else if kind == "E" then TwseEtfTickSize(reference)
      else Tick(ONE, 0)
    case OptionContract(reference) => OptionsTickSize(reference)
  }

  /** A hundredth of a currency unit, `n` times. */
  function Cents(n: int): int {
    n * (ONE / 100)
  }

  /** Common stocks, by reference price: ten, fifty, one hundred, five hundred and one thousand part the tiers. */
  lemma StockTicks(category: string, price: int)
    requires category != "00"
    ensures var t := TickForContract(Stock(category, Finite(price)));
            && (price < Cents(1000) ==> t == Tick(Cents(1), 2))
            && (Cents(1000) <= price < Cents(5000) ==> t == Tick(Cents(5), 2))
            && (Cents(5000) <= price < Cents(10000) ==> t == Tick(Cents(10), 2))
            && (Cents(10000) <= price < Cents(50000) ==> t == Tick(Cents(50), 2))
            && (Cents(50000) <= price < Cents(100000) ==> t == Tick(Cents(100), 1))
            && (Cents(100000) <= price ==> t == Tick(Cents(500), 1))
  {
  }

  /** Beneficiary certificates change their tick at fifty, options at ten. */
  lemma EtfAndOptionTicks(price: int)
    ensures var t := TickForContract(Stock("00", Finite(price)));
            t == if price < Cents(5000) then Tick(Cents(1), 2) else Tick(Cents(5), 2)
    ensures var t := TickForContract(OptionContract(Finite(price)));
            t == if price < Cents(1000) then Tick(Cents(10), 1) else Tick(Cents(100), 0)
  {
  }

  /** Futures on stocks and on certificates tick as these do; index futures by their root; all others by one. */
  lemma FuturesTicks(kind: string, root: string, category: string, reference: Float)
    ensures category != "00" ==>
      TickForContract(Futures("S", root, reference)) == TickForContract(Stock(category, reference))
    ensures TickForContract(Futures("E", root, reference)) == TickForContract(Stock("00", reference))
    ensures TickForContract(Futures("I", root, reference)) ==
      if root == "ZEF" then Tick(Cents(5), 2) else if root == "ZFF" then Tick(Cents(20), 1) else Tick(Cents(100), 0)
    ensures kind !in {"S", "E", "I"} ==> TickForContract(Futures(kind, root, reference)) == Tick(Cents(100), 0)
    ensures IndexFuturesTickSize(root).Some? <==> root in {"TXF", "MXF", "T5F", "XIF", "ZEF", "ZFF"}
  {
  }

  /** The smallest price step that `precision` decimals can write. */
  function UnitOf(precision: nat): (unit: int)
    requires precision <= 2
  {
    if precision == 0 then ONE else if precision == 1 then ONE / 10 else ONE / 100
  }

  lemma TicksDivideUpwards(fine: int, coarse: int)
    requires fine in {ONE / 100, ONE / 20, ONE / 10, ONE / 2, ONE, 5 * ONE} && fine <= coarse
    requires coarse in {ONE / 100, ONE / 20, ONE / 10, ONE / 2, ONE, 5 * ONE}
    ensures OnGrid(coarse, fine)
  {
    var k := if fine == coarse then 1
      else if fine == ONE / 100 then (if coarse == ONE / 20 then 5 else if coarse == ONE / 10 then 10
        else if coarse == ONE / 2 then 50 else if coarse == ONE then 100 else 500)
      else if fine == ONE / 20 then (if coarse == ONE / 10 then 2 else if coarse == ONE / 2 then 10
        else if coarse == ONE then 20 else 100)
      else if fine == ONE / 10 then (if coarse == ONE / 2 then 5 else if coarse == ONE then 10 else 50)
      else if fine == ONE / 2 then (if coarse == ONE then 2 else 10)
      else 5;
    assert coarse == k * fine;
  }

  /** Every tick the tables can select is a whole number of units at its declared precision,
      so a snapped price can be written with that precision exactly. */
  lemma SnappedPriceIsRepresentable(c: Contract, price: int)
    ensures var t := TickForContract(c);
            && t.size > 0 && t.precision <= 2
            && OnGrid(t.size, UnitOf(t.precision))
            && OnGrid(SnapPriceToGrid(price, t.size), UnitOf(t.precision))
  {
    var t := TickForContract(c);
    var unit := UnitOf(t.precision);
    if t.size == ONE / 5 {
      assert t.size == 2 * unit;
    } else {
      TicksDivideUpwards(unit, t.size);
    }
    assert SnapPriceToGrid(price, t.size) == RoundHalfEven(price, t.size) * t.size;
    GridsNest(SnapPriceToGrid(price, t.size), t.size, unit);
  }

  /** The price-tiered tables. */
  datatype Schedule = StockSchedule | EtfSchedule | OptionsSchedule

  function TickOf(s: Schedule, price: int): (size: int)
    ensures size > 0
  {
    match s
    case StockSchedule => TwseStockTickSize(Finite(price)).size
    case EtfSchedule => TwseEtfTickSize(Finite(price)).size
    case OptionsSchedule => OptionsTickSize(Finite(price)).size
  }

  /** The prices at which a table changes its tick. */
  function Boundaries(s: Schedule): set<int> {
    match s
    case StockSchedule => {10 * ONE, 50 * ONE, 100 * ONE, 500 * ONE, 1000 * ONE}
    case EtfSchedule => {50 * ONE}
    case OptionsSchedule => {10 * ONE}
  }

  lemma BoundaryIsOnEveryGrid(s: Schedule, boundary: int, price: int)
    requires boundary in Boundaries(s)
    ensures OnGrid(boundary, TickOf(s, price))
  {
    var tick := TickOf(s, price);
    FiveIsOnEveryGrid(s, price);
    assert boundary == (boundary / (5 * ONE)) * (5 * ONE);
    GridsNest(boundary, 5 * ONE, tick);
  }

  lemma FiveIsOnEveryGrid(s: Schedule, price: int)
    ensures OnGrid(5 * ONE, TickOf(s, price))
  {
    assert 5 * ONE == 500 * (ONE / 100) == 100 * (ONE / 20) == 50 * (ONE / 10);
    assert 5 * ONE == 10 * (ONE / 2) == 1 * (5 * ONE);
  }

  /** Ticks divide each other upwards, so a price on a coarse grid is fixed by every finer tick. */
  lemma FinerTickFixesCoarserGrid(s: Schedule, low: int, high: int, price: int)
    requires TickOf(s, low) <= TickOf(s, high)
    requires OnGrid(price, TickOf(s, high))
    ensures OnGrid(TickOf(s, high), TickOf(s, low))
    ensures SnapPriceToGrid(price, TickOf(s, low)) == price
  {
    TicksDivideUpwards(TickOf(s, low), TickOf(s, high));
    GridsNest(price, TickOf(s, high), TickOf(s, low));
    SnapFixesTheGrid(price, TickOf(s, low));
  }

  /** Snapping with the tick of the price's own tier never crosses a tier boundary,
      and lands on the grid of the tier it lands in. */
  lemma SnapStaysInTier(s: Schedule, price: int)
    ensures var snapped := SnapPriceToGrid(price, TickOf(s, price));
            && (forall b :: b in Boundaries(s) ==> (price <= b ==> snapped <= b) && (b <= price ==> b <= snapped))
            && OnGrid(snapped, TickOf(s, snapped))
  {
    var tick := TickOf(s, price);
    var snapped := SnapPriceToGrid(price, tick);
    forall b | b in Boundaries(s)
      ensures (price <= b ==> snapped <= b) && (b <= price ==> b <= snapped)
    {
      BoundaryIsOnEveryGrid(s, b, price);
      SnapFixesTheGrid(b, tick);
      if price <= b {
        SnapIsMonotone(price, b, tick);
      } else {
        SnapIsMonotone(b, price, tick);
      }
    }
    if TickOf(s, snapped) == tick {
      assert snapped == RoundHalfEven(price, tick) * tick;
    } else {
      assert snapped in Boundaries(s);
      BoundaryIsOnEveryGrid(s, snapped, snapped);
    }
  }

  /** The lowest price of the tier of `price`, for every tier but the first. */
  function TierFloor(s: Schedule, price: int): (floor: int)
    requires exists b :: b in Boundaries(s) && b <= price
    ensures floor in Boundaries(s) && floor <= price && TickOf(s, floor) == TickOf(s, price)
  {
    match s
    case StockSchedule =>
      if price < 50 * ONE then 10 * ONE
      else if price < 100 * ONE then 50 * ONE
      else if price < 500 * ONE then 100 * ONE
      else if price < 1000 * ONE then 500 * ONE
      else 1000 * ONE
    case EtfSchedule => 50 * ONE
    case OptionsSchedule => 10 * ONE
  }

  /** Every price that the reference tick snaps into the tier of `target` is legal there. */
  ghost predicate ReferenceTickSuffices(s: Schedule, reference: int, target: int) {
    forall price :: var snapped := SnapPriceToGrid(price, TickOf(s, reference));
      TickOf(s, snapped) == TickOf(s, target) ==> OnGrid(snapped, TickOf(s, target))
  }

  /** An instrument keeps the tick of its reference price for the whole day. Snapping with it is
      enough exactly for the tiers whose tick is no coarser: a price that has moved into a coarser
      tier can be snapped and still be off the venue's grid. */
  lemma ReferenceTickExactly(s: Schedule, reference: int, target: int)
    ensures ReferenceTickSuffices(s, reference, target) <==> TickOf(s, target) <= TickOf(s, reference)
  {
    var tick, wanted := TickOf(s, reference), TickOf(s, target);
    if wanted <= tick {
      forall price | TickOf(s, SnapPriceToGrid(price, tick)) == wanted
        ensures OnGrid(SnapPriceToGrid(price, tick), wanted)
      {
        var snapped := SnapPriceToGrid(price, tick);
        assert snapped == RoundHalfEven(price, tick) * tick;
        FinerTickFixesCoarserGrid(s, target, reference, snapped);
        GridsNest(snapped, tick, wanted);
      }
    } else {
      CoarserTierIsMissed(s, reference, target);
    }
  }

  lemma CoarserTierIsMissed(s: Schedule, reference: int, target: int)
    requires TickOf(s, reference) < TickOf(s, target)
    ensures !ReferenceTickSuffices(s, reference, target)
  {
    var tick, wanted := TickOf(s, reference), TickOf(s, target);
    var lowest := if s == EtfSchedule then 50 * ONE else 10 * ONE;
    assert lowest in Boundaries(s) && lowest <= target;
    var floor := TierFloor(s, target);
    var price := floor + tick;
    BoundaryIsOnEveryGrid(s, floor, reference);
    BoundaryIsOnEveryGrid(s, floor, target);
    var i :| floor == i * tick;
    assert price == (i + 1) * tick;
    SnapFixesTheGrid(price, tick);
    NextFinePriceIsOffGrid(floor, tick, wanted);
    assert TickOf(s, price) == wanted;
  }

  lemma NextFinePriceIsOffGrid(price: int, fine: int, coarse: int)
    requires 0 < fine < coarse && OnGrid(price, coarse)
    ensures !OnGrid(price + fine, coarse)
  {
    var j :| price == j * coarse;
    forall k
      ensures price + fine != k * coarse
    {
      if k < j {
        StepsApart(k, j, coarse);
      } else if j < k {
        StepsApart(j, k, coarse);
      }
    }
  }

  /** A NaN reference fails every comparison and so takes the last tier, not the first;
      a negative one takes the first. */
  lemma NaNReferenceTakesTheLastTier(reference: Float)
    ensures TwseStockTickSize(reference).size <= TwseStockTickSize(NaN).size
    ensures reference.Below(0) ==> TwseStockTickSize(reference).size < TwseStockTickSize(NaN).size
  {
  }
}
