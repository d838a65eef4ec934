/** The three translations of one BidAsk snapshot: a top-of-book quote, a ten-level depth
    and a CLEAR + ADD delta batch. */
module Book {
  import opened Wrappers
  import opened Prices

  const DEPTH10_LEN := 10
  const F_LAST: bv8 := 0x80
  const F_SNAPSHOT: bv8 := 0x20

  datatype Side = Buy | Sell
  datatype BookOrder = NullOrder | BookOrder(side: Side, price: int, size: int)

  /** A gateway snapshot: four parallel arrays. Prices may be any float, volumes any integer. */
  datatype BidAsk = BidAsk(
    code: string, timestamp: string,
    bidPrice: seq<Float>, bidVolume: seq<int>, askPrice: seq<Float>, askVolume: seq<int>)

  /** What the domain library contributes at an instrument's precisions: the checked constructors
      (`try_price`, `try_qty`), and the flags its CLEAR delta starts with. */
  datatype Library = Library(price: Float -> Option<int>, qty: int -> Option<int>, clearFlags: bv8)

  datatype Quote = Quote(bidPrice: int, askPrice: int, bidSize: int, askSize: int)
  datatype Depth10 = Depth10(bids: seq<BookOrder>, asks: seq<BookOrder>,
                             bidCounts: seq<nat>, askCounts: seq<nat>, flags: bv8)
  datatype Action = Clear | Add
  datatype Delta = Delta(action: Action, order: BookOrder, flags: bv8)

  datatype Level = Level(price: Float, volume: int)

  // ---------------------------------------------------------------- the book a snapshot describes

  function Min(a: nat, b: nat): nat { if a < b then a else b }

  /** The positive-volume levels among the first `n` of two zipped arrays, in order. */
  function LiveUpTo(prices: seq<Float>, volumes: seq<int>, n: nat): (levels: seq<Level>)
    requires n <= |prices| && n <= |volumes|
    ensures |levels| <= n
    ensures forall i :: 0 <= i < |levels| ==> levels[i].volume > 0
  {
    if n == 0 then []
    else
      var before := LiveUpTo(prices, volumes, n - 1);
      if volumes[n - 1] > 0 then before + [Level(prices[n - 1], volumes[n - 1])] else before
  }

  function Live(prices: seq<Float>, volumes: seq<int>): seq<Level> {
    LiveUpTo(prices, volumes, Min(|prices|, |volumes|))
  }

  predicate Converts(lib: Library, level: Level) {
    lib.price(level.price).Some? && lib.qty(level.volume).Some?
  }

  predicate AllConvert(lib: Library, levels: seq<Level>) {
    forall i :: 0 <= i < |levels| ==> Converts(lib, levels[i])
  }

  function ToOrder(lib: Library, side: Side, level: Level): BookOrder
    requires Converts(lib, level)
  {
    BookOrder(side, lib.price(level.price).value, lib.qty(level.volume).value)
  }

  function Orders(lib: Library, side: Side, levels: seq<Level>): (orders: seq<BookOrder>)
    requires AllConvert(lib, levels)
    ensures |orders| == |levels|
  {
    seq(|levels|, i requires 0 <= i < |levels| => ToOrder(lib, side, levels[i]))
  }

  function Top10(levels: seq<Level>): seq<Level> {
    levels[..Min(|levels|, DEPTH10_LEN)]
  }

  predicate HasPrices(msg: BidAsk) {
    msg.bidPrice != [] && msg.askPrice != []
  }

  /** One side of a depth: the orders first, then null slots; a count of one on exactly the orders. */
  ghost predicate IsDepthSide(slots: seq<BookOrder>, counts: seq<nat>, orders: seq<BookOrder>) {
    && |slots| == |counts| == 10 >= |orders|
    && (forall i :: 0 <= i < 10 ==> slots[i] == if i < |orders| then orders[i] else NullOrder)
    && (forall i :: 0 <= i < 10 ==> counts[i] == if i < |orders| then 1 else 0)
  }

  function Adds(orders: seq<BookOrder>): (deltas: seq<Delta>) {
    seq(|orders|, i requires 0 <= i < |orders| => Delta(Add, orders[i], 0))
  }

  // ---------------------------------------------------------------- the translators

  /** The quote reads entry zero of each array; it is refused if either top volume is not positive. */
  function ParseQuote(msg: BidAsk, lib: Library): (q: Option<Quote>) {
    if msg.bidPrice == [] || msg.askPrice == [] || msg.bidVolume == [] || msg.askVolume == [] then None
    else if msg.bidVolume[0] <= 0 || msg.askVolume[0] <= 0 then None
    else
      match (lib.price(msg.bidPrice[0]), lib.price(msg.askPrice[0]),
             lib.qty(msg.bidVolume[0]), lib.qty(msg.askVolume[0]))
      case (Some(bp), Some(ap), Some(bq), Some(aq)) => Some(Quote(bp, ap, bq, aq))
      case _ => None
  }

  /** One of the two loops of the depth translator. It stops at the first level that does not convert,
      but a level past the tenth is skipped unconverted. */
  method FillSide(side: Side, prices: seq<Float>, volumes: seq<int>, lib: Library,
                  slots: array<BookOrder>, counts: array<nat>) returns (ok: bool, filled: nat)
    requires slots.Length == counts.Length == DEPTH10_LEN
    requires forall k :: 0 <= k < DEPTH10_LEN ==> slots[k] == NullOrder && counts[k] == 0
    modifies slots, counts
    ensures ok <==> AllConvert(lib, Top10(Live(prices, volumes)))
    ensures ok ==>
      var top := Top10(Live(prices, volumes));
      && filled == |top|
      && slots[..] == DepthSlots(Orders(lib, side, top)) && counts[..] == DepthCounts(|top|)
  {
    filled := 0;
    var n := Min(|prices|, |volumes|);
    ghost var tens, ones := slots[..], counts[..];
    for i := 0 to n
      invariant slots[..] == tens && counts[..] == ones
      invariant Holding(lib, side, prices, volumes, i, tens, ones, filled)
    {
      HoldsOneMore(lib, side, prices, volumes, i, tens, ones, filled);
      if volumes[i] <= 0 || filled >= DEPTH10_LEN {
        continue;
      }
      var price, qty := lib.price(prices[i]), lib.qty(volumes[i]);
      if price == None || qty == None {
        return false, filled;
      }
      slots[filled] := BookOrder(side, price.value, qty.value);
      counts[filled] := 1;
      tens, ones := tens[filled := BookOrder(side, price.value, qty.value)], ones[filled := 1];
      filled := filled + 1;
    }
    ok := true;
  }

  /** Slots and counts hold the first ten live levels among the first `i`. */
  ghost predicate Holding(lib: Library, side: Side, prices: seq<Float>, volumes: seq<int>, i: nat,
                          slots: seq<BookOrder>, counts: seq<nat>, filled: nat)
    requires i <= |prices| && i <= |volumes|
  {
    var top := Top10(LiveUpTo(prices, volumes, i));
    && filled == |top| && AllConvert(lib, top)
    && slots == DepthSlots(Orders(lib, side, top)) && counts == DepthCounts(|top|)
  }

  lemma HoldsOneMore(lib: Library, side: Side, prices: seq<Float>, volumes: seq<int>, i: nat,
                     slots: seq<BookOrder>, counts: seq<nat>, filled: nat)
    requires i < |prices| && i < |volumes| && Holding(lib, side, prices, volumes, i, slots, counts, filled)
    ensures var level := Level(prices[i], volumes[i]);
            if volumes[i] <= 0 || filled >= DEPTH10_LEN then
              Holding(lib, side, prices, volumes, i + 1, slots, counts, filled)
            else if !Converts(lib, level) then
              !AllConvert(lib, Top10(Live(prices, volumes)))
            else
              Holding(lib, side, prices, volumes, i + 1,
                      slots[filled := ToOrder(lib, side, level)], counts[filled := 1], filled + 1)
  {
    TopGrows(prices, volumes, i);
    var level := Level(prices[i], volumes[i]);
    if volumes[i] > 0 && filled < DEPTH10_LEN {
      if Converts(lib, level) {
        SlotsGrow(lib, side, Top10(LiveUpTo(prices, volumes, i)), level);
      } else {
        TopFails(prices, volumes, i, lib);
      }
    }
  }

  lemma SlotsGrow(lib: Library, side: Side, top: seq<Level>, level: Level)
    requires AllConvert(lib, top) && Converts(lib, level) && |top| < DEPTH10_LEN
    ensures DepthSlots(Orders(lib, side, top + [level]))
         == DepthSlots(Orders(lib, side, top))[|top| := ToOrder(lib, side, level)]
    ensures DepthCounts(|top + [level]|) == DepthCounts(|top|)[|top| := 1]
  {
    assert Orders(lib, side, top + [level]) == Orders(lib, side, top) + [ToOrder(lib, side, level)];
  }

  /** A level among the first ten live ones that does not convert spoils the depth. */
  lemma TopFails(prices: seq<Float>, volumes: seq<int>, i: nat, lib: Library)
    requires i < |prices| && i < |volumes| && volumes[i] > 0 && |LiveUpTo(prices, volumes, i)| < DEPTH10_LEN
    requires !Converts(lib, Level(prices[i], volumes[i]))
    ensures !AllConvert(lib, Top10(Live(prices, volumes)))
  {
    var k := |LiveUpTo(prices, volumes, i)|;
    LevelsPersist(prices, volumes, i + 1, Min(|prices|, |volumes|));
    assert LiveUpTo(prices, volumes, i + 1)[k] == Level(prices[i], volumes[i]);
    assert Top10(Live(prices, volumes))[k] == Level(prices[i], volumes[i]);
  }

  lemma TopGrows(prices: seq<Float>, volumes: seq<int>, i: nat)
    requires i < |prices| && i < |volumes|
    ensures var top := Top10(LiveUpTo(prices, volumes, i));
            Top10(LiveUpTo(prices, volumes, i + 1)) ==
              if volumes[i] <= 0 || |top| >= DEPTH10_LEN then top else top + [Level(prices[i], volumes[i])]
  {
  }

  method ParseDepth10(msg: BidAsk, lib: Library) returns (r: Option<Depth10>)
    ensures r == Depth(msg, lib)
  {
    if msg.bidPrice == [] || msg.askPrice == [] {
      return None;
    }
    var bids, bidCounts := new BookOrder[DEPTH10_LEN](_ => NullOrder), new nat[DEPTH10_LEN](_ => 0);
    var asks, askCounts := new BookOrder[DEPTH10_LEN](_ => NullOrder), new nat[DEPTH10_LEN](_ => 0);
    var bidsOk, bidIdx := FillSide(Buy, msg.bidPrice, msg.bidVolume, lib, bids, bidCounts);
    if !bidsOk {
      return None;
    }
    var asksOk, askIdx := FillSide(Sell, msg.askPrice, msg.askVolume, lib, asks, askCounts);
    if !asksOk || (bidIdx == 0 && askIdx == 0) {
      return None;
    }
    r := Some(Depth10(bids[..], asks[..], bidCounts[..], askCounts[..], F_LAST | F_SNAPSHOT));
  }

  /** One of the two loops of the delta translator. */
  method PushAdds(side: Side, prices: seq<Float>, volumes: seq<int>, lib: Library, before: seq<Delta>)
    returns (ok: bool, deltas: seq<Delta>)
    ensures ok <==> AllConvert(lib, Live(prices, volumes))
    ensures ok ==> deltas == before + Adds(Orders(lib, side, Live(prices, volumes)))
  {
    deltas := before;
    var n := Min(|prices|, |volumes|);
    ghost var live: seq<Level> := [];
    for i := 0 to n
      invariant live == LiveUpTo(prices, volumes, i) && AllConvert(lib, live)
      invariant deltas == before + Adds(Orders(lib, side, live))
    {
      if volumes[i] <= 0 {
        continue;
      }
      var price, qty := lib.price(prices[i]), lib.qty(volumes[i]);
      ghost var level := Level(prices[i], volumes[i]);
      if price == None || qty == None {
        LevelsPersist(prices, volumes, i + 1, n);
        assert Live(prices, volumes)[|live|] == level;
        return false, deltas;
      }
      AddsGrow(lib, side, live, level);
      deltas, live := deltas + [Delta(Add, BookOrder(side, price.value, qty.value), 0)], live + [level];
    }
    ok := true;
  }

  lemma AddsGrow(lib: Library, side: Side, levels: seq<Level>, level: Level)
    requires AllConvert(lib, levels) && Converts(lib, level)
    ensures AllConvert(lib, levels + [level])
    ensures Adds(Orders(lib, side, levels + [level]))
         == Adds(Orders(lib, side, levels)) + [Delta(Add, ToOrder(lib, side, level), 0)]
  {
  }

  method ParseDeltas(msg: BidAsk, lib: Library) returns (r: Option<seq<Delta>>)
    ensures r == Deltas(msg, lib)
  {
    if msg.bidPrice == [] || msg.askPrice == [] {
      return None;
    }
    var deltas := [Delta(Clear, NullOrder, lib.clearFlags)];
    var ok;
    ok, deltas := PushAdds(Buy, msg.bidPrice, msg.bidVolume, lib, deltas);
    if !ok {
      return None;
    }
    ok, deltas := PushAdds(Sell, msg.askPrice, msg.askVolume, lib, deltas);
    if !ok {
      return None;
    }
    var last := |deltas| - 1;
    r := Some(deltas[last := deltas[last].(flags := deltas[last].flags | F_LAST)]);
  }

  lemma {:induction false} LevelsPersist(prices: seq<Float>, volumes: seq<int>, i: nat, n: nat)
    requires i <= n <= |prices| && n <= |volumes|
    ensures LiveUpTo(prices, volumes, i) <= LiveUpTo(prices, volumes, n)
  {
    if i < n {
      LevelsPersist(prices, volumes, i, n - 1);
    }
  }

  // ---------------------------------------------------------------- what the two loops compute

  function DepthSlots(orders: seq<BookOrder>): (slots: seq<BookOrder>)
    requires |orders| <= DEPTH10_LEN
  {
    orders + seq(DEPTH10_LEN - |orders|, _ => NullOrder)
  }

  function DepthCounts(n: nat): (counts: seq<nat>)
    requires n <= DEPTH10_LEN
  {
    seq(DEPTH10_LEN, i => if i < n then 1 else 0)
  }

  function Depth(msg: BidAsk, lib: Library): (r: Option<Depth10>) {
    var bids, asks := Top10(Live(msg.bidPrice, msg.bidVolume)), Top10(Live(msg.askPrice, msg.askVolume));
    if HasPrices(msg) && AllConvert(lib, bids) && AllConvert(lib, asks) && (bids != [] || asks != []) then
      Some(Depth10(DepthSlots(Orders(lib, Buy, bids)), DepthSlots(Orders(lib, Sell, asks)),
                   DepthCounts(|bids|), DepthCounts(|asks|), F_LAST | F_SNAPSHOT))
    else None
  }

  function Deltas(msg: BidAsk, lib: Library): (r: Option<seq<Delta>>) {
    var bids, asks := Live(msg.bidPrice, msg.bidVolume), Live(msg.askPrice, msg.askVolume);
    if HasPrices(msg) && AllConvert(lib, bids) && AllConvert(lib, asks) then
      var deltas := [Delta(Clear, NullOrder, lib.clearFlags)]
                    + Adds(Orders(lib, Buy, bids)) + Adds(Orders(lib, Sell, asks));
      var last := |deltas| - 1;
      Some(deltas[last := deltas[last].(flags := deltas[last].flags | F_LAST)])
    else None
  }

  // ---------------------------------------------------------------- the arrays themselves

  /** How many of the first `n` volumes are positive. */
  function PositiveBefore(volumes: seq<int>, n: nat): (count: nat)
    requires n <= |volumes|
  {
    if n == 0 then 0 else PositiveBefore(volumes, n - 1) + if volumes[n - 1] > 0 then 1 else 0
  }

  /** The zipped entry `i` has volume, and its numbers make a price and a quantity. */
  predicate FitsAt(lib: Library, prices: seq<Float>, volumes: seq<int>, i: nat)
    requires i < |prices| && i < |volumes|
  {
    volumes[i] > 0 && lib.price(prices[i]).Some? && lib.qty(volumes[i]).Some?
  }

  lemma {:induction false} LiveCount(prices: seq<Float>, volumes: seq<int>, n: nat)
    requires n <= |prices| && n <= |volumes|
    ensures |LiveUpTo(prices, volumes, n)| == PositiveBefore(volumes, n)
    decreases n
  {
    if n > 0 {
      LiveCount(prices, volumes, n - 1);
    }
  }

  /** An entry with volume is a live level, at the place that the entries with volume before it leave. */
  lemma LiveAt(prices: seq<Float>, volumes: seq<int>, i: nat, n: nat)
    requires i < n <= |prices| && n <= |volumes| && volumes[i] > 0
    ensures PositiveBefore(volumes, i) < |LiveUpTo(prices, volumes, n)|
    ensures LiveUpTo(prices, volumes, n)[PositiveBefore(volumes, i)] == Level(prices[i], volumes[i])
  {
    LiveCount(prices, volumes, i);
    LevelsPersist(prices, volumes, i + 1, n);
    assert LiveUpTo(prices, volumes, i + 1)[PositiveBefore(volumes, i)] == Level(prices[i], volumes[i]);
  }

  /** And every live level is such an entry. */
  lemma {:induction false} EntryOf(prices: seq<Float>, volumes: seq<int>, n: nat, k: nat) returns (i: nat)
    requires n <= |prices| && n <= |volumes| && k < |LiveUpTo(prices, volumes, n)|
    ensures i < n && volumes[i] > 0 && PositiveBefore(volumes, i) == k
    ensures LiveUpTo(prices, volumes, n)[k] == Level(prices[i], volumes[i])
    decreases n
  {
    if k < |LiveUpTo(prices, volumes, n - 1)| {
      i := EntryOf(prices, volumes, n - 1, k);
    } else {
      i := n - 1;
      LiveCount(prices, volumes, i);
    }
  }

  lemma LiveConvertsExactly(lib: Library, prices: seq<Float>, volumes: seq<int>, n: nat)
    requires n <= |prices| && n <= |volumes|
    ensures AllConvert(lib, LiveUpTo(prices, volumes, n)) <==>
      forall i :: 0 <= i < n && volumes[i] > 0 ==> FitsAt(lib, prices, volumes, i)
  {
    var live := LiveUpTo(prices, volumes, n);
    if AllConvert(lib, live) {
      forall i | 0 <= i < n && volumes[i] > 0
        ensures FitsAt(lib, prices, volumes, i)
      {
        LiveAt(prices, volumes, i, n);
        assert Converts(lib, live[PositiveBefore(volumes, i)]);
      }
    }
    if forall i :: 0 <= i < n && volumes[i] > 0 ==> FitsAt(lib, prices, volumes, i) {
      forall k | 0 <= k < |live|
        ensures Converts(lib, live[k])
      {
        var i := EntryOf(prices, volumes, n, k);
      }
    }
  }

  lemma TopConvertsExactly(lib: Library, prices: seq<Float>, volumes: seq<int>, n: nat)
    requires n <= |prices| && n <= |volumes|
    ensures AllConvert(lib, Top10(LiveUpTo(prices, volumes, n))) <==>
      forall i :: 0 <= i < n && volumes[i] > 0 && PositiveBefore(volumes, i) < 10 ==> FitsAt(lib, prices, volumes, i)
  {
    var live := LiveUpTo(prices, volumes, n);
    var top := Top10(live);
    if AllConvert(lib, top) {
      forall i | 0 <= i < n && volumes[i] > 0 && PositiveBefore(volumes, i) < 10
        ensures FitsAt(lib, prices, volumes, i)
      {
        LiveAt(prices, volumes, i, n);
        assert top[PositiveBefore(volumes, i)] == live[PositiveBefore(volumes, i)];
      }
    }
    if forall i :: 0 <= i < n && volumes[i] > 0 && PositiveBefore(volumes, i) < 10 ==> FitsAt(lib, prices, volumes, i) {
      forall k | 0 <= k < |top|
        ensures Converts(lib, top[k])
      {
        var i := EntryOf(prices, volumes, n, k);
      }
    }
  }

  /** A delta batch exists exactly when both price arrays have entries and every zipped entry with volume fits;
      no side needs to have any. */
  lemma DeltasSucceedExactly(msg: BidAsk, lib: Library)
    ensures var b, a := Min(|msg.bidPrice|, |msg.bidVolume|), Min(|msg.askPrice|, |msg.askVolume|);
            Deltas(msg, lib).Some? <==>
              && msg.bidPrice != [] && msg.askPrice != []
              && (forall i :: 0 <= i < b && msg.bidVolume[i] > 0 ==> FitsAt(lib, msg.bidPrice, msg.bidVolume, i))
              && (forall i :: 0 <= i < a && msg.askVolume[i] > 0 ==> FitsAt(lib, msg.askPrice, msg.askVolume, i))
  {
    LiveConvertsExactly(lib, msg.bidPrice, msg.bidVolume, Min(|msg.bidPrice|, |msg.bidVolume|));
    LiveConvertsExactly(lib, msg.askPrice, msg.askVolume, Min(|msg.askPrice|, |msg.askVolume|));
  }

  /** A depth exists exactly when both price arrays have entries, the first ten entries with volume of each side fit,
      and some entry of either side has volume. Its flags are F_LAST and F_SNAPSHOT. */
  lemma DepthSucceedsExactly(msg: BidAsk, lib: Library)
    ensures var b, a := Min(|msg.bidPrice|, |msg.bidVolume|), Min(|msg.askPrice|, |msg.askVolume|);
            Depth(msg, lib).Some? <==>
              && msg.bidPrice != [] && msg.askPrice != []
              && (forall i :: 0 <= i < b && msg.bidVolume[i] > 0 && PositiveBefore(msg.bidVolume, i) < 10 ==>
                    FitsAt(lib, msg.bidPrice, msg.bidVolume, i))
              && (forall i :: 0 <= i < a && msg.askVolume[i] > 0 && PositiveBefore(msg.askVolume, i) < 10 ==>
                    FitsAt(lib, msg.askPrice, msg.askVolume, i))
              && ((exists i :: 0 <= i < b && msg.bidVolume[i] > 0) || (exists i :: 0 <= i < a && msg.askVolume[i] > 0))
    ensures Depth(msg, lib).Some? ==> Depth(msg, lib).value.flags == 0xA0
  {
    var b, a := Min(|msg.bidPrice|, |msg.bidVolume|), Min(|msg.askPrice|, |msg.askVolume|);
    TopConvertsExactly(lib, msg.bidPrice, msg.bidVolume, b);
    TopConvertsExactly(lib, msg.askPrice, msg.askVolume, a);
    LiveExistsExactly(msg.bidPrice, msg.bidVolume, b);
    LiveExistsExactly(msg.askPrice, msg.askVolume, a);
  }

  lemma {:induction false} LiveExistsExactly(prices: seq<Float>, volumes: seq<int>, n: nat)
    requires n <= |prices| && n <= |volumes|
    ensures LiveUpTo(prices, volumes, n) != [] <==> exists i :: 0 <= i < n && volumes[i] > 0
    decreases n
  {
    if n > 0 {
      LiveExistsExactly(prices, volumes, n - 1);
    }
  }

  /** A quote exists exactly when both sides have a first entry that fits, whatever comes after it, and reports it. */
  lemma QuoteSucceedsExactly(msg: BidAsk, lib: Library)
    ensures ParseQuote(msg, lib).Some? <==>
      && msg.bidPrice != [] && msg.bidVolume != [] && FitsAt(lib, msg.bidPrice, msg.bidVolume, 0)
      && msg.askPrice != [] && msg.askVolume != [] && FitsAt(lib, msg.askPrice, msg.askVolume, 0)
    ensures ParseQuote(msg, lib).Some? ==>
      var q := ParseQuote(msg, lib).value;
      && lib.price(msg.bidPrice[0]) == Some(q.bidPrice) && lib.qty(msg.bidVolume[0]) == Some(q.bidSize)
      && lib.price(msg.askPrice[0]) == Some(q.askPrice) && lib.qty(msg.askVolume[0]) == Some(q.askSize)
  {
  }

  // ---------------------------------------------------------------- consumers of the deltas

  /** A consumer's level lists. */
  datatype Levels = Levels(bids: seq<BookOrder>, asks: seq<BookOrder>)

  function Apply(book: Levels, d: Delta): Levels {
    match d.action
    case Clear => Levels([], [])
    case Add =>
      if d.order.BookOrder? && d.order.side == Buy then book.(bids := book.bids + [d.order])
      else book.(asks := book.asks + [d.order])
  }

  function Replay(book: Levels, deltas: seq<Delta>): Levels {
    if deltas == [] then book else Apply(Replay(book, deltas[..|deltas| - 1]), deltas[|deltas| - 1])
  }

  lemma {:induction false} ReplayIgnoresFlags(book: Levels, d1: seq<Delta>, d2: seq<Delta>)
    requires |d1| == |d2|
    requires forall i :: 0 <= i < |d1| ==> d1[i].action == d2[i].action && d1[i].order == d2[i].order
    ensures Replay(book, d1) == Replay(book, d2)
  {
    if d1 != [] {
      ReplayIgnoresFlags(book, d1[..|d1| - 1], d2[..|d2| - 1]);
    }
  }

  lemma {:induction false} ReplayAdds(book: Levels, before: seq<Delta>, side: Side, orders: seq<BookOrder>)
    requires forall i :: 0 <= i < |orders| ==> orders[i].BookOrder? && orders[i].side == side
    ensures var start := Replay(book, before);
            Replay(book, before + Adds(orders)) ==
              if side == Buy then start.(bids := start.bids + orders) else start.(asks := start.asks + orders)
    decreases |orders|
  {
    if orders == [] {
      assert before + Adds(orders) == before;
    } else {
      var k := |orders| - 1;
      var deltas := before + Adds(orders);
      ReplayAdds(book, before, side, orders[..k]);
      assert deltas[..|deltas| - 1] == before + Adds(orders[..k]);
      assert orders[..k] + [orders[k]] == orders;
    }
  }

  /** Replaying the deltas on any earlier book leaves exactly the snapshot's positive-volume levels, in order. */
  lemma ReplayRebuildsTheBook(prior: Levels, msg: BidAsk, lib: Library)
    requires Deltas(msg, lib).Some?
    ensures Replay(prior, Deltas(msg, lib).value) ==
      Levels(Orders(lib, Buy, Live(msg.bidPrice, msg.bidVolume)), Orders(lib, Sell, Live(msg.askPrice, msg.askVolume)))
  {
    var bids := Orders(lib, Buy, Live(msg.bidPrice, msg.bidVolume));
    var asks := Orders(lib, Sell, Live(msg.askPrice, msg.askVolume));
    var clear := [Delta(Clear, NullOrder, lib.clearFlags)];
    ReplayIgnoresFlags(prior, Deltas(msg, lib).value, clear + Adds(bids) + Adds(asks));
    ReplayAdds(prior, clear + Adds(bids), Sell, asks);
    ReplayAdds(prior, clear, Buy, bids);
    assert Replay(prior, clear) == Levels([], []);
  }

  lemma LastFlag(flags: bv8)
    ensures (flags | F_LAST) & 0x80 != 0 && (flags | F_LAST) & 0x7F == flags & 0x7F
    ensures (0 as bv8) & 0x80 == 0 && (0 as bv8) & 0x7F == 0
  {
  }

  /** Exactly one delta carries F_LAST, bit 7, beyond what the library set, and it is the last one. */
  lemma OnlyTheLastDeltaIsLast(msg: BidAsk, lib: Library, i: nat)
    requires lib.clearFlags & 0x80 == 0
    requires Deltas(msg, lib).Some? && i < |Deltas(msg, lib).value|
    ensures var deltas := Deltas(msg, lib).value;
            && (deltas[i].flags & 0x80 != 0 <==> i == |deltas| - 1)
            && (deltas[i].action == Clear <==> i == 0)
            && deltas[i].flags & 0x7F == if i == 0 then lib.clearFlags & 0x7F else 0
  {
    DeltaAt(msg, lib, i);
    var flags := if i == 0 then lib.clearFlags else 0;
    LastFlag(flags);
  }

  lemma DeltaAt(msg: BidAsk, lib: Library, i: nat)
    requires Deltas(msg, lib).Some? && i < |Deltas(msg, lib).value|
    ensures var deltas := Deltas(msg, lib).value;
            var flags := if i == 0 then lib.clearFlags else 0;
            && deltas[i].flags == (if i == |deltas| - 1 then flags | F_LAST else flags)
            && (deltas[i].action == Clear <==> i == 0)
  {
  }

  /** Agreement with the delta batch: whenever it parses and any level is live, the depth parses too and
      shows the first ten replayed orders of each side; a depth that parses from at most ten live levels
      a side is matched by a delta batch. */
  lemma DepthAgreesWithDeltas(prior: Levels, msg: BidAsk, lib: Library)
    ensures Deltas(msg, lib).Some? ==>
      var book := Replay(prior, Deltas(msg, lib).value);
      && (Depth(msg, lib).Some? <==> book.bids != [] || book.asks != [])
      && (Depth(msg, lib).Some? ==>
            var d := Depth(msg, lib).value;
            && IsDepthSide(d.bids, d.bidCounts, book.bids[..Min(|book.bids|, DEPTH10_LEN)])
            && IsDepthSide(d.asks, d.askCounts, book.asks[..Min(|book.asks|, DEPTH10_LEN)]))
    ensures (&& Depth(msg, lib).Some?
             && |Live(msg.bidPrice, msg.bidVolume)| <= DEPTH10_LEN
             && |Live(msg.askPrice, msg.askVolume)| <= DEPTH10_LEN) ==> Deltas(msg, lib).Some?
  {
    var bids, asks := Live(msg.bidPrice, msg.bidVolume), Live(msg.askPrice, msg.askVolume);
    if Deltas(msg, lib).Some? {
      ReplayRebuildsTheBook(prior, msg, lib);
      assert Orders(lib, Buy, Top10(bids)) == Orders(lib, Buy, bids)[..Min(|bids|, DEPTH10_LEN)];
      assert Orders(lib, Sell, Top10(asks)) == Orders(lib, Sell, asks)[..Min(|asks|, DEPTH10_LEN)];
    }
  }

  /** Any quote is the first level of both sides of the book, and it exists exactly when both array heads
      are positive and convertible. */
  lemma QuoteIsTopOfBook(prior: Levels, msg: BidAsk, lib: Library)
    ensures ParseQuote(msg, lib).Some? ==>
      var q := ParseQuote(msg, lib).value;
      var bids, asks := Live(msg.bidPrice, msg.bidVolume), Live(msg.askPrice, msg.askVolume);
      && bids != [] && asks != [] && Converts(lib, bids[0]) && Converts(lib, asks[0])
      && BookOrder(Buy, q.bidPrice, q.bidSize) == ToOrder(lib, Buy, bids[0])
      && BookOrder(Sell, q.askPrice, q.askSize) == ToOrder(lib, Sell, asks[0])
    ensures ParseQuote(msg, lib).Some? && Deltas(msg, lib).Some? ==>
      var q := ParseQuote(msg, lib).value;
      var book := Replay(prior, Deltas(msg, lib).value);
      && book.bids != [] && book.bids[0] == BookOrder(Buy, q.bidPrice, q.bidSize)
      && book.asks != [] && book.asks[0] == BookOrder(Sell, q.askPrice, q.askSize)
    ensures Deltas(msg, lib).Some? ==>
      (ParseQuote(msg, lib).Some? <==>
        msg.bidVolume != [] && msg.askVolume != [] && msg.bidVolume[0] > 0 && msg.askVolume[0] > 0)
  {
    if msg.bidPrice != [] && msg.bidVolume != [] {
      LevelsPersist(msg.bidPrice, msg.bidVolume, 1, Min(|msg.bidPrice|, |msg.bidVolume|));
    }
    if msg.askPrice != [] && msg.askVolume != [] {
      LevelsPersist(msg.askPrice, msg.askVolume, 1, Min(|msg.askPrice|, |msg.askVolume|));
    }
    if Deltas(msg, lib).Some? {
      ReplayRebuildsTheBook(prior, msg, lib);
      if msg.bidVolume != [] && msg.askVolume != [] && msg.bidVolume[0] > 0 && msg.askVolume[0] > 0 {
        assert Live(msg.bidPrice, msg.bidVolume)[0] == Level(msg.bidPrice[0], msg.bidVolume[0]);
        assert Live(msg.askPrice, msg.askVolume)[0] == Level(msg.askPrice[0], msg.askVolume[0]);
      }
    }
  }

  /** Arrays of unequal length are not refused: what lies past the shorter one is ignored. */
  lemma LongerArrayIsTruncated(msg: BidAsk, lib: Library)
    requires msg.bidVolume != [] && msg.askVolume != []
    ensures var b, a := Min(|msg.bidPrice|, |msg.bidVolume|), Min(|msg.askPrice|, |msg.askVolume|);
            var cut := msg.(bidPrice := msg.bidPrice[..b], bidVolume := msg.bidVolume[..b],
                            askPrice := msg.askPrice[..a], askVolume := msg.askVolume[..a]);
            && Depth(msg, lib) == Depth(cut, lib)
            && Deltas(msg, lib) == Deltas(cut, lib)
            && ParseQuote(msg, lib) == ParseQuote(cut, lib)
  {
    var b, a := Min(|msg.bidPrice|, |msg.bidVolume|), Min(|msg.askPrice|, |msg.askVolume|);
    LiveIsTruncated(msg.bidPrice, msg.bidVolume);
    LiveIsTruncated(msg.askPrice, msg.askVolume);
  }

  lemma LiveIsTruncated(prices: seq<Float>, volumes: seq<int>)
    ensures var n := Min(|prices|, |volumes|); Live(prices[..n], volumes[..n]) == Live(prices, volumes)
  {
    var n := Min(|prices|, |volumes|);
    LiveReadsThePrefix(prices, volumes, n, n);
  }

  lemma {:induction false} LiveReadsThePrefix(prices: seq<Float>, volumes: seq<int>, n: nat, m: nat)
    requires n <= m <= |prices| && m <= |volumes|
    ensures LiveUpTo(prices, volumes, n) == LiveUpTo(prices[..m], volumes[..m], n)
    decreases n
  {
    if n > 0 {
      LiveReadsThePrefix(prices, volumes, n - 1, m);
    }
  }
}
