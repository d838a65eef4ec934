/** Fill conservation: what an order's ledger holds after a run in which deals may be delivered more than once. */
module Conservation {
  import opened Wrappers
  import opened Orders
  import opened Correlation
  import opened Lifecycle
  import opened Attribution
  import Gate

  /** The sum of some weights, such as the quantities of deals. */
  ghost function Sum<T(!new)>(xs: set<T>, weight: T -> int): (total: int) {
    if xs == {} then 0
    else
      var x :| x in xs;
      weight(x) + Sum(xs - {x}, weight)
  }

  lemma {:induction false} SumWithout<T(!new)>(xs: set<T>, weight: T -> int, x: T)
    requires x in xs
    ensures Sum(xs, weight) == weight(x) + Sum(xs - {x}, weight)
    decreases |xs|
  {
    var y :| y in xs && Sum(xs, weight) == weight(y) + Sum(xs - {y}, weight);
    if y != x {
      SumWithout(xs - {y}, weight, x);
      SumWithout(xs - {x}, weight, y);
      assert xs - {y} - {x} == xs - {x} - {y};
    }
  }

  /** With positive weights, fewer weigh less. */
  lemma {:induction false} SumOfSubset<T(!new)>(some: set<T>, all: set<T>, weight: T -> int)
    requires some <= all && forall x :: x in all ==> weight(x) > 0
    ensures Sum(some, weight) <= Sum(all, weight)
    ensures some != all ==> Sum(some, weight) < Sum(all, weight)
    decreases |all|
  {
    if some != all {
      var x :| x in all && x !in some;
      SumWithout(all, weight, x);
      SumOfSubset(some, all - {x}, weight);
    }
  }

  // ---------------------------------------------------------------- deliveries and executions

  /** The venue's tape: which execution a deal message reports, and how much was executed. A message may be delivered
      any number of times, and one execution may be reported by messages that differ. */
  datatype Tape<!E> = Tape(of: Deal -> E, size: E -> int)

  function Quantity(d: Deal): int {
    d.quantity
  }

  function Delivered(deals: seq<Deal>): set<Deal> {
    set d | d in deals
  }

  function Executed<E(==)>(tape: Tape<E>, deals: set<Deal>): set<E> {
    set d | d in deals :: tape.of(d)
  }

  /** Messages report the quantity executed. */
  ghost predicate Truthful<E>(tape: Tape<E>, deals: set<Deal>) {
    forall d :: d in deals ==> d.quantity == tape.size(tape.of(d))
  }

  ghost predicate OneEach<E>(tape: Tape<E>, deals: set<Deal>) {
    forall d1, d2 :: d1 in deals && d2 in deals && tape.of(d1) == tape.of(d2) ==> d1 == d2
  }

  /** Whatever message reports an execution, its key is the same. */
  ghost predicate KeepsKeys<E>(tape: Tape<E>, deals: set<Deal>) {
    forall d1, d2 :: d1 in deals && d2 in deals && tape.of(d1) == tape.of(d2) ==> DealKey(d1) == DealKey(d2)
  }

  /** Different executions have different keys. */
  ghost predicate TellsApart<E>(tape: Tape<E>, deals: set<Deal>) {
    forall d1, d2 :: d1 in deals && d2 in deals && DealKey(d1) == DealKey(d2) ==> tape.of(d1) == tape.of(d2)
  }

  /** Messages add up to at least what they report, and to exactly that when each execution has one message. */
  lemma {:induction false} SumOfExecuted<E(!new)>(tape: Tape<E>, deals: set<Deal>)
    requires Truthful(tape, deals)
    ensures Sum(Executed(tape, deals), tape.size) <= Sum(deals, Quantity)
    ensures Sum(Executed(tape, deals), tape.size) == Sum(deals, Quantity) <==> OneEach(tape, deals)
    decreases |deals|
  {
    if d :| d in deals {
      var rest, e := deals - {d}, tape.of(d);
      SumOfExecuted(tape, rest);
      SumWithout(deals, Quantity, d);
      if e in Executed(tape, rest) {
        assert Executed(tape, deals) == Executed(tape, rest);
      } else {
        assert Executed(tape, deals) - {e} == Executed(tape, rest);
        SumWithout(Executed(tape, deals), tape.size, e);
        assert OneEach(tape, deals) <==> OneEach(tape, rest);
      }
    }
  }

  // ---------------------------------------------------------------- counting each key once

  /** Different messages have different keys. */
  ghost predicate KeysDistinguish(deals: set<Deal>) {
    forall d1, d2 :: d1 in deals && d2 in deals && DealKey(d1) == DealKey(d2) ==> d1 == d2
  }

  ghost predicate HasKeyOf(deals: set<Deal>, d: Deal) {
    exists e :: e in deals && DealKey(e) == DealKey(d)
  }

  /** No deal has a fill id that the ledger knew before. */
  ghost predicate AreNew(known: set<FillId>, deals: set<Deal>) {
    forall d :: d in deals ==> FillIdOf(d) !in known
  }

  ghost function Count(known: set<FillId>, counted: set<Deal>, d: Deal): set<Deal> {
    if FillIdOf(d) in known || HasKeyOf(counted, d) then counted else counted + {d}
  }

  /** The deals that a ledger counts when it counts each new key once. */
  ghost function Counted(known: set<FillId>, deals: seq<Deal>): (counted: set<Deal>) {
    if deals == [] then {} else Count(known, Counted(known, deals[..|deals| - 1]), deals[|deals| - 1])
  }

  lemma {:induction false} CountedIsOnePerKey(known: set<FillId>, deals: seq<Deal>)
    ensures Counted(known, deals) <= Delivered(deals)
    ensures KeysDistinguish(Counted(known, deals)) && AreNew(known, Counted(known, deals))
    ensures forall d :: d in deals && FillIdOf(d) !in known ==> HasKeyOf(Counted(known, deals), d)
    decreases |deals|
  {
    if deals != [] {
      var n := |deals| - 1;
      CountedIsOnePerKey(known, deals[..n]);
      assert deals == deals[..n] + [deals[n]];
    }
  }

  /** Every execution of `all` has exactly one counted message, and nothing else has one. */
  ghost predicate OncePerExecution<E(!new)>(tape: Tape<E>, counted: set<Deal>, all: set<E>) {
    Executed(tape, counted) == all && OneEach(tape, counted)
  }

  ghost predicate OnTrade(t: TradeId, deals: set<Deal>) {
    forall d :: d in deals ==> d.tradeId == t
  }

  lemma SameExecution<E(!new)>(tape: Tape<E>, some: set<Deal>, all: set<Deal>, t: TradeId, d: Deal) returns (e: Deal)
    requires some <= all && KeepsKeys(tape, all) && OnTrade(t, all)
    requires Executed(tape, all) == Executed(tape, some) && d in all
    ensures e in some && tape.of(e) == tape.of(d) && DealKey(e) == DealKey(d) && FillIdOf(e) == FillIdOf(d)
  {
    assert tape.of(d) in Executed(tape, some);
    e :| e in some && tape.of(e) == tape.of(d);
    SameKeySameId(e, d);
  }

  /** Messages that report the same executions with kept keys have the same keys. */
  lemma KeptKeysAgree<E(!new)>(tape: Tape<E>, known: set<FillId>, some: set<Deal>, all: set<Deal>, t: TradeId)
    requires some <= all && KeepsKeys(tape, all) && OnTrade(t, all)
    requires Executed(tape, all) == Executed(tape, some)
    ensures TellsApart(tape, some) <==> TellsApart(tape, all)
    ensures AreNew(known, some) <==> AreNew(known, all)
  {
    if TellsApart(tape, some) {
      forall d1, d2 | d1 in all && d2 in all && DealKey(d1) == DealKey(d2)
        ensures tape.of(d1) == tape.of(d2)
      {
        var e1 := SameExecution(tape, some, all, t, d1);
        var e2 := SameExecution(tape, some, all, t, d2);
      }
    }
    if AreNew(known, some) {
      forall d | d in all
        ensures FillIdOf(d) !in known
      {
        var e := SameExecution(tape, some, all, t, d);
      }
    }
  }

  /** If redeliveries keep their keys, every execution of `all` is counted exactly once, and the count adds up to
      them, exactly when all were delivered under new keys that tell them apart. */
  lemma CountedOnceExactly<E(!new)>(tape: Tape<E>, known: set<FillId>, deals: seq<Deal>, all: set<E>, t: TradeId)
    requires var some := Delivered(deals);
             && Truthful(tape, some) && KeepsKeys(tape, some) && OnTrade(t, some) && Executed(tape, some) <= all
    requires forall e :: e in all ==> tape.size(e) > 0
    ensures var some, counted := Delivered(deals), Counted(known, deals);
            && (OncePerExecution(tape, counted, all) <==>
                  Executed(tape, some) == all && TellsApart(tape, some) && AreNew(known, some))
            && (Sum(counted, Quantity) == Sum(all, tape.size) <==> OncePerExecution(tape, counted, all))
            && Sum(counted, Quantity) == Sum(Executed(tape, counted), tape.size)
  {
    var some, counted := Delivered(deals), Counted(known, deals);
    CountedIsOnePerKey(known, deals);
    SumOfExecuted(tape, counted);
    SumOfSubset(Executed(tape, counted), all, tape.size);
    if Executed(tape, some) == all && TellsApart(tape, some) && AreNew(known, some) {
      NewKeysAreCounted(tape, known, deals);
    }
    if Executed(tape, counted) == all {
      assert Executed(tape, some) == all;
      CountedTellsAll(tape, known, deals, t);
    }
  }

  /** With new keys that tell executions apart, every execution delivered is counted. */
  lemma NewKeysAreCounted<E(!new)>(tape: Tape<E>, known: set<FillId>, deals: seq<Deal>)
    requires TellsApart(tape, Delivered(deals)) && AreNew(known, Delivered(deals))
    ensures Executed(tape, Counted(known, deals)) == Executed(tape, Delivered(deals))
  {
    CountedIsOnePerKey(known, deals);
    forall d | d in deals
      ensures tape.of(d) in Executed(tape, Counted(known, deals))
    {
      assert HasKeyOf(Counted(known, deals), d);
    }
  }

  lemma CountedTellsAll<E(!new)>(tape: Tape<E>, known: set<FillId>, deals: seq<Deal>, t: TradeId)
    requires KeepsKeys(tape, Delivered(deals)) && OnTrade(t, Delivered(deals))
    requires Executed(tape, Delivered(deals)) == Executed(tape, Counted(known, deals))
    ensures TellsApart(tape, Delivered(deals)) && AreNew(known, Delivered(deals))
  {
    CountedIsOnePerKey(known, deals);
    KeptKeysAgree(tape, known, Counted(known, deals), Delivered(deals), t);
  }

  /** If new keys tell executions apart, everything delivered is counted exactly once, and the count adds up to it,
      exactly when redeliveries keep their keys. */
  lemma CountedOnceIfKeysAreKept<E(!new)>(tape: Tape<E>, known: set<FillId>, deals: seq<Deal>)
    requires Truthful(tape, Delivered(deals)) && TellsApart(tape, Delivered(deals)) && AreNew(known, Delivered(deals))
    ensures var all, counted := Executed(tape, Delivered(deals)), Counted(known, deals);
            && (OncePerExecution(tape, counted, all) <==> KeepsKeys(tape, Delivered(deals)))
            && (Sum(counted, Quantity) == Sum(all, tape.size) <==> OncePerExecution(tape, counted, all))
  {
    var some, counted := Delivered(deals), Counted(known, deals);
    CountedIsOnePerKey(known, deals);
    NewKeysAreCounted(tape, known, deals);
    SumOfExecuted(tape, counted);
    if OneEach(tape, counted) {
      forall d1, d2 | d1 in some && d2 in some && tape.of(d1) == tape.of(d2)
        ensures DealKey(d1) == DealKey(d2)
      {
        var e1 :| e1 in counted && DealKey(e1) == DealKey(d1);
        var e2 :| e2 in counted && DealKey(e2) == DealKey(d2);
        assert tape.of(e1) == tape.of(d1) == tape.of(d2) == tape.of(e2);
      }
    }
  }

  lemma SameKeySameId(d1: Deal, d2: Deal)
    requires d1.tradeId == d2.tradeId
    ensures FillIdOf(d1) == FillIdOf(d2) <==> DealKey(d1) == DealKey(d2)
  {
    var p := |d1.tradeId| + 1;
    assert FillIdOf(d1)[p..] == DealKey(d1) && FillIdOf(d2)[p..] == DealKey(d2);
  }

  // ---------------------------------------------------------------- what a run books

  /** The input is a deal on the trade of a working order, and it is traced to the order. */
  ghost predicate Books(cfg: Config, s: State, c: ClientOrderId, t: TradeId, input: Input) {
    && input.DealUpdate? && input.deal.tradeId == t && input.instrumentCached
    && WorksIn(s, c) && Resolve(cfg, s, t, input.deal.customField) == Some(c)
  }

  ghost function BookedBy(cfg: Config, s: State, c: ClientOrderId, t: TradeId, input: Input): seq<Deal> {
    if Books(cfg, s, c, t, input) then [input.deal] else []
  }

  ghost function Booked(cfg: Config, s: State, c: ClientOrderId, t: TradeId, inputs: seq<Input>): seq<Deal> {
    if inputs == [] then []
    else
      var n := |inputs| - 1;
      Booked(cfg, s, c, t, inputs[..n]) + BookedBy(cfg, Run(cfg, s, inputs[..n]), c, t, inputs[n])
  }

  function DealOn(t: TradeId, input: Input): seq<Deal> {
    if input.DealUpdate? && input.deal.tradeId == t then [input.deal] else []
  }

  /** All deliveries of the trade's deals, whenever they come. */
  function DealsOn(t: TradeId, inputs: seq<Input>): seq<Deal> {
    if inputs == [] then [] else DealsOn(t, inputs[..|inputs| - 1]) + DealOn(t, inputs[|inputs| - 1])
  }

  lemma {:induction false} BookedAreDealsOn(cfg: Config, s: State, c: ClientOrderId, t: TradeId, inputs: seq<Input>)
    ensures forall d :: d in Booked(cfg, s, c, t, inputs) ==> d in DealsOn(t, inputs) && d.tradeId == t
    decreases |inputs|
  {
    if inputs != [] {
      var n := |inputs| - 1;
      BookedAreDealsOn(cfg, s, c, t, inputs[..n]);
      assert forall d :: d in BookedBy(cfg, Run(cfg, s, inputs[..n]), c, t, inputs[n]) ==> d in DealOn(t, inputs[n]);
    }
  }

  /** With the replies on time, a delivery is booked exactly when its order works and the two have been brought
      together since the last restart; every other delivery is lost to the ledger. */
  lemma BooksExactly(cfg: Config, owner: Ownership, s: State, inputs: seq<Input>, c: ClientOrderId, t: TradeId, i: nat)
    requires SixCharacterTokens(cfg) && OneTradeEach(owner) && owner(t) == Some(c)
    requires Agreement(cfg, owner, s) && t !in s.bind && FaithfulRun(cfg, owner, s, inputs)
    requires OnTimeRun(cfg, s, c, inputs) && i < |inputs|
    ensures var now := Run(cfg, s, inputs[..i]);
            Books(cfg, now, c, t, inputs[i]) <==>
              && inputs[i].DealUpdate? && inputs[i].deal.tradeId == t && inputs[i].instrumentCached
              && WorksIn(now, c) && (Heard(cfg, c, t, inputs[..i]) || Carries(cfg, c, t, inputs[i]))
  {
    FaithfulPrefix(cfg, owner, s, inputs, i);
    OnTimePrefix(cfg, s, c, inputs, i);
    MapNamesTheOwner(cfg, owner, s, inputs[..i]);
    BoundExactly(cfg, owner, s, inputs[..i], c, t);
    if inputs[i].DealUpdate? && inputs[i].deal.tradeId == t {
      ResolveExactly(cfg, owner, Run(cfg, s, inputs[..i]), t, inputs[i].deal.customField);
    }
  }

  // ---------------------------------------------------------------- the client's ledger

  /** The ledger of `c` in `now` is its ledger in `s` and the counted deals. */
  ghost predicate LedgerHolds(s: State, now: State, c: ClientOrderId, counted: set<Deal>) {
    && c in s.cache && c in now.cache
    && now.cache[c].filledQty == s.cache[c].filledQty + Sum(counted, Quantity)
    && now.cache[c].fillIds == s.cache[c].fillIds + (set d | d in counted :: FillIdOf(d))
  }

  ghost predicate SameLedger(s: State, next: State, c: ClientOrderId) {
    && c in s.cache && c in next.cache
    && next.cache[c].filledQty == s.cache[c].filledQty && next.cache[c].fillIds == s.cache[c].fillIds
  }

  lemma OrderEventKeepsLedger(s: State, o: ClientOrderId, e: OrderEvent, c: ClientOrderId)
    requires o in s.cache && c in s.cache
    ensures SameLedger(s, OnOrderEvent(s, o, e), c)
  {
  }

  /** Whatever is not booked for an order leaves its ledger alone. */
  lemma UnbookedKeepsLedger(cfg: Config, owner: Ownership, s: State, input: Input, c: ClientOrderId, t: TradeId)
    requires OneTradeEach(owner) && owner(t) == Some(c) && c in s.cache
    requires Agreement(cfg, owner, s) && Faithful(cfg, owner, s, input)
    requires !Books(cfg, s, c, t, input)
    ensures SameLedger(s, Step(cfg, s, input), c)
  {
    match input
    case SubmitOrder(request, instrument) =>
      var o := request.clientOrderId;
      if o !in s.cache {
        VerdictBindsNothing(s, o, NewOrder(request), Gate.Decide(request, instrument, cfg.decode, cfg.token(o)));
      }
    case PlaceReply(o, reply) =>
    case OrderUpdate(e) =>
      var found := Resolve(cfg, s, e.orderId, e.customField);
      if found.Some? && found.value in s.cache {
        OrderEventKeepsLedger(Resolved(cfg, s, e.orderId, e.customField), found.value, e, c);
      }
    case DealUpdate(d, cached) =>
      UnbookedDealKeepsLedger(cfg, owner, s, d, cached, c, t);
    case StatusReports(q) =>
      RowsOnlyBind(cfg, s, q, 0);
    case Restart =>
  }

  lemma UnbookedDealKeepsLedger(cfg: Config, owner: Ownership, s: State, d: Deal, cached: bool,
                                c: ClientOrderId, t: TradeId)
    requires OneTradeEach(owner) && owner(t) == Some(c) && c in s.cache
    requires Agreement(cfg, owner, s) && Faithful(cfg, owner, s, DealUpdate(d, cached))
    requires !Books(cfg, s, c, t, DealUpdate(d, cached))
    ensures SameLedger(s, AfterDeal(cfg, s, d, cached), c)
  {
    ResolveExactly(cfg, owner, s, d.tradeId, d.customField);
    var found := Resolve(cfg, s, d.tradeId, d.customField);
    if found == Some(c) && cached {
      assert d.tradeId == t && !IsWorking(s.cache[c].status);
    }
  }

  /** A booked deal is counted if its key is new, and only then. */
  lemma BookedDealIsCounted(cfg: Config, s: State, now: State, d: Deal, c: ClientOrderId, t: TradeId,
                            counted: set<Deal>)
    requires LedgerHolds(s, now, c, counted) && forall e :: e in counted ==> e.tradeId == t
    requires Books(cfg, now, c, t, DealUpdate(d, true))
    ensures LedgerHolds(s, AfterDeal(cfg, now, d, true), c, Count(s.cache[c].fillIds, counted, d))
  {
    forall e | e in counted
      ensures FillIdOf(e) == FillIdOf(d) <==> DealKey(e) == DealKey(d)
    {
      SameKeySameId(e, d);
    }
    BookedDealFills(cfg, now, d, c, t);
    if FillIdOf(d) !in now.cache[c].fillIds {
      assert d !in counted;
      SumWithout(counted + {d}, Quantity, d);
      assert counted + {d} - {d} == counted;
    }
  }

  lemma BookedDealFills(cfg: Config, s: State, d: Deal, c: ClientOrderId, t: TradeId)
    requires Books(cfg, s, c, t, DealUpdate(d, true))
    ensures var next := AfterDeal(cfg, s, d, true);
            && c in next.cache
            && next.cache[c].fillIds == s.cache[c].fillIds + {FillIdOf(d)}
            && next.cache[c].filledQty ==
                 s.cache[c].filledQty + (if FillIdOf(d) in s.cache[c].fillIds then 0 else d.quantity)
  {
  }

  lemma StepUpdatesLedger(cfg: Config, owner: Ownership, s: State, now: State, input: Input,
                          c: ClientOrderId, t: TradeId, booked: seq<Deal>)
    requires OneTradeEach(owner) && owner(t) == Some(c)
    requires Agreement(cfg, owner, now) && Faithful(cfg, owner, now, input)
    requires c in s.cache && forall d :: d in booked ==> d.tradeId == t
    requires LedgerHolds(s, now, c, Counted(s.cache[c].fillIds, booked))
    ensures LedgerHolds(s, Step(cfg, now, input), c,
                        Counted(s.cache[c].fillIds, booked + BookedBy(cfg, now, c, t, input)))
  {
    var known := s.cache[c].fillIds;
    if Books(cfg, now, c, t, input) {
      CountedIsOnePerKey(known, booked);
      BookedDealIsCounted(cfg, s, now, input.deal, c, t, Counted(known, booked));
      assert (booked + [input.deal])[..|booked|] == booked;
    } else {
      UnbookedKeepsLedger(cfg, owner, now, input, c, t);
      assert booked + [] == booked;
    }
  }

  /** After any run the ledger has gained exactly what counting the booked deals gives. */
  lemma {:induction false} LedgerAfterRun(cfg: Config, owner: Ownership, s: State, inputs: seq<Input>,
                                          c: ClientOrderId, t: TradeId)
    requires OneTradeEach(owner) && owner(t) == Some(c) && c in s.cache
    requires Agreement(cfg, owner, s) && FaithfulRun(cfg, owner, s, inputs)
    ensures LedgerHolds(s, Run(cfg, s, inputs), c, Counted(s.cache[c].fillIds, Booked(cfg, s, c, t, inputs)))
    decreases |inputs|
  {
    if inputs != [] {
      var n := |inputs| - 1;
      FaithfulPrefix(cfg, owner, s, inputs, n);
      MapNamesTheOwner(cfg, owner, s, inputs[..n]);
      LedgerAfterRun(cfg, owner, s, inputs[..n], c, t);
      BookedAreDealsOn(cfg, s, c, t, inputs[..n]);
      StepUpdatesLedger(cfg, owner, s, Run(cfg, s, inputs[..n]), inputs[n], c, t, Booked(cfg, s, c, t, inputs[..n]));
    }
  }

  /** Over any run, whatever comes between the deals: unless redeliveries change their keys and keys are confused at
      the same time, an order's ledger gains the sum of the executions booked for it exactly when each of them is
      counted once, and that is exactly when redeliveries keep their keys, and the keys are new and tell executions
      apart. */
  lemma FillsAreConservedExactly<E(!new)>(cfg: Config, owner: Ownership, s: State, inputs: seq<Input>,
                                          c: ClientOrderId, t: TradeId, tape: Tape<E>)
    requires OneTradeEach(owner) && owner(t) == Some(c) && c in s.cache
    requires Agreement(cfg, owner, s) && FaithfulRun(cfg, owner, s, inputs)
    ensures var now, known, booked := Run(cfg, s, inputs), s.cache[c].fillIds, Booked(cfg, s, c, t, inputs);
            var some := Delivered(booked);
            var all := Executed(tape, some);
            var keysAreNew := TellsApart(tape, some) && AreNew(known, some);
            c in now.cache &&
            (Truthful(tape, some) && (KeepsKeys(tape, some) || keysAreNew) ==>
               && (OncePerExecution(tape, Counted(known, booked), all) <==> KeepsKeys(tape, some) && keysAreNew)
               && (now.cache[c].filledQty == s.cache[c].filledQty + Sum(all, tape.size) <==>
                     OncePerExecution(tape, Counted(known, booked), all)))
  {
    LedgerAfterRun(cfg, owner, s, inputs, c, t);
    BookedAreDealsOn(cfg, s, c, t, inputs);
    var known, booked := s.cache[c].fillIds, Booked(cfg, s, c, t, inputs);
    var some := Delivered(booked);
    if Truthful(tape, some) && KeepsKeys(tape, some) {
      CountedOnceExactly(tape, known, booked, Executed(tape, some), t);
    } else if Truthful(tape, some) && TellsApart(tape, some) && AreNew(known, some) {
      CountedOnceIfKeysAreKept(tape, known, booked);
    }
  }

  /** If redeliveries keep their keys, the ledger gains the sum of all executions ever reported for the order's trade,
      each counted once, exactly when each was booked at one of its deliveries, and the keys are new and tell
      executions apart. */
  lemma NothingIsLostExactly<E(!new)>(cfg: Config, owner: Ownership, s: State, inputs: seq<Input>,
                                      c: ClientOrderId, t: TradeId, tape: Tape<E>)
    requires OneTradeEach(owner) && owner(t) == Some(c) && c in s.cache
    requires Agreement(cfg, owner, s) && FaithfulRun(cfg, owner, s, inputs)
    ensures var now, known, booked := Run(cfg, s, inputs), s.cache[c].fillIds, Booked(cfg, s, c, t, inputs);
            var some := Delivered(DealsOn(t, inputs));
            var all := Executed(tape, some);
            c in now.cache &&
            (Truthful(tape, some) && KeepsKeys(tape, some) ==>
               && (OncePerExecution(tape, Counted(known, booked), all) <==>
                     all == Executed(tape, Delivered(booked)) && TellsApart(tape, some) && AreNew(known, some))
               && (now.cache[c].filledQty == s.cache[c].filledQty + Sum(all, tape.size) <==>
                     OncePerExecution(tape, Counted(known, booked), all)))
  {
    LedgerAfterRun(cfg, owner, s, inputs, c, t);
    BookedAreDealsOn(cfg, s, c, t, inputs);
    DealsOnAreOnTrade(t, inputs);
    var known, booked, some := s.cache[c].fillIds, Booked(cfg, s, c, t, inputs), Delivered(DealsOn(t, inputs));
    if Truthful(tape, some) && KeepsKeys(tape, some) {
      CountedOnceExactly(tape, known, booked, Executed(tape, some), t);
      if Executed(tape, some) == Executed(tape, Delivered(booked)) {
        KeptKeysAgree(tape, known, Delivered(booked), some, t);
      }
    }
  }

  lemma {:induction false} DealsOnAreOnTrade(t: TradeId, inputs: seq<Input>)
    ensures OnTrade(t, Delivered(DealsOn(t, inputs)))
    decreases |inputs|
  {
    if inputs != [] {
      DealsOnAreOnTrade(t, inputs[..|inputs| - 1]);
    }
  }

  // ---------------------------------------------------------------- runs that lose nothing

  /** Nothing happens to `c` but deals on its trade, and their instrument is known. */
  ghost predicate Quiet(c: ClientOrderId, t: TradeId, input: Input) {
    match input
    case PlaceReply(o, _) => o != c
    case OrderUpdate(e) => e.orderId != t
    case DealUpdate(d, cached) => d.tradeId == t ==> cached
    case Restart => false
    case _ => true
  }

  /** The order keeps its terms, and its trade stays bound until it is full. */
  ghost predicate BoundUntilFull(s: State, now: State, c: ClientOrderId, t: TradeId) {
    && c in s.cache && c in now.cache && now.cache[c].quantity == s.cache[c].quantity
    && (IsWorking(now.cache[c].status) ==> t in now.bind)
    && (!IsWorking(now.cache[c].status) ==> now.cache[c].filledQty >= now.cache[c].quantity)
  }

  lemma StepBindsUntilFull(cfg: Config, owner: Ownership, s: State, now: State, input: Input, c: ClientOrderId,
                           t: TradeId)
    requires OneTradeEach(owner) && owner(t) == Some(c)
    requires Agreement(cfg, owner, now) && Faithful(cfg, owner, now, input)
    requires Quiet(c, t, input) && BoundUntilFull(s, now, c, t)
    ensures BoundUntilFull(s, Step(cfg, now, input), c, t)
  {
    match input
    case SubmitOrder(request, instrument) =>
      var o := request.clientOrderId;
      if o !in now.cache {
        VerdictBindsNothing(now, o, NewOrder(request), Gate.Decide(request, instrument, cfg.decode, cfg.token(o)));
      }
    case PlaceReply(o, reply) =>
    case OrderUpdate(e) =>
      ResolveExactly(cfg, owner, now, e.orderId, e.customField);
      var found := Resolve(cfg, now, e.orderId, e.customField);
      if found.Some? {
        OtherOrderEventBindsUntilFull(s, Resolved(cfg, now, e.orderId, e.customField), found.value, e, c, t);
      }
    case DealUpdate(d, cached) =>
      DealBindsUntilFull(cfg, owner, s, now, d, cached, c, t);
    case StatusReports(q) =>
      RowsOnlyBind(cfg, now, q, 0);
      if t in now.bind {
        RowsUnbindNothing(cfg, now, q, 0, t);
      }
  }

  lemma OtherOrderEventBindsUntilFull(s: State, now: State, o: ClientOrderId, e: OrderEvent, c: ClientOrderId,
                                      t: TradeId)
    requires o in now.cache && o != c && e.orderId != t && BoundUntilFull(s, now, c, t)
    ensures BoundUntilFull(s, OnOrderEvent(now, o, e), c, t)
  {
  }

  lemma DealBindsUntilFull(cfg: Config, owner: Ownership, s: State, now: State, d: Deal, cached: bool,
                           c: ClientOrderId, t: TradeId)
    requires OneTradeEach(owner) && owner(t) == Some(c)
    requires Agreement(cfg, owner, now) && Faithful(cfg, owner, now, DealUpdate(d, cached))
    requires BoundUntilFull(s, now, c, t)
    ensures BoundUntilFull(s, AfterDeal(cfg, now, d, cached), c, t)
  {
    ResolveExactly(cfg, owner, now, d.tradeId, d.customField);
    var found := Resolve(cfg, now, d.tradeId, d.customField);
    if found.Some? && cached {
      assert found == Some(c) <==> d.tradeId == t;
      OnDealBindsUntilFull(s, Resolved(cfg, now, d.tradeId, d.customField), found.value, d, c, t);
    }
  }

  lemma OnDealBindsUntilFull(s: State, now: State, o: ClientOrderId, d: Deal, c: ClientOrderId, t: TradeId)
    requires o in now.cache && (o == c <==> d.tradeId == t) && BoundUntilFull(s, now, c, t)
    ensures BoundUntilFull(s, OnDeal(now, o, d), c, t)
  {
  }

  /** The room left in an order takes all executions that some deals report. */
  ghost predicate Fits<E(!new)>(s: State, c: ClientOrderId, tape: Tape<E>, deals: set<Deal>) {
    && Truthful(tape, deals) && KeepsKeys(tape, deals)
    && c in s.cache && s.cache[c].filledQty + Sum(Executed(tape, deals), tape.size) <= s.cache[c].quantity
  }

  lemma {:induction false} UndisturbedDealsAreBooked<E(!new)>(
    cfg: Config, owner: Ownership, s: State, inputs: seq<Input>, c: ClientOrderId, t: TradeId,
    tape: Tape<E>, all: set<Deal>)
    requires OneTradeEach(owner) && owner(t) == Some(c)
    requires Agreement(cfg, owner, s) && FaithfulRun(cfg, owner, s, inputs)
    requires forall i :: 0 <= i < |inputs| ==> Quiet(c, t, inputs[i])
    requires WorksIn(s, c) && t in s.bind
    requires Delivered(DealsOn(t, inputs)) <= all && Fits(s, c, tape, all)
    ensures BoundUntilFull(s, Run(cfg, s, inputs), c, t)
    ensures forall d :: d in DealsOn(t, inputs) ==>
      tape.of(d) in Executed(tape, Delivered(Booked(cfg, s, c, t, inputs)))
    decreases |inputs|
  {
    if inputs != [] {
      var n := |inputs| - 1;
      var before, last, now := inputs[..n], inputs[n], Run(cfg, s, inputs[..n]);
      FaithfulPrefix(cfg, owner, s, inputs, n);
      MapNamesTheOwner(cfg, owner, s, before);
      assert forall d :: d in DealsOn(t, before) ==> d in DealsOn(t, inputs);
      UndisturbedDealsAreBooked(cfg, owner, s, before, c, t, tape, all);
      StepBindsUntilFull(cfg, owner, s, now, last, c, t);
      ExecutedGrows(tape, Booked(cfg, s, c, t, before), BookedBy(cfg, now, c, t, last));
      if last.DealUpdate? && last.deal.tradeId == t {
        assert last.deal in DealOn(t, last) && last.deal in DealsOn(t, inputs);
        DealIsBookedOrWas(cfg, owner, s, before, last.deal, c, t, tape, all);
      }
    }
  }

  lemma ExecutedGrows<E(!new)>(tape: Tape<E>, first: seq<Deal>, second: seq<Deal>)
    ensures Executed(tape, Delivered(first + second))
         == Executed(tape, Delivered(first)) + Executed(tape, Delivered(second))
  {
    assert Delivered(first + second) == Delivered(first) + Delivered(second);
  }

  /** An order that no longer works is full, so that the execution was counted before. */
  lemma DealIsBookedOrWas<E(!new)>(cfg: Config, owner: Ownership, s: State, inputs: seq<Input>, d: Deal,
                                   c: ClientOrderId, t: TradeId, tape: Tape<E>, all: set<Deal>)
    requires OneTradeEach(owner) && owner(t) == Some(c)
    requires Agreement(cfg, owner, s) && FaithfulRun(cfg, owner, s, inputs)
    requires Agreement(cfg, owner, Run(cfg, s, inputs)) && BoundUntilFull(s, Run(cfg, s, inputs), c, t)
    requires d in all && d.tradeId == t
    requires Delivered(DealsOn(t, inputs)) <= all && Fits(s, c, tape, all)
    ensures || Books(cfg, Run(cfg, s, inputs), c, t, DealUpdate(d, true))
            || tape.of(d) in Executed(tape, Delivered(Booked(cfg, s, c, t, inputs)))
  {
    if !IsWorking(Run(cfg, s, inputs).cache[c].status) {
      var known, booked := s.cache[c].fillIds, Booked(cfg, s, c, t, inputs);
      LedgerAfterRun(cfg, owner, s, inputs, c, t);
      BookedAreDealsOn(cfg, s, c, t, inputs);
      FullMeansAll(tape, known, booked, all);
      assert tape.of(d) in Executed(tape, Counted(known, booked));
      CountedIsOnePerKey(known, booked);
    }
  }

  lemma FullMeansAll<E(!new)>(tape: Tape<E>, known: set<FillId>, booked: seq<Deal>, all: set<Deal>)
    requires Truthful(tape, all) && KeepsKeys(tape, all) && Delivered(booked) <= all
    requires Sum(Counted(known, booked), Quantity) >= Sum(Executed(tape, all), tape.size)
    ensures Executed(tape, Counted(known, booked)) == Executed(tape, all)
  {
    var counted := Counted(known, booked);
    CountedIsOnePerKey(known, booked);
    SumOfExecuted(tape, counted);
    SumOfSubset(Executed(tape, counted), Executed(tape, all), tape.size);
  }

  /** Nothing else happens to a working, bound order, and no more is executed than it asked for. */
  ghost predicate Undisturbed<E(!new)>(s: State, inputs: seq<Input>, c: ClientOrderId, t: TradeId, tape: Tape<E>) {
    && (forall i :: 0 <= i < |inputs| ==> Quiet(c, t, inputs[i]))
    && WorksIn(s, c) && t in s.bind
    && Fits(s, c, tape, Delivered(DealsOn(t, inputs)))
  }

  /** Undisturbed, an order has every execution reported for its trade in its ledger once, exactly when the keys are
      new and tell executions apart. */
  lemma UndisturbedFillsAreConserved<E(!new)>(cfg: Config, owner: Ownership, s: State, inputs: seq<Input>,
                                              c: ClientOrderId, t: TradeId, tape: Tape<E>)
    requires OneTradeEach(owner) && owner(t) == Some(c) && c in s.cache
    requires Agreement(cfg, owner, s) && FaithfulRun(cfg, owner, s, inputs)
    ensures var now, some := Run(cfg, s, inputs), Delivered(DealsOn(t, inputs));
            Undisturbed(s, inputs, c, t, tape) ==>
              c in now.cache &&
              (now.cache[c].filledQty == s.cache[c].filledQty + Sum(Executed(tape, some), tape.size) <==>
                 TellsApart(tape, some) && AreNew(s.cache[c].fillIds, some))
  {
    if Undisturbed(s, inputs, c, t, tape) {
      var some := Delivered(DealsOn(t, inputs));
      UndisturbedDealsAreBooked(cfg, owner, s, inputs, c, t, tape, some);
      BookedAreDealsOn(cfg, s, c, t, inputs);
      assert Executed(tape, some) == Executed(tape, Delivered(Booked(cfg, s, c, t, inputs)));
      NothingIsLostExactly(cfg, owner, s, inputs, c, t, tape);
    }
  }

  // ---------------------------------------------------------------- runs that go wrong

  /** Two executions that share a key: one has it from the exchange, the other, without an exchange sequence, as its
      deal-level order number. */
  function FirstDeal(t: TradeId): Deal {
    Deal(t, Some("A0007001"), "A0007002", 1000, 0, None)
  }

  function SecondDeal(t: TradeId): Deal {
    Deal(t, None, "A0007001", 2000, 0, None)
  }

  /** One execution, reported before and after the exchange gave it a sequence. */
  function EarlyDeal(t: TradeId): Deal {
    Deal(t, None, "A0007001", 1000, 0, None)
  }

  function ConfirmedDeal(t: TradeId): Deal {
    Deal(t, Some("X0000100"), "A0007001", 1000, 0, None)
  }

  lemma RunOfTwoDeals(cfg: Config, s: State, d1: Deal, d2: Deal)
    ensures Run(cfg, s, [DealUpdate(d1, true), DealUpdate(d2, true)])
         == AfterDeal(cfg, AfterDeal(cfg, s, d1, true), d2, true)
  {
    var inputs := [DealUpdate(d1, true), DealUpdate(d2, true)];
    var first := inputs[..1];
    assert first == [DealUpdate(d1, true)];
    assert first[..0] == [];
    assert Run(cfg, s, first) == AfterDeal(cfg, s, d1, true);
  }

  /** A working, bound order with room for more than three thousand, and these two deals are new to it. */
  ghost predicate Awaits(s: State, c: ClientOrderId, t: TradeId, d1: Deal, d2: Deal) {
    && WorksIn(s, c) && t in s.bind && s.bind[t] == c
    && s.cache[c].filledQty + 3000 < s.cache[c].quantity
    && FillIdOf(d1) !in s.cache[c].fillIds && FillIdOf(d2) !in s.cache[c].fillIds
  }

  /** Two deals in a row fill for both of them exactly when their keys differ. */
  lemma TwoDealsFill(cfg: Config, s: State, c: ClientOrderId, t: TradeId, d1: Deal, d2: Deal)
    requires Awaits(s, c, t, d1, d2) && d1.tradeId == t && d2.tradeId == t && d1.quantity + d2.quantity <= 3000
    ensures var now := Run(cfg, s, [DealUpdate(d1, true), DealUpdate(d2, true)]);
            c in now.cache &&
            now.cache[c].filledQty ==
              s.cache[c].filledQty + d1.quantity + (if DealKey(d1) == DealKey(d2) then 0 else d2.quantity)
  {
    RunOfTwoDeals(cfg, s, d1, d2);
    SameKeySameId(d1, d2);
    BookedDealFills(cfg, s, d1, c, t);
    WorksOnAfterDeal(cfg, s, d1, c, t);
    BookedDealFills(cfg, AfterDeal(cfg, s, d1, true), d2, c, t);
  }

  /** Of two executions with one key the second is lost, however much of the order is open. */
  lemma SharedKeyLosesAFill(cfg: Config, s: State, c: ClientOrderId, t: TradeId)
    requires Awaits(s, c, t, FirstDeal(t), SecondDeal(t))
    ensures var now := Run(cfg, s, [DealUpdate(FirstDeal(t), true), DealUpdate(SecondDeal(t), true)]);
            c in now.cache && now.cache[c].filledQty == s.cache[c].filledQty + 1000
  {
    TwoDealsFill(cfg, s, c, t, FirstDeal(t), SecondDeal(t));
  }

  /** An execution whose exchange sequence arrives with its redelivery is counted twice. */
  lemma LateSequenceCountsTwice(cfg: Config, s: State, c: ClientOrderId, t: TradeId)
    requires Awaits(s, c, t, EarlyDeal(t), ConfirmedDeal(t))
    ensures var now := Run(cfg, s, [DealUpdate(EarlyDeal(t), true), DealUpdate(ConfirmedDeal(t), true)]);
            c in now.cache && now.cache[c].filledQty == s.cache[c].filledQty + 2000
  {
    TwoDealsFill(cfg, s, c, t, EarlyDeal(t), ConfirmedDeal(t));
  }

  lemma WorksOnAfterDeal(cfg: Config, s: State, d: Deal, c: ClientOrderId, t: TradeId)
    requires Books(cfg, s, c, t, DealUpdate(d, true)) && t in s.bind
    requires s.cache[c].filledQty + d.quantity < s.cache[c].quantity
    ensures var next := AfterDeal(cfg, s, d, true);
            WorksIn(next, c) && t in next.bind && next.bind[t] == c
  {
  }

  /** Both faults at once may cancel: keys are confused and one redelivery changes its key, and yet each of two
      executions, told by their order numbers, is counted once. */
  lemma TwoFaultsMayCancel(t: TradeId)
    ensures var tape := Tape((d: Deal) => d.ordno, (e: string) => 1000);
            var deals := [Deal(t, Some("1"), "B", 1000, 0, None), Deal(t, Some("1"), "A", 1000, 0, None),
                          Deal(t, Some("2"), "A", 1000, 0, None)];
            && !KeepsKeys(tape, Delivered(deals)) && !TellsApart(tape, Delivered(deals))
            && OncePerExecution(tape, Counted({}, deals), Executed(tape, Delivered(deals)))
  {
    var d1, d2 := Deal(t, Some("1"), "B", 1000, 0, None), Deal(t, Some("1"), "A", 1000, 0, None);
    var d3 := Deal(t, Some("2"), "A", 1000, 0, None);
    var tape := Tape((d: Deal) => d.ordno, (e: string) => 1000);
    var deals := [d1, d2, d3];
    assert deals[..2] == [d1, d2] && [d1, d2][..1] == [d1] && [d1][..0] == [];
    assert Counted({}, [d1]) == {d1};
    assert Counted({}, [d1, d2]) == {d1};
    assert Counted({}, deals) == {d1, d3};
    assert d1 in deals && d2 in deals && d3 in deals;
    assert Delivered(deals) == {d1, d2, d3};
    assert tape.of(d1) == "B" && tape.of(d2) == "A" && tape.of(d3) == "A" && "A" != "B";
    assert Executed(tape, {d1, d3}) == {"A", "B"} == Executed(tape, {d1, d2, d3});
  }
}
