/** When a trade is bound to its order, and so which fills the order gets, its place reply processed or lost. */
module Attribution {
  import opened Wrappers
  import opened Orders
  import opened Correlation
  import opened Lifecycle
  import Gate

  ghost predicate RowCarries(cfg: Config, c: ClientOrderId, t: TradeId, row: TradeRow) {
    row.tradeId == Some(t) && row.customField == Some(cfg.token(c))
  }

  /** Whether the report loop, starting at row `from`, looks up a row with the token before a row raises. */
  ghost predicate RowsCarry(cfg: Config, c: ClientOrderId, t: TradeId, q: Query, from: nat)
    requires from <= |q.rows|
    decreases |q.rows| - from
  {
    from < |q.rows| &&
    match KindOf(q, q.rows[from])
    case Raises => false
    case Skipped => RowsCarry(cfg, c, t, q, from + 1)
    case LooksUp =>
      RowCarries(cfg, c, t, q.rows[from]) || (Reportable(q.rows[from]) && RowsCarry(cfg, c, t, q, from + 1))
  }

  /** An input that brings the order together with its trade id: the reply that accepts its placement,
      or a message with the order's token. */
  ghost predicate Carries(cfg: Config, c: ClientOrderId, t: TradeId, input: Input) {
    match input
    case PlaceReply(o, reply) => o == c && reply.Placed? && !Refuses(reply) && reply.tradeId == Some(t)
    case DealUpdate(d, cached) => d.tradeId == t && cached && d.customField == Some(cfg.token(c))
    case OrderUpdate(e) => e.orderId == t && e.customField == Some(cfg.token(c))
    case StatusReports(q) => RowsCarry(cfg, c, t, q, 0)
    case _ => false
  }

  /** Whether the order was brought together with its trade since the last restart. */
  ghost predicate Heard(cfg: Config, c: ClientOrderId, t: TradeId, inputs: seq<Input>) {
    var n := |inputs| - 1;
    n >= 0 && inputs[n] != Restart && (Carries(cfg, c, t, inputs[n]) || Heard(cfg, c, t, inputs[..n]))
  }

  /** Input `j` brought the two together, and there was no restart from there on. */
  ghost predicate HeardAt(cfg: Config, c: ClientOrderId, t: TradeId, inputs: seq<Input>, j: nat) {
    j < |inputs| && Carries(cfg, c, t, inputs[j]) && Restart !in inputs[j..]
  }

  lemma HeardAtSplits(cfg: Config, c: ClientOrderId, t: TradeId, inputs: seq<Input>, j: nat)
    requires j < |inputs|
    ensures var n := |inputs| - 1;
            HeardAt(cfg, c, t, inputs, j) <==>
              && inputs[n] != Restart
              && if j == n then Carries(cfg, c, t, inputs[n]) else HeardAt(cfg, c, t, inputs[..n], j)
  {
    var n := |inputs| - 1;
    assert inputs[j..] == inputs[..n][j..] + [inputs[n]];
  }

  lemma {:induction false} HeardMeans(cfg: Config, c: ClientOrderId, t: TradeId, inputs: seq<Input>)
    ensures Heard(cfg, c, t, inputs) <==> exists j :: HeardAt(cfg, c, t, inputs, j)
    decreases |inputs|
  {
    if inputs != [] {
      var n := |inputs| - 1;
      HeardMeans(cfg, c, t, inputs[..n]);
      if j: nat :| HeardAt(cfg, c, t, inputs, j) {
        HeardAtSplits(cfg, c, t, inputs, j);
      }
      if Heard(cfg, c, t, inputs) {
        var j: nat := n;
        if !Carries(cfg, c, t, inputs[n]) {
          j :| HeardAt(cfg, c, t, inputs[..n], j);
        }
        HeardAtSplits(cfg, c, t, inputs, j);
      }
    }
  }

  /** The reply of `c` never arrived, and deals carry no token. */
  ghost predicate LostReply(c: ClientOrderId, input: Input) {
    && (input.PlaceReply? && input.id == c ==> input.reply.TransportFailure?)
    && (input.DealUpdate? ==> input.deal.customField == None)
  }

  /** A reply to `c` meets the order as the placement left it. */
  ghost predicate OnTime(s: State, c: ClientOrderId, input: Input) {
    input.PlaceReply? && input.id == c && !input.reply.TransportFailure? ==> c in s.cache && Timely(s, input)
  }

  ghost predicate OnTimeRun(cfg: Config, s: State, c: ClientOrderId, inputs: seq<Input>) {
    forall i :: 0 <= i < |inputs| ==> OnTime(Run(cfg, s, inputs[..i]), c, inputs[i])
  }

  ghost predicate WorksIn(s: State, c: ClientOrderId) {
    c in s.cache && IsWorking(s.cache[c].status)
  }

  lemma LookupBindsExactly(cfg: Config, owner: Ownership, s: State, key: TradeId, field: Option<string>,
                           c: ClientOrderId, t: TradeId)
    requires SixCharacterTokens(cfg)
    requires Agreement(cfg, owner, s) && Echoes(cfg, owner, s, key, field)
    requires owner(t) == Some(c)
    ensures var found := Resolved(cfg, s, key, field);
            && Agreement(cfg, owner, found) && found.cache == s.cache
            && (t in found.bind <==> t in s.bind || (WorksIn(s, c) && key == t && field == Some(cfg.token(c))))
  {
    ResolveExactly(cfg, owner, s, key, field);
  }

  lemma {:induction false} RowsBindExactly(cfg: Config, owner: Ownership, s: State, q: Query, from: nat,
                                           c: ClientOrderId, t: TradeId)
    requires from <= |q.rows| && SixCharacterTokens(cfg)
    requires Agreement(cfg, owner, s) && Faithful(cfg, owner, s, StatusReports(q))
    requires owner(t) == Some(c)
    ensures t in AfterRows(cfg, s, q, from).0.bind <==> t in s.bind || (WorksIn(s, c) && RowsCarry(cfg, c, t, q, from))
    decreases |q.rows| - from
  {
    if from < |q.rows| {
      var row := q.rows[from];
      if KindOf(q, row) == LooksUp {
        LookupBindsExactly(cfg, owner, s, row.tradeId.value, row.customField, c, t);
        var found := Resolved(cfg, s, row.tradeId.value, row.customField);
        if Reportable(row) {
          RowsBindExactly(cfg, owner, found, q, from + 1, c, t);
        }
      } else if KindOf(q, row) == Skipped {
        RowsBindExactly(cfg, owner, s, q, from + 1, c, t);
      }
    }
  }

  lemma OrderEventBindsExactly(cfg: Config, owner: Ownership, s: State, e: OrderEvent, c: ClientOrderId, t: TradeId,
                               heard: bool)
    requires SixCharacterTokens(cfg) && OneTradeEach(owner) && owner(t) == Some(c)
    requires Agreement(cfg, owner, s) && Faithful(cfg, owner, s, OrderUpdate(e))
    requires t in s.bind <==> WorksIn(s, c) && heard
    ensures var next := AfterOrderEvent(cfg, s, e);
            t in next.bind <==> WorksIn(next, c) && (heard || Carries(cfg, c, t, OrderUpdate(e)))
  {
    ResolveExactly(cfg, owner, s, e.orderId, e.customField);
    var found := Resolve(cfg, s, e.orderId, e.customField);
    if found.Some? {
      var bound := Resolved(cfg, s, e.orderId, e.customField);
      OnOrderEventBindsExactly(owner, bound, found.value, e, c, t, heard || Carries(cfg, c, t, OrderUpdate(e)));
    }
  }

  lemma OnOrderEventBindsExactly(owner: Ownership, s: State, o: ClientOrderId, e: OrderEvent,
                                 c: ClientOrderId, t: TradeId, heard: bool)
    requires OneTradeEach(owner) && owner(t) == Some(c) && owner(e.orderId) == Some(o)
    requires o in s.cache && s.cache[o].status != Initialized
    requires t in s.bind <==> WorksIn(s, c) && heard
    ensures var next := OnOrderEvent(s, o, e);
            t in next.bind <==> WorksIn(next, c) && heard
  {
    assert o == c <==> e.orderId == t;
  }

  lemma VerdictBindsNothing(s: State, o: ClientOrderId, order: Order, v: Gate.Verdict)
    requires o !in s.cache
    ensures var next := AfterVerdict(s, o, order, v);
            && next.bind == s.bind && o in next.cache
            && forall c :: c in s.cache ==> c in next.cache && next.cache[c] == s.cache[c]
  {
  }

  lemma DealBindsExactly(cfg: Config, owner: Ownership, s: State, d: Deal, cached: bool,
                         c: ClientOrderId, t: TradeId, heard: bool)
    requires SixCharacterTokens(cfg) && OneTradeEach(owner) && owner(t) == Some(c)
    requires Agreement(cfg, owner, s) && Faithful(cfg, owner, s, DealUpdate(d, cached))
    requires t in s.bind <==> WorksIn(s, c) && heard
    ensures var next := AfterDeal(cfg, s, d, cached);
            t in next.bind <==> WorksIn(next, c) && (heard || Carries(cfg, c, t, DealUpdate(d, cached)))
  {
    ResolveExactly(cfg, owner, s, d.tradeId, d.customField);
    LookupBindsExactly(cfg, owner, s, d.tradeId, d.customField, c, t);
    var found := Resolve(cfg, s, d.tradeId, d.customField);
    if found.Some? && cached {
      var bound := Resolved(cfg, s, d.tradeId, d.customField);
      OnDealBindsExactly(owner, bound, found.value, d, c, t, heard || Carries(cfg, c, t, DealUpdate(d, cached)));
    }
  }

  lemma OnDealBindsExactly(owner: Ownership, s: State, o: ClientOrderId, d: Deal, c: ClientOrderId, t: TradeId,
                           heard: bool)
    requires OneTradeEach(owner) && owner(t) == Some(c) && owner(d.tradeId) == Some(o)
    requires o in s.cache && s.cache[o].status != Initialized
    requires t in s.bind <==> WorksIn(s, c) && heard
    ensures var next := OnDeal(s, o, d);
            t in next.bind <==> WorksIn(next, c) && heard
  {
    assert o == c <==> d.tradeId == t;
  }

  lemma ReplyBindsExactly(cfg: Config, owner: Ownership, s: State, o: ClientOrderId, reply: Reply,
                          c: ClientOrderId, t: TradeId, heard: bool)
    requires OneTradeEach(owner) && owner(t) == Some(c)
    requires Faithful(cfg, owner, s, PlaceReply(o, reply)) && OnTime(s, c, PlaceReply(o, reply))
    requires t in s.bind ==> s.bind[t] == c
    requires t in s.bind <==> WorksIn(s, c) && heard
    ensures var next := AfterReply(s, o, reply);
            t in next.bind <==> WorksIn(next, c) && (heard || Carries(cfg, c, t, PlaceReply(o, reply)))
  {
    if o != c {
      ReplyToAnother(s, o, reply, c, t);
    } else if !reply.TransportFailure? {
      if Refuses(reply) {
        assert t !in s.bind;
      } else {
        AcceptBinds(s, c, t);
      }
    }
  }

  lemma ReplyToAnother(s: State, o: ClientOrderId, reply: Reply, c: ClientOrderId, t: TradeId)
    requires o != c && (reply.Placed? ==> reply.tradeId != Some(t))
    ensures var next := AfterReply(s, o, reply);
            (t in next.bind <==> t in s.bind) && (WorksIn(next, c) <==> WorksIn(s, c))
  {
  }

  lemma AcceptBinds(s: State, c: ClientOrderId, t: TradeId)
    requires c in s.cache && s.cache[c].status == Submitted
    ensures var next := Emit(s.(bind := s.bind[t := c]), c, Accept(t));
            t in next.bind && WorksIn(next, c)
  {
  }

  /** One step: the trade stays bound exactly while its order works and has been brought together with it. */
  lemma StepBindsExactly(cfg: Config, owner: Ownership, s: State, input: Input, c: ClientOrderId, t: TradeId,
                         heard: bool)
    requires SixCharacterTokens(cfg) && OneTradeEach(owner) && owner(t) == Some(c)
    requires Agreement(cfg, owner, s) && Faithful(cfg, owner, s, input) && OnTime(s, c, input)
    requires t in s.bind <==> WorksIn(s, c) && heard
    requires heard ==> c in s.cache
    ensures var next := Step(cfg, s, input);
            t in next.bind <==> WorksIn(next, c) && input != Restart && (heard || Carries(cfg, c, t, input))
  {
    match input
    case SubmitOrder(request, instrument) =>
      var o := request.clientOrderId;
      if o !in s.cache {
        VerdictBindsNothing(s, o, NewOrder(request), Gate.Decide(request, instrument, cfg.decode, cfg.token(o)));
      }
    case PlaceReply(o, reply) =>
      ReplyBindsExactly(cfg, owner, s, o, reply, c, t, heard);
    case OrderUpdate(e) =>
      OrderEventBindsExactly(cfg, owner, s, e, c, t, heard);
    case DealUpdate(d, cached) =>
      DealBindsExactly(cfg, owner, s, d, cached, c, t, heard);
    case StatusReports(q) =>
      RowsBindExactly(cfg, owner, s, q, 0, c, t);
      RowsOnlyBind(cfg, s, q, 0);
    case Restart =>
  }

  lemma {:induction false} RowsCarryCachedOrders(cfg: Config, owner: Ownership, s: State, q: Query, from: nat,
                                                 c: ClientOrderId, t: TradeId)
    requires from <= |q.rows| && Faithful(cfg, owner, s, StatusReports(q)) && owner(t) == Some(c)
    requires RowsCarry(cfg, c, t, q, from)
    ensures c in s.cache
    decreases |q.rows| - from
  {
    if KindOf(q, q.rows[from]) == Skipped || !RowCarries(cfg, c, t, q.rows[from]) {
      RowsCarryCachedOrders(cfg, owner, s, q, from + 1, c, t);
    }
  }

  lemma CacheKeeps(cfg: Config, s: State, input: Input, c: ClientOrderId)
    requires c in s.cache
    ensures c in Step(cfg, s, input).cache
  {
    match input
    case SubmitOrder(request, instrument) =>
      var o := request.clientOrderId;
      if o !in s.cache {
        VerdictBindsNothing(s, o, NewOrder(request), Gate.Decide(request, instrument, cfg.decode, cfg.token(o)));
      }
    case StatusReports(q) =>
      RowsOnlyBind(cfg, s, q, 0);
    case _ =>
  }

  /** After any run in which the replies to `c` came on time, its trade is bound exactly while `c` works and,
      since the last restart, an accepting reply or a message with its token was processed. */
  lemma {:induction false} BoundExactly(cfg: Config, owner: Ownership, s: State, inputs: seq<Input>,
                                        c: ClientOrderId, t: TradeId)
    requires SixCharacterTokens(cfg) && OneTradeEach(owner) && owner(t) == Some(c)
    requires Agreement(cfg, owner, s) && t !in s.bind && FaithfulRun(cfg, owner, s, inputs)
    requires OnTimeRun(cfg, s, c, inputs)
    ensures var now := Run(cfg, s, inputs);
            && (t in now.bind <==> WorksIn(now, c) && Heard(cfg, c, t, inputs))
            && (Heard(cfg, c, t, inputs) ==> c in now.cache)
    decreases |inputs|
  {
    if inputs != [] {
      var n := |inputs| - 1;
      var input := inputs[n];
      var before := Run(cfg, s, inputs[..n]);
      FaithfulPrefix(cfg, owner, s, inputs, n);
      OnTimePrefix(cfg, s, c, inputs, n);
      MapNamesTheOwner(cfg, owner, s, inputs[..n]);
      BoundExactly(cfg, owner, s, inputs[..n], c, t);
      StepBindsExactly(cfg, owner, before, input, c, t, Heard(cfg, c, t, inputs[..n]));
      if input.StatusReports? && Carries(cfg, c, t, input) {
        RowsCarryCachedOrders(cfg, owner, before, input.query, 0, c, t);
      }
      if Heard(cfg, c, t, inputs) {
        CacheKeeps(cfg, before, input, c);
      }
    }
  }

  lemma OnTimePrefix(cfg: Config, s: State, c: ClientOrderId, inputs: seq<Input>, n: nat)
    requires OnTimeRun(cfg, s, c, inputs) && n <= |inputs|
    ensures OnTimeRun(cfg, s, c, inputs[..n])
  {
    forall i | 0 <= i < n
      ensures OnTime(Run(cfg, s, inputs[..n][..i]), c, inputs[..n][i])
    {
      assert inputs[..n][..i] == inputs[..i];
    }
  }

  /** A step attributes a fill to `c`: it generates one, and nothing else. */
  ghost predicate FillsOrder(cfg: Config, s: State, input: Input, c: ClientOrderId) {
    var next := Step(cfg, s, input);
    |next.log| > |s.log| && next.log[|s.log|].id == c && next.log[|s.log|].event.Fill?
  }

  /** The fills an order gets are exactly the deals on its trade that arrive while it works and after, or with, the
      first message since the last restart that brought the two together. */
  lemma FillsExactly(cfg: Config, owner: Ownership, s: State, inputs: seq<Input>, c: ClientOrderId, t: TradeId, i: nat)
    requires SixCharacterTokens(cfg) && OneTradeEach(owner) && owner(t) == Some(c)
    requires Agreement(cfg, owner, s) && t !in s.bind && FaithfulRun(cfg, owner, s, inputs)
    requires OnTimeRun(cfg, s, c, inputs) && i < |inputs|
    ensures var now := Run(cfg, s, inputs[..i]);
            FillsOrder(cfg, now, inputs[i], c) <==>
              && inputs[i].DealUpdate? && inputs[i].deal.tradeId == t && inputs[i].instrumentCached
              && WorksIn(now, c) && (Heard(cfg, c, t, inputs[..i]) || Carries(cfg, c, t, inputs[i]))
  {
    FaithfulPrefix(cfg, owner, s, inputs, i);
    OnTimePrefix(cfg, s, c, inputs, i);
    MapNamesTheOwner(cfg, owner, s, inputs[..i]);
    BoundExactly(cfg, owner, s, inputs[..i], c, t);
    var now := Run(cfg, s, inputs[..i]);
    if inputs[i].DealUpdate? {
      DealFillsExactly(cfg, owner, now, inputs[i].deal, inputs[i].instrumentCached, c, t);
    } else {
      OnlyDealsFill(cfg, now, inputs[i]);
    }
  }

  /** For an order whose placement was lost in transport, that message is an order event or a report row with its
      token: no deal is attributed earlier. */
  lemma FillsAfterALostReply(cfg: Config, owner: Ownership, s: State, inputs: seq<Input>, c: ClientOrderId,
                             t: TradeId, i: nat)
    requires SixCharacterTokens(cfg) && OneTradeEach(owner) && owner(t) == Some(c)
    requires Agreement(cfg, owner, s) && t !in s.bind && FaithfulRun(cfg, owner, s, inputs)
    requires forall k :: 0 <= k < |inputs| ==> LostReply(c, inputs[k])
    requires i < |inputs|
    ensures var now := Run(cfg, s, inputs[..i]);
            FillsOrder(cfg, now, inputs[i], c) <==>
              && inputs[i].DealUpdate? && inputs[i].deal.tradeId == t && inputs[i].instrumentCached
              && WorksIn(now, c) && Heard(cfg, c, t, inputs[..i])
    ensures Heard(cfg, c, t, inputs[..i]) ==>
      exists j :: 0 <= j < i && (inputs[j].OrderUpdate? || inputs[j].StatusReports?) && Carries(cfg, c, t, inputs[j])
  {
    FillsExactly(cfg, owner, s, inputs, c, t, i);
    HeardMeans(cfg, c, t, inputs[..i]);
    if j: nat :| HeardAt(cfg, c, t, inputs[..i], j) {
      assert LostReply(c, inputs[j]) && Carries(cfg, c, t, inputs[j]);
    }
  }

  /** What a deal that is traced to an order generates: one fill of that order, with the deal's own quantity and price,
      under the order's venue id or else the trade id, and identified by the trade and the exchange sequence, or the
      deal's order number without one. */
  lemma FillSaysTheDeal(cfg: Config, s: State, d: Deal, c: ClientOrderId)
    requires c in s.cache && Resolve(cfg, s, d.tradeId, d.customField) == Some(c)
    ensures var next := AfterDeal(cfg, s, d, true);
            && s.log <= next.log && |next.log| == |s.log| + 1
            && next.log[|s.log|].id == c && next.log[|s.log|].event.Fill?
            && var fill := next.log[|s.log|].event;
               && fill.qty == d.quantity && fill.lastPx == d.price
               && fill.venueId == (if s.cache[c].venueId.Some? then s.cache[c].venueId.value else d.tradeId)
               && fill.fillId == d.tradeId + "-" + (if d.exchangeSeq.Some? && d.exchangeSeq.value != ""
                                                    then d.exchangeSeq.value else d.ordno)
  {
  }

  /** A deal fills an order through the map, or through the token of an open order. */
  lemma DealFillsExactly(cfg: Config, owner: Ownership, s: State, d: Deal, cached: bool,
                         c: ClientOrderId, t: TradeId)
    requires SixCharacterTokens(cfg) && OneTradeEach(owner) && owner(t) == Some(c)
    requires Agreement(cfg, owner, s) && Faithful(cfg, owner, s, DealUpdate(d, cached))
    ensures FillsOrder(cfg, s, DealUpdate(d, cached), c) <==>
      && d.tradeId == t && cached
      && (t in s.bind || (d.customField == Some(cfg.token(c)) && IsOpen(s, c)))
  {
    ResolveExactly(cfg, owner, s, d.tradeId, d.customField);
  }

  lemma OnlyDealsFill(cfg: Config, s: State, input: Input)
    requires !input.DealUpdate?
    ensures var next := Step(cfg, s, input);
            && s.log <= next.log
            && forall k :: |s.log| <= k < |next.log| ==> !next.log[k].event.Fill?
  {
    match input
    case SubmitOrder(request, instrument) =>
      var o := request.clientOrderId;
      VerdictNeverFills(s, o, NewOrder(request), Gate.Decide(request, instrument, cfg.decode, cfg.token(o)));
    case PlaceReply(o, reply) =>
    case OrderUpdate(e) =>
      var found := Resolve(cfg, s, e.orderId, e.customField);
      if found.Some? && found.value in s.cache {
        OrderEventNeverFills(Resolved(cfg, s, e.orderId, e.customField), found.value, e);
      }
    case StatusReports(q) =>
      RowsOnlyBind(cfg, s, q, 0);
    case Restart =>
  }

  lemma VerdictNeverFills(s: State, o: ClientOrderId, order: Order, v: Gate.Verdict)
    ensures var next := AfterVerdict(s, o, order, v);
            && s.log <= next.log
            && forall k :: |s.log| <= k < |next.log| ==> !next.log[k].event.Fill?
  {
  }

  lemma OrderEventNeverFills(s: State, o: ClientOrderId, e: OrderEvent)
    requires o in s.cache
    ensures var next := OnOrderEvent(s, o, e);
            && s.log <= next.log
            && forall k :: |s.log| <= k < |next.log| ==> !next.log[k].event.Fill?
  {
  }
}
