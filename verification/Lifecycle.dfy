/** Safety of the execution client over whole runs: the trade-id map never names a wrong order,
    it is a transparent cache, and orders move along legal paths exactly when place replies come in order. */
module Lifecycle {
  import opened Wrappers
  import opened Orders
  import opened Tokens
  import opened Correlation
  import Gate

  /** Which of this client's orders a venue trade came from; None for other people's trades. */
  type Ownership = TradeId -> Option<ClientOrderId>

  /** An order is placed at most once, so it owns at most one trade. */
  ghost predicate OneTradeEach(owner: Ownership) {
    forall t1, t2 :: owner(t1).Some? && owner(t1) == owner(t2) ==> t1 == t2
  }

  // ---------------------------------------------------------------- assumptions on the environment

  /** The venue echoes an order's token, or none, on the trades of that order, and never the token
      of a cached order on a foreign trade. A trade appears only after its order was sent. */
  ghost predicate Echoes(cfg: Config, owner: Ownership, s: State, t: TradeId, field: Option<string>) {
    match owner(t)
    case Some(c) => c in s.cache && (field.Some? && field.value != "" ==> field.value == cfg.token(c))
    case None => field.Some? ==> forall c :: c in s.cache ==> cfg.token(c) != field.value
  }

  ghost predicate Faithful(cfg: Config, owner: Ownership, s: State, input: Input) {
    match input
    case SubmitOrder(request, _) => forall c :: c in s.cache && c != request.clientOrderId ==>
      cfg.token(c) != cfg.token(request.clientOrderId)
    case PlaceReply(c, reply) => reply.Placed? && reply.tradeId.Some? ==> owner(reply.tradeId.value) == Some(c)
    case OrderUpdate(e) => Echoes(cfg, owner, s, e.orderId, e.customField)
    case DealUpdate(d, _) => Echoes(cfg, owner, s, d.tradeId, d.customField)
    case StatusReports(q) => forall i :: 0 <= i < |q.rows| && q.rows[i].tradeId.Some? ==>
      Echoes(cfg, owner, s, q.rows[i].tradeId.value, q.rows[i].customField)
    case Restart => true
  }

  ghost predicate FaithfulRun(cfg: Config, owner: Ownership, s: State, inputs: seq<Input>) {
    forall i :: 0 <= i < |inputs| ==> Faithful(cfg, owner, Run(cfg, s, inputs[..i]), inputs[i])
  }

  // ---------------------------------------------------------------- the map names the owner

  /** Past its first fill, or closed: such an order can no longer be rejected. */
  predicate PastFill(st: Status) {
    st != Initialized && st != Submitted && st != Accepted
  }

  ghost predicate OrderIsSane(owner: Ownership, c: ClientOrderId, o: Order) {
    && o.status != Initialized
    && (o.fillIds != {} ==> PastFill(o.status))
    && (o.venueId.Some? ==> owner(o.venueId.value) == Some(c))
  }

  ghost predicate Agreement(cfg: Config, owner: Ownership, s: State) {
    && (forall c1, c2 :: c1 in s.cache && c2 in s.cache && cfg.token(c1) == cfg.token(c2) ==> c1 == c2)
    && (forall c :: c in s.cache <==> c in s.listing)
    && (forall c :: c in s.cache ==> OrderIsSane(owner, c, s.cache[c]))
    && (forall t :: t in s.bind ==> owner(t) == Some(s.bind[t]) && s.bind[t] in s.cache)
  }

  /** A lookup finds the owner or nobody. It finds the owner exactly when the trade is bound,
      or a token comes with it and the owner is still open. */
  lemma ResolveExactly(cfg: Config, owner: Ownership, s: State, t: TradeId, field: Option<string>)
    requires Agreement(cfg, owner, s) && Echoes(cfg, owner, s, t, field)
    ensures var found := Resolve(cfg, s, t, field);
            && (found.Some? ==> found == owner(t) && found.value in s.cache)
            && (found.Some? <==> t in s.bind || (owner(t).Some? && field.Some? && field.value != ""
                                                 && !IsClosed(s.cache[owner(t).value].status)))
    ensures Agreement(cfg, owner, Resolved(cfg, s, t, field))
  {
    if t !in s.bind && field.Some? && field.value != "" {
      var found := Scan(cfg, s.cache, s.listing, field.value);
      if found.Some? {
        assert owner(t) == found;
      }
    }
  }

  lemma EmitKeepsAgreement(cfg: Config, owner: Ownership, s: State, c: ClientOrderId, e: Event)
    requires Agreement(cfg, owner, s) && c in s.cache
    requires e.Accept? || e.Fill? ==> owner(e.venueId) == Some(c)
    ensures Agreement(cfg, owner, Emit(s, c, e))
  {
  }

  lemma OnOrderEventKeepsAgreement(cfg: Config, owner: Ownership, s: State, c: ClientOrderId, e: OrderEvent)
    requires Agreement(cfg, owner, s) && c in s.cache
    ensures Agreement(cfg, owner, OnOrderEvent(s, c, e))
  {
    if e.opCode != "00" {
      EmitKeepsAgreement(cfg, owner, s, c, if e.opType == "New" then Reject
        else if e.opType == "Cancel" then CancelReject(e.orderId) else ModifyReject(e.orderId));
    } else if e.opType == "Cancel" {
      EmitKeepsAgreement(cfg, owner, s, c, Cancel(e.orderId));
    } else {
      EmitKeepsAgreement(cfg, owner, s, c, Update(e.orderId, e.orderQuantity,
        if e.modifiedPrice > 0 then Some(e.modifiedPrice) else s.cache[c].price));
    }
  }

  lemma OnDealKeepsAgreement(cfg: Config, owner: Ownership, s: State, c: ClientOrderId, d: Deal)
    requires Agreement(cfg, owner, s) && c in s.cache && owner(d.tradeId) == Some(c)
    ensures Agreement(cfg, owner, OnDeal(s, c, d))
  {
    EmitKeepsAgreement(cfg, owner, s, c, FillOf(s.cache[c], d));
  }

  lemma ReplyKeepsAgreement(cfg: Config, owner: Ownership, s: State, c: ClientOrderId, reply: Reply)
    requires Agreement(cfg, owner, s) && Faithful(cfg, owner, s, PlaceReply(c, reply))
    ensures Agreement(cfg, owner, AfterReply(s, c, reply))
  {
    if c in s.cache && !reply.TransportFailure? {
      if Refuses(reply) {
        EmitKeepsAgreement(cfg, owner, s, c, Reject);
      } else {
        AcceptKeepsAgreement(cfg, owner, s, c, reply.tradeId.value);
      }
    }
  }

  lemma AcceptKeepsAgreement(cfg: Config, owner: Ownership, s: State, c: ClientOrderId, t: TradeId)
    requires Agreement(cfg, owner, s) && c in s.cache && owner(t) == Some(c)
    ensures Agreement(cfg, owner, Emit(s.(bind := s.bind[t := c]), c, Accept(t)))
  {
    BindKeepsAgreement(cfg, owner, s, c, t);
    EmitKeepsAgreement(cfg, owner, s.(bind := s.bind[t := c]), c, Accept(t));
  }

  lemma BindKeepsAgreement(cfg: Config, owner: Ownership, s: State, c: ClientOrderId, t: TradeId)
    requires Agreement(cfg, owner, s) && c in s.cache && owner(t) == Some(c)
    ensures Agreement(cfg, owner, s.(bind := s.bind[t := c]))
  {
  }

  lemma {:induction false} RowsKeepAgreement(cfg: Config, owner: Ownership, s: State, q: Query, from: nat)
    requires from <= |q.rows|
    requires Agreement(cfg, owner, s) && Faithful(cfg, owner, s, StatusReports(q))
    ensures Agreement(cfg, owner, AfterRows(cfg, s, q, from).0)
    decreases |q.rows| - from
  {
    if from < |q.rows| {
      var row := q.rows[from];
      var found := s;
      if KindOf(q, row) == LooksUp {
        ResolveExactly(cfg, owner, s, row.tradeId.value, row.customField);
        found := Resolved(cfg, s, row.tradeId.value, row.customField);
      }
      RowsKeepAgreement(cfg, owner, found, q, from + 1);
    }
  }

  lemma VerdictKeepsAgreement(cfg: Config, owner: Ownership, s: State, c: ClientOrderId, o: Order, v: Gate.Verdict)
    requires Agreement(cfg, owner, s) && c !in s.cache && forall c' :: c' in s.cache ==> cfg.token(c') != cfg.token(c)
    requires o.status == Initialized && o.fillIds == {} && o.venueId == None
    ensures Agreement(cfg, owner, AfterVerdict(s, c, o, v))
  {
    var next := AfterVerdict(s, c, o, v);
    VerdictAdmits(s, c, o, v);
    AdmitKeepsAgreement(cfg, owner, s, c, next.cache[c], next.log);
  }

  lemma VerdictAdmits(s: State, c: ClientOrderId, o: Order, v: Gate.Verdict)
    requires c !in s.cache && o.status == Initialized
    ensures var next := AfterVerdict(s, c, o, v);
            && c in next.cache && next == State(s.bind, s.cache[c := next.cache[c]], s.listing + [c], next.log)
            && next.cache[c].status != Initialized
            && next.cache[c].fillIds == o.fillIds && next.cache[c].venueId == o.venueId
  {
  }

  lemma AdmitKeepsAgreement(cfg: Config, owner: Ownership, s: State, c: ClientOrderId, o: Order, log: seq<Entry>)
    requires Agreement(cfg, owner, s) && c !in s.cache && forall c' :: c' in s.cache ==> cfg.token(c') != cfg.token(c)
    requires OrderIsSane(owner, c, o)
    ensures Agreement(cfg, owner, State(s.bind, s.cache[c := o], s.listing + [c], log))
  {
  }

  /** Every step keeps the agreement, whatever the order of inputs. */
  lemma StepKeepsAgreement(cfg: Config, owner: Ownership, s: State, input: Input)
    requires Agreement(cfg, owner, s) && Faithful(cfg, owner, s, input)
    ensures Agreement(cfg, owner, Step(cfg, s, input))
  {
    match input
    case SubmitOrder(request, instrument) =>
      var c := request.clientOrderId;
      if c !in s.cache {
        VerdictKeepsAgreement(cfg, owner, s, c, NewOrder(request),
                              Gate.Decide(request, instrument, cfg.decode, cfg.token(c)));
      }
    case PlaceReply(c, reply) =>
      ReplyKeepsAgreement(cfg, owner, s, c, reply);
    case OrderUpdate(e) =>
      ResolveExactly(cfg, owner, s, e.orderId, e.customField);
      var found := Resolve(cfg, s, e.orderId, e.customField);
      if found.Some? {
        OnOrderEventKeepsAgreement(cfg, owner, Resolved(cfg, s, e.orderId, e.customField), found.value, e);
      }
    case DealUpdate(d, _) =>
      ResolveExactly(cfg, owner, s, d.tradeId, d.customField);
      var found := Resolve(cfg, s, d.tradeId, d.customField);
      if found.Some? {
        OnDealKeepsAgreement(cfg, owner, Resolved(cfg, s, d.tradeId, d.customField), found.value, d);
      }
    case StatusReports(q) =>
      RowsKeepAgreement(cfg, owner, s, q, 0);
    case Restart =>
  }

  lemma FaithfulPrefix(cfg: Config, owner: Ownership, s: State, inputs: seq<Input>, n: nat)
    requires FaithfulRun(cfg, owner, s, inputs) && n <= |inputs|
    ensures FaithfulRun(cfg, owner, s, inputs[..n])
  {
    forall i | 0 <= i < n
      ensures Faithful(cfg, owner, Run(cfg, s, inputs[..n][..i]), inputs[..n][i])
    {
      assert inputs[..n][..i] == inputs[..i];
    }
  }

  /** Under any interleaving of submits, replies, events, deals, reports and restarts,
      every entry of the map names the order that owns the trade. */
  lemma {:induction false} MapNamesTheOwner(cfg: Config, owner: Ownership, s: State, inputs: seq<Input>)
    requires Agreement(cfg, owner, s) && FaithfulRun(cfg, owner, s, inputs)
    ensures Agreement(cfg, owner, Run(cfg, s, inputs))
    ensures forall t :: t in Run(cfg, s, inputs).bind ==> owner(t) == Some(Run(cfg, s, inputs).bind[t])
    decreases |inputs|
  {
    if inputs != [] {
      var n := |inputs| - 1;
      FaithfulPrefix(cfg, owner, s, inputs, n);
      MapNamesTheOwner(cfg, owner, s, inputs[..n]);
      StepKeepsAgreement(cfg, owner, Run(cfg, s, inputs[..n]), inputs[n]);
    }
  }

  // ---------------------------------------------------------------- the map is a transparent cache

  /** An event carrying the token of an open cached order resolves to that order, just as a scan with no map
      would and in whatever order the cache lists its orders; at most that key changes. */
  ghost predicate Transparent(cfg: Config, owner: Ownership, s: State) {
    forall c, t, relisted ::
      IsOpen(s, c) && Echoes(cfg, owner, s, t, Some(cfg.token(c))) && Lists(relisted, s.cache) ==>
      var field := Some(cfg.token(c));
      && Resolve(cfg, s, t, field) == Some(c)
      && Resolve(cfg, s.(bind := map[], listing := relisted), t, field) == Some(c)
      && Resolved(cfg, s, t, field) == s.(bind := s.bind[t := c])
  }

  predicate IsOpen(s: State, c: ClientOrderId) {
    c in s.cache && !IsClosed(s.cache[c].status)
  }

  lemma MapIsTransparent(cfg: Config, owner: Ownership, start: State, inputs: seq<Input>)
    requires Agreement(cfg, owner, start) && FaithfulRun(cfg, owner, start, inputs) && SixCharacterTokens(cfg)
    ensures Transparent(cfg, owner, Run(cfg, start, inputs))
  {
    var s := Run(cfg, start, inputs);
    MapNamesTheOwner(cfg, owner, start, inputs);
    forall c, t, relisted | IsOpen(s, c) && Echoes(cfg, owner, s, t, Some(cfg.token(c))) && Lists(relisted, s.cache)
      ensures var field := Some(cfg.token(c));
              && Resolve(cfg, s, t, field) == Some(c)
              && Resolve(cfg, s.(bind := map[], listing := relisted), t, field) == Some(c)
              && Resolved(cfg, s, t, field) == s.(bind := s.bind[t := c])
    {
      TokenFindsItsOrder(cfg, owner, s, c, t, relisted);
    }
  }

  lemma TokenFindsItsOrder(cfg: Config, owner: Ownership, s: State, c: ClientOrderId, t: TradeId,
                           relisted: seq<ClientOrderId>)
    requires Agreement(cfg, owner, s) && SixCharacterTokens(cfg)
    requires IsOpen(s, c) && Echoes(cfg, owner, s, t, Some(cfg.token(c))) && Lists(relisted, s.cache)
    ensures var field := Some(cfg.token(c));
            && Resolve(cfg, s, t, field) == Some(c)
            && Resolve(cfg, s.(bind := map[], listing := relisted), t, field) == Some(c)
            && Resolved(cfg, s, t, field) == s.(bind := s.bind[t := c])
  {
    var field := Some(cfg.token(c));
    assert owner(t).Some?;
    ResolveExactly(cfg, owner, s, t, field);
    ResolveExactly(cfg, owner, s.(bind := map[], listing := relisted), t, field);
  }

  /** What the assumption of distinct tokens is worth: the scan finds an open order by its token, however the
      cache lists its orders, exactly when no other open order shares the token. */
  lemma TokenIdentifiesExactly(cfg: Config, cache: map<ClientOrderId, Order>, c: ClientOrderId)
    requires c in cache && !IsClosed(cache[c].status)
    ensures (forall listing :: Lists(listing, cache) ==> Scan(cfg, cache, listing, cfg.token(c)) == Some(c)) <==>
      forall o :: o in cache && !IsClosed(cache[o].status) && cfg.token(o) == cfg.token(c) ==> o == c
  {
    forall o | o in cache && o != c && !IsClosed(cache[o].status) && cfg.token(o) == cfg.token(c)
      ensures exists listing :: Lists(listing, cache) && Scan(cfg, cache, listing, cfg.token(c)) != Some(c)
    {
      var rest := ListOf(cache.Keys);
      assert Lists([o] + rest, cache) && Scan(cfg, cache, [o] + rest, cfg.token(c)) == Some(o);
    }
  }

  ghost predicate Lists(listing: seq<ClientOrderId>, cache: map<ClientOrderId, Order>) {
    forall o :: o in listing <==> o in cache
  }

  lemma {:induction false} ListOf(ids: set<ClientOrderId>) returns (listing: seq<ClientOrderId>)
    ensures forall o :: o in listing <==> o in ids
    decreases |ids|
  {
    listing := [];
    if o :| o in ids {
      var rest := ListOf(ids - {o});
      listing := [o] + rest;
    }
  }

  /** With the client's own tokens, two orders are confused exactly when their hashes have the same residues. */
  lemma OrdersCollideExactly(hash: ClientOrderId -> Hash, decode: Gate.TagDecoder, c1: ClientOrderId, c2: ClientOrderId)
    ensures var cfg := ClientConfig(hash, decode);
            cfg.token(c1) == cfg.token(c2) <==> SameResidues(hash(c1), hash(c2))
  {
    TokensCollideExactly(hash(c1), hash(c2));
  }

  // ---------------------------------------------------------------- events reach the right orders

  /** The event is about a trade of its order; submissions and rejections name no trade. */
  ghost predicate Attributed(owner: Ownership, c: ClientOrderId, e: Event) {
    e.Submit? || e.Reject? || owner(e.venueId) == Some(c)
  }

  ghost predicate AllAttributed(owner: Ownership, log: seq<Entry>) {
    forall i :: 0 <= i < |log| ==> Attributed(owner, log[i].id, log[i].event)
  }

  lemma OnOrderEventIsAttributed(owner: Ownership, s: State, c: ClientOrderId, e: OrderEvent)
    requires AllAttributed(owner, s.log) && c in s.cache && owner(e.orderId) == Some(c)
    ensures AllAttributed(owner, OnOrderEvent(s, c, e).log)
  {
  }

  lemma OnDealIsAttributed(owner: Ownership, s: State, c: ClientOrderId, d: Deal)
    requires AllAttributed(owner, s.log)
    requires c in s.cache && OrderIsSane(owner, c, s.cache[c]) && owner(d.tradeId) == Some(c)
    ensures AllAttributed(owner, OnDeal(s, c, d).log)
  {
  }

  lemma VerdictIsAttributed(owner: Ownership, s: State, c: ClientOrderId, o: Order, v: Gate.Verdict)
    requires AllAttributed(owner, s.log)
    ensures AllAttributed(owner, AfterVerdict(s, c, o, v).log)
  {
  }

  lemma ReplyIsAttributed(cfg: Config, owner: Ownership, s: State, c: ClientOrderId, reply: Reply)
    requires AllAttributed(owner, s.log) && Faithful(cfg, owner, s, PlaceReply(c, reply))
    ensures AllAttributed(owner, AfterReply(s, c, reply).log)
  {
  }

  lemma StepIsAttributed(cfg: Config, owner: Ownership, s: State, input: Input)
    requires Agreement(cfg, owner, s) && Faithful(cfg, owner, s, input) && AllAttributed(owner, s.log)
    ensures AllAttributed(owner, Step(cfg, s, input).log)
  {
    match input
    case SubmitOrder(request, instrument) =>
      var c := request.clientOrderId;
      VerdictIsAttributed(owner, s, c, NewOrder(request), Gate.Decide(request, instrument, cfg.decode, cfg.token(c)));
    case PlaceReply(c, reply) =>
      ReplyIsAttributed(cfg, owner, s, c, reply);
    case OrderUpdate(e) =>
      ResolveExactly(cfg, owner, s, e.orderId, e.customField);
      var found := Resolve(cfg, s, e.orderId, e.customField);
      if found.Some? {
        OnOrderEventIsAttributed(owner, Resolved(cfg, s, e.orderId, e.customField), found.value, e);
      }
    case DealUpdate(d, _) =>
      ResolveExactly(cfg, owner, s, d.tradeId, d.customField);
      var found := Resolve(cfg, s, d.tradeId, d.customField);
      if found.Some? {
        OnDealIsAttributed(owner, Resolved(cfg, s, d.tradeId, d.customField), found.value, d);
      }
    case StatusReports(q) =>
      RowsOnlyBind(cfg, s, q, 0);
    case Restart =>
  }

  /** Whatever the interleaving, timely or not, every event ever generated about a venue trade went to the
      order that owns the trade. */
  lemma {:induction false} EventsReachTheirOrders(cfg: Config, owner: Ownership, s: State, inputs: seq<Input>)
    requires Agreement(cfg, owner, s) && FaithfulRun(cfg, owner, s, inputs) && AllAttributed(owner, s.log)
    ensures AllAttributed(owner, Run(cfg, s, inputs).log)
    decreases |inputs|
  {
    if inputs != [] {
      var n := |inputs| - 1;
      FaithfulPrefix(cfg, owner, s, inputs, n);
      MapNamesTheOwner(cfg, owner, s, inputs[..n]);
      EventsReachTheirOrders(cfg, owner, s, inputs[..n]);
      StepIsAttributed(cfg, owner, Run(cfg, s, inputs[..n]), inputs[n]);
    }
  }

  // ---------------------------------------------------------------- events mean what the venue says

  predicate IsUpdate(e: OrderEvent) {
    e.opType == "UpdatePrice" || e.opType == "UpdateQty"
  }

  /** A working order leaves its working state exactly on a confirmed cancel or on a failed placement it has no fills
      from; it changes its terms exactly on a confirmed update; a failed cancel or update is reported and changes
      nothing. */
  lemma OrderEventOutcome(s: State, c: ClientOrderId, e: OrderEvent)
    requires c in s.cache && IsWorking(s.cache[c].status)
    ensures var next := OnOrderEvent(s, c, e);
            var before, after := s.cache[c], next.cache[c];
            && s.log <= next.log && |next.log| <= |s.log| + 1
            && (after.status == Canceled <==> e.opCode == "00" && e.opType == "Cancel")
            && (after.status == Rejected <==> e.opCode != "00" && e.opType == "New" && before.status != PartiallyFilled)
            && (after.status !in {Canceled, Rejected} ==> after.status == before.status && next.bind == s.bind)
            && (after.status in {Canceled, Rejected} ==> next.bind == s.bind - {e.orderId})
            && after.filledQty == before.filledQty && after.fillIds == before.fillIds && after.venueId == before.venueId
    ensures var next := OnOrderEvent(s, c, e);
            var confirmed := e.opCode == "00" && IsUpdate(e) && e.instrumentCached;
            && next.cache[c].quantity == (if confirmed then e.orderQuantity else s.cache[c].quantity)
            && next.cache[c].price ==
                 (if confirmed && e.modifiedPrice > 0 then Some(e.modifiedPrice) else s.cache[c].price)
    ensures var next := OnOrderEvent(s, c, e);
            var news := next.log[|s.log|..];
            && ((exists n :: n in news && n.event.CancelReject?) <==> e.opCode != "00" && e.opType == "Cancel")
            && ((exists n :: n in news && n.event.ModifyReject?) <==> e.opCode != "00" && IsUpdate(e))
            && forall n :: n in news ==> n.id == c && (n.event.Reject? || n.event.venueId == e.orderId)
  {
    var next := OnOrderEvent(s, c, e);
    if next.log != s.log {
      assert next.log[|s.log|..] == [next.log[|s.log|]];
      assert next.log[|s.log|] in next.log[|s.log|..];
    }
  }

  /** A placement that fails after fills is ignored. */
  lemma LateFailureIsIgnored(s: State, c: ClientOrderId, e: OrderEvent)
    requires c in s.cache && s.cache[c].status in {PartiallyFilled, Filled}
    requires e.opCode != "00" && e.opType == "New"
    ensures OnOrderEvent(s, c, e) == s
  {
  }

  /** A new order enters the cache with its request's terms, nothing filled and no venue id: submitted if its request
      leaves, and rejected if not. Nothing else changes. */
  lemma SubmitOutcome(cfg: Config, s: State, request: Gate.OrderRequest, instrument: Option<Gate.Instrument>)
    requires request.clientOrderId !in s.cache
    ensures var c := request.clientOrderId;
            var next := AfterSubmit(cfg, s, request, instrument);
            var leaves := Gate.TaiwanRules(request, instrument, Gate.FromTags(request.tags, cfg.decode));
            && next.bind == s.bind && next.listing == s.listing + [c]
            && next.cache == s.cache[c := Order(if leaves then Submitted else Rejected, request.quantity, request.price,
                                                0, {}, None)]
  {
    var c := request.clientOrderId;
    VerdictOutcome(s, c, NewOrder(request), Gate.Decide(request, instrument, cfg.decode, cfg.token(c)));
  }

  lemma VerdictOutcome(s: State, c: ClientOrderId, o: Order, v: Gate.Verdict)
    requires c !in s.cache && o.status == Initialized
    ensures AfterVerdict(s, c, o, v).cache == s.cache[c := o.(status := if v.Place? then Submitted else Rejected)]
    ensures AfterVerdict(s, c, o, v).bind == s.bind && AfterVerdict(s, c, o, v).listing == s.listing + [c]
  {
  }

  /** The reply turns a placement down: an error, no trade id, or the status Failed, alone or after a dot. */
  ghost predicate TurnsDown(reply: Reply) {
    || reply.BusinessError?
    || (reply.Placed? && reply.tradeId == None)
    || (reply.Placed? && Names(reply.status, "Failed"))
  }

  lemma RefusesExactly(reply: Reply)
    ensures Refuses(reply) <==> TurnsDown(reply)
  {
    if reply.Placed? {
      StatusKeyNames(reply.status, "Failed");
      FailedKey(StatusKey(reply.status));
    }
  }

  lemma FailedKey(key: string)
    ensures StatusByKey(key) == Some(AsRejected) <==> key == "Failed"
  {
  }

  /** The reply to a placement decides a submitted order: turned down it is rejected, otherwise accepted and bound, or
      after a transport failure left as it is, because the venue may be working it. */
  lemma ReplyOutcome(s: State, c: ClientOrderId, reply: Reply)
    requires c in s.cache && s.cache[c].status == Submitted
    ensures var next := AfterReply(s, c, reply);
            && (next == s <==> reply.TransportFailure?)
            && (next.cache[c].status == Rejected <==> TurnsDown(reply))
            && (next.cache[c].status == Accepted <==> reply.Placed? && !TurnsDown(reply))
            && (TurnsDown(reply) ==> next.bind == s.bind)
            && (reply.Placed? && !TurnsDown(reply) ==>
                  && reply.tradeId.Some? && next.cache[c].venueId == reply.tradeId
                  && next.bind == s.bind[reply.tradeId.value := c])
  {
    RefusesExactly(reply);
    assert AfterReply(s, c, reply).cache[c].status == Submitted <==> reply.TransportFailure?;
  }

  // ---------------------------------------------------------------- legal lifecycles

  ghost predicate BoundOrdersWork(s: State) {
    forall t :: t in s.bind ==> s.bind[t] in s.cache && IsWorking(s.cache[s.bind[t]].status)
  }

  ghost predicate LegalEntries(log: seq<Entry>, from: nat) {
    forall i :: from <= i < |log| ==> Permits(log[i].before, log[i].event)
  }

  /** From `s` to `next` only legal events were generated, and no closed order is left bound. */
  ghost predicate SoundChange(s: State, next: State) {
    s.log <= next.log && LegalEntries(next.log, |s.log|) && BoundOrdersWork(next)
  }

  /** A step generates only legal events and leaves no closed order bound. */
  ghost predicate SoundStep(cfg: Config, s: State, input: Input) {
    SoundChange(s, Step(cfg, s, input))
  }

  /** What the caller can see before the reply of a placement is processed: the order has not moved on. */
  ghost predicate Timely(s: State, input: Input) {
    input.PlaceReply? && input.id in s.cache && !input.reply.TransportFailure? ==>
      if Refuses(input.reply) then
        && s.cache[input.id].status in {Submitted, Accepted}
        && forall t :: t in s.bind ==> s.bind[t] != input.id
      else
        s.cache[input.id].status == Submitted
  }

  lemma ReplyIsSoundExactly(cfg: Config, owner: Ownership, s: State, c: ClientOrderId, reply: Reply)
    requires Agreement(cfg, owner, s) && BoundOrdersWork(s)
    ensures SoundStep(cfg, s, PlaceReply(c, reply)) <==> Timely(s, PlaceReply(c, reply))
  {
    if c in s.cache && !reply.TransportFailure? {
      if Refuses(reply) {
        RejectIsSoundExactly(s, c);
      } else {
        AcceptIsSoundExactly(s, c, reply.tradeId.value);
      }
    }
  }

  lemma RejectIsSoundExactly(s: State, c: ClientOrderId)
    requires BoundOrdersWork(s) && c in s.cache && s.cache[c].status != Initialized
    ensures SoundChange(s, Emit(s, c, Reject)) <==>
      s.cache[c].status in {Submitted, Accepted} && forall t :: t in s.bind ==> s.bind[t] != c
  {
    var next := Emit(s, c, Reject);
    assert next.log[|s.log|] == Entry(c, Reject, s.cache[c].status, Apply(s.cache[c], Reject).status);
    assert forall t :: t in s.bind ==> next.bind[t] == s.bind[t];
  }

  lemma AcceptIsSoundExactly(s: State, c: ClientOrderId, t: TradeId)
    requires BoundOrdersWork(s) && c in s.cache
    ensures SoundChange(s, Emit(s.(bind := s.bind[t := c]), c, Accept(t))) <==> s.cache[c].status == Submitted
  {
    var next := Emit(s.(bind := s.bind[t := c]), c, Accept(t));
    assert next.log[|s.log|] == Entry(c, Accept(t), s.cache[c].status, Apply(s.cache[c], Accept(t)).status);
    assert next.bind[t] == c;
  }

  /** Generating a legal event about the owner of `t` is sound if the order stays open or `t` is unbound with it. */
  lemma EmitIsSound(cfg: Config, owner: Ownership, s: State, c: ClientOrderId, e: Event, t: TradeId, next: State)
    requires OneTradeEach(owner) && Agreement(cfg, owner, s) && BoundOrdersWork(s)
    requires c in s.cache && owner(t) == Some(c) && Permits(s.cache[c].status, e)
    requires next == Unbind(Emit(s, c, e), t) || (next == Emit(s, c, e) && IsWorking(Apply(s.cache[c], e).status))
    ensures SoundChange(s, next)
  {
    forall t' | t' in next.bind
      ensures next.bind[t'] in next.cache && IsWorking(next.cache[next.bind[t']].status)
    {
      assert owner(t') == Some(s.bind[t']);
    }
  }

  lemma OnOrderEventIsSound(cfg: Config, owner: Ownership, s: State, c: ClientOrderId, e: OrderEvent)
    requires OneTradeEach(owner) && Agreement(cfg, owner, s) && BoundOrdersWork(s)
    requires c in s.cache && owner(e.orderId) == Some(c) && IsWorking(s.cache[c].status)
    ensures SoundChange(s, OnOrderEvent(s, c, e))
  {
    var t := e.orderId;
    var next := OnOrderEvent(s, c, e);
    if e.opCode != "00" {
      if e.opType == "New" && s.cache[c].status != PartiallyFilled {
        EmitIsSound(cfg, owner, s, c, Reject, t, next);
      } else if e.opType == "Cancel" {
        EmitIsSound(cfg, owner, s, c, CancelReject(t), t, next);
      } else if e.opType in {"UpdatePrice", "UpdateQty"} {
        EmitIsSound(cfg, owner, s, c, ModifyReject(t), t, next);
      }
    } else if e.opType == "Cancel" {
      EmitIsSound(cfg, owner, s, c, Cancel(t), t, next);
    } else if e.opType in {"UpdatePrice", "UpdateQty"} && e.instrumentCached {
      EmitIsSound(cfg, owner, s, c, Update(t, e.orderQuantity,
        if e.modifiedPrice > 0 then Some(e.modifiedPrice) else s.cache[c].price), t, next);
    }
  }

  lemma OrderEventIsSound(cfg: Config, owner: Ownership, s: State, e: OrderEvent)
    requires OneTradeEach(owner) && Agreement(cfg, owner, s) && BoundOrdersWork(s)
    requires Faithful(cfg, owner, s, OrderUpdate(e))
    ensures SoundStep(cfg, s, OrderUpdate(e))
  {
    ResolveExactly(cfg, owner, s, e.orderId, e.customField);
    var found := Resolve(cfg, s, e.orderId, e.customField);
    if found.Some? {
      OnOrderEventIsSound(cfg, owner, Resolved(cfg, s, e.orderId, e.customField), found.value, e);
    }
  }

  lemma DealIsSound(cfg: Config, owner: Ownership, s: State, d: Deal, cached: bool)
    requires OneTradeEach(owner) && Agreement(cfg, owner, s) && BoundOrdersWork(s)
    requires Faithful(cfg, owner, s, DealUpdate(d, cached))
    ensures SoundStep(cfg, s, DealUpdate(d, cached))
  {
    ResolveExactly(cfg, owner, s, d.tradeId, d.customField);
    var found := Resolve(cfg, s, d.tradeId, d.customField);
    if found.Some? && cached {
      OnDealIsSound(cfg, owner, Resolved(cfg, s, d.tradeId, d.customField), found.value, d);
    }
  }

  lemma OnDealIsSound(cfg: Config, owner: Ownership, s: State, c: ClientOrderId, d: Deal)
    requires OneTradeEach(owner) && Agreement(cfg, owner, s) && BoundOrdersWork(s)
    requires c in s.cache && owner(d.tradeId) == Some(c) && IsWorking(s.cache[c].status)
    ensures SoundChange(s, OnDeal(s, c, d))
  {
    EmitIsSound(cfg, owner, s, c, FillOf(s.cache[c], d), d.tradeId, OnDeal(s, c, d));
  }

  lemma {:induction false} RowsAreSound(cfg: Config, owner: Ownership, s: State, q: Query, from: nat)
    requires from <= |q.rows|
    requires Agreement(cfg, owner, s) && BoundOrdersWork(s) && Faithful(cfg, owner, s, StatusReports(q))
    ensures var next := AfterRows(cfg, s, q, from).0;
            BoundOrdersWork(next) && next.log == s.log && next.cache == s.cache
    decreases |q.rows| - from
  {
    if from < |q.rows| {
      var row := q.rows[from];
      var found := s;
      if KindOf(q, row) == LooksUp {
        ResolveExactly(cfg, owner, s, row.tradeId.value, row.customField);
        found := Resolved(cfg, s, row.tradeId.value, row.customField);
      }
      RowsAreSound(cfg, owner, found, q, from + 1);
    }
  }

  /** Given a sound past, a step is sound exactly when it is timely. */
  lemma StepIsSoundExactly(cfg: Config, owner: Ownership, s: State, input: Input)
    requires OneTradeEach(owner) && Agreement(cfg, owner, s) && BoundOrdersWork(s)
    requires Faithful(cfg, owner, s, input)
    ensures SoundStep(cfg, s, input) <==> Timely(s, input)
  {
    match input
    case SubmitOrder(request, instrument) =>
    case PlaceReply(c, reply) =>
      ReplyIsSoundExactly(cfg, owner, s, c, reply);
    case OrderUpdate(e) =>
      OrderEventIsSound(cfg, owner, s, e);
    case DealUpdate(d, cached) =>
      DealIsSound(cfg, owner, s, d, cached);
    case StatusReports(q) =>
      RowsAreSound(cfg, owner, s, q, 0);
    case Restart =>
  }

  ghost predicate SoundRun(cfg: Config, s: State, inputs: seq<Input>) {
    forall i :: 0 <= i < |inputs| ==> SoundStep(cfg, Run(cfg, s, inputs[..i]), inputs[i])
  }

  ghost predicate TimelyRun(cfg: Config, s: State, inputs: seq<Input>) {
    forall i :: 0 <= i < |inputs| ==> Timely(Run(cfg, s, inputs[..i]), inputs[i])
  }

  lemma RunPrefix(cfg: Config, s: State, inputs: seq<Input>, n: nat)
    requires n < |inputs|
    ensures Run(cfg, s, inputs[..n + 1]) == Step(cfg, Run(cfg, s, inputs[..n]), inputs[n])
  {
    assert inputs[..n + 1][..n] == inputs[..n];
  }

  /** As long as the steps so far were sound or timely, the bound orders work. */
  lemma {:induction false} BoundOrdersWorkSoFar(cfg: Config, owner: Ownership, s: State, inputs: seq<Input>, n: nat)
    requires OneTradeEach(owner) && Agreement(cfg, owner, s) && BoundOrdersWork(s)
    requires FaithfulRun(cfg, owner, s, inputs) && n <= |inputs|
    requires forall i :: 0 <= i < n ==>
      SoundStep(cfg, Run(cfg, s, inputs[..i]), inputs[i]) || Timely(Run(cfg, s, inputs[..i]), inputs[i])
    ensures Agreement(cfg, owner, Run(cfg, s, inputs[..n])) && BoundOrdersWork(Run(cfg, s, inputs[..n]))
    decreases n
  {
    FaithfulPrefix(cfg, owner, s, inputs, n);
    MapNamesTheOwner(cfg, owner, s, inputs[..n]);
    if n > 0 {
      BoundOrdersWorkSoFar(cfg, owner, s, inputs, n - 1);
      StepIsSoundExactly(cfg, owner, Run(cfg, s, inputs[..n - 1]), inputs[n - 1]);
      RunPrefix(cfg, s, inputs, n - 1);
    }
  }

  /** A whole run generates only legal events and keeps closed orders unbound exactly when every place
      reply is processed before its order has moved on. */
  lemma RunIsSoundExactly(cfg: Config, owner: Ownership, s: State, inputs: seq<Input>)
    requires OneTradeEach(owner) && Agreement(cfg, owner, s) && BoundOrdersWork(s)
    requires FaithfulRun(cfg, owner, s, inputs)
    ensures SoundRun(cfg, s, inputs) <==> TimelyRun(cfg, s, inputs)
  {
    if SoundRun(cfg, s, inputs) || TimelyRun(cfg, s, inputs) {
      forall n | 0 <= n < |inputs|
        ensures SoundStep(cfg, Run(cfg, s, inputs[..n]), inputs[n]) <==> Timely(Run(cfg, s, inputs[..n]), inputs[n])
      {
        BoundOrdersWorkSoFar(cfg, owner, s, inputs, n);
        StepIsSoundExactly(cfg, owner, Run(cfg, s, inputs[..n]), inputs[n]);
      }
    }
  }

  // ---------------------------------------------------------------- replies that come first

  /** What can move an order on: a reply to it, or an event, a deal or a row of its trade. */
  ghost predicate Touches(owner: Ownership, c: ClientOrderId, input: Input) {
    match input
    case PlaceReply(o, reply) => o == c && !reply.TransportFailure?
    case OrderUpdate(e) => owner(e.orderId) == Some(c)
    case DealUpdate(d, _) => owner(d.tradeId) == Some(c)
    case StatusReports(q) => exists i :: 0 <= i < |q.rows| && RowOf(owner, c, q.rows[i])
    case _ => false
  }

  ghost predicate RowOf(owner: Ownership, c: ClientOrderId, row: TradeRow) {
    row.tradeId.Some? && owner(row.tradeId.value) == Some(c)
  }

  /** If the input submits `c`, the gate lets its request leave. */
  predicate LetsLeave(cfg: Config, c: ClientOrderId, input: Input) {
    input.SubmitOrder? && input.request.clientOrderId == c ==>
      Gate.Decide(input.request, input.instrument, cfg.decode, cfg.token(c)).Place?
  }

  predicate Answers(input: Input) {
    input.PlaceReply? && !input.reply.TransportFailure?
  }

  /** Seen from the inputs alone: an order is answered at most once, after a request that left, and before
      everything else about its trade. */
  ghost predicate RepliesComeFirst(cfg: Config, owner: Ownership, inputs: seq<Input>) {
    forall j, i :: 0 <= j < i < |inputs| && Answers(inputs[i]) ==>
      !Touches(owner, inputs[i].id, inputs[j]) && LetsLeave(cfg, inputs[i].id, inputs[j])
  }

  /** Sent if at all, and nothing heard of it yet. */
  ghost predicate Untouched(s: State, c: ClientOrderId) {
    && (c in s.cache ==> s.cache[c].status == Submitted)
    && forall t :: t in s.bind ==> s.bind[t] != c
  }

  lemma {:induction false} RowsBindTheirTrades(cfg: Config, s: State, q: Query, from: nat, t: TradeId)
    requires from <= |q.rows| && t in AfterRows(cfg, s, q, from).0.bind
    ensures t in s.bind || exists i :: from <= i < |q.rows| && q.rows[i].tradeId == Some(t)
    decreases |q.rows| - from
  {
    if from < |q.rows| && KindOf(q, q.rows[from]) != Raises {
      var row := q.rows[from];
      var found := if KindOf(q, row) == LooksUp then Resolved(cfg, s, row.tradeId.value, row.customField) else s;
      if KindOf(q, row) == Skipped || Reportable(row) {
        RowsBindTheirTrades(cfg, found, q, from + 1, t);
      }
    }
  }

  lemma RowsKeepUntouched(cfg: Config, owner: Ownership, s: State, q: Query, c: ClientOrderId)
    requires Agreement(cfg, owner, s) && Faithful(cfg, owner, s, StatusReports(q))
    requires Untouched(s, c) && !Touches(owner, c, StatusReports(q))
    ensures Untouched(AfterRows(cfg, s, q, 0).0, c)
  {
    var next := AfterRows(cfg, s, q, 0).0;
    RowsOnlyBind(cfg, s, q, 0);
    RowsKeepAgreement(cfg, owner, s, q, 0);
    forall t | t in next.bind
      ensures next.bind[t] != c
    {
      RowsBindTheirTrades(cfg, s, q, 0, t);
      assert t in s.bind ==> owner(t) == Some(s.bind[t]);
      assert owner(t) == Some(next.bind[t]);
    }
  }

  lemma OrderEventKeepsUntouched(s: State, o: ClientOrderId, e: OrderEvent, c: ClientOrderId)
    requires o in s.cache && o != c && Untouched(s, c)
    ensures Untouched(OnOrderEvent(s, o, e), c)
  {
  }

  lemma StepKeepsUntouched(cfg: Config, owner: Ownership, s: State, input: Input, c: ClientOrderId)
    requires Agreement(cfg, owner, s) && Faithful(cfg, owner, s, input)
    requires Untouched(s, c) && !Touches(owner, c, input) && LetsLeave(cfg, c, input)
    ensures Untouched(Step(cfg, s, input), c)
  {
    match input
    case SubmitOrder(request, instrument) =>
      var o := request.clientOrderId;
      VerdictKeepsUntouched(s, o, NewOrder(request), Gate.Decide(request, instrument, cfg.decode, cfg.token(o)), c);
    case PlaceReply(o, reply) =>
    case OrderUpdate(e) =>
      ResolveExactly(cfg, owner, s, e.orderId, e.customField);
      var found := Resolve(cfg, s, e.orderId, e.customField);
      if found.Some? {
        OrderEventKeepsUntouched(Resolved(cfg, s, e.orderId, e.customField), found.value, e, c);
      }
    case DealUpdate(d, _) =>
      ResolveExactly(cfg, owner, s, d.tradeId, d.customField);
    case StatusReports(q) =>
      RowsKeepUntouched(cfg, owner, s, q, c);
    case Restart =>
  }

  lemma VerdictKeepsUntouched(s: State, o: ClientOrderId, order: Order, v: Gate.Verdict, c: ClientOrderId)
    requires Untouched(s, c) && (o == c ==> v.Place? && order.status == Initialized)
    ensures Untouched(AfterVerdict(s, o, order, v), c)
  {
  }

  /** None of the first `n` inputs touches `c`. */
  ghost predicate LeftAlone(cfg: Config, owner: Ownership, inputs: seq<Input>, n: nat, c: ClientOrderId)
    requires n <= |inputs|
  {
    n > 0 ==>
      && LeftAlone(cfg, owner, inputs, n - 1, c)
      && !Touches(owner, c, inputs[n - 1]) && LetsLeave(cfg, c, inputs[n - 1])
  }

  lemma {:induction false} LeftAloneMeans(cfg: Config, owner: Ownership, inputs: seq<Input>, n: nat, c: ClientOrderId)
    requires n <= |inputs|
    requires forall j :: 0 <= j < n ==> !Touches(owner, c, inputs[j]) && LetsLeave(cfg, c, inputs[j])
    ensures LeftAlone(cfg, owner, inputs, n, c)
  {
    if n > 0 {
      LeftAloneMeans(cfg, owner, inputs, n - 1, c);
    }
  }

  lemma {:induction false} UntouchedSoFar(cfg: Config, owner: Ownership, s: State, inputs: seq<Input>, n: nat,
                                          c: ClientOrderId)
    requires Agreement(cfg, owner, s) && FaithfulRun(cfg, owner, s, inputs) && Untouched(s, c)
    requires n <= |inputs| && LeftAlone(cfg, owner, inputs, n, c)
    ensures Untouched(Run(cfg, s, inputs[..n]), c)
    decreases n
  {
    if n > 0 {
      UntouchedSoFar(cfg, owner, s, inputs, n - 1, c);
      FaithfulPrefix(cfg, owner, s, inputs, n - 1);
      MapNamesTheOwner(cfg, owner, s, inputs[..n - 1]);
      RunPrefix(cfg, s, inputs, n - 1);
      StepKeepsUntouched(cfg, owner, Run(cfg, s, inputs[..n - 1]), inputs[n - 1], c);
    }
  }

  /** A run whose replies come first is timely, and so sound. */
  lemma RepliesThatComeFirstAreTimely(cfg: Config, owner: Ownership, s: State, inputs: seq<Input>)
    requires Agreement(cfg, owner, s) && FaithfulRun(cfg, owner, s, inputs)
    requires RepliesComeFirst(cfg, owner, inputs)
    requires forall i :: 0 <= i < |inputs| && Answers(inputs[i]) ==> Untouched(s, inputs[i].id)
    ensures TimelyRun(cfg, s, inputs)
  {
    forall i | 0 <= i < |inputs|
      ensures Timely(Run(cfg, s, inputs[..i]), inputs[i])
    {
      if Answers(inputs[i]) {
        LeftAloneMeans(cfg, owner, inputs, i, inputs[i].id);
        UntouchedSoFar(cfg, owner, s, inputs, i, inputs[i].id);
      }
    }
  }

  // ---------------------------------------------------------------- what a legal log means

  /** Nothing follows the event that closed an order, and no rejection follows a fill. */
  ghost predicate LegalPaths(log: seq<Entry>) {
    forall i, j :: 0 <= i < j < |log| && log[i].id == log[j].id ==>
      && !IsClosed(log[i].after)
      && (log[i].event.Fill? ==> !log[j].event.Reject?)
  }

  /** What an earlier entry of an order says about its status ever after. */
  ghost predicate Allows(earlier: Entry, later: Status) {
    && (IsClosed(earlier.after) ==> IsClosed(later))
    && (earlier.event.Fill? && Permits(earlier.before, earlier.event) ==> PastFill(later))
  }

  ghost predicate Chained(s: State) {
    && (forall i :: 0 <= i < |s.log| ==> s.log[i].id in s.cache && Allows(s.log[i], s.cache[s.log[i].id].status))
    && (forall i, j :: 0 <= i < j < |s.log| && s.log[i].id == s.log[j].id ==> Allows(s.log[i], s.log[j].before))
  }

  lemma ChainedAndLegal(s: State)
    requires Chained(s) && LegalEntries(s.log, 0)
    ensures LegalPaths(s.log)
  {
  }

  lemma EmitKeepsChained(s: State, c: ClientOrderId, e: Event)
    requires Chained(s) && c in s.cache && (s.cache[c].fillIds != {} ==> PastFill(s.cache[c].status))
    ensures Chained(Emit(s, c, e))
  {
    var next := Emit(s, c, e);
    assert forall i :: 0 <= i < |s.log| ==> next.log[i] == s.log[i];
  }

  lemma VerdictKeepsChained(s: State, c: ClientOrderId, o: Order, v: Gate.Verdict)
    requires Chained(s) && c !in s.cache && o.fillIds == {}
    ensures Chained(AfterVerdict(s, c, o, v))
  {
    var added := s.(cache := s.cache[c := o], listing := s.listing + [c]);
    EmitKeepsChained(added, c, Submit);
    EmitKeepsChained(added, c, Reject);
    EmitKeepsChained(Emit(added, c, Submit), c, Reject);
  }

  lemma ReplyKeepsChained(s: State, c: ClientOrderId, reply: Reply)
    requires Chained(s) && c in s.cache && (s.cache[c].fillIds != {} ==> PastFill(s.cache[c].status))
    ensures Chained(AfterReply(s, c, reply))
  {
    if Refuses(reply) {
      EmitKeepsChained(s, c, Reject);
    } else if reply.Placed? {
      EmitKeepsChained(s.(bind := s.bind[reply.tradeId.value := c]), c, Accept(reply.tradeId.value));
    }
  }

  lemma StepKeepsChained(cfg: Config, owner: Ownership, s: State, input: Input)
    requires Agreement(cfg, owner, s) && Chained(s) && Faithful(cfg, owner, s, input)
    ensures Chained(Step(cfg, s, input))
  {
    match input
    case SubmitOrder(request, instrument) =>
      var c := request.clientOrderId;
      if c !in s.cache {
        VerdictKeepsChained(s, c, NewOrder(request), Gate.Decide(request, instrument, cfg.decode, cfg.token(c)));
      }
    case PlaceReply(c, reply) =>
      if c in s.cache {
        ReplyKeepsChained(s, c, reply);
      }
    case OrderUpdate(e) =>
      OrderEventKeepsChained(cfg, owner, s, e);
    case DealUpdate(d, cached) =>
      DealKeepsChained(cfg, owner, s, d, cached);
    case StatusReports(q) =>
      RowsOnlyBind(cfg, s, q, 0);
    case Restart =>
  }

  lemma OrderEventKeepsChained(cfg: Config, owner: Ownership, s: State, e: OrderEvent)
    requires Agreement(cfg, owner, s) && Chained(s) && Faithful(cfg, owner, s, OrderUpdate(e))
    ensures Chained(AfterOrderEvent(cfg, s, e))
  {
    ResolveExactly(cfg, owner, s, e.orderId, e.customField);
    var found := Resolve(cfg, s, e.orderId, e.customField);
    if found.Some? {
      OnOrderEventKeepsChained(Resolved(cfg, s, e.orderId, e.customField), found.value, e);
    }
  }

  lemma DealKeepsChained(cfg: Config, owner: Ownership, s: State, d: Deal, cached: bool)
    requires Agreement(cfg, owner, s) && Chained(s) && Faithful(cfg, owner, s, DealUpdate(d, cached))
    ensures Chained(AfterDeal(cfg, s, d, cached))
  {
    ResolveExactly(cfg, owner, s, d.tradeId, d.customField);
    var found := Resolve(cfg, s, d.tradeId, d.customField);
    if found.Some? {
      EmitKeepsChained(Resolved(cfg, s, d.tradeId, d.customField), found.value, FillOf(s.cache[found.value], d));
    }
  }

  lemma OnOrderEventKeepsChained(s: State, c: ClientOrderId, e: OrderEvent)
    requires Chained(s) && c in s.cache && (s.cache[c].fillIds != {} ==> PastFill(s.cache[c].status))
    ensures Chained(OnOrderEvent(s, c, e))
  {
    EmitKeepsChained(s, c, Reject);
    EmitKeepsChained(s, c, Cancel(e.orderId));
    EmitKeepsChained(s, c, CancelReject(e.orderId));
    EmitKeepsChained(s, c, ModifyReject(e.orderId));
    EmitKeepsChained(s, c, Update(e.orderId, e.orderQuantity,
      if e.modifiedPrice > 0 then Some(e.modifiedPrice) else s.cache[c].price));
  }

  lemma {:induction false} RowsOnlyBind(cfg: Config, s: State, q: Query, from: nat)
    requires from <= |q.rows|
    ensures AfterRows(cfg, s, q, from).0 == s.(bind := AfterRows(cfg, s, q, from).0.bind)
    decreases |q.rows| - from
  {
    if from < |q.rows| {
      var row := q.rows[from];
      RowsOnlyBind(cfg, if KindOf(q, row) == LooksUp then Resolved(cfg, s, row.tradeId.value, row.customField) else s,
                   q, from + 1);
    }
  }

  lemma {:induction false} RowsUnbindNothing(cfg: Config, s: State, q: Query, from: nat, t: TradeId)
    requires from <= |q.rows| && t in s.bind
    ensures t in AfterRows(cfg, s, q, from).0.bind
    decreases |q.rows| - from
  {
    if from < |q.rows| {
      var row := q.rows[from];
      var found := if KindOf(q, row) == LooksUp then Resolved(cfg, s, row.tradeId.value, row.customField) else s;
      RowsUnbindNothing(cfg, found, q, from + 1, t);
    }
  }

  /** A timely run from a fresh log moves every order along a legal path and binds only working orders. */
  lemma TimelyRunsAreLegal(cfg: Config, owner: Ownership, s: State, inputs: seq<Input>)
    requires OneTradeEach(owner) && Agreement(cfg, owner, s) && BoundOrdersWork(s) && s.log == []
    requires FaithfulRun(cfg, owner, s, inputs) && TimelyRun(cfg, s, inputs)
    ensures LegalPaths(Run(cfg, s, inputs).log) && BoundOrdersWork(Run(cfg, s, inputs))
  {
    RunIsSoundExactly(cfg, owner, s, inputs);
    SoundRunsAreChained(cfg, owner, s, inputs);
    BoundOrdersWorkSoFar(cfg, owner, s, inputs, |inputs|);
    assert inputs[..|inputs|] == inputs;
    ChainedAndLegal(Run(cfg, s, inputs));
  }

  lemma {:induction false} SoundRunsAreChained(cfg: Config, owner: Ownership, s: State, inputs: seq<Input>)
    requires Agreement(cfg, owner, s) && s.log == []
    requires FaithfulRun(cfg, owner, s, inputs) && SoundRun(cfg, s, inputs)
    ensures Chained(Run(cfg, s, inputs)) && LegalEntries(Run(cfg, s, inputs).log, 0)
    decreases |inputs|
  {
    if inputs != [] {
      var n := |inputs| - 1;
      var before := Run(cfg, s, inputs[..n]);
      FaithfulPrefix(cfg, owner, s, inputs, n);
      SoundPrefix(cfg, s, inputs, n);
      SoundRunsAreChained(cfg, owner, s, inputs[..n]);
      MapNamesTheOwner(cfg, owner, s, inputs[..n]);
      StepKeepsChained(cfg, owner, before, inputs[n]);
      SoundChangesAddUp(before, Step(cfg, before, inputs[n]));
    }
  }

  lemma SoundPrefix(cfg: Config, s: State, inputs: seq<Input>, n: nat)
    requires SoundRun(cfg, s, inputs) && n <= |inputs|
    ensures SoundRun(cfg, s, inputs[..n])
  {
    forall i | 0 <= i < n
      ensures SoundStep(cfg, Run(cfg, s, inputs[..n][..i]), inputs[..n][i])
    {
      assert inputs[..n][..i] == inputs[..i];
    }
  }

  lemma SoundChangesAddUp(s: State, next: State)
    requires LegalEntries(s.log, 0) && SoundChange(s, next)
    ensures LegalEntries(next.log, 0)
  {
    assert forall i :: 0 <= i < |s.log| ==> next.log[i] == s.log[i];
  }

  function CancelWithToken(cfg: Config, c: ClientOrderId, t: TradeId): OrderEvent {
    OrderEvent("00", "Cancel", t, Some(cfg.token(c)), 0, 0, true)
  }

  lemma EarlyCancelCloses(cfg: Config, owner: Ownership, s: State, c: ClientOrderId, t: TradeId) returns (closed: State)
    requires SixCharacterTokens(cfg) && Agreement(cfg, owner, s) && owner(t) == Some(c)
    requires c in s.cache && s.cache[c].status == Submitted
    ensures Faithful(cfg, owner, s, OrderUpdate(CancelWithToken(cfg, c, t)))
    ensures closed == Step(cfg, s, OrderUpdate(CancelWithToken(cfg, c, t)))
    ensures t !in closed.bind && closed.cache == s.cache[c := s.cache[c].(status := Canceled)]
    ensures closed.log == s.log + [Entry(c, Cancel(t), Submitted, Canceled)]
  {
    var e := CancelWithToken(cfg, c, t);
    ResolveExactly(cfg, owner, s, t, e.customField);
    closed := Unbind(Emit(Resolved(cfg, s, t, e.customField), c, Cancel(t)), t);
  }

  /** Without timeliness the lifecycle breaks: a cancel seen before the reply of its own placement closes and
      unbinds the order, and the late reply binds it again and generates an acceptance of a canceled order. */
  lemma LateReplyRebindsAClosedOrder(cfg: Config, owner: Ownership, s: State, c: ClientOrderId, t: TradeId)
    returns (closed: State, next: State)
    requires SixCharacterTokens(cfg) && Agreement(cfg, owner, s) && owner(t) == Some(c)
    requires c in s.cache && s.cache[c].status == Submitted
    ensures next.cache == s.cache[c := s.cache[c].(status := Canceled)]
    ensures t in next.bind && next.bind[t] == c
    ensures closed.log == s.log + [Entry(c, Cancel(t), Submitted, Canceled)]
    ensures next.log == closed.log + [Entry(c, Accept(t), Canceled, Canceled)]
    ensures Faithful(cfg, owner, s, OrderUpdate(CancelWithToken(cfg, c, t)))
    ensures Faithful(cfg, owner, closed, PlaceReply(c, LateReply(t)))
    ensures closed == Step(cfg, s, OrderUpdate(CancelWithToken(cfg, c, t)))
    ensures next == Step(cfg, closed, PlaceReply(c, LateReply(t)))
  {
    closed := EarlyCancelCloses(cfg, owner, s, c, t);
    UndottedStatusIsNoRefusal(LateReply(t).status, t);
    next := AcceptClosed(closed, c, t, LateReply(t));
  }

  /** The gateway's usual answer. */
  function LateReply(t: TradeId): Reply {
    Placed("PendingSubmit", Some(t))
  }

  lemma UndottedStatusIsNoRefusal(status: string, t: TradeId)
    requires '.' !in status && status != "Failed"
    ensures !Refuses(Placed(status, Some(t)))
  {
  }

  lemma AcceptClosed(s: State, c: ClientOrderId, t: TradeId, late: Reply) returns (next: State)
    requires c in s.cache && s.cache[c].status == Canceled
    requires late.Placed? && !Refuses(late) && late.tradeId == Some(t)
    ensures next == AfterReply(s, c, late)
    ensures next == s.(bind := s.bind[t := c], log := s.log + [Entry(c, Accept(t), Canceled, Canceled)])
  {
    next := Emit(s.(bind := s.bind[t := c]), c, Accept(t));
    assert s.cache[c := s.cache[c]] == s.cache;
  }
}
