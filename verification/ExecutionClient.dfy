/** The execution client, updating its map in place. Every handler is proved against its step in Correlation. */
module ExecutionClients {
  import opened Wrappers
  import opened Orders
  import opened Tokens
  import opened Correlation
  import Gate

  class ExecutionClient {
    const cfg: Config
    var bind: map<TradeId, ClientOrderId>
    var cache: map<ClientOrderId, Order>
    var listing: seq<ClientOrderId>
    var log: seq<Entry>

    function Snapshot(): State
      reads this
    {
      State(bind, cache, listing, log)
    }

    constructor (hash: ClientOrderId -> Hash, decode: Gate.TagDecoder,
                 cache: map<ClientOrderId, Order>, listing: seq<ClientOrderId>)
      ensures cfg == ClientConfig(hash, decode)
      ensures Snapshot() == State(map[], cache, listing, [])
    {
      cfg := ClientConfig(hash, decode);
      bind, this.cache, this.listing, log := map[], cache, listing, [];
    }

    /** Generates an event and lets the cached order apply it. */
    method Generate(c: ClientOrderId, e: Event)
      requires c in cache
      modifies this`cache, this`log
      ensures Snapshot() == Emit(old(Snapshot()), c, e)
    {
      var o := cache[c];
      var applied := Apply(o, e);
      cache := cache[c := applied];
      log := log + [Entry(c, e, o.status, applied.status)];
    }

    method ResolveClientOrderId(key: TradeId, customField: Option<string>) returns (found: Option<ClientOrderId>)
      modifies this`bind
      ensures found == Resolve(cfg, old(Snapshot()), key, customField)
      ensures Snapshot() == Resolved(cfg, old(Snapshot()), key, customField)
    {
      if key in bind {
        assert bind == bind[key := bind[key]];
        return Some(bind[key]);
      }
      if customField.Some? && customField.value != "" {
        for i := 0 to |listing|
          invariant bind == old(bind)
          invariant Scan(cfg, cache, listing, customField.value) == Scan(cfg, cache, listing[i..], customField.value)
        {
          var c := listing[i];
          if c !in cache || IsClosed(cache[c].status) {
            continue;
          }
          if cfg.token(c) == customField.value {
            bind := bind[key := c];
            return Some(c);
          }
        }
      }
      found := None;
    }

    /** The synchronous half of `_submit_order`. The request leaves exactly when the Taiwan rules hold;
        otherwise exactly one rejection is generated. */
    method SubmitOrder(request: Gate.OrderRequest, instrument: Option<Gate.Instrument>)
      returns (sent: Option<Gate.PlaceOrder>)
      modifies this`cache, this`listing, this`log
      ensures Snapshot() == AfterSubmit(cfg, old(Snapshot()), request, instrument)
      ensures request.clientOrderId !in old(cache) ==>
        var c := request.clientOrderId;
        && (sent.Some? <==> Gate.TaiwanRules(request, instrument, Gate.FromTags(request.tags, cfg.decode)))
        && (sent.Some? ==> sent == Some(Gate.Decide(request, instrument, cfg.decode, cfg.token(c)).order))
        && log == old(log)
                  + (if request.orderType in {Gate.Limit, Gate.Market, Gate.MarketToLimit}
                     then [Entry(c, Submit, Initialized, Submitted)] else [])
                  + (if sent.Some? then []
                     else if request.orderType in {Gate.Limit, Gate.Market, Gate.MarketToLimit}
                     then [Entry(c, Reject, Submitted, Rejected)] else [Entry(c, Reject, Initialized, Rejected)])
    {
      var c := request.clientOrderId;
      if c in cache {
        return None;
      }
      cache, listing := cache[c := NewOrder(request)], listing + [c];
      var verdict := Gate.Decide(request, instrument, cfg.decode, cfg.token(c));
      if verdict.Unsupported? {
        Generate(c, Reject);
        return None;
      }
      Generate(c, Submit);
      if verdict.Refused? {
        Generate(c, Reject);
        return None;
      }
      sent := Some(verdict.order);
    }

    method HandlePlaceReply(c: ClientOrderId, reply: Reply)
      modifies this`bind, this`cache, this`log
      ensures Snapshot() == AfterReply(old(Snapshot()), c, reply)
    {
      if c !in cache || reply.TransportFailure? {
        return;
      }
      if Refuses(reply) {
        Generate(c, Reject);
        return;
      }
      bind := bind[reply.tradeId.value := c];
      Generate(c, Accept(reply.tradeId.value));
    }

    method HandleOrderOpFailure(c: ClientOrderId, e: OrderEvent)
      requires c in cache && e.opCode != "00"
      modifies this`bind, this`cache, this`log
      ensures Snapshot() == OnOrderEvent(old(Snapshot()), c, e)
    {
      if e.opType == "New" {
        if cache[c].status in {PartiallyFilled, Filled} {
          return;
        }
        Generate(c, Reject);
        bind := bind - {e.orderId};
      } else if e.opType == "Cancel" {
        Generate(c, CancelReject(e.orderId));
      } else if e.opType in {"UpdatePrice", "UpdateQty"} {
        Generate(c, ModifyReject(e.orderId));
      }
    }

    method HandleOrderStatusEvent(e: OrderEvent)
      modifies this`bind, this`cache, this`log
      ensures Snapshot() == AfterOrderEvent(cfg, old(Snapshot()), e)
    {
      var found := ResolveClientOrderId(e.orderId, e.customField);
      if found == None || found.value !in cache {
        return;
      }
      var c := found.value;
      if e.opCode != "00" {
        HandleOrderOpFailure(c, e);
        return;
      }
      if e.opType == "Cancel" {
        Generate(c, Cancel(e.orderId));
        bind := bind - {e.orderId};
      } else if e.opType in {"UpdatePrice", "UpdateQty"} {
        if e.instrumentCached {
          var price := if e.modifiedPrice > 0 then Some(e.modifiedPrice) else cache[c].price;
          Generate(c, Update(e.orderId, e.orderQuantity, price));
        }
      }
    }

    method HandleDealEvent(d: Deal, instrumentCached: bool)
      modifies this`bind, this`cache, this`log
      ensures Snapshot() == AfterDeal(cfg, old(Snapshot()), d, instrumentCached)
    {
      if !instrumentCached {
        return;
      }
      var found := ResolveClientOrderId(d.tradeId, d.customField);
      if found == None || found.value !in cache {
        return;
      }
      var c := found.value;
      var seqKey := if d.exchangeSeq.Some? && d.exchangeSeq.value != "" then d.exchangeSeq.value else d.ordno;
      var venueOrderId := if cache[c].venueId.Some? then cache[c].venueId.value else d.tradeId;
      Generate(c, Fill(venueOrderId, d.tradeId + "-" + seqKey, d.quantity, d.price));
      if IsClosed(cache[c].status) {
        bind := bind - {d.tradeId};
      }
    }

    method GenerateOrderStatusReports(q: Query) returns (reports: seq<Report>)
      modifies this`bind
      ensures (Snapshot(), reports) == AfterRows(cfg, old(Snapshot()), q, 0)
    {
      reports := [];
      assert reports + AfterRows(cfg, Snapshot(), q, 0).1 == AfterRows(cfg, Snapshot(), q, 0).1;
      for i := 0 to |q.rows|
        invariant cache == old(cache) && listing == old(listing) && log == old(log)
        invariant var rest := AfterRows(cfg, Snapshot(), q, i);
                  (rest.0, reports + rest.1) == AfterRows(cfg, old(Snapshot()), q, 0)
      {
        var row := q.rows[i];
        ghost var rest := AfterRows(cfg, Snapshot(), q, i);
        if row.code == None {
          assert reports + rest.1 == reports;
          return;
        }
        if q.code.Some? && q.code != row.code {
          continue;
        }
        if row.code.value !in q.instruments {
          continue;
        }
        if row.status == None || row.action == None || row.priceType == None || row.tradeId == None {
          assert reports + rest.1 == reports;
          return;
        }
        var found := ResolveClientOrderId(row.tradeId.value, row.customField);
        if !Reportable(row) {
          assert reports + rest.1 == reports;
          return;
        }
        var report := ReportFor(row, found);
        assert reports + rest.1 == reports + [report] + AfterRows(cfg, Snapshot(), q, i + 1).1;
        reports := reports + [report];
      }
      assert reports + AfterRows(cfg, Snapshot(), q, |q.rows|).1 == reports;
    }

    method Process(input: Input)
      modifies this`bind, this`cache, this`listing, this`log
      ensures Snapshot() == Step(cfg, old(Snapshot()), input)
    {
      match input {
        case SubmitOrder(request, instrument) =>
          var sent := SubmitOrder(request, instrument);
        case PlaceReply(c, reply) =>
          HandlePlaceReply(c, reply);
        case OrderUpdate(e) =>
          HandleOrderStatusEvent(e);
        case DealUpdate(d, instrumentCached) =>
          HandleDealEvent(d, instrumentCached);
        case StatusReports(q) =>
          var reports := GenerateOrderStatusReports(q);
        case Restart =>
          bind := map[];
      }
    }

    /** Whatever is proved about runs holds of this client after the same inputs. */
    method ProcessAll(inputs: seq<Input>)
      modifies this`bind, this`cache, this`listing, this`log
      ensures Snapshot() == Run(cfg, old(Snapshot()), inputs)
    {
      for i := 0 to |inputs|
        invariant Snapshot() == Run(cfg, old(Snapshot()), inputs[..i])
      {
        assert inputs[..i + 1][..i] == inputs[..i];
        Process(inputs[i]);
      }
      assert inputs[..|inputs|] == inputs;
    }
  }
}
