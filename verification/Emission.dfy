/** The callback loop: which data each BidAsk message yields, decided by the emit flags. */
module Emission {
  import opened Wrappers
  import opened Sequences
  import opened Subscriptions
  import Book

  datatype Datum =
    | QuoteDatum(code: string, quote: Book.Quote)
    | DepthDatum(code: string, depth: Book.Depth10)
    | DeltasDatum(code: string, deltas: seq<Book.Delta>)

  /** The instruments known at connection, by code, and the clock's reading of timestamps. */
  datatype Market = Market(instruments: map<string, Book.Library>, timestamp: string -> bool)

  function OfQuote(code: string, q: Option<Book.Quote>): seq<Datum> {
    if q.Some? then [QuoteDatum(code, q.value)] else []
  }

  function OfDepth(code: string, d: Option<Book.Depth10>): seq<Datum> {
    if d.Some? then [DepthDatum(code, d.value)] else []
  }

  function OfDeltas(code: string, d: Option<seq<Book.Delta>>): seq<Datum> {
    if d.Some? then [DeltasDatum(code, d.value)] else []
  }

  /** The specified stream: for a known code and a readable timestamp, the subscribed kinds whose own
      translation succeeds, quote before depth before deltas. */
  function Specified(market: Market, i: Intent, msg: Book.BidAsk): (data: seq<Datum>) {
    if msg.code !in market.instruments || !market.timestamp(msg.timestamp) then []
    else
      var lib := market.instruments[msg.code];
      (if msg.code in i.quotes then OfQuote(msg.code, Book.ParseQuote(msg, lib)) else [])
      + (if msg.code in i.depth then OfDepth(msg.code, Book.Depth(msg, lib)) else [])
      + (if msg.code in i.deltas then OfDeltas(msg.code, Book.Deltas(msg, lib)) else [])
  }

  /** What the callback loop does with one message. It sees flags, not intents. */
  method OnBidAsk(ws: WsClient, market: Market, msg: Book.BidAsk, ghost i: Intent) returns (data: seq<Datum>)
    requires ws.emitFlags == FlagsFor(i)
    ensures data == Specified(market, i, msg)
  {
    data := [];
    if msg.code !in market.instruments {
      return;
    }
    if !market.timestamp(msg.timestamp) {
      return;
    }
    var emit := ws.BidaskEmitFor(msg.code);
    assert emit == BitsFor(i, msg.code);
    if emit == 0 {
      return;
    }
    var lib := market.instruments[msg.code];
    if emit & BIDASK_EMIT_QUOTE != 0 {
      var quote := Book.ParseQuote(msg, lib);
      if quote.Some? {
        data := data + [QuoteDatum(msg.code, quote.value)];
      }
    }
    ghost var quotes := data;
    assert quotes == if msg.code in i.quotes then OfQuote(msg.code, Book.ParseQuote(msg, lib)) else [];
    if emit & BIDASK_EMIT_DEPTH != 0 {
      var depth := Book.ParseDepth10(msg, lib);
      if depth.Some? {
        data := data + [DepthDatum(msg.code, depth.value)];
      }
    }
    assert data == quotes + if msg.code in i.depth then OfDepth(msg.code, Book.Depth(msg, lib)) else [];
    if emit & BIDASK_EMIT_DELTAS != 0 {
      var deltas := Book.ParseDeltas(msg, lib);
      if deltas.Some? {
        data := data + [DeltasDatum(msg.code, deltas.value)];
      }
    }
  }

  /** A session interleaves subscription requests with messages. */
  datatype Happening = Asked(request: Request) | Arrived(msg: Book.BidAsk)

  /** The specification knows only what is subscribed when each message arrives. */
  function SessionData(market: Market, i: Intent, happenings: seq<Happening>): (data: seq<Datum>)
    decreases |happenings|
  {
    if happenings == [] then []
    else
      match happenings[0]
      case Asked(r) => SessionData(market, Applied(i, r), happenings[1..])
      case Arrived(msg) => Specified(market, i, msg) + SessionData(market, i, happenings[1..])
  }

  /** Whatever the requests and messages, the data delivered are the specified stream. */
  method Session(client: DataClient, market: Market, happenings: seq<Happening>) returns (data: seq<Datum>)
    requires client.Valid()
    modifies client, client.ws
    ensures client.Valid()
    ensures data == SessionData(market, old(client.Current()), happenings)
  {
    data := [];
    for k := 0 to |happenings|
      invariant client.Valid()
      invariant data + SessionData(market, client.Current(), happenings[k..])
             == SessionData(market, old(client.Current()), happenings)
    {
      ghost var i := client.Current();
      ghost var rest := happenings[k..];
      assert rest[0] == happenings[k] && rest[1..] == happenings[k + 1..];
      match happenings[k] {
        case Asked(r) =>
          client.Perform(r);
        case Arrived(msg) =>
          var more := OnBidAsk(client.ws, market, msg, i);
          Associates(data, more, SessionData(market, i, happenings[k + 1..]));
          data := data + more;
      }
    }
    assert data + [] == data;
  }

  lemma SpecifiedIsOwnCode(market: Market, i: Intent, msg: Book.BidAsk, k: nat)
    requires k < |Specified(market, i, msg)|
    ensures Specified(market, i, msg)[k].code == msg.code
  {
  }

  function Rank(d: Datum): nat {
    if d.QuoteDatum? then 0 else if d.DepthDatum? then 1 else 2
  }

  /** A quote comes before a depth and a depth before deltas, each at most once; a message of an unknown code or with
      an unreadable timestamp yields nothing. */
  lemma DataComeInOrder(market: Market, i: Intent, msg: Book.BidAsk)
    ensures var data := Specified(market, i, msg);
            forall j, k :: 0 <= j < k < |data| ==> Rank(data[j]) < Rank(data[k])
    ensures msg.code !in market.instruments || !market.timestamp(msg.timestamp) ==> Specified(market, i, msg) == []
  {
  }

  /** A message of one code is unaffected by subscriptions to others, and a failing kind by the others' success. */
  lemma KindsAreIndependent(market: Market, i: Intent, msg: Book.BidAsk)
    requires msg.code in market.instruments && market.timestamp(msg.timestamp)
    ensures var lib := market.instruments[msg.code];
            var data := Specified(market, i, msg);
            && (forall q :: QuoteDatum(msg.code, q) in data <==>
                  msg.code in i.quotes && Book.ParseQuote(msg, lib) == Some(q))
            && (forall d :: DepthDatum(msg.code, d) in data <==> msg.code in i.depth && Book.Depth(msg, lib) == Some(d))
            && (forall d :: DeltasDatum(msg.code, d) in data <==>
                  msg.code in i.deltas && Book.Deltas(msg, lib) == Some(d))
            && |data| <= 3
  {
  }
}
