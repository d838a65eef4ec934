/** The subscription stack: the data client's four sets, the command queue and emit flags of the
    socket client, and the feed handler behind the queue. Three kinds of data share one BidAsk stream. */
module Subscriptions {
  import opened Wrappers
  import opened Feed

  datatype Kind = Trades | Quotes | Depth | Deltas

  /** What strategies have asked for, by contract code. */
  datatype Intent = Intent(trades: set<string>, quotes: set<string>, depth: set<string>, deltas: set<string>) {

    function Codes(kind: Kind): set<string> {
      match kind
      case Trades => trades
      case Quotes => quotes
      case Depth => depth
      case Deltas => deltas
    }

    function With(kind: Kind, codes: set<string>): Intent {
      match kind
      case Trades => this.(trades := codes)
      case Quotes => this.(quotes := codes)
      case Depth => this.(depth := codes)
      case Deltas => this.(deltas := codes)
    }

    function BidAskCodes(): set<string> {
      quotes + depth + deltas
    }
  }

  /** One subscribe (`on`) or unsubscribe command of the data client. */
  datatype Request = Request(on: bool, kind: Kind, code: string)

  function Applied(i: Intent, r: Request): Intent {
    i.With(r.kind, if r.on then i.Codes(r.kind) + {r.code} else i.Codes(r.kind) - {r.code})
  }

  /** The streams that serve an intent. */
  function Wanted(i: Intent): set<Topic> {
    (set c | c in i.trades :: Topic(c, Tick)) + (set c | c in i.BidAskCodes() :: Topic(c, BidAsk))
  }

  function TopicOf(r: Request): Topic {
    Topic(r.code, if r.kind == Trades then Tick else BidAsk)
  }

  const BIDASK_EMIT_QUOTE: bv8 := 1
  const BIDASK_EMIT_DEPTH: bv8 := 2
  const BIDASK_EMIT_DELTAS: bv8 := 4

  function Bits(quote: bool, depth: bool, deltas: bool): (bits: bv8)
    ensures (bits & BIDASK_EMIT_QUOTE != 0 <==> quote) && (bits & BIDASK_EMIT_DEPTH != 0 <==> depth)
    ensures (bits & BIDASK_EMIT_DELTAS != 0 <==> deltas) && (bits == 0 <==> !quote && !depth && !deltas)
  {
    (if quote then BIDASK_EMIT_QUOTE else 0) | (if depth then BIDASK_EMIT_DEPTH else 0)
    | (if deltas then BIDASK_EMIT_DELTAS else 0)
  }

  function BitsFor(i: Intent, code: string): bv8 {
    Bits(code in i.quotes, code in i.depth, code in i.deltas)
  }

  /** Exactly the codes with a BidAsk subscription have flags, and each has its three membership bits. */
  function FlagsFor(i: Intent): map<string, bv8> {
    map c | c in i.BidAskCodes() :: BitsFor(i, c)
  }

  /** The commands that carry the wanted streams from `before` to `after`, when they differ in one topic at most. */
  function Commands(before: set<Topic>, after: set<Topic>, t: Topic): seq<Command> {
    if t in after && t !in before then [Subscribe(t)]
    else if t in before && t !in after then [Unsubscribe(t)]
    else []
  }

  /** A request moves its code in or out of its own set, and nothing else. */
  lemma AppliedExactly(i: Intent, r: Request, code: string)
    ensures var next := Applied(i, r);
            && (code in next.trades <==> if r.kind == Trades && code == r.code then r.on else code in i.trades)
            && (code in next.quotes <==> if r.kind == Quotes && code == r.code then r.on else code in i.quotes)
            && (code in next.depth <==> if r.kind == Depth && code == r.code then r.on else code in i.depth)
            && (code in next.deltas <==> if r.kind == Deltas && code == r.code then r.on else code in i.deltas)
  {
  }

  /** Trades want the tick stream of a code, the three others its one BidAsk stream; and the flags of a code are one for
      quotes, two for depth and four for deltas. */
  lemma WantedExactly(i: Intent, code: string)
    ensures Topic(code, Tick) in Wanted(i) <==> code in i.trades
    ensures Topic(code, BidAsk) in Wanted(i) <==> code in i.quotes || code in i.depth || code in i.deltas
    ensures code in FlagsFor(i) <==> code in i.quotes || code in i.depth || code in i.deltas
    ensures code in FlagsFor(i) ==>
      && (FlagsFor(i)[code] & 1 != 0 <==> code in i.quotes)
      && (FlagsFor(i)[code] & 2 != 0 <==> code in i.depth)
      && (FlagsFor(i)[code] & 4 != 0 <==> code in i.deltas)
  {
  }

  lemma RequestMovesOneTopic(i: Intent, r: Request)
    ensures Wanted(Applied(i, r)) - {TopicOf(r)} == Wanted(i) - {TopicOf(r)}
  {
    var next := Applied(i, r);
    forall t | t != TopicOf(r)
      ensures t in Wanted(next) <==> t in Wanted(i)
    {
      if t.kind == Tick {
        assert (t in Wanted(i) <==> t.code in i.trades) && (t in Wanted(next) <==> t.code in next.trades);
      } else {
        assert t in Wanted(i) <==> t.code in i.BidAskCodes();
        assert t in Wanted(next) <==> t.code in next.BidAskCodes();
      }
    }
  }

  // ---------------------------------------------------------------- the socket client

  class WsClient {
    var queue: seq<Command>
    var emitFlags: map<string, bv8>

    constructor ()
      ensures queue == [SetClient] && emitFlags == map[]
    {
      queue, emitFlags := [SetClient], map[];
    }

    function BidaskEmitFor(code: string): bv8
      reads this
    {
      if code in emitFlags then emitFlags[code] else 0
    }

    method SetBidaskEmitFor(code: string, flags: bv8)
      modifies this`emitFlags
      ensures emitFlags == if flags == 0 then old(emitFlags) - {code} else old(emitFlags)[code := flags]
    {
      if flags == 0 {
        emitFlags := emitFlags - {code};
      } else {
        emitFlags := emitFlags[code := flags];
      }
    }

    method SetBidaskOutputs(code: string, quote: bool, depth: bool, deltas: bool)
      modifies this`emitFlags
      ensures emitFlags - {code} == old(emitFlags) - {code}
      ensures BidaskEmitFor(code) == Bits(quote, depth, deltas)
      ensures code in emitFlags <==> quote || depth || deltas
    {
      var flags: bv8 := 0;
      if quote {
        flags := flags | BIDASK_EMIT_QUOTE;
      }
      if depth {
        flags := flags | BIDASK_EMIT_DEPTH;
      }
      if deltas {
        flags := flags | BIDASK_EMIT_DELTAS;
      }
      assert flags == Bits(quote, depth, deltas);
      SetBidaskEmitFor(code, flags);
    }

    method SendSubscribe(t: Topic)
      modifies this`queue
      ensures queue == old(queue) + [Subscribe(t)]
    {
      queue := queue + [Subscribe(t)];
    }

    method SendUnsubscribe(t: Topic)
      modifies this`queue
      ensures queue == old(queue) + [Unsubscribe(t)]
    {
      queue := queue + [Unsubscribe(t)];
    }
  }

  // ---------------------------------------------------------------- the data client

  class DataClient {
    const ws: WsClient
    var trades: set<string>
    var quotes: set<string>
    var depth: set<string>
    var deltas: set<string>

    function Current(): Intent
      reads this
    {
      Intent(trades, quotes, depth, deltas)
    }

    /** The emit flags say exactly what is subscribed. */
    ghost predicate Valid()
      reads this, ws
    {
      ws.emitFlags == FlagsFor(Current())
    }

    /** A request has had its whole effect: on the sets, the flags and the queue. */
    twostate predicate Did(r: Request)
      reads this, ws
    {
      && Valid()
      && Current() == Applied(old(Current()), r)
      && ws.queue == old(ws.queue) + Commands(Wanted(old(Current())), Wanted(Current()), TopicOf(r))
    }

    constructor (ws: WsClient)
      requires ws.emitFlags == map[]
      ensures this.ws == ws && Valid() && Current() == Intent({}, {}, {}, {})
    {
      this.ws := ws;
      trades, quotes, depth, deltas := {}, {}, {}, {};
    }

    predicate HasBidaskSubscription(code: string)
      reads this
    {
      code in quotes || code in depth || code in deltas
    }

    method UpdateBidaskOutputsFor(code: string)
      requires ws.emitFlags - {code} == FlagsFor(Current()) - {code}
      modifies ws`emitFlags
      ensures Valid()
    {
      ws.SetBidaskOutputs(code, code in quotes, code in depth, code in deltas);
      forall c
        ensures c in ws.emitFlags <==> c in FlagsFor(Current())
        ensures c in ws.emitFlags ==> ws.emitFlags[c] == FlagsFor(Current())[c]
      {
        assert c != code ==> (c in ws.emitFlags <==> c in ws.emitFlags - {code});
        assert c != code ==> (c in FlagsFor(Current()) <==> c in FlagsFor(Current()) - {code});
        assert c != code && c in ws.emitFlags ==> ws.emitFlags[c] == (ws.emitFlags - {code})[c];
      }
    }

    method SubscribeTradeTicks(code: string)
      requires Valid()
      modifies this`trades, ws`queue
      ensures Did(Request(true, Trades, code))
    {
      if code in trades {
        assert trades + {code} == trades;
        return;
      }
      trades := trades + {code};
      ws.SendSubscribe(Topic(code, Tick));
    }

    method UnsubscribeTradeTicks(code: string)
      requires Valid()
      modifies this`trades, ws`queue
      ensures Did(Request(false, Trades, code))
    {
      if code !in trades {
        assert trades - {code} == trades;
        return;
      }
      trades := trades - {code};
      ws.SendUnsubscribe(Topic(code, Tick));
    }

    method SubscribeQuoteTicks(code: string)
      requires Valid()
      modifies this`quotes, ws
      ensures Did(Request(true, Quotes, code))
    {
      if code in quotes {
        assert quotes + {code} == quotes;
        return;
      }
      var needsWs := !HasBidaskSubscription(code);
      quotes := quotes + {code};
      if needsWs {
        ws.SendSubscribe(Topic(code, BidAsk));
      }
      UpdateBidaskOutputsFor(code);
    }

    method UnsubscribeQuoteTicks(code: string)
      requires Valid()
      modifies this`quotes, ws
      ensures Did(Request(false, Quotes, code))
    {
      if code !in quotes {
        assert quotes - {code} == quotes;
        return;
      }
      quotes := quotes - {code};
      UpdateBidaskOutputsFor(code);
      if !HasBidaskSubscription(code) {
        ws.SendUnsubscribe(Topic(code, BidAsk));
      }
    }

    method SubscribeOrderBookDepth(code: string)
      requires Valid()
      modifies this`depth, ws
      ensures Did(Request(true, Depth, code))
    {
      if code in depth {
        assert depth + {code} == depth;
        return;
      }
      var needsWs := !HasBidaskSubscription(code);
      depth := depth + {code};
      if needsWs {
        ws.SendSubscribe(Topic(code, BidAsk));
      }
      UpdateBidaskOutputsFor(code);
    }

    method UnsubscribeOrderBookDepth(code: string)
      requires Valid()
      modifies this`depth, ws
      ensures Did(Request(false, Depth, code))
    {
      if code !in depth {
        assert depth - {code} == depth;
        return;
      }
      depth := depth - {code};
      UpdateBidaskOutputsFor(code);
      if !HasBidaskSubscription(code) {
        ws.SendUnsubscribe(Topic(code, BidAsk));
      }
    }

    method SubscribeOrderBookDeltas(code: string)
      requires Valid()
      modifies this`deltas, ws
      ensures Did(Request(true, Deltas, code))
    {
      if code in deltas {
        assert deltas + {code} == deltas;
        return;
      }
      var needsWs := !HasBidaskSubscription(code);
      deltas := deltas + {code};
      if needsWs {
        ws.SendSubscribe(Topic(code, BidAsk));
      }
      UpdateBidaskOutputsFor(code);
    }

    method UnsubscribeOrderBookDeltas(code: string)
      requires Valid()
      modifies this`deltas, ws
      ensures Did(Request(false, Deltas, code))
    {
      if code !in deltas {
        assert deltas - {code} == deltas;
        return;
      }
      deltas := deltas - {code};
      UpdateBidaskOutputsFor(code);
      if !HasBidaskSubscription(code) {
        ws.SendUnsubscribe(Topic(code, BidAsk));
      }
    }

    method Perform(r: Request)
      requires Valid()
      modifies this`trades, this`quotes, this`depth, this`deltas, ws
      ensures Did(r)
    {
      match (r.kind, r.on) {
        case (Trades, true) => SubscribeTradeTicks(r.code);
        case (Trades, false) => UnsubscribeTradeTicks(r.code);
        case (Quotes, true) => SubscribeQuoteTicks(r.code);
        case (Quotes, false) => UnsubscribeQuoteTicks(r.code);
        case (Depth, true) => SubscribeOrderBookDepth(r.code);
        case (Depth, false) => UnsubscribeOrderBookDepth(r.code);
        case (Deltas, true) => SubscribeOrderBookDeltas(r.code);
        case (Deltas, false) => UnsubscribeOrderBookDeltas(r.code);
      }
    }
  }

  // ---------------------------------------------------------------- the whole stack, over runs

  datatype Stack = Stack(intent: Intent, flags: map<string, bv8>, queue: seq<Command>, handler: Handler)

  /** `Ask` is a data client request, `Drain` one pass of the handler over the front of the queue,
      `FreshConnection` the transport coming back with no subscriptions at the gateway, and `Signal`
      the handler's reading of the reconnection signal. */
  datatype Move =
    | Ask(request: Request)
    | Drain(delivered: bool)
    | FreshConnection
    | Signal(undelivered: set<Topic>)

  const CONNECTED := Stack(Intent({}, {}, {}, {}), map[], [SetClient], FRESH)

  function Moved(s: Stack, m: Move): Stack {
    match m
    case Ask(r) =>
      var next := Applied(s.intent, r);
      s.(intent := next, flags := FlagsFor(next),
         queue := s.queue + Commands(Wanted(s.intent), Wanted(next), TopicOf(r)))
    case Drain(delivered) =>
      if s.queue == [] then s
      else s.(queue := s.queue[1..], handler := Handle(s.handler, Cmd(s.queue[0], delivered)))
    case FreshConnection => s.(handler := s.handler.(gateway := {}))
    case Signal(undelivered) => s.(handler := Handle(s.handler, Raw(Text(RECONNECTED), undelivered)))
  }

  function MovedAll(s: Stack, moves: seq<Move>): Stack {
    if moves == [] then s else Moved(MovedAll(s, moves[..|moves| - 1]), moves[|moves| - 1])
  }

  /** The subscriptions the handler will track once the queue has drained. */
  function Pending(subscriptions: set<Topic>, queue: seq<Command>): set<Topic>
    decreases |queue|
  {
    if queue == [] then subscriptions
    else
      match queue[0]
      case Subscribe(t) => Pending(subscriptions + {t}, queue[1..])
      case Unsubscribe(t) => Pending(subscriptions - {t}, queue[1..])
      case _ => Pending(subscriptions, queue[1..])
  }

  lemma {:induction false} PendingSnoc(subscriptions: set<Topic>, queue: seq<Command>, c: Command)
    ensures Pending(subscriptions, queue + [c]) == Pending(Pending(subscriptions, queue), [c])
    decreases |queue|
  {
    if queue == [] {
      assert queue + [c] == [c];
    } else {
      assert (queue + [c])[1..] == queue[1..] + [c];
      var next := match queue[0]
        case Subscribe(t) => subscriptions + {t}
        case Unsubscribe(t) => subscriptions - {t}
        case _ => subscriptions;
      PendingSnoc(next, queue[1..], c);
    }
  }

  ghost predicate InStep(s: Stack) {
    && s.flags == FlagsFor(s.intent)
    && Pending(s.handler.subscriptions, s.queue) == Wanted(s.intent)
    && (forall i :: 0 <= i < |s.queue| ==> s.queue[i] != Disconnect)
    && (!s.handler.hasClient ==> s.handler.subscriptions == {} && s.queue != [] && s.queue[0] == SetClient)
  }

  lemma AskKeepsInStep(s: Stack, r: Request)
    requires InStep(s)
    ensures InStep(Moved(s, Ask(r)))
  {
    var t := TopicOf(r);
    var before, after := Wanted(s.intent), Wanted(Applied(s.intent, r));
    RequestMovesOneTopic(s.intent, r);
    if t in after && t !in before {
      PendingSnoc(s.handler.subscriptions, s.queue, Subscribe(t));
      assert after == before + {t};
      assert Pending(before, [Subscribe(t)]) == before + {t};
    } else if t in before && t !in after {
      PendingSnoc(s.handler.subscriptions, s.queue, Unsubscribe(t));
      assert after == before - {t};
      assert Pending(before, [Unsubscribe(t)]) == before - {t};
    } else {
      assert after == before;
      assert s.queue + [] == s.queue;
    }
  }

  lemma MoveKeepsInStep(s: Stack, m: Move)
    requires InStep(s)
    ensures InStep(Moved(s, m))
  {
    if m.Ask? {
      AskKeepsInStep(s, m.request);
    }
  }

  /** After any requests, any draining, any failed sends and any reconnections, the pending commands folded over
      the tracked set give exactly the wanted streams, and the emit flags are exactly the membership bits. */
  lemma {:induction false} StackStaysInStep(moves: seq<Move>)
    ensures InStep(MovedAll(CONNECTED, moves))
    ensures var s := MovedAll(CONNECTED, moves); s.queue == [] ==> s.handler.subscriptions == Wanted(s.intent)
    decreases |moves|
  {
    if moves == [] {
      assert FlagsFor(CONNECTED.intent) == map[];
      assert Wanted(CONNECTED.intent) == {};
      assert Pending({}, [SetClient]) == Pending({}, []);
    } else {
      StackStaysInStep(moves[..|moves| - 1]);
      MoveKeepsInStep(MovedAll(CONNECTED, moves[..|moves| - 1]), moves[|moves| - 1]);
    }
  }

  ghost function StackOf(client: DataClient, handler: FeedHandler): Stack
    reads client, client.ws, handler
  {
    Stack(client.Current(), client.ws.emitFlags, client.ws.queue, handler.View())
  }

  /** The objects move as the stack does. */
  method PerformMove(client: DataClient, handler: FeedHandler, m: Move)
    requires client.Valid()
    modifies client, client.ws, handler
    ensures client.Valid() && StackOf(client, handler) == Moved(old(StackOf(client, handler)), m)
  {
    match m {
      case Ask(r) =>
        client.Perform(r);
      case Drain(delivered) =>
        if client.ws.queue != [] {
          var command := client.ws.queue[0];
          client.ws.queue := client.ws.queue[1..];
          var none, _ := handler.HandleInput(Cmd(command, delivered));
        }
      case FreshConnection =>
        handler.gateway := {};
      case Signal(undelivered) =>
        var sentinel, _ := handler.HandleInput(Raw(Text(RECONNECTED), undelivered));
    }
  }

  /** A session from its connection on, over the objects themselves. */
  method PlaySession(json: Json, moves: seq<Move>) returns (client: DataClient, handler: FeedHandler)
    ensures client.Valid() && StackOf(client, handler) == MovedAll(CONNECTED, moves)
    ensures InStep(StackOf(client, handler))
  {
    var ws := new WsClient();
    client := new DataClient(ws);
    handler := new FeedHandler(json, []);
    assert FlagsFor(Intent({}, {}, {}, {})) == map[];
    for k := 0 to |moves|
      invariant fresh(client) && fresh(client.ws) && fresh(handler)
      invariant client.Valid() && StackOf(client, handler) == MovedAll(CONNECTED, moves[..k])
    {
      assert moves[..k + 1][..k] == moves[..k];
      PerformMove(client, handler, moves[k]);
    }
    assert moves[..|moves|] == moves;
    StackStaysInStep(moves);
  }

  // ---------------------------------------------------------------- what the gateway serves

  /** The gateway serves what is tracked. */
  predicate Served(s: Stack) {
    s.handler.gateway == s.handler.subscriptions
  }

  /** The command asks for nothing that is not so already. */
  predicate IsIdle(tracked: set<Topic>, c: Command) {
    match c
    case Subscribe(t) => t in tracked
    case Unsubscribe(t) => t !in tracked
    case _ => true
  }

  /** A send that fails is not retried, and a fresh connection serves nothing until its signal is handled, so that these
      moves are safe only where they do not matter. */
  predicate Safe(s: Stack, m: Move) {
    match m
    case Ask(_) => true
    case Drain(delivered) => delivered || s.queue == [] || IsIdle(s.handler.subscriptions, s.queue[0])
    case FreshConnection => s.handler.subscriptions == {}
    case Signal(_) => true
  }

  lemma MoveServesExactly(s: Stack, m: Move)
    requires InStep(s) && Served(s)
    ensures Served(Moved(s, m)) <==> Safe(s, m)
  {
    assert s.queue != [] ==> s.queue[0] != Disconnect;
  }

  /** Served now and after every earlier move. */
  predicate AlwaysServed(moves: seq<Move>) {
    Served(MovedAll(CONNECTED, moves)) && (moves != [] ==> AlwaysServed(moves[..|moves| - 1]))
  }

  predicate AlwaysSafe(moves: seq<Move>) {
    moves != [] ==>
      && AlwaysSafe(moves[..|moves| - 1])
      && Safe(MovedAll(CONNECTED, moves[..|moves| - 1]), moves[|moves| - 1])
  }

  /** Over a whole session the gateway always serves exactly the tracked topics if and only if every move is safe. */
  lemma {:induction false} ServedExactly(moves: seq<Move>)
    ensures AlwaysServed(moves) <==> AlwaysSafe(moves)
    decreases |moves|
  {
    if moves != [] {
      var before := moves[..|moves| - 1];
      ServedExactly(before);
      StackStaysInStep(before);
      if AlwaysServed(before) {
        MoveServesExactly(MovedAll(CONNECTED, before), moves[|moves| - 1]);
      }
    }
  }

  /** In the move a frame about `t` gets through: a command's, or one that answers a signal. */
  predicate GetsThrough(s: Stack, m: Move, subscribe: bool, t: Topic) {
    match m
    case Drain(delivered) =>
      s.queue != [] && Frame(subscribe, t, true) in CommandFrames(s.handler.hasClient, s.queue[0], delivered)
    case Signal(undelivered) =>
      subscribe && s.handler.hasClient && t in s.handler.subscriptions - undelivered
    case _ => false
  }

  /** The move undoes what the gateway was told about `t`: it drops the connection or unsubscribes. */
  predicate Undoes(s: Stack, m: Move, t: Topic) {
    m == FreshConnection || GetsThrough(s, m, false, t)
  }

  /** The stack before move `n`. */
  function Before(moves: seq<Move>, n: nat): Stack
    requires n <= |moves|
  {
    MovedAll(CONNECTED, moves[..n])
  }

  lemma BeforeNext(moves: seq<Move>, n: nat)
    requires n < |moves|
    ensures Before(moves, n + 1) == Moved(Before(moves, n), moves[n])
  {
    assert moves[..n + 1][..n] == moves[..n];
  }

  predicate UndoneAt(moves: seq<Move>, t: Topic, k: nat)
    requires k < |moves|
  {
    Undoes(Before(moves, k), moves[k], t)
  }

  /** Move `i` subscribed `t` at the gateway, and no move from there to move `n` undid it. */
  predicate SubscribedAt(moves: seq<Move>, t: Topic, n: nat, i: nat) {
    && i < n <= |moves| && GetsThrough(Before(moves, i), moves[i], true, t)
    && forall k :: i < k < n ==> !UndoneAt(moves, t, k)
  }

  lemma MoveTellsTheGateway(s: Stack, m: Move, t: Topic)
    requires InStep(s)
    ensures t in Moved(s, m).handler.gateway <==>
      GetsThrough(s, m, true, t) || (t in s.handler.gateway && !Undoes(s, m, t))
  {
    assert s.queue != [] ==> s.queue[0] != Disconnect;
  }

  lemma {:induction false} GatewayServesBefore(moves: seq<Move>, t: Topic, n: nat)
    requires n <= |moves|
    ensures t in Before(moves, n).handler.gateway <==> exists i :: SubscribedAt(moves, t, n, i)
    decreases n
  {
    if n > 0 {
      var last := n - 1;
      GatewayServesBefore(moves, t, last);
      StackStaysInStep(moves[..last]);
      BeforeNext(moves, last);
      MoveTellsTheGateway(Before(moves, last), moves[last], t);
      if i: nat :| SubscribedAt(moves, t, n, i) {
        assert i < last ==> SubscribedAt(moves, t, last, i) && !UndoneAt(moves, t, last);
      }
      if GetsThrough(Before(moves, last), moves[last], true, t) {
        assert SubscribedAt(moves, t, n, last);
      } else if t in Before(moves, n).handler.gateway {
        var i: nat :| SubscribedAt(moves, t, last, i);
        assert SubscribedAt(moves, t, n, i);
      }
    }
  }

  /** Whatever was lost: the gateway serves a topic if and only if, on the present connection, the last frame about it
      that got through subscribed it. */
  lemma GatewayServesExactly(moves: seq<Move>, t: Topic)
    ensures t in MovedAll(CONNECTED, moves).handler.gateway <==> exists i :: SubscribedAt(moves, t, |moves|, i)
  {
    GatewayServesBefore(moves, t, |moves|);
    assert moves[..|moves|] == moves;
  }

  /** A first subscription whose frame is lost: the queue is empty, and the gateway serves nothing. */
  lemma LostSendIsNotRetried(code: string)
    ensures var s := MovedAll(CONNECTED, [Drain(true), Ask(Request(true, Quotes, code)), Drain(false)]);
            && s.queue == [] && s.handler.gateway == {}
            && s.handler.subscriptions == Wanted(s.intent) == {Topic(code, BidAsk)}
  {
    var moves := [Drain(true), Ask(Request(true, Quotes, code)), Drain(false)];
    var one, two := moves[..1], moves[..2];
    assert one[..0] == [] && one == [Drain(true)];
    assert two[..1] == one && moves[..2] == two;
    var up := MovedAll(CONNECTED, one);
    assert MovedAll(CONNECTED, one[..0]) == CONNECTED && up == Moved(CONNECTED, Drain(true));
    assert up == Stack(CONNECTED.intent, map[], [], Handler(true, {}, {}));
    assert Wanted(up.intent) == {};
    var asked := MovedAll(CONNECTED, two);
    assert asked == Moved(up, Ask(Request(true, Quotes, code)));
    assert Wanted(asked.intent) == {Topic(code, BidAsk)};
    assert MovedAll(CONNECTED, moves) == Moved(asked, Drain(false));
  }

  /** No further reconnection, and every send arrives. */
  predicate GoesWell(moves: seq<Move>) {
    forall i :: 0 <= i < |moves| ==>
      match moves[i]
      case Ask(_) => true
      case Drain(delivered) => delivered
      case FreshConnection => false
      case Signal(undelivered) => undelivered == {}
  }

  predicate HasSignal(moves: seq<Move>) {
    exists i :: 0 <= i < |moves| && moves[i].Signal?
  }

  lemma {:induction false} HealingProgresses(s: Stack, moves: seq<Move>)
    requires InStep(s) && s.handler.gateway == {} && GoesWell(moves)
    ensures var now := MovedAll(s, moves);
            && InStep(now)
            && now.handler.gateway <= now.handler.subscriptions
            && (HasSignal(moves) ==> now.handler.gateway == now.handler.subscriptions)
    decreases |moves|
  {
    if moves != [] {
      var n := |moves| - 1;
      var before := MovedAll(s, moves[..n]);
      HealingProgresses(s, moves[..n]);
      MoveKeepsInStep(before, moves[n]);
      assert moves == moves[..n] + [moves[n]];
    }
  }

  /** Reconnection heals: whatever happened before the last reconnection, once its signal has been handled and as
      long as sends arrive, the gateway serves exactly the tracked set, including commands handled before the signal;
      and with the queue drained, exactly the wanted streams. */
  lemma ReconnectHeals(before: seq<Move>, after: seq<Move>)
    requires GoesWell(after) && HasSignal(after)
    ensures var s := MovedAll(MovedAll(CONNECTED, before + [FreshConnection]), after);
            && s.handler.gateway == s.handler.subscriptions
            && (s.queue == [] ==> s.handler.gateway == Wanted(s.intent))
  {
    var moves := before + [FreshConnection];
    StackStaysInStep(moves);
    assert moves[..|moves| - 1] == before;
    HealingProgresses(MovedAll(CONNECTED, moves), after);
  }
}
