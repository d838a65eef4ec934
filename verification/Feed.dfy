/** The feed handler: it owns the socket, tracks subscriptions, and turns commands and raw frames
    into gateway frames and decoded messages. */
module Feed {
  import opened Wrappers
  import opened Sequences

  datatype QuoteType = Tick | BidAsk
  datatype Topic = Topic(code: string, kind: QuoteType)

  datatype Command =
    | SetClient
    | Subscribe(topic: Topic)
    | Unsubscribe(topic: Topic)
    | Disconnect

  /** The network layer's text for "the transport has reconnected". */
  const RECONNECTED := "__RECONNECTED__"

  datatype RawFrame = Text(text: string) | CloseFrame | ControlFrame

  /** A JSON text with a `type` tag, as far as its envelope can be read. */
  datatype Envelope = Envelope(tag: string, payload: string)

  datatype Incoming =
    | TickMsg(payload: string)
    | BidAskMsg(payload: string)
    | OrderUpdateMsg(payload: string)
    | Subscribed(payload: string)
    | Unsubscribed(payload: string)
    | ErrorMsg(payload: string)
    | Reconnected

  /** The JSON reader: which texts have a readable envelope, and which payloads fit their tag. */
  datatype Json = Json(envelope: string -> Option<Envelope>, fits: Envelope -> bool)

  /** The tag selects the message; no tag selects the reconnection sentinel. */
  function Deserialize(json: Json, text: string): (msg: Option<Incoming>)
    ensures msg != Some(Reconnected)
  {
    match json.envelope(text)
    case None => None
    case Some(e) =>
      if !json.fits(e) then None
      else if e.tag == "tick" then Some(TickMsg(e.payload))
      else if e.tag == "bidask" then Some(BidAskMsg(e.payload))
      else if e.tag == "order_update" then Some(OrderUpdateMsg(e.payload))
      else if e.tag == "subscribed" then Some(Subscribed(e.payload))
      else if e.tag == "unsubscribed" then Some(Unsubscribed(e.payload))
      else if e.tag == "error" then Some(ErrorMsg(e.payload))
      else None
  }

  /** The text is a readable envelope with this tag and payload, and the payload fits. */
  ghost predicate Reads(json: Json, text: string, tag: string, payload: string) {
    json.envelope(text) == Some(Envelope(tag, payload)) && json.fits(Envelope(tag, payload))
  }

  /** Each kind of message is decoded from exactly the texts with its tag, and everything else is poison. */
  lemma DeserializesExactly(json: Json, text: string, payload: string)
    ensures var msg := Deserialize(json, text);
            && (msg == Some(TickMsg(payload)) <==> Reads(json, text, "tick", payload))
            && (msg == Some(BidAskMsg(payload)) <==> Reads(json, text, "bidask", payload))
            && (msg == Some(OrderUpdateMsg(payload)) <==> Reads(json, text, "order_update", payload))
            && (msg == Some(Subscribed(payload)) <==> Reads(json, text, "subscribed", payload))
            && (msg == Some(Unsubscribed(payload)) <==> Reads(json, text, "unsubscribed", payload))
            && (msg == Some(ErrorMsg(payload)) <==> Reads(json, text, "error", payload))
  {
  }

  /** What the handler's select may pick next, in the order it picks it, with the fate of the sends it causes.
      `StopRequested` is the point at which the loop sees the stop signal. */
  datatype Inbound =
    | Cmd(command: Command, delivered: bool)
    | Raw(frame: RawFrame, undelivered: set<Topic>)
    | StopRequested

  /** What the handler does to the outside. */
  datatype Effect =
    | Frame(subscribe: bool, topic: Topic, delivered: bool)
    | Output(msg: Incoming)

  // ---------------------------------------------------------------- what one input means

  predicate EndsTheLoop(i: Inbound) {
    i.StopRequested? || (i.Cmd? && i.command == Disconnect) || (i.Raw? && i.frame == CloseFrame)
  }

  function Decoded(json: Json, i: Inbound): Option<Incoming> {
    if !i.Raw? || !i.frame.Text? then None
    else if i.frame.text == RECONNECTED then Some(Reconnected)
    else Deserialize(json, i.frame.text)
  }

  /** The handler's own state, and what the gateway has been asked for on the present connection. */
  datatype Handler = Handler(hasClient: bool, subscriptions: set<Topic>, gateway: set<Topic>)

  function Handle(h: Handler, i: Inbound): Handler {
    match i
    case Cmd(SetClient, _) => h.(hasClient := true)
    case Cmd(Subscribe(t), delivered) =>
      h.(subscriptions := h.subscriptions + {t},
         gateway := if h.hasClient && delivered then h.gateway + {t} else h.gateway)
    case Cmd(Unsubscribe(t), delivered) =>
      h.(subscriptions := h.subscriptions - {t},
         gateway := if h.hasClient && delivered then h.gateway - {t} else h.gateway)
    case Raw(Text(text), undelivered) =>
      if text == RECONNECTED && h.hasClient then h.(gateway := h.gateway + (h.subscriptions - undelivered)) else h
    case Cmd(Disconnect, _) => h.(hasClient := false)
    case _ => h
  }

  /** Who has a client and what is tracked after one input: commands decide, whether or not their frames arrive. */
  lemma HandlesExactly(h: Handler, i: Inbound, t: Topic)
    ensures Handle(h, i).hasClient <==>
      (i.Cmd? && i.command.SetClient?) || (h.hasClient && !(i.Cmd? && i.command.Disconnect?))
    ensures t in Handle(h, i).subscriptions <==>
      || (i.Cmd? && i.command == Subscribe(t))
      || (t in h.subscriptions && !(i.Cmd? && i.command == Unsubscribe(t)))
  {
  }

  const FRESH := Handler(false, {}, {})

  function HandleAll(h: Handler, inputs: seq<Inbound>): Handler {
    if inputs == [] then h
    else Handle(HandleAll(h, inputs[..|inputs| - 1]), inputs[|inputs| - 1])
  }

  /** A command is sent once there is a client, whether or not the send succeeds. */
  function CommandFrames(hasClient: bool, c: Command, delivered: bool): seq<Effect> {
    match c
    case Subscribe(t) => if hasClient then [Frame(true, t, delivered)] else []
    case Unsubscribe(t) => if hasClient then [Frame(false, t, delivered)] else []
    case _ => []
  }

  /** With a client a command to subscribe or unsubscribe is one frame, and nothing else is sent. */
  lemma CommandFramesExactly(hasClient: bool, c: Command, delivered: bool)
    ensures CommandFrames(hasClient, c, delivered) ==
      if hasClient && (c.Subscribe? || c.Unsubscribe?) then [Frame(c.Subscribe?, c.topic, delivered)] else []
  {
  }

  function Resubscribe(t: Topic, undelivered: set<Topic>): Effect {
    Frame(true, t, t !in undelivered)
  }

  /** One subscribe frame for each topic of `topics`, in any order. */
  ghost predicate IsResubscription(frames: seq<Effect>, topics: set<Topic>, undelivered: set<Topic>) {
    && (forall i :: 0 <= i < |frames| ==>
          frames[i].Frame? && frames[i].topic in topics && frames[i] == Resubscribe(frames[i].topic, undelivered))
    && (forall i, j :: 0 <= i < j < |frames| ==> frames[i] != frames[j])
    && (forall t :: t in topics ==> Resubscribe(t, undelivered) in frames)
  }

  // ---------------------------------------------------------------- the specification of the loop

  /** The inputs the loop takes: up to and including the first that ends it. */
  function LivePart(inbox: seq<Inbound>): (live: seq<Inbound>) {
    if inbox == [] then []
    else if EndsTheLoop(inbox[0]) then [inbox[0]]
    else [inbox[0]] + LivePart(inbox[1..])
  }

  /** The texts, decoded in order; poison and control frames leave nothing. */
  function DecodeAll(json: Json, inputs: seq<Inbound>): (msgs: seq<Incoming>) {
    if inputs == [] then []
    else AsSeq(Decoded(json, inputs[0])) + DecodeAll(json, inputs[1..])
  }

  function AsSeq(msg: Option<Incoming>): seq<Incoming> {
    if msg.Some? then [msg.value] else []
  }

  function CountReconnected(msgs: seq<Incoming>): nat {
    if msgs == [] then 0 else (if msgs[0] == Reconnected then 1 else 0) + CountReconnected(msgs[1..])
  }

  function CountSignals(inputs: seq<Inbound>): nat {
    if inputs == [] then 0
    else (if inputs[0].Raw? && inputs[0].frame == Text(RECONNECTED) then 1 else 0) + CountSignals(inputs[1..])
  }

  /** What a frame yields: a signal the sentinel, another text its message, and anything else nothing. */
  lemma DecodesExactly(json: Json, i: Inbound)
    ensures Decoded(json, i) == Some(Reconnected) <==> i.Raw? && i.frame == Text("__RECONNECTED__")
    ensures i.Raw? && i.frame.Text? && i.frame.text != "__RECONNECTED__" ==>
      Decoded(json, i) == Deserialize(json, i.frame.text)
    ensures i.Cmd? || i.StopRequested? || (i.Raw? && !i.frame.Text?) ==> Decoded(json, i) == None
  {
  }

  /** The loop takes inputs from the front, and stops right after the first close frame, stop or disconnect. */
  lemma {:induction false} LivePartExactly(inbox: seq<Inbound>)
    ensures LivePart(inbox) <= inbox
    ensures forall i :: 0 <= i < |LivePart(inbox)| ==>
      ((inbox[i].StopRequested? || (inbox[i].Raw? && inbox[i].frame.CloseFrame?)
        || (inbox[i].Cmd? && inbox[i].command.Disconnect?)) ==> i == |LivePart(inbox)| - 1)
    ensures |LivePart(inbox)| < |inbox| ==>
      && LivePart(inbox) != []
      && var last := inbox[|LivePart(inbox)| - 1];
         || last.StopRequested? || (last.Raw? && last.frame.CloseFrame?)
         || (last.Cmd? && last.command.Disconnect?)
    decreases |inbox|
  {
    if inbox != [] {
      LivePartExactly(inbox[1..]);
      assert inbox == [inbox[0]] + inbox[1..];
    }
  }

  /** Every reconnection signal, and nothing the gateway can send as JSON, becomes the sentinel. */
  lemma {:induction false} SentinelsAreSignals(json: Json, inputs: seq<Inbound>)
    ensures CountReconnected(DecodeAll(json, inputs)) == CountSignals(inputs)
    decreases |inputs|
  {
    if inputs != [] {
      SentinelsAreSignals(json, inputs[1..]);
      var rest := DecodeAll(json, inputs[1..]);
      var first := AsSeq(Decoded(json, inputs[0]));
      assert first == [] ==> first + rest == rest;
      assert first != [] ==> (first + rest)[1..] == rest;
    }
  }

  // ---------------------------------------------------------------- the effects of a run

  function AsOutput(msg: Option<Incoming>): seq<Effect> {
    if msg.Some? then [Output(msg.value)] else []
  }

  /** With a client every tracked topic is subscribed again, and without one nothing is sent. */
  ghost predicate Resubscribes(h: Handler, undelivered: set<Topic>, frames: seq<Effect>) {
    if h.hasClient then IsResubscription(frames, h.subscriptions, undelivered) else frames == []
  }

  predicate IsSignal(i: Inbound) {
    i.Raw? && i.frame == Text(RECONNECTED)
  }

  /** What one input makes the handler do; a reconnection signal is answered before it is passed on. */
  ghost predicate DoneFor(json: Json, h: Handler, i: Inbound, done: seq<Effect>) {
    if IsSignal(i) then
      && done != [] && done[|done| - 1] == Output(Reconnected)
      && Resubscribes(h, i.undelivered, done[..|done| - 1])
    else
      done == (if i.Cmd? then CommandFrames(h.hasClient, i.command, i.delivered) else []) + AsOutput(Decoded(json, i))
  }

  /** A relation between a handler's state, an input and what it makes the handler do. */
  type Doing = (Handler, Inbound, seq<Effect>) -> bool

  ghost function DoingOf(json: Json): Doing {
    (h, i, done) => DoneFor(json, h, i, done)
  }

  /** The effects are those of the inputs, one input after the other. */
  ghost predicate Explains(does: Doing, h: Handler, inputs: seq<Inbound>, effects: seq<Effect>)
    decreases |inputs|
  {
    if inputs == [] then effects == []
    else
      var n := |inputs| - 1;
      exists cut :: 0 <= cut <= |effects|
        && Explains(does, h, inputs[..n], effects[..cut])
        && does(HandleAll(h, inputs[..n]), inputs[n], effects[cut..])
  }

  lemma ExplainsOneMore(does: Doing, h: Handler, inputs: seq<Inbound>, effects: seq<Effect>, i: Inbound,
                        done: seq<Effect>)
    requires Explains(does, h, inputs, effects) && does(HandleAll(h, inputs), i, done)
    ensures Explains(does, h, inputs + [i], effects + done)
    ensures HandleAll(h, inputs + [i]) == Handle(HandleAll(h, inputs), i)
  {
    assert (inputs + [i])[..|inputs|] == inputs;
    assert (effects + done)[..|effects|] == effects && (effects + done)[|effects|..] == done;
  }

  lemma ExplainsLast(does: Doing, h: Handler, inputs: seq<Inbound>, effects: seq<Effect>) returns (cut: nat)
    requires Explains(does, h, inputs, effects) && inputs != []
    ensures var n := |inputs| - 1;
            && cut <= |effects| && Explains(does, h, inputs[..n], effects[..cut])
            && does(HandleAll(h, inputs[..n]), inputs[n], effects[cut..])
  {
    var n := |inputs| - 1;
    cut :| cut <= |effects| && Explains(does, h, inputs[..n], effects[..cut])
      && does(HandleAll(h, inputs[..n]), inputs[n], effects[cut..]);
  }

  lemma {:induction false} ExplainsInTurn(does: Doing, h: Handler, first: seq<Inbound>, e1: seq<Effect>,
                                          second: seq<Inbound>, e2: seq<Effect>)
    requires Explains(does, h, first, e1) && Explains(does, HandleAll(h, first), second, e2)
    ensures Explains(does, h, first + second, e1 + e2)
    ensures HandleAll(h, first + second) == HandleAll(HandleAll(h, first), second)
    decreases |second|
  {
    if second == [] {
      assert first + second == first && e1 + e2 == e1;
    } else {
      var n := |second| - 1;
      var before, last := second[..n], second[n];
      var cut := ExplainsLast(does, HandleAll(h, first), second, e2);
      var head, tail := e2[..cut], e2[cut..];
      ExplainsInTurn(does, h, first, e1, before, head);
      ExplainsOneMore(does, h, first + before, e1 + head, last, tail);
      Associates(first, before, [last]);
      Associates(e1, head, tail);
      assert before + [last] == second && head + tail == e2;
    }
  }

  /** The inputs lead from one state to the other and have these effects. */
  ghost predicate Reached(json: Json, from: Handler, inputs: seq<Inbound>, effects: seq<Effect>, to: Handler) {
    to == HandleAll(from, inputs) && Explains(DoingOf(json), from, inputs, effects)
  }

  lemma ReachesOneMore(json: Json, from: Handler, inputs: seq<Inbound>, effects: seq<Effect>, now: Handler,
                       i: Inbound, more: seq<Effect>, msg: Option<Incoming>)
    requires Reached(json, from, inputs, effects, now) && DoneFor(json, now, i, more + AsOutput(msg))
    ensures Reached(json, from, inputs + [i], effects + more + AsOutput(msg), Handle(now, i))
    ensures msg == None ==> Reached(json, from, inputs + [i], effects + more, Handle(now, i))
  {
    ExplainsOneMore(DoingOf(json), from, inputs, effects, i, more + AsOutput(msg));
    Associates(effects, more, AsOutput(msg));
    assert msg == None ==> effects + more + AsOutput(msg) == effects + more;
  }

  lemma ReachesInTurn(json: Json, from: Handler, first: seq<Inbound>, e1: seq<Effect>, now: Handler,
                      second: seq<Inbound>, e2: seq<Effect>, to: Handler)
    requires Reached(json, from, first, e1, now) && Reached(json, now, second, e2, to)
    ensures Reached(json, from, first + second, e1 + e2, to)
  {
    ExplainsInTurn(DoingOf(json), from, first, e1, second, e2);
  }

  /** Only the answer to a signal has a sentinel, and at its end. */
  ghost predicate SentinelEnds(does: Doing) {
    forall h, i, done, k: nat :: does(h, i, done) && k < |done| && done[k] == Output(Reconnected) ==>
      IsSignal(i) && Resubscribes(h, i.undelivered, done[..k])
  }

  lemma {:induction false} FindSignal(does: Doing, h: Handler, inputs: seq<Inbound>, effects: seq<Effect>, k: nat)
    returns (n: nat, j: nat)
    requires SentinelEnds(does)
    requires Explains(does, h, inputs, effects) && k < |effects| && effects[k] == Output(Reconnected)
    ensures n < |inputs| && IsSignal(inputs[n])
    ensures j <= k && Resubscribes(HandleAll(h, inputs[..n]), inputs[n].undelivered, effects[j..k])
    decreases |inputs|
  {
    n := |inputs| - 1;
    var cut := ExplainsLast(does, h, inputs, effects);
    if k < cut {
      var before := inputs[..n];
      n, j := FindSignal(does, h, before, effects[..cut], k);
      assert before[..n] == inputs[..n] && effects[..cut][j..k] == effects[j..k];
    } else {
      j := cut;
      assert effects[cut..][k - cut] == effects[k];
      assert effects[cut..][..k - cut] == effects[cut..k];
    }
  }

  /** Over a whole run, right before each sentinel passed on stand the frames that answer its signal: one for each
      topic tracked at that point. */
  lemma SentinelsFollowResubscriptions(json: Json, h: Handler, inputs: seq<Inbound>, effects: seq<Effect>, k: nat)
    returns (n: nat, j: nat)
    requires Reached(json, h, inputs, effects, HandleAll(h, inputs))
    requires k < |effects| && effects[k] == Output(Reconnected)
    ensures n < |inputs| && IsSignal(inputs[n])
    ensures j <= k && Resubscribes(HandleAll(h, inputs[..n]), inputs[n].undelivered, effects[j..k])
  {
    SentinelEndsTheAnswer(json);
    n, j := FindSignal(DoingOf(json), h, inputs, effects, k);
  }

  lemma SentinelEndsTheAnswer(json: Json)
    ensures SentinelEnds(DoingOf(json))
  {
    forall h, i, done, k: nat | DoingOf(json)(h, i, done) && k < |done| && done[k] == Output(Reconnected)
      ensures IsSignal(i) && Resubscribes(h, i.undelivered, done[..k])
    {
      SentinelIsLast(json, h, i, done, k);
    }
  }

  lemma SentinelIsLast(json: Json, h: Handler, i: Inbound, done: seq<Effect>, k: nat)
    requires DoneFor(json, h, i, done) && k < |done| && done[k] == Output(Reconnected)
    ensures IsSignal(i) && k == |done| - 1
  {
  }

  // ---------------------------------------------------------------- the handler

  class FeedHandler {
    const json: Json
    var hasClient: bool
    var subscriptions: set<Topic>
    var inbox: seq<Inbound>
    var effects: seq<Effect>
    ghost var gateway: set<Topic>

    ghost function View(): Handler
      reads this
    {
      Handler(hasClient, subscriptions, gateway)
    }

    constructor (json: Json, inbox: seq<Inbound>)
      ensures this.json == json && this.inbox == inbox
      ensures View() == FRESH && effects == []
    {
      this.json, this.inbox := json, inbox;
      hasClient, subscriptions, effects, gateway := false, {}, [], {};
    }

    method SendText(subscribe: bool, t: Topic, delivered: bool)
      modifies this`effects, this`gateway
      ensures effects == old(effects) + [Frame(subscribe, t, delivered)]
      ensures gateway == if !delivered then old(gateway)
                         else if subscribe then old(gateway) + {t} else old(gateway) - {t}
    {
      effects := effects + [Frame(subscribe, t, delivered)];
      if delivered {
        gateway := if subscribe then gateway + {t} else gateway - {t};
      }
    }

    /** `resubscribe_all`: one frame per tracked topic, in the order of the hash set. */
    method ResubscribeAll(undelivered: set<Topic>)
      modifies this`effects, this`gateway
      ensures View() == Handle(old(View()), Raw(Text(RECONNECTED), undelivered))
      ensures old(effects) <= effects
      ensures Resubscribes(View(), undelivered, effects[|old(effects)|..])
    {
      if !hasClient {
        return;
      }
      var todo := subscriptions;
      ghost var start, done := |effects|, {};
      while todo != {}
        invariant todo + done == subscriptions && todo !! done
        invariant old(effects) <= effects
        invariant IsResubscription(effects[start..], done, undelivered)
        invariant gateway == old(gateway) + (done - undelivered)
        decreases todo
      {
        var t :| t in todo;
        ResubscriptionGrows(effects[start..], done, undelivered, t);
        ghost var sent := effects[start..];
        SendText(true, t, t !in undelivered);
        assert effects[start..] == sent + [Resubscribe(t, undelivered)];
        todo, done := todo - {t}, done + {t};
      }
    }

    method HandleCommand(c: Command, delivered: bool)
      modifies this`hasClient, this`subscriptions, this`effects, this`gateway
      ensures View() == Handle(old(View()), Cmd(c, delivered))
      ensures effects == old(effects) + CommandFrames(old(hasClient), c, delivered)
    {
      match c {
        case SetClient =>
          hasClient := true;
        case Subscribe(t) =>
          if hasClient {
            SendText(true, t, delivered);
          }
          subscriptions := subscriptions + {t};
        case Unsubscribe(t) =>
          if hasClient {
            SendText(false, t, delivered);
          }
          subscriptions := subscriptions - {t};
        case Disconnect =>
          hasClient := false;
      }
    }

    /** One pass of the loop body. What it does, and the message it yields, answer the input. */
    method HandleInput(input: Inbound) returns (msg: Option<Incoming>, ghost did: seq<Effect>)
      modifies this`hasClient, this`subscriptions, this`effects, this`gateway
      ensures View() == Handle(old(View()), input)
      ensures msg == Decoded(json, input)
      ensures effects == old(effects) + did && DoneFor(json, old(View()), input, did + AsOutput(msg))
    {
      ghost var from := |effects|;
      msg, did := None, [];
      if input.Cmd? {
        HandleCommand(input.command, input.delivered);
        did := CommandFrames(old(hasClient), input.command, input.delivered);
      } else if input.Raw? && input.frame.Text? {
        if input.frame.text == RECONNECTED {
          ResubscribeAll(input.undelivered);
          did := effects[from..];
          assert (did + [Output(Reconnected)])[..|did|] == did;
          return Some(Reconnected), did;
        }
        msg := Deserialize(json, input.frame.text);
      }
    }

    /** `next`: takes inputs until one of them yields a message or ends the loop. */
    method Next() returns (msg: Option<Incoming>, ghost taken: seq<Inbound>, ghost did: seq<Effect>)
      modifies this`hasClient, this`subscriptions, this`inbox, this`effects, this`gateway
      ensures LivePart(old(inbox)) == if msg.Some? then taken + LivePart(inbox) else taken
      ensures Yields(json, taken, msg)
      ensures msg.Some? ==> |inbox| < |old(inbox)|
      ensures effects == old(effects) + did && Reached(json, old(View()), taken, did + AsOutput(msg), View())
    {
      ghost var live, start, origin := LivePart(inbox), effects, View();
      msg, taken, did := None, [], [];
      while inbox != []
        invariant effects == start + did
        invariant msg == None && |inbox| <= |old(inbox)|
        invariant Taking(json, origin, live, taken, did, inbox, View())
        decreases |inbox|
      {
        ghost var more, now, rest := [], View(), inbox;
        var input := inbox[0];
        inbox := inbox[1..];
        msg, more := HandleInput(input);
        TakesOne(json, origin, live, taken, did, rest, now, more, msg);
        Associates(start, did, more);
        taken, did := taken + [input], did + more;
        if msg.Some? || EndsTheLoop(input) {
          return;
        }
      }
      TakesNone(json, origin, live, taken, did, View());
    }

    /** One round of the handler task: a message of `next` is sent on. */
    method Forward() returns (msg: Option<Incoming>, ghost taken: seq<Inbound>, ghost did: seq<Effect>)
      modifies this`hasClient, this`subscriptions, this`inbox, this`effects, this`gateway
      ensures LivePart(old(inbox)) == if msg.Some? then taken + LivePart(inbox) else taken
      ensures Yields(json, taken, msg)
      ensures msg.Some? ==> |inbox| < |old(inbox)|
      ensures effects == old(effects) + did && Reached(json, old(View()), taken, did, View())
    {
      ghost var start := effects;
      msg, taken, did := Next();
      Associates(start, did, AsOutput(msg));
      did := did + AsOutput(msg);
      if msg.Some? {
        effects := effects + [Output(msg.value)];
      } else {
        assert start + did + [] == start + did;
      }
    }

    /** The handler task: it forwards every message of `next`, in order, until there is none. What it does are the
        answers to the consumed inputs, each in its turn. */
    method RunTask() returns (out: seq<Incoming>, ghost did: seq<Effect>)
      modifies this`hasClient, this`subscriptions, this`inbox, this`effects, this`gateway
      ensures out == DecodeAll(json, LivePart(old(inbox)))
      ensures CountReconnected(out) == CountSignals(LivePart(old(inbox)))
      ensures effects == old(effects) + did && Reached(json, old(View()), LivePart(old(inbox)), did, View())
    {
      ghost var live, done, start, origin := LivePart(inbox), [], effects, View();
      SentinelsAreSignals(json, live);
      out, did := [], [];
      var running := true;
      while running
        invariant effects == start + did
        invariant Forwarded(json, origin, done, out, did, View())
        invariant live == if running then done + LivePart(inbox) else done
        decreases if running then |inbox| + 1 else 0
      {
        ghost var now := View();
        var msg;
        ghost var taken, more;
        msg, taken, more := Forward();
        ForwardsOne(json, origin, done, out, did, now, taken, more, msg, View());
        Associates(start, did, more);
        Associates(done, taken, LivePart(inbox));
        done, did, out := done + taken, did + more, out + AsSeq(msg);
        running := msg.Some?;
      }
    }
  }

  /** Where `next` is after the inputs `taken`: they yielded nothing, and `inbox` is left. */
  ghost predicate Taking(json: Json, origin: Handler, live: seq<Inbound>, taken: seq<Inbound>, did: seq<Effect>,
                         inbox: seq<Inbound>, now: Handler) {
    && live == taken + LivePart(inbox) && Yields(json, taken, None)
    && Reached(json, origin, taken, did, now)
  }

  lemma TakesOne(json: Json, origin: Handler, live: seq<Inbound>, taken: seq<Inbound>, did: seq<Effect>,
                 inbox: seq<Inbound>, now: Handler, more: seq<Effect>, msg: Option<Incoming>)
    requires Taking(json, origin, live, taken, did, inbox, now) && inbox != []
    requires msg == Decoded(json, inbox[0]) && DoneFor(json, now, inbox[0], more + AsOutput(msg))
    ensures var next := taken + [inbox[0]];
            && live == (if EndsTheLoop(inbox[0]) then next else next + LivePart(inbox[1..]))
            && Yields(json, next, msg) && (EndsTheLoop(inbox[0]) ==> msg == None)
            && Reached(json, origin, next, did + more + AsOutput(msg), Handle(now, inbox[0]))
            && (msg == None ==> Reached(json, origin, next, did + more, Handle(now, inbox[0])))
  {
    TakeOne(json, inbox, taken);
    ReachesOneMore(json, origin, taken, did, now, inbox[0], more, msg);
  }

  lemma TakesNone(json: Json, origin: Handler, live: seq<Inbound>, taken: seq<Inbound>, did: seq<Effect>, now: Handler)
    requires Taking(json, origin, live, taken, did, [], now)
    ensures live == taken && Reached(json, origin, taken, did + AsOutput(None), now)
  {
    assert taken + [] == taken && did + [] == did;
  }

  /** Where the task is after the inputs `done`: it has forwarded their messages. */
  ghost predicate Forwarded(json: Json, origin: Handler, done: seq<Inbound>, out: seq<Incoming>, did: seq<Effect>,
                            now: Handler) {
    out == DecodeAll(json, done) && Reached(json, origin, done, did, now)
  }

  lemma ForwardsOne(json: Json, origin: Handler, done: seq<Inbound>, out: seq<Incoming>, did: seq<Effect>, now: Handler,
                    taken: seq<Inbound>, more: seq<Effect>, msg: Option<Incoming>, next: Handler)
    requires Forwarded(json, origin, done, out, did, now)
    requires Yields(json, taken, msg) && Reached(json, now, taken, more, next)
    ensures Forwarded(json, origin, done + taken, out + AsSeq(msg), did + more, next)
  {
    StretchExtends(json, done, taken, msg);
    ReachesInTurn(json, origin, done, did, now, taken, more, next);
  }

  lemma {:induction false} DecodeAllSplits(json: Json, first: seq<Inbound>, second: seq<Inbound>)
    ensures DecodeAll(json, first + second) == DecodeAll(json, first) + DecodeAll(json, second)
    decreases |first|
  {
    if first == [] {
      assert first + second == second;
    } else {
      DecodeAllSplits(json, first[1..], second);
      assert (first + second)[1..] == first[1..] + second;
    }
  }

  lemma TakeOne(json: Json, inbox: seq<Inbound>, taken: seq<Inbound>)
    requires inbox != [] && Yields(json, taken, None)
    ensures var more := taken + [inbox[0]];
            && taken + LivePart(inbox) == (if EndsTheLoop(inbox[0]) then more else more + LivePart(inbox[1..]))
            && Yields(json, more, Decoded(json, inbox[0]))
  {
    Associates(taken, [inbox[0]], LivePart(inbox[1..]));
  }

  /** Of a stretch of inputs, only the last can yield a message. */
  ghost predicate Yields(json: Json, stretch: seq<Inbound>, msg: Option<Incoming>) {
    && (msg.Some? ==> stretch != [] && Decoded(json, stretch[|stretch| - 1]) == msg)
    && forall i :: 0 <= i < |stretch| - |AsSeq(msg)| ==> Decoded(json, stretch[i]) == None
  }

  lemma {:induction false} StretchDecodes(json: Json, stretch: seq<Inbound>, msg: Option<Incoming>)
    requires Yields(json, stretch, msg)
    ensures DecodeAll(json, stretch) == AsSeq(msg)
    decreases |stretch|
  {
    if stretch != [] {
      if msg.Some? && |stretch| == 1 {
        assert DecodeAll(json, stretch[1..]) == [];
      } else {
        StretchDecodes(json, stretch[1..], msg);
      }
    }
  }

  lemma StretchExtends(json: Json, done: seq<Inbound>, stretch: seq<Inbound>, msg: Option<Incoming>)
    requires Yields(json, stretch, msg)
    ensures DecodeAll(json, done + stretch) == DecodeAll(json, done) + AsSeq(msg)
  {
    DecodeAllSplits(json, done, stretch);
    StretchDecodes(json, stretch, msg);
  }

  lemma ResubscriptionGrows(frames: seq<Effect>, topics: set<Topic>, undelivered: set<Topic>, t: Topic)
    requires IsResubscription(frames, topics, undelivered) && t !in topics
    ensures IsResubscription(frames + [Resubscribe(t, undelivered)], topics + {t}, undelivered)
  {
    var all := frames + [Resubscribe(t, undelivered)];
    forall u | u in topics + {t}
      ensures Resubscribe(u, undelivered) in all
    {
      if u == t {
        assert all[|frames|] == Resubscribe(t, undelivered);
      } else {
        assert Resubscribe(u, undelivered) in frames;
      }
    }
  }
}
