/** What each step of the execution client does to its trade-id map, its cached orders and
    the events it generates. The steps are pure here; ExecutionClient performs them in place. */
module Correlation {
  import opened Wrappers
  import opened Orders
  import opened Tokens
  import Gate

  /** How this client computes tokens and decodes tags. */
  datatype Config = Config(token: ClientOrderId -> string, decode: Gate.TagDecoder)

  /** The token is the base-62 reading of the BLAKE2s digest, which stays a parameter. */
  function ClientConfig(hash: ClientOrderId -> Hash, decode: Gate.TagDecoder): (cfg: Config)
    ensures forall c :: cfg.token(c) == CoidToken(hash(c))
    ensures SixCharacterTokens(cfg)
  {
    var token := c => CoidToken(hash(c));
    assert forall c :: token(c) == CoidToken(hash(c));
    Config(token, decode)
  }

  ghost predicate SixCharacterTokens(cfg: Config) {
    forall c :: |cfg.token(c)| == TOKEN_LENGTH
  }

  /** One generated event, with the status of the cached order before and after it. */
  datatype Entry = Entry(id: ClientOrderId, event: Event, before: Status, after: Status)

  /** `bind` is `_trade_id_to_client_order_id`; `cache` and `listing` are what `cache.order` and
      `cache.orders` read; `log` is everything generated so far. */
  datatype State = State(bind: map<TradeId, ClientOrderId>, cache: map<ClientOrderId, Order>,
                         listing: seq<ClientOrderId>, log: seq<Entry>)

  datatype Reply =
    | Placed(status: string, tradeId: Option<TradeId>)
    | TransportFailure
    | BusinessError

  datatype OrderEvent = OrderEvent(opCode: string, opType: string, orderId: TradeId, customField: Option<string>,
                                   modifiedPrice: int, orderQuantity: int, instrumentCached: bool)

  datatype Deal = Deal(tradeId: TradeId, exchangeSeq: Option<string>, ordno: string, quantity: Qty, price: int,
                       customField: Option<string>)

  /** A `list_trades` row: a dictionary in which any key may be missing. */
  datatype TradeRow = TradeRow(code: Option<string>, status: Option<string>, action: Option<string>,
                               priceType: Option<string>, orderType: Option<string>, tradeId: Option<TradeId>,
                               customField: Option<string>, quantity: Option<int>, filledQty: Option<int>,
                               price: Option<int>)

  datatype Query = Query(code: Option<string>, instruments: set<string>, rows: seq<TradeRow>)

  /** The inputs of the client, in the order it processes them. */
  datatype Input =
    | SubmitOrder(request: Gate.OrderRequest, instrument: Option<Gate.Instrument>)
    | PlaceReply(id: ClientOrderId, reply: Reply)
    | OrderUpdate(event: OrderEvent)
    | DealUpdate(deal: Deal, instrumentCached: bool)
    | StatusReports(query: Query)
    | Restart

  // ---------------------------------------------------------------- correlation

  /** The first listed open order whose recomputed token is `token`. */
  function Scan(cfg: Config, cache: map<ClientOrderId, Order>, listing: seq<ClientOrderId>, token: string)
    : (found: Option<ClientOrderId>)
    ensures found.Some? ==> found.value in listing && found.value in cache
                            && !IsClosed(cache[found.value].status) && cfg.token(found.value) == token
    ensures found == None ==>
      forall c :: c in listing && c in cache && !IsClosed(cache[c].status) ==> cfg.token(c) != token
  {
    if listing == [] then None
    else if listing[0] in cache && !IsClosed(cache[listing[0]].status) && cfg.token(listing[0]) == token
    then Some(listing[0])
    else Scan(cfg, cache, listing[1..], token)
  }

  function Resolve(cfg: Config, s: State, key: TradeId, customField: Option<string>): (found: Option<ClientOrderId>) {
    if key in s.bind then Some(s.bind[key])
    else if customField.Some? && customField.value != "" then Scan(cfg, s.cache, s.listing, customField.value)
    else None
  }

  /** The state a resolution leaves: what it found is remembered under its key. */
  function Resolved(cfg: Config, s: State, key: TradeId, customField: Option<string>): (r: State) {
    match Resolve(cfg, s, key, customField)
    case Some(c) => s.(bind := s.bind[key := c])
    case None => s
  }

  function Emit(s: State, c: ClientOrderId, e: Event): (r: State)
    requires c in s.cache
  {
    var o := s.cache[c];
    s.(cache := s.cache[c := Apply(o, e)], log := s.log + [Entry(c, e, o.status, Apply(o, e).status)])
  }

  function Unbind(s: State, key: TradeId): State {
    s.(bind := s.bind - {key})
  }

  // ---------------------------------------------------------------- placing an order

  function NewOrder(request: Gate.OrderRequest): Order {
    Order(Initialized, request.quantity, request.price, 0, {}, None)
  }

  /** An order new to the cache meets its verdict. */
  function AfterVerdict(s: State, c: ClientOrderId, o: Order, v: Gate.Verdict): State {
    var added := s.(cache := s.cache[c := o], listing := s.listing + [c]);
    match v
    case Unsupported => Emit(added, c, Reject)
    case Refused(_) => Emit(Emit(added, c, Submit), c, Reject)
    case Place(_) => Emit(added, c, Submit)
  }

  /** `_submit_order` up to the moment its request leaves. The engine never submits an id twice. */
  function AfterSubmit(cfg: Config, s: State, request: Gate.OrderRequest, instrument: Option<Gate.Instrument>): State {
    var c := request.clientOrderId;
    if c in s.cache then s
    else AfterVerdict(s, c, NewOrder(request), Gate.Decide(request, instrument, cfg.decode, cfg.token(c)))
  }

  /** The part of a dotted status after its last dot. */
  function StatusKey(raw: string): (key: string)
    ensures '.' !in key && |key| <= |raw| && raw[|raw| - |key|..] == key
    ensures '.' in raw ==> |key| < |raw| && raw[|raw| - |key| - 1] == '.'
  {
    if '.' !in raw then raw else StatusKey(raw[1..])
  }

  predicate EndsWith(text: string, suffix: string) {
    |suffix| <= |text| && text[|text| - |suffix|..] == suffix
  }

  /** The gateway may write the name of an enumeration, and a dot, before one of its values. */
  predicate Names(text: string, value: string) {
    text == value || EndsWith(text, "." + value)
  }

  lemma StatusKeyNames(text: string, value: string)
    requires '.' !in value
    ensures StatusKey(text) == value <==> Names(text, value)
  {
    var key := StatusKey(text);
    var n := |text| - |key|;
    if key == value && text != value {
      assert '.' in text;
      assert text[n - 1..] == [text[n - 1]] + text[n..];
    }
    if text == value {
      assert '.' !in text;
    } else if EndsWith(text, "." + value) {
      DotBefore(text, value);
      SameSuffix(text, key, value);
    }
  }

  lemma DotBefore(text: string, value: string)
    requires EndsWith(text, "." + value)
    ensures text[|text| - |value| - 1] == '.' && text[|text| - |value|..] == value && '.' in text
  {
    var tail := text[|text| - |value| - 1..];
    assert tail == "." + value;
    assert tail[0] == '.' && tail[1..] == value;
  }

  lemma DotInside(text: string, n: nat, suffix: string)
    requires |suffix| <= |text| && text[|text| - |suffix|..] == suffix
    ensures n < |suffix| && text[|text| - n - 1] == '.' ==> '.' in suffix
  {
    if n < |suffix| {
      assert suffix[|suffix| - n - 1] == text[|text| - n - 1];
    }
  }

  /** Only one suffix without a dot follows a dot. */
  lemma SameSuffix(text: string, s1: string, s2: string)
    requires |s1| < |text| && text[|text| - |s1|..] == s1 && text[|text| - |s1| - 1] == '.' && '.' !in s1
    requires |s2| < |text| && text[|text| - |s2|..] == s2 && text[|text| - |s2| - 1] == '.' && '.' !in s2
    ensures s1 == s2
  {
    DotInside(text, |s1|, s2);
    DotInside(text, |s2|, s1);
  }

  predicate Refuses(reply: Reply) {
    || reply.BusinessError?
    || (reply.Placed? && (StatusByKey(StatusKey(reply.status)) == Some(AsRejected) || reply.tradeId == None))
  }

  /** `_submit_order` from its await on. A reply without a trade id raises and is handled as a business error. */
  function AfterReply(s: State, c: ClientOrderId, reply: Reply): State {
    if c !in s.cache || reply.TransportFailure? then s
    else if Refuses(reply) then Emit(s, c, Reject)
    else
      var t := reply.tradeId.value;
      Emit(s.(bind := s.bind[t := c]), c, Accept(t))
  }

  // ---------------------------------------------------------------- order and deal events

  function OnOrderEvent(s: State, c: ClientOrderId, e: OrderEvent): State
    requires c in s.cache
  {
    if e.opCode != "00" then
      if e.opType == "New" then
        if s.cache[c].status in {PartiallyFilled, Filled} then s
        else Unbind(Emit(s, c, Reject), e.orderId)
      else if e.opType == "Cancel" then Emit(s, c, CancelReject(e.orderId))
      else if e.opType in {"UpdatePrice", "UpdateQty"} then Emit(s, c, ModifyReject(e.orderId))
      else s
    else if e.opType == "Cancel" then Unbind(Emit(s, c, Cancel(e.orderId)), e.orderId)
    else if e.opType in {"UpdatePrice", "UpdateQty"} && e.instrumentCached then
      Emit(s, c, Update(e.orderId, e.orderQuantity,
                        if e.modifiedPrice > 0 then Some(e.modifiedPrice) else s.cache[c].price))
    else s
  }

  function AfterOrderEvent(cfg: Config, s: State, e: OrderEvent): State {
    var found := Resolved(cfg, s, e.orderId, e.customField);
    match Resolve(cfg, s, e.orderId, e.customField)
    case Some(c) => if c in s.cache then OnOrderEvent(found, c, e) else found
    case None => found
  }

  /** The per-fill key: the exchange's deal sequence, or the deal-level order number without one. */
  function DealKey(d: Deal): string {
    if d.exchangeSeq.Some? && d.exchangeSeq.value != "" then d.exchangeSeq.value else d.ordno
  }

  function FillIdOf(d: Deal): FillId {
    d.tradeId + "-" + DealKey(d)
  }

  function FillOf(o: Order, d: Deal): Event {
    Fill(o.venueId.GetOr(d.tradeId), FillIdOf(d), d.quantity, d.price)
  }

  function OnDeal(s: State, c: ClientOrderId, d: Deal): State
    requires c in s.cache
  {
    var filled := Emit(s, c, FillOf(s.cache[c], d));
    if IsClosed(filled.cache[c].status) then Unbind(filled, d.tradeId) else filled
  }

  function AfterDeal(cfg: Config, s: State, d: Deal, instrumentCached: bool): State {
    if !instrumentCached then s
    else
      var found := Resolved(cfg, s, d.tradeId, d.customField);
      match Resolve(cfg, s, d.tradeId, d.customField)
      case Some(c) => if c in s.cache then OnDeal(found, c, d) else found
      case None => found
  }

  // ---------------------------------------------------------------- reconciliation rows

  datatype ReportedStatus = AsSubmitted | AsAccepted | AsRejected | AsCanceled | AsFilled | AsPartiallyFilled | AsDenied
  datatype Report = Report(clientOrderId: ClientOrderId, venueOrderId: TradeId, code: string,
                           isBuy: bool, isLimit: bool, tif: Gate.TimeInForce,
                           quantity: int, filledQty: int, price: int, status: ReportedStatus)

  function StatusByKey(key: string): Option<ReportedStatus> {
    if key in {"PendingSubmit", "PreSubmitted"} then Some(AsSubmitted)
    else if key == "Submitted" then Some(AsAccepted)
    else if key == "Failed" then Some(AsRejected)
    else if key == "Cancelled" then Some(AsCanceled)
    else if key == "Filled" then Some(AsFilled)
    else if key == "PartFilled" then Some(AsPartiallyFilled)
    else None
  }

  function TifByKey(key: string): Gate.TimeInForce {
    if key == "IOC" then Gate.Ioc else if key == "FOK" then Gate.Fok else Gate.Day
  }

  const SYNTHETIC_PREFIX := "SINOPAC-"

  function ReportedId(found: Option<ClientOrderId>, t: TradeId): ClientOrderId {
    if found.Some? && found.value != "" then found.value else SYNTHETIC_PREFIX + t
  }

  /** What a row comes to before its trade is looked up: passed over, an exception, or a lookup. */
  datatype RowKind = Skipped | Raises | LooksUp

  function KindOf(q: Query, row: TradeRow): RowKind {
    if row.code == None then Raises
    else if q.code.Some? && q.code != row.code then Skipped
    else if row.code.value !in q.instruments then Skipped
    else if row.status == None || row.action == None || row.priceType == None || row.tradeId == None then Raises
    else LooksUp
  }

  /** The report is built after the lookup, and building it may still raise. */
  predicate Reportable(row: TradeRow) {
    && row.quantity.Some? && row.quantity.value >= 0 && row.filledQty.GetOr(0) >= 0 && row.price.Some?
  }

  function ReportFor(row: TradeRow, found: Option<ClientOrderId>): Report
    requires row.code.Some? && row.status.Some? && row.action.Some? && row.priceType.Some? && row.tradeId.Some?
    requires Reportable(row)
  {
    Report(ReportedId(found, row.tradeId.value), row.tradeId.value, row.code.value,
           row.action.value == "Buy", row.priceType.value == "LMT",
           TifByKey(StatusKey(row.orderType.GetOr("ROD"))),
           row.quantity.value, row.filledQty.GetOr(0), row.price.value,
           StatusByKey(StatusKey(row.status.value)).GetOr(AsDenied))
  }

  /** The loop over the rows: the state it leaves and the reports it returns. An exception ends it. */
  function AfterRows(cfg: Config, s: State, q: Query, from: nat): (r: (State, seq<Report>))
    requires from <= |q.rows|
    decreases |q.rows| - from
  {
    if from == |q.rows| then (s, [])
    else
      var row := q.rows[from];
      match KindOf(q, row)
      case Skipped => AfterRows(cfg, s, q, from + 1)
      case Raises => (s, [])
      case LooksUp =>
        var found := Resolved(cfg, s, row.tradeId.value, row.customField);
        if !Reportable(row) then (found, [])
        else
          var report := ReportFor(row, Resolve(cfg, s, row.tradeId.value, row.customField));
          var rest := AfterRows(cfg, found, q, from + 1);
          (rest.0, [report] + rest.1)
  }

  // ---------------------------------------------------------------- runs

  /** A restart loses the map; the cache survives. */
  function Step(cfg: Config, s: State, input: Input): State {
    match input
    case SubmitOrder(request, instrument) => AfterSubmit(cfg, s, request, instrument)
    case PlaceReply(c, reply) => AfterReply(s, c, reply)
    case OrderUpdate(e) => AfterOrderEvent(cfg, s, e)
    case DealUpdate(d, instrumentCached) => AfterDeal(cfg, s, d, instrumentCached)
    case StatusReports(q) => AfterRows(cfg, s, q, 0).0
    case Restart => s.(bind := map[])
  }

  function Run(cfg: Config, s: State, inputs: seq<Input>): State {
    if inputs == [] then s
    else Step(cfg, Run(cfg, s, inputs[..|inputs| - 1]), inputs[|inputs| - 1])
  }
}
