/** The local order gate: which orders reach `place_order`, with which parameters,
    and why the others are refused. */
module Gate {
  import opened Wrappers
  import opened Grid

  datatype OrderType =
    | Market | Limit | MarketToLimit
    | StopMarket | StopLimit | MarketIfTouched | LimitIfTouched | TrailingStopMarket | TrailingStopLimit
  datatype TimeInForce = Day | Gtc | Ioc | Fok | Gtd | AtTheOpen | AtTheClose
  datatype Side = Buy | Sell | NoSide

  /** A strategy's order. Market orders carry no price; a missing tag list is an empty one. */
  datatype OrderRequest = OrderRequest(
    clientOrderId: string, side: Side, orderType: OrderType, tif: TimeInForce,
    quantity: int, price: Option<int>, tags: seq<string>)

  datatype InstrumentKind = Equity | FuturesContract | OptionContract | OtherKind
  datatype Instrument = Instrument(kind: InstrumentKind, priceIncrement: int)

  datatype Venue = StockMarket | FuturesMarket | OptionsMarket
  datatype PriceType = LMT | MKT | MKP
  datatype VenueOrderType = ROD | IOC | FOK
  datatype OrderLot = Common | IntradayOdd
  datatype OrderCond = Cash | MarginTrading | ShortSelling
  datatype OCType = Auto | New | Cover | DayTrade

  /** The decoded JSON of a `SINOPAC:` tag. */
  datatype TagFields = TagFields(orderLot: string, orderCond: string, daytradeShort: bool, octype: string)

  datatype ValidatedTags = ValidatedTags(cond: OrderCond, lot: OrderLot, octype: OCType, daytradeShort: bool)

  datatype PlaceOrder = PlaceOrder(
    side: Side, price: int, quantity: int, priceType: PriceType, orderType: VenueOrderType,
    market: Venue, tags: ValidatedTags, customField: string)

  datatype Reason =
    | UnknownSide | UnsupportedTimeInForce | MalformedTags
    | UnknownLot | UnknownCond | UnknownOCType
    | StockRangeMarket | OddLotType | OddLotQuantity | OddLotCond | CommonLotQuantity | DaytradeShortCond

  /** `Unsupported` is refused before the order counts as submitted, `Refused` after. */
  datatype Verdict = Unsupported | Refused(reason: Reason) | Place(order: PlaceOrder)

  const TAG_PREFIX := "SINOPAC:"
  const DEFAULT_TAGS := TagFields("Common", "Cash", false, "Auto")

  /** The JSON decoder is not modelled: any partial function from tag bodies to fields. */
  type TagDecoder = string -> Option<TagFields>

  /** The first tag with the prefix decides; without one the defaults hold. */
  function FromTags(tags: seq<string>, decode: TagDecoder): (r: Option<TagFields>) {
    if tags == [] then Some(DEFAULT_TAGS)
    else if TAG_PREFIX <= tags[0] then decode(tags[0][|TAG_PREFIX|..])
    else FromTags(tags[1..], decode)
  }

  function ResolvePriceType(t: OrderType): Option<PriceType> {
    match t
    case Limit => Some(LMT)
    case Market => Some(MKT)
    case MarketToLimit => Some(MKP)
    case _ => None
  }

  function ResolveOrderType(t: OrderType, tif: TimeInForce): Option<VenueOrderType> {
    if tif == Ioc then Some(IOC)
    else if tif == Fok then Some(FOK)
    else if t == Market || t == MarketToLimit then
      if tif == Day || tif == Gtc then Some(IOC) else None
    else if tif == Day || tif == Gtc then Some(ROD)
    else None
  }

  function DetermineMarket(instrument: Option<Instrument>): Venue {
    match instrument
    case Some(Instrument(FuturesContract, _)) => FuturesMarket
    case Some(Instrument(OptionContract, _)) => OptionsMarket
    case _ => StockMarket
  }

  function LotByName(name: string): Option<OrderLot> {
    if name == "Common" then Some(Common) else if name == "IntradayOdd" then Some(IntradayOdd) else None
  }

  function CondByName(name: string): Option<OrderCond> {
    if name == "Cash" then Some(Cash)
    else if name == "MarginTrading" then Some(MarginTrading)
    else if name == "ShortSelling" then Some(ShortSelling)
    else None
  }

  function OCTypeByName(name: string): Option<OCType> {
    if name == "Auto" then Some(Auto)
    else if name == "New" then Some(New)
    else if name == "Cover" then Some(Cover)
    else if name == "DayTrade" then Some(DayTrade)
    else None
  }

  function ValidateStockLotRules(lot: OrderLot, cond: OrderCond, daytradeShort: bool,
                                 priceType: PriceType, orderType: VenueOrderType, quantity: int): Option<Reason> {
    if lot == IntradayOdd && (priceType != LMT || orderType != ROD) then Some(OddLotType)
    else if lot == IntradayOdd && !(1 <= quantity <= 999) then Some(OddLotQuantity)
    else if lot == IntradayOdd && cond != Cash then Some(OddLotCond)
    else if lot == Common && quantity % 1000 != 0 then Some(CommonLotQuantity)
    else if daytradeShort && cond != Cash then Some(DaytradeShortCond)
    else None
  }

  function ValidateAndMapTags(tags: TagFields, market: Venue, priceType: PriceType,
                              orderType: VenueOrderType, quantity: int): (r: Result<ValidatedTags, Reason>)
    ensures r.Ok? <==> TagRules(tags, market, priceType, orderType, quantity)
  {
    var lot := LotByName(tags.orderLot);
    var cond := CondByName(tags.orderCond);
    var octype := OCTypeByName(tags.octype);
    if lot == None then Err(UnknownLot)
    else if cond == None then Err(UnknownCond)
    else if octype == None then Err(UnknownOCType)
    else if market == StockMarket && priceType == MKP then Err(StockRangeMarket)
    else
      var broken := if market == StockMarket
        then ValidateStockLotRules(lot.value, cond.value, tags.daytradeShort, priceType, orderType, quantity)
        else None;
      if broken.Some? then Err(broken.value)
      else Ok(ValidatedTags(cond.value, lot.value,
                            if market == StockMarket then Auto else octype.value, tags.daytradeShort))
  }

  function ResolveSendPrice(price: Option<int>, instrument: Option<Instrument>): int {
    match (price, instrument)
    case (None, _) => 0
    case (Some(p), Some(i)) => if i.priceIncrement <= 0 then p else SnapPriceToGrid(p, i.priceIncrement)
    case (Some(p), None) => p
  }

  /** Everything `_submit_order` does before its request leaves. The gate is sound and complete for the
      Taiwan rules below. */
  function Decide(o: OrderRequest, instrument: Option<Instrument>, decode: TagDecoder, token: string): (v: Verdict)
    ensures v.Place? <==> TaiwanRules(o, instrument, FromTags(o.tags, decode))
    ensures v.Unsupported? <==> o.orderType !in {Limit, Market, MarketToLimit}
  {
    var priceType := ResolvePriceType(o.orderType);
    if priceType == None then Unsupported
    else if o.side == NoSide then Refused(UnknownSide)
    else
      var orderType := ResolveOrderType(o.orderType, o.tif);
      if orderType == None then Refused(UnsupportedTimeInForce)
      else
        var tags := FromTags(o.tags, decode);
        if tags == None then Refused(MalformedTags)
        else
          var market := DetermineMarket(instrument);
          TagRulesAreTaiwanRules(o, instrument, tags.value);
          match ValidateAndMapTags(tags.value, market, priceType.value, orderType.value, o.quantity)
          case Err(reason) => Refused(reason)
          case Ok(validated) =>
            Place(PlaceOrder(o.side, ResolveSendPrice(o.price, instrument), o.quantity, priceType.value,
                             orderType.value, market, validated, token))
  }

  // ---------------------------------------------------------------- the rules, stated on their own

  ghost predicate IsStock(instrument: Option<Instrument>) {
    instrument.Some? ==> instrument.value.kind !in {FuturesContract, OptionContract}
  }

  /** The tag that counts: no earlier tag has the prefix. */
  ghost predicate FirstSinopacTag(tags: seq<string>, i: nat) {
    i < |tags| && "SINOPAC:" <= tags[i] && forall k :: 0 <= k < i ==> !("SINOPAC:" <= tags[k])
  }

  /** Without a tag that counts an order is a common-lot cash order, no day-trade short, with automatic open-close. */
  lemma {:induction false} FromTagsReadsTheFirst(tags: seq<string>, decode: TagDecoder)
    ensures (forall k :: 0 <= k < |tags| ==> !("SINOPAC:" <= tags[k])) ==>
      FromTags(tags, decode) == Some(TagFields("Common", "Cash", false, "Auto"))
    ensures forall i: nat :: FirstSinopacTag(tags, i) ==> FromTags(tags, decode) == decode(tags[i][8..])
  {
    if tags != [] && !(TAG_PREFIX <= tags[0]) {
      FromTagsReadsTheFirst(tags[1..], decode);
      forall i: nat | FirstSinopacTag(tags, i)
        ensures FromTags(tags, decode) == decode(tags[i][8..])
      {
        assert FirstSinopacTag(tags[1..], i - 1);
      }
    }
  }

  /** The rules on tags, for a request whose price type and order type are resolved. */
  ghost predicate TagRules(tags: TagFields, market: Venue, priceType: PriceType, orderType: VenueOrderType,
                           quantity: int) {
    && tags.orderLot in {"Common", "IntradayOdd"}
    && tags.orderCond in {"Cash", "MarginTrading", "ShortSelling"}
    && tags.octype in {"Auto", "New", "Cover", "DayTrade"}
    && (market == StockMarket ==>
          && priceType != MKP
          && (tags.orderLot == "Common" ==> quantity % 1000 == 0)
          && (tags.orderLot == "IntradayOdd" ==>
                priceType == LMT && orderType == ROD && 1 <= quantity <= 999 && tags.orderCond == "Cash")
          && (tags.daytradeShort ==> tags.orderCond == "Cash"))
  }

  /** What Taiwan's venues and this adapter accept, in the strategy's own terms. */
  ghost predicate TaiwanRules(o: OrderRequest, instrument: Option<Instrument>, tags: Option<TagFields>) {
    && o.orderType in {Limit, Market, MarketToLimit}
    && o.side in {Buy, Sell}
    && o.tif in {Day, Gtc, Ioc, Fok}
    && tags.Some?
    && tags.value.orderLot in {"Common", "IntradayOdd"}
    && tags.value.orderCond in {"Cash", "MarginTrading", "ShortSelling"}
    && tags.value.octype in {"Auto", "New", "Cover", "DayTrade"}
    && (IsStock(instrument) ==>
          && o.orderType != MarketToLimit
          && (tags.value.orderLot == "Common" ==> o.quantity % 1000 == 0)
          && (tags.value.orderLot == "IntradayOdd" ==>
                && o.orderType == Limit && o.tif in {Day, Gtc}
                && 1 <= o.quantity <= 999 && tags.value.orderCond == "Cash")
          && (tags.value.daytradeShort ==> tags.value.orderCond == "Cash"))
  }

  lemma TagRulesAreTaiwanRules(o: OrderRequest, instrument: Option<Instrument>, tags: TagFields)
    requires o.side != NoSide && ResolvePriceType(o.orderType).Some? && ResolveOrderType(o.orderType, o.tif).Some?
    ensures TaiwanRules(o, instrument, Some(tags)) <==>
      TagRules(tags, DetermineMarket(instrument), ResolvePriceType(o.orderType).value,
               ResolveOrderType(o.orderType, o.tif).value, o.quantity)
  {
    assert DetermineMarket(instrument) == StockMarket <==> IsStock(instrument);
  }

  /** A rule that a refused order really breaks. */
  ghost predicate Breaks(o: OrderRequest, instrument: Option<Instrument>, tags: Option<TagFields>, reason: Reason) {
    match reason
    case UnknownSide => o.side == NoSide
    case UnsupportedTimeInForce => o.tif in {Gtd, AtTheOpen, AtTheClose}
    case MalformedTags => tags == None
    case UnknownLot => tags.Some? && tags.value.orderLot !in {"Common", "IntradayOdd"}
    case UnknownCond => tags.Some? && tags.value.orderCond !in {"Cash", "MarginTrading", "ShortSelling"}
    case UnknownOCType => tags.Some? && tags.value.octype !in {"Auto", "New", "Cover", "DayTrade"}
    case StockRangeMarket => IsStock(instrument) && o.orderType == MarketToLimit
    case OddLotType =>
      IsStock(instrument) && tags.Some? && tags.value.orderLot == "IntradayOdd"
      && !(o.orderType == Limit && o.tif in {Day, Gtc})
    case OddLotQuantity =>
      IsStock(instrument) && tags.Some? && tags.value.orderLot == "IntradayOdd" && (o.quantity < 1 || o.quantity > 999)
    case OddLotCond =>
      IsStock(instrument) && tags.Some? && tags.value.orderLot == "IntradayOdd" && tags.value.orderCond != "Cash"
    case CommonLotQuantity =>
      IsStock(instrument) && tags.Some? && tags.value.orderLot == "Common" && o.quantity % 1000 != 0
    case DaytradeShortCond =>
      IsStock(instrument) && tags.Some? && tags.value.daytradeShort && tags.value.orderCond != "Cash"
  }

  /** The reason of a refusal is a rule that the order really breaks. */
  lemma RefusalNamesABrokenRule(o: OrderRequest, instrument: Option<Instrument>, decode: TagDecoder, token: string)
    requires Decide(o, instrument, decode, token).Refused?
    ensures Breaks(o, instrument, FromTags(o.tags, decode), Decide(o, instrument, decode, token).reason)
  {
    assert DetermineMarket(instrument) == StockMarket <==> IsStock(instrument);
  }

  /** The order in which the rules are tried. */
  function Rank(reason: Reason): nat {
    match reason
    case UnknownSide => 0
    case UnsupportedTimeInForce => 1
    case MalformedTags => 2
    case UnknownLot => 3
    case UnknownCond => 4
    case UnknownOCType => 5
    case StockRangeMarket => 6
    case OddLotType => 7
    case OddLotQuantity => 8
    case OddLotCond => 9
    case CommonLotQuantity => 10
    case DaytradeShortCond => 11
  }

  /** And no rule that is tried before it is broken. */
  lemma RefusalNamesTheFirst(o: OrderRequest, instrument: Option<Instrument>, decode: TagDecoder, token: string,
                             broken: Reason)
    requires Decide(o, instrument, decode, token).Refused?
    requires Breaks(o, instrument, FromTags(o.tags, decode), broken)
    ensures Rank(Decide(o, instrument, decode, token).reason) <= Rank(broken)
  {
    assert DetermineMarket(instrument) == StockMarket <==> IsStock(instrument);
  }

  /** The venue's own rules for a request on the wire. */
  ghost predicate WireLegal(p: PlaceOrder) {
    && (p.priceType != LMT ==> p.orderType != ROD)
    && (p.market == StockMarket ==>
          && p.priceType != MKP
          && p.tags.octype == Auto
          && (p.tags.lot == Common ==> p.quantity % 1000 == 0)
          && (p.tags.lot == IntradayOdd ==>
                p.priceType == LMT && p.orderType == ROD && 1 <= p.quantity <= 999 && p.tags.cond == Cash)
          && (p.tags.daytradeShort ==> p.tags.cond == Cash))
  }

  /** The request says what the order said: only a time in force the venue lacks is coerced. */
  ghost predicate Carries(p: PlaceOrder, o: OrderRequest, instrument: Option<Instrument>, tags: TagFields) {
    && p.side == o.side && p.quantity == o.quantity
    && (p.priceType == LMT <==> o.orderType == Limit) && (p.priceType == MKP <==> o.orderType == MarketToLimit)
    && (p.orderType == FOK <==> o.tif == Fok)
    && (p.orderType == ROD <==> o.orderType == Limit && o.tif in {Day, Gtc})
    && (p.market == StockMarket <==> IsStock(instrument))
    && (p.market == OptionsMarket <==> instrument.Some? && instrument.value.kind == OptionContract)
    && (p.tags.lot == Common <==> tags.orderLot == "Common")
    && (p.tags.cond == Cash <==> tags.orderCond == "Cash")
    && (p.tags.cond == ShortSelling <==> tags.orderCond == "ShortSelling")
    && p.tags.daytradeShort == tags.daytradeShort
    && (!IsStock(instrument) ==>
          && (p.tags.octype == Auto <==> tags.octype == "Auto")
          && (p.tags.octype == Cover <==> tags.octype == "Cover")
          && (p.tags.octype == DayTrade <==> tags.octype == "DayTrade"))
  }

  /** A limit price goes out on the grid and within half a tick, in a tie at the even multiple; an order without a
      price goes out at zero. */
  ghost predicate PriceIsFit(p: PlaceOrder, o: OrderRequest, instrument: Option<Instrument>) {
    && (o.price == None ==> p.price == 0)
    && (o.price.Some? && instrument.Some? && instrument.value.priceIncrement > 0 ==>
          && OnGrid(p.price, instrument.value.priceIncrement)
          && 2 * Distance(p.price, o.price.value) <= instrument.value.priceIncrement
          && (2 * Distance(p.price, o.price.value) == instrument.value.priceIncrement ==>
                OnGrid(p.price, 2 * instrument.value.priceIncrement)))
    && (o.price.Some? && !(instrument.Some? && instrument.value.priceIncrement > 0) ==> p.price == o.price.value)
  }

  lemma PlacedOrderIsLegal(o: OrderRequest, instrument: Option<Instrument>, decode: TagDecoder, token: string)
    requires Decide(o, instrument, decode, token).Place?
    ensures var p := Decide(o, instrument, decode, token).order;
            && WireLegal(p)
            && p.customField == token
            && FromTags(o.tags, decode).Some?
            && Carries(p, o, instrument, FromTags(o.tags, decode).value)
            && PriceIsFit(p, o, instrument)
  {
    if o.price.Some? && instrument.Some? && instrument.value.priceIncrement > 0 {
      SnapFitsTheOrder(o.price.value, instrument.value.priceIncrement);
    }
  }

  lemma SnapFitsTheOrder(price: int, increment: int)
    requires increment > 0
    ensures var s := SnapPriceToGrid(price, increment);
            && OnGrid(s, increment) && 2 * Distance(s, price) <= increment
            && (2 * Distance(s, price) == increment ==> OnGrid(s, 2 * increment))
  {
    var m := RoundHalfEven(price, increment);
    RoundIsHalfEven(price, increment);
    if m % 2 == 0 {
      EvenMultiple(m, increment);
    }
  }
}
