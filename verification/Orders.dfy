/** The small order state machine that the execution client drives. */
module Orders {
  import opened Wrappers

  type ClientOrderId = string
  type TradeId = string
  type FillId = string

  /** Fills have positive quantities; the domain library refuses others. */
  type Qty = q: int | q > 0 witness 1

  datatype Status = Initialized | Submitted | Accepted | PartiallyFilled | Filled | Rejected | Canceled

  /** A cached order with its fill ledger: the quantity filled and the fill ids already counted. */
  datatype Order = Order(status: Status, quantity: int, price: Option<int>,
                         filledQty: int, fillIds: set<FillId>, venueId: Option<TradeId>)

  datatype Event =
    | Submit
    | Accept(venueId: TradeId)
    | Reject
    | Cancel(venueId: TradeId)
    | Update(venueId: TradeId, quantity: int, price: Option<int>)
    | CancelReject(venueId: TradeId)
    | ModifyReject(venueId: TradeId)
    | Fill(venueId: TradeId, fillId: FillId, qty: Qty, lastPx: int)

  predicate IsClosed(s: Status) {
    s == Filled || s == Rejected || s == Canceled
  }

  /** Live at the venue, as far as this side knows. */
  predicate IsWorking(s: Status) {
    s == Submitted || s == Accepted || s == PartiallyFilled
  }

  /** The legal transitions. */
  predicate Permits(s: Status, e: Event) {
    match e
    case Submit => s == Initialized
    case Accept(_) => s == Submitted
    case Reject => s == Initialized || s == Submitted || s == Accepted
    case _ => IsWorking(s)
  }

  /** An illegal event is refused by the order, and a fill id counts once. */
  function Apply(o: Order, e: Event): (r: Order)
    ensures IsClosed(o.status) ==> r == o
    ensures r.status != Initialized || o.status == Initialized
  {
    if !Permits(o.status, e) then o
    else
      match e
      case Submit => o.(status := Submitted)
      case Accept(v) => o.(status := Accepted, venueId := Some(v))
      case Reject => o.(status := Rejected)
      case Cancel(_) => o.(status := Canceled)
      case Update(_, q, p) => o.(quantity := q, price := p)
      case CancelReject(_) => o
      case ModifyReject(_) => o
      case Fill(v, id, q, _) =>
        if id in o.fillIds then o
        else o.(status := if o.filledQty + q >= o.quantity then Filled else PartiallyFilled,
                filledQty := o.filledQty + q, fillIds := o.fillIds + {id}, venueId := Some(v))
  }

  /** How an order closes and what fills it: closing is for good, and a fill counts once, while the order works. */
  lemma StatusAfter(o: Order, e: Event)
    ensures var r := Apply(o, e);
            var counts := e.Fill? && IsWorking(o.status) && e.fillId !in o.fillIds;
            && (r.status == Canceled <==> o.status == Canceled || (e.Cancel? && IsWorking(o.status)))
            && (r.status == Rejected <==>
                  o.status == Rejected || (e.Reject? && o.status in {Initialized, Submitted, Accepted}))
            && (r.status == Filled <==> o.status == Filled || (counts && o.filledQty + e.qty >= o.quantity))
            && (r.status == Accepted <==> (o.status == Accepted && r == o) || (e.Accept? && o.status == Submitted)
                                          || (e.Update? && o.status == Accepted))
            && (r.status == Submitted <==> (o.status == Submitted && r == o) || (e.Submit? && o.status == Initialized)
                                           || (e.Update? && o.status == Submitted))
            && (counts ==> r.status in {PartiallyFilled, Filled})
            && r.filledQty == o.filledQty + (if counts then e.qty else 0)
            && r.fillIds == o.fillIds + (if counts then {e.fillId} else {})
            && r.venueId == (if counts || (e.Accept? && o.status == Submitted) then Some(e.venueId) else o.venueId)
            && (r.quantity != o.quantity || r.price != o.price ==> e.Update? && IsWorking(o.status))
  {
  }
}
