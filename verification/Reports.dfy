/** Reconciliation reports: the loop over `list_trades` rows fills the map as it goes, and still
    reports what a pure filter-and-map of the rows would. */
module Reports {
  import opened Wrappers
  import opened Orders
  import opened Correlation
  import opened Lifecycle
  import Gate

  /** A row that the loop does not survive. */
  predicate Ends(q: Query, row: TradeRow) {
    KindOf(q, row) == Raises || (KindOf(q, row) == LooksUp && !Reportable(row))
  }

  /** What one row gives against a state that does not change. */
  datatype Fate<B> = Pass | Stop | Give(value: B)

  function RowFate(cfg: Config, s: State, q: Query, row: TradeRow): Fate<Report> {
    if Ends(q, row) then Stop
    else if KindOf(q, row) == Skipped then Pass
    else Give(ReportFor(row, Resolve(cfg, s, row.tradeId.value, row.customField)))
  }

  /** Rows filtered and mapped one by one, in order, until one stops it. */
  function Collect<A, B>(rows: seq<A>, fate: A -> Fate<B>): (collected: seq<B>) {
    if rows == [] then []
    else
      match fate(rows[0])
      case Pass => Collect(rows[1..], fate)
      case Stop => []
      case Give(b) => [b] + Collect(rows[1..], fate)
  }

  lemma {:induction false} CollectReaches<A, B>(rows: seq<A>, fate: A -> Fate<B>, i: nat)
    requires i < |rows| && fate(rows[i]).Give? && forall k :: 0 <= k < i ==> fate(rows[k]) != Stop
    ensures fate(rows[i]).value in Collect(rows, fate)
    decreases i
  {
    if i > 0 {
      CollectReaches(rows[1..], fate, i - 1);
    }
  }

  function PureReports(cfg: Config, s: State, q: Query): (reports: seq<Report>) {
    Collect(q.rows, row => RowFate(cfg, s, q, row))
  }

  ghost predicate DistinctTrades(q: Query) {
    forall i, j :: 0 <= i < j < |q.rows| && q.rows[i].tradeId.Some? ==> q.rows[i].tradeId != q.rows[j].tradeId
  }

  /** Two states that answer alike for the rows still to come. */
  ghost predicate SameFor(s1: State, s2: State, q: Query, from: nat) {
    && s1.cache == s2.cache && s1.listing == s2.listing
    && forall i :: from <= i < |q.rows| && q.rows[i].tradeId.Some? ==>
         var t := q.rows[i].tradeId.value;
         (t in s1.bind <==> t in s2.bind) && (t in s1.bind ==> s1.bind[t] == s2.bind[t])
  }

  lemma {:induction false} BackfillingIsInvisible(cfg: Config, s: State, now: State, q: Query, from: nat,
                                                  fate: TradeRow -> Fate<Report>)
    requires from <= |q.rows| && DistinctTrades(q) && SameFor(s, now, q, from)
    requires forall row :: fate(row) == RowFate(cfg, s, q, row)
    ensures AfterRows(cfg, now, q, from).1 == Collect(q.rows[from..], fate)
    decreases |q.rows| - from
  {
    if from < |q.rows| {
      var row := q.rows[from];
      assert q.rows[from..][1..] == q.rows[from + 1..];
      if KindOf(q, row) == LooksUp {
        if Reportable(row) {
          var t := row.tradeId.value;
          assert Resolve(cfg, now, t, row.customField) == Resolve(cfg, s, t, row.customField);
          BackfillingIsInvisible(cfg, s, Resolved(cfg, now, t, row.customField), q, from + 1, fate);
        }
      } else if KindOf(q, row) == Skipped {
        BackfillingIsInvisible(cfg, s, now, q, from + 1, fate);
      }
    }
  }

  /** Over rows with distinct trade ids the loop is a filter-and-map of the rows, in order. */
  lemma ReportsAreFilteredAndMapped(cfg: Config, s: State, q: Query)
    requires DistinctTrades(q)
    ensures AfterRows(cfg, s, q, 0).1 == PureReports(cfg, s, q)
  {
    BackfillingIsInvisible(cfg, s, s, q, 0, row => RowFate(cfg, s, q, row));
    assert q.rows[0..] == q.rows;
  }

  lemma CutKeepsKinds(q: Query, n: nat, row: TradeRow)
    requires n <= |q.rows|
    ensures KindOf(q.(rows := q.rows[..n]), row) == KindOf(q, row)
  {
  }

  /** A row that raises ends the loop, and exactly the earlier rows are reported. */
  lemma {:induction false} RaisingRowEndsTheReports(cfg: Config, s: State, q: Query, from: nat, bad: nat)
    requires from <= bad < |q.rows|
    requires Ends(q, q.rows[bad])
    ensures AfterRows(cfg, s, q, from).1 == AfterRows(cfg, s, q.(rows := q.rows[..bad]), from).1
    decreases bad - from
  {
    if from < bad {
      var row := q.rows[from];
      CutKeepsKinds(q, bad, row);
      if KindOf(q, row) == LooksUp {
        RaisingRowEndsTheReports(cfg, Resolved(cfg, s, row.tradeId.value, row.customField), q, from + 1, bad);
      } else if KindOf(q, row) == Skipped {
        RaisingRowEndsTheReports(cfg, s, q, from + 1, bad);
      }
    }
  }

  // ---------------------------------------------------------------- what the reports say

  /** The row is about an instrument that is known, and asked for. */
  predicate IsChosen(q: Query, row: TradeRow) {
    row.code.Some? && row.code.value in q.instruments && (q.code.Some? ==> q.code == row.code)
  }

  /** A row raises without a code; a chosen row also without another needed key, and with a negative quantity. */
  predicate IsBad(q: Query, row: TradeRow) {
    || row.code == None
    || (IsChosen(q, row) &&
          (|| row.status == None || row.action == None || row.priceType == None || row.tradeId == None
           || row.quantity == None || row.quantity.value < 0 || row.price == None
           || (row.filledQty.Some? && row.filledQty.value < 0)))
  }

  lemma RowsEndExactly(q: Query, row: TradeRow)
    ensures Ends(q, row) <==> IsBad(q, row)
    ensures !IsBad(q, row) ==> (KindOf(q, row) == Skipped <==> !IsChosen(q, row))
    ensures !IsBad(q, row) && IsChosen(q, row) ==> KindOf(q, row) == LooksUp && Reportable(row)
  {
  }

  /** The gateway's status texts. */
  function StatusTexts(status: ReportedStatus): set<string> {
    match status
    case AsSubmitted => {"PendingSubmit", "PreSubmitted"}
    case AsAccepted => {"Submitted"}
    case AsRejected => {"Failed"}
    case AsCanceled => {"Cancelled"}
    case AsFilled => {"Filled"}
    case AsPartiallyFilled => {"PartFilled"}
    case AsDenied => {}
  }

  ghost predicate NamesOneOf(text: string, values: set<string>) {
    exists value :: value in values && Names(text, value)
  }

  /** A text that names no status is reported as denied. */
  ghost predicate StatusSays(text: string, status: ReportedStatus) {
    forall named: ReportedStatus :: named != AsDenied ==> (status == named <==> NamesOneOf(text, StatusTexts(named)))
  }

  /** The gateway's order types; any other, and none, lasts for the day. */
  ghost predicate TifSays(text: Option<string>, tif: Gate.TimeInForce) {
    && (tif == Gate.Ioc <==> text.Some? && Names(text.value, "IOC"))
    && (tif == Gate.Fok <==> text.Some? && Names(text.value, "FOK"))
    && tif in {Gate.Day, Gate.Ioc, Gate.Fok}
  }

  lemma StatusTable(key: string, named: ReportedStatus)
    requires named != AsDenied
    ensures StatusByKey(key).GetOr(AsDenied) == named <==> key in StatusTexts(named)
  {
  }

  lemma StatusTextsHaveNoDot(named: ReportedStatus)
    ensures forall value :: value in StatusTexts(named) ==> '.' !in value
  {
  }

  lemma KeyInNames(text: string, values: set<string>)
    requires forall value :: value in values ==> '.' !in value
    ensures StatusKey(text) in values <==> NamesOneOf(text, values)
  {
    if StatusKey(text) in values {
      StatusKeyNames(text, StatusKey(text));
    }
    if value :| value in values && Names(text, value) {
      StatusKeyNames(text, value);
    }
  }

  lemma StatusReadAs(text: string, named: ReportedStatus)
    requires named != AsDenied
    ensures StatusByKey(StatusKey(text)).GetOr(AsDenied) == named <==> NamesOneOf(text, StatusTexts(named))
  {
    StatusTable(StatusKey(text), named);
    StatusTextsHaveNoDot(named);
    KeyInNames(text, StatusTexts(named));
  }

  lemma StatusIsRead(text: string)
    ensures StatusSays(text, StatusByKey(StatusKey(text)).GetOr(AsDenied))
  {
    forall named: ReportedStatus | named != AsDenied
      ensures StatusByKey(StatusKey(text)).GetOr(AsDenied) == named <==> NamesOneOf(text, StatusTexts(named))
    {
      StatusReadAs(text, named);
    }
  }

  lemma TifIsRead(text: Option<string>)
    ensures TifSays(text, TifByKey(StatusKey(text.GetOr("ROD"))))
  {
    if text.Some? {
      StatusKeyNames(text.value, "IOC");
      StatusKeyNames(text.value, "FOK");
    } else {
      assert '.' !in "ROD";
    }
  }

  ghost predicate SaysRow(row: TradeRow, r: Report) {
    && row.code == Some(r.code) && row.tradeId == Some(r.venueOrderId)
    && row.quantity == Some(r.quantity) && row.price == Some(r.price)
    && r.filledQty == (if row.filledQty.Some? then row.filledQty.value else 0)
    && row.action.Some? && (r.isBuy <==> row.action.value == "Buy")
    && row.priceType.Some? && (r.isLimit <==> row.priceType.value == "LMT")
    && row.status.Some? && StatusSays(row.status.value, r.status)
    && TifSays(row.orderType, r.tif)
  }

  lemma ReportSaysItsRow(q: Query, row: TradeRow, found: Option<ClientOrderId>)
    requires IsChosen(q, row) && !IsBad(q, row)
    ensures SaysRow(row, ReportFor(row, found))
  {
    StatusIsRead(row.status.value);
    TifIsRead(row.orderType);
  }

  /** The chosen rows before the first bad one. */
  function ReportedRows(q: Query, from: nat): (rows: seq<TradeRow>)
    requires from <= |q.rows|
    decreases |q.rows| - from
  {
    if from == |q.rows| || IsBad(q, q.rows[from]) then []
    else (if IsChosen(q, q.rows[from]) then [q.rows[from]] else []) + ReportedRows(q, from + 1)
  }

  /** One report for each of them, in order, and it says what its row says. */
  ghost predicate SayRows(rows: seq<TradeRow>, reports: seq<Report>) {
    |rows| == |reports| && forall k :: 0 <= k < |rows| ==> SaysRow(rows[k], reports[k])
  }

  lemma OneMoreSays(row: TradeRow, r: Report, rows: seq<TradeRow>, reports: seq<Report>)
    requires SaysRow(row, r) && SayRows(rows, reports)
    ensures SayRows([row] + rows, [r] + reports)
  {
  }

  lemma {:induction false} ReportsSayTheRows(cfg: Config, s: State, q: Query, from: nat)
    requires from <= |q.rows|
    ensures SayRows(ReportedRows(q, from), AfterRows(cfg, s, q, from).1)
    decreases |q.rows| - from
  {
    if from < |q.rows| {
      var row := q.rows[from];
      RowsEndExactly(q, row);
      if !IsBad(q, row) && IsChosen(q, row) {
        var found := Resolve(cfg, s, row.tradeId.value, row.customField);
        var next := Resolved(cfg, s, row.tradeId.value, row.customField);
        ReportsSayTheRows(cfg, next, q, from + 1);
        ReportSaysItsRow(q, row, found);
        OneMoreSays(row, ReportFor(row, found), ReportedRows(q, from + 1), AfterRows(cfg, next, q, from + 1).1);
      } else if !IsBad(q, row) {
        ReportsSayTheRows(cfg, s, q, from + 1);
        assert [] + ReportedRows(q, from + 1) == ReportedRows(q, from + 1);
      }
    }
  }

  // ---------------------------------------------------------------- who the reports are about

  ghost predicate NamesItsTrade(owner: Ownership, r: Report) {
    r.clientOrderId == "SINOPAC-" + r.venueOrderId || owner(r.venueOrderId) == Some(r.clientOrderId)
  }

  lemma {:induction false} ReportsNameTheirTrades(cfg: Config, owner: Ownership, s: State, q: Query, from: nat)
    requires from <= |q.rows|
    requires Agreement(cfg, owner, s) && Faithful(cfg, owner, s, StatusReports(q))
    ensures forall r :: r in AfterRows(cfg, s, q, from).1 ==> NamesItsTrade(owner, r)
    decreases |q.rows| - from
  {
    if from < |q.rows| {
      var row := q.rows[from];
      if KindOf(q, row) == LooksUp {
        ResolveExactly(cfg, owner, s, row.tradeId.value, row.customField);
        if Reportable(row) {
          ReportsNameTheirTrades(cfg, owner, Resolved(cfg, s, row.tradeId.value, row.customField), q, from + 1);
        }
      } else if KindOf(q, row) == Skipped {
        ReportsNameTheirTrades(cfg, owner, s, q, from + 1);
      }
    }
  }

  /** The first report is of an own order that is named as the second, of a trade nobody claims, is by default. */
  ghost predicate NamedLike(owner: Ownership, r1: Report, r2: Report) {
    && owner(r1.venueOrderId) == Some(r1.clientOrderId)
    && r1.clientOrderId == r2.clientOrderId == SYNTHETIC_PREFIX + r2.venueOrderId
  }

  /** Reports of different trades carry different client order ids, recovered or synthetic, except exactly where an
      own order bears the synthetic name of the other trade. */
  lemma SharedIdsExactly(cfg: Config, owner: Ownership, s: State, q: Query)
    requires OneTradeEach(owner) && Agreement(cfg, owner, s) && Faithful(cfg, owner, s, StatusReports(q))
    ensures var reports := AfterRows(cfg, s, q, 0).1;
            forall r1, r2 :: r1 in reports && r2 in reports && r1.venueOrderId != r2.venueOrderId ==>
              (r1.clientOrderId == r2.clientOrderId <==> NamedLike(owner, r1, r2) || NamedLike(owner, r2, r1))
  {
    var reports := AfterRows(cfg, s, q, 0).1;
    ReportsNameTheirTrades(cfg, owner, s, q, 0);
    forall r1, r2 | r1 in reports && r2 in reports && r1.venueOrderId != r2.venueOrderId
      ensures r1.clientOrderId == r2.clientOrderId <==> NamedLike(owner, r1, r2) || NamedLike(owner, r2, r1)
    {
      SharedNames(owner, r1, r2);
    }
  }

  lemma SharedNames(owner: Ownership, r1: Report, r2: Report)
    requires OneTradeEach(owner) && r1.venueOrderId != r2.venueOrderId
    requires NamesItsTrade(owner, r1) && NamesItsTrade(owner, r2)
    ensures r1.clientOrderId == r2.clientOrderId <==> NamedLike(owner, r1, r2) || NamedLike(owner, r2, r1)
  {
    var p := |SYNTHETIC_PREFIX|;
    assert (SYNTHETIC_PREFIX + r1.venueOrderId)[p..] == r1.venueOrderId;
    assert (SYNTHETIC_PREFIX + r2.venueOrderId)[p..] == r2.venueOrderId;
  }

  /** So strategies that keep off synthetic names never see two trades under one id. */
  lemma DistinctTradesGetDistinctIds(cfg: Config, owner: Ownership, s: State, q: Query)
    requires OneTradeEach(owner) && Agreement(cfg, owner, s) && Faithful(cfg, owner, s, StatusReports(q))
    requires forall t :: owner(t).Some? ==> !(SYNTHETIC_PREFIX <= owner(t).value)
    ensures var reports := AfterRows(cfg, s, q, 0).1;
            forall r1, r2 :: r1 in reports && r2 in reports && r1.clientOrderId == r2.clientOrderId ==>
              r1.venueOrderId == r2.venueOrderId
  {
    var reports := AfterRows(cfg, s, q, 0).1;
    ReportsNameTheirTrades(cfg, owner, s, q, 0);
    forall r1, r2 | r1 in reports && r2 in reports && r1.clientOrderId == r2.clientOrderId
      ensures r1.venueOrderId == r2.venueOrderId
    {
      if r1.venueOrderId != r2.venueOrderId {
        SharedNames(owner, r1, r2);
      }
    }
  }

  lemma RowIsReported(cfg: Config, s: State, q: Query, i: nat)
    requires DistinctTrades(q)
    requires i < |q.rows| && KindOf(q, q.rows[i]) != Skipped && forall k :: 0 <= k <= i ==> !Ends(q, q.rows[k])
    ensures RowFate(cfg, s, q, q.rows[i]).Give? && RowFate(cfg, s, q, q.rows[i]).value in AfterRows(cfg, s, q, 0).1
  {
    ReportsAreFilteredAndMapped(cfg, s, q);
    CollectReaches(q.rows, row => RowFate(cfg, s, q, row), i);
  }

  lemma RowFateNames(cfg: Config, s: State, q: Query, row: TradeRow)
    requires RowFate(cfg, s, q, row).Give?
    ensures var r := RowFate(cfg, s, q, row).value;
            && row.tradeId == Some(r.venueOrderId)
            && r.clientOrderId == ReportedId(Resolve(cfg, s, r.venueOrderId, row.customField), r.venueOrderId)
  {
  }

  lemma OwnRowIsRecoveredExactly(cfg: Config, owner: Ownership, s: State, row: TradeRow, t: TradeId, c: ClientOrderId)
    requires Agreement(cfg, owner, s) && Echoes(cfg, owner, s, t, row.customField) && owner(t) == Some(c)
    ensures var id := ReportedId(Resolve(cfg, s, t, row.customField), t);
            && id in {c, SYNTHETIC_PREFIX + t}
            && (id == c <==> IsTraced(cfg, s, c, t, row) || c == SYNTHETIC_PREFIX + t)
  {
    ResolveExactly(cfg, owner, s, t, row.customField);
    ReportedIdExactly(Resolve(cfg, s, t, row.customField), t, c);
  }

  lemma ReportedIdExactly(found: Option<ClientOrderId>, t: TradeId, c: ClientOrderId)
    requires found == None || found == Some(c)
    ensures var id := ReportedId(found, t);
            && id in {c, SYNTHETIC_PREFIX + t}
            && (id == c <==> (found.Some? && c != "") || c == SYNTHETIC_PREFIX + t)
  {
  }

  /** The trade is bound, or the row has the token of the open order; and the order has a name. */
  predicate IsTraced(cfg: Config, s: State, c: ClientOrderId, t: TradeId, row: TradeRow) {
    && c != ""
    && (t in s.bind || (row.customField == Some(cfg.token(c)) && cfg.token(c) != "" && IsOpen(s, c)))
  }

  /** An order of this client is reported under its own id exactly when its trade is bound or its row carries the
      token of the still open order; otherwise it comes back as someone else's. A lost placement is so recovered. */
  lemma OwnOrdersAreRecoveredExactly(cfg: Config, owner: Ownership, s: State, q: Query, i: nat,
                                     t: TradeId, c: ClientOrderId)
    returns (r: Report)
    requires Agreement(cfg, owner, s) && Faithful(cfg, owner, s, StatusReports(q)) && DistinctTrades(q)
    requires i < |q.rows| && forall k :: 0 <= k <= i ==> !Ends(q, q.rows[k])
    requires KindOf(q, q.rows[i]) != Skipped && q.rows[i].tradeId == Some(t) && owner(t) == Some(c)
    ensures r in AfterRows(cfg, s, q, 0).1 && r.venueOrderId == t
    ensures r.clientOrderId in {c, SYNTHETIC_PREFIX + t}
    ensures r.clientOrderId == c <==> IsTraced(cfg, s, c, t, q.rows[i]) || c == SYNTHETIC_PREFIX + t
  {
    RowIsReported(cfg, s, q, i);
    RowFateNames(cfg, s, q, q.rows[i]);
    OwnRowIsRecoveredExactly(cfg, owner, s, q.rows[i], t, c);
    r := RowFate(cfg, s, q, q.rows[i]).value;
  }
}
