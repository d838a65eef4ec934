# Sinopac adapter: a verified model

A Dafny model of the SinoPac (Taiwan) adapter for NautilusTrader, and proofs about it. The adapter places orders
through an HTTP gateway, follows them over a shared WebSocket, and turns gateway snapshots into market data. Five
parts are modelled, each in the form the code has.

* **Order correlation and lifecycle.** `ExecutionClient.dfy` is the execution client as a class: the
  `trade_id -> client_order_id` map, the order cache, and one method per handler, with `_submit_order` cut at its
  `await`. `Correlation.dfy` gives each handler's step as a function; `Orders.dfy` is the order state machine.
  `Lifecycle.dfy`, `Attribution.dfy`, `Conservation.dfy` and `Reports.dfy` prove what holds over whole runs;
  `Tokens.dfy` is the six-character token; `ExecutionClients.ExecutionClient.ProcessAll` carries every statement about
  runs over to the class.
* **Order gate and price grid.** `Gate.dfy` decides which orders reach `place_order`; `Grid.dfy` and `Ticks.dfy` are the
  half-even snap and the TWSE/TAIFEX tick tables.
* **Subscription stack.** `Feed.dfy` is the feed handler's loop, `Subscription.dfy` the data client's sets, the command
  queue and the emit flags.
* **BidAsk translators.** `Book.dfy` has the quote, the ten-level depth and the CLEAR + ADD deltas of one snapshot;
  `Emission.dfy` is the callback loop that the flags drive.
* **Shared-socket dispatcher.** `Dispatcher.dfy`.

## Assumptions

Statements about the execution client name the assumptions they use.

* `Lifecycle.Faithful`: the venue returns an order's token, or none, on that order's trades, and no cached order's
  token on a foreign trade; a trade appears after its order was sent; a new order's token differs from those of cached
  orders. `Lifecycle.TokenIdentifiesExactly` and `Lifecycle.OrdersCollideExactly` say what the last part costs.
* A trade has one id, which order events call `order_id` and deals and rows call `trade_id`; an order owns at most one
  trade (`Lifecycle.OneTradeEach`). Map agreement does not need the latter.
* A generated event updates the cached order before the handler goes on. An order refuses an illegal event and counts
  a fill id once.
* `Lifecycle.Timely`: a place reply is processed while its order has not moved on. The lifecycle statements need it,
  and `Lifecycle.RunIsSoundExactly` shows that they need exactly it; `Lifecycle.RepliesThatComeFirstAreTimely` gives a
  condition on the inputs alone. `Attribution.BoundExactly` and what rests on it need it of one order (`OnTime`).
* Deals carry no token (`src/websocket/order_parse.rs:60-99` sets none). Only `Attribution.FillsAfterALostReply` uses this.
* Fills have positive quantities. Fill conservation speaks of executions: a tape says which execution each deal message
  reports, and messages report the quantity executed (`Conservation.Truthful`). That keys are new and tell executions
  apart, and that each execution is booked, are sides of its equivalences. That redeliveries of an execution keep its
  key (`Conservation.KeepsKeys`) is one too in `Conservation.FillsAreConservedExactly`, which excludes only that this and
  the telling apart fail in one run, where the two faults may cancel (`Conservation.TwoFaultsMayCancel`);
  `Conservation.NothingIsLostExactly` and its corollary assume it. The corollary `Conservation.UndisturbedFillsAreConserved`
  also assumes a working, bound order, cached instruments for its deals, no reply, order event or restart that concerns
  it, and executions within its quantity.
* The cache holds orders of this client only, each of them submitted (`Lifecycle.OrderIsSane`), although
  `self._cache.orders()` lists every order of the process; another order is found by the scan only if its token collides.
* `Reports.DistinctTradesGetDistinctIds` assumes that no own order is named `SINOPAC-...`;
  `Reports.SharedIdsExactly` does without and says exactly when two trades share an id.

Prices are exact integers, in billionths of a currency unit. The BLAKE2s digest, the JSON reader, the checked price
and quantity constructors, the timestamp reader, and the fate of each send are parameters.

## Where the code and its words differ

* `src/common/tick_size.rs:116-118` says that a NaN reference falls through to the lowest tier; every comparison with
  NaN fails, so the code takes the last one, 5.0 (`Ticks.NaNReferenceTakesTheLastTier`).
* `src/common/tick_size.rs:119-121` gives 0.05 as the tick at 67.5; its table and its code give 0.10.
* `docs/sinopac.md:364` says that length-mismatched bid/ask arrays are rejected; the translators zip them, which ignores
  what lies past the shorter array (`Book.LongerArrayIsTruncated`).
* `src/websocket/parse.rs:112` speaks of up to five levels a side; the loops fill ten.
* `python/sinopac_nt/execution.py:116` calls the token the first six characters of a base-62 encoding; its digits are
  overlapping six-bit shifts modulo 62 (`Tokens.DigitsAreChained`), and still all 62^6 tokens occur.
* `src/websocket/order_parse.rs:84-87` says that the exchange sequence, with the order number in its place, keeps fills
  from corrupting the ledger; a sequence that arrives only with a redelivery changes the key, and the fill is counted
  twice (`Conservation.LateSequenceCountsTwice`).
* `python/sinopac_nt/execution.py:1088-1101` expects an order lost in transport to come back as external under a
  synthesized id. While the order is open and its row carries the token, the row is reported under the order's own id
  (`Reports.OwnOrdersAreRecoveredExactly`), and its later deals are attributed to it (`Attribution.FillsAfterALostReply`).

Properties that hold only in part are stated with their exact condition, and most with a failing input: legal
lifecycles (a late place reply, `Lifecycle.LateReplyRebindsAClosedOrder`), fill conservation (two executions with one key,
`Conservation.SharedKeyLosesAFill`, or one whose exchange sequence arrives late, `Conservation.LateSequenceCountsTwice`),
the gateway's set between reconnections (a lost send,
`Subscriptions.LostSendIsNotRetried`), the balance of the dispatcher (clients out of turn or a failed connect,
`Dispatchers.OutOfTurn`), distinct ids in reports (an own order with a synthetic name), and the tick of the reference price in another tier (a coarser one,
`Ticks.CoarserTierIsMissed`).

## Model

| member | source | states |
|---|---|---|
| Lifecycle.MapNamesTheOwner | python/sinopac_nt/execution.py:661-880 | Under any interleaving of submits, replies, order events, deals, report rows and restarts, every entry of the map names the order that owns the venue trade |
| Lifecycle.StepKeepsAgreement | python/sinopac_nt/execution.py:661-841 | Each single input, in any order, keeps that agreement, the injectivity of cached tokens and the sanity of every cached order |
| Lifecycle.ResolveExactly | python/sinopac_nt/execution.py:843-880 | A lookup finds the owner or nobody; it finds the owner if and only if the trade is bound, or a token comes with it and the owner is open |
| Lifecycle.MapIsTransparent | python/sinopac_nt/execution.py:843-880 | After any run, an event with an open order's token resolves to that order, just as a scan without a map and in any listing order would, and at most its own key changes |
| Lifecycle.TokenFindsItsOrder | python/sinopac_nt/execution.py:870-880 | The same for any state that agrees with the owners |
| Lifecycle.TokenIdentifiesExactly | python/sinopac_nt/execution.py:870-878 | The scan finds an open order by its token for every listing of the cache if and only if no other open order shares the token |
| Lifecycle.OrdersCollideExactly | python/sinopac_nt/execution.py:107-131 | Two orders share a token if and only if their hashes agree in their six-bit groups modulo 62 |
| Lifecycle.EventsReachTheirOrders | python/sinopac_nt/execution.py:661-841 | Over any faithful run, timely or not, every generated event that names a venue trade went to the order that owns it |
| Lifecycle.StepIsAttributed | python/sinopac_nt/execution.py:661-841 | One step keeps that |
| Lifecycle.OrderEventOutcome | python/sinopac_nt/execution.py:685-781 | A working order ends exactly on a confirmed cancel or on a failed placement without fills, changes its terms exactly on a confirmed update, and a failed cancel or update is reported and changes nothing |
| Lifecycle.ReplyOutcome | python/sinopac_nt/execution.py:1048-1116 | A submitted order is rejected if and only if the reply is a business error, has no trade id, or has the status Failed, alone or after a dot; it is accepted and bound by every other reply, and a transport failure changes nothing |
| Lifecycle.RefusesExactly | python/sinopac_nt/execution.py:1057-1069 | Which replies turn a placement down, by their texts |
| Lifecycle.SubmitOutcome | python/sinopac_nt/execution.py:956-1046 | A new order enters the cache with its request's terms, submitted if the Taiwan rules hold and rejected if not, and nothing else changes |
| Lifecycle.LateFailureIsIgnored | python/sinopac_nt/execution.py:750-755 | A failed placement is ignored once the order has fills |
| Lifecycle.ReplyIsSoundExactly | python/sinopac_nt/execution.py:1048-1116 | A reply generates only legal events and binds no closed order if and only if its order has not moved on |
| Lifecycle.RejectIsSoundExactly | python/sinopac_nt/execution.py:1059-1067 | A rejection is legal and leaves no closed order bound if and only if the order is submitted or accepted and unbound |
| Lifecycle.AcceptIsSoundExactly | python/sinopac_nt/execution.py:1069-1080 | Binding and accepting is sound if and only if the order is still submitted |
| Lifecycle.OrderEventIsSound | python/sinopac_nt/execution.py:661-781 | An order event generates only legal events and leaves no closed order bound |
| Lifecycle.DealIsSound | python/sinopac_nt/execution.py:783-841 | A deal generates only legal events and unbinds the order it fills |
| Lifecycle.RowsAreSound | python/sinopac_nt/execution.py:1248-1337 | Report rows generate nothing, change no order and bind no closed order |
| Lifecycle.StepIsSoundExactly | python/sinopac_nt/execution.py:661-841 | After a sound past, a step is sound if and only if it is timely |
| Lifecycle.RunIsSoundExactly | python/sinopac_nt/execution.py:956-1116 | A whole run generates only legal events and keeps closed orders unbound if and only if every place reply is processed before its order moves on |
| Lifecycle.RepliesThatComeFirstAreTimely | python/sinopac_nt/execution.py:1029-1116 | Seen from the inputs alone: a run is timely if each order is answered at most once, after a request that left and before every event, deal and row of its trade |
| Lifecycle.TimelyRunsAreLegal | python/sinopac_nt/execution.py:661-841 | In a timely run nothing follows the event that closed an order, no rejection follows a fill, and every bound order is working |
| Lifecycle.StepKeepsChained | python/sinopac_nt/execution.py:661-841 | Each step keeps what the log of an order implies about its later statuses |
| Lifecycle.EarlyCancelCloses | python/sinopac_nt/execution.py:706-714 | A cancel event with the token closes and unbinds an order whose place reply is still outstanding |
| Lifecycle.LateReplyRebindsAClosedOrder | python/sinopac_nt/execution.py:1069-1080 | A concrete failing run: the late reply binds the closed order again and generates its acceptance |
| Lifecycle.RowsOnlyBind | python/sinopac_nt/execution.py:1248-1337 | Report rows change nothing but the map |
| Orders.StatusAfter | python/sinopac_nt/execution.py:738-757 | The domain order machine the client relies on: exactly which events cancel, reject, fill or accept an order, that a fill counts once and only while the order works, and that only an update changes its terms |
| Correlation.ClientConfig | python/sinopac_nt/execution.py:107-131 | Every client token is the token of the id's hash and six characters long |
| Correlation.Scan | python/sinopac_nt/execution.py:870-878 | The scan finds a listed open order with the token, or there is none |
| Correlation.StatusKey | python/sinopac_nt/execution.py:1057-1058 | The key is the part after the last dot, or everything when there is no dot |
| Correlation.StatusKeyNames | python/sinopac_nt/execution.py:1057-1058 | The key is a value without a dot if and only if the text is the value, or ends in a dot and the value |
| ExecutionClients.ExecutionClient.ResolveClientOrderId | python/sinopac_nt/execution.py:843-880 | The loop over cached orders returns the specified resolution and backfills exactly its key |
| ExecutionClients.ExecutionClient.SubmitOrder | python/sinopac_nt/execution.py:956-1046 | The request leaves if and only if the Taiwan rules hold; otherwise exactly one rejection is generated, before or after the submission event |
| ExecutionClients.ExecutionClient.HandlePlaceReply | python/sinopac_nt/execution.py:1048-1116 | The state after a reply is the specified step |
| ExecutionClients.ExecutionClient.HandleOrderOpFailure | python/sinopac_nt/execution.py:728-781 | The state after a failed operation is the specified step |
| ExecutionClients.ExecutionClient.HandleOrderStatusEvent | python/sinopac_nt/execution.py:661-726 | The state after an order event is the specified step |
| ExecutionClients.ExecutionClient.HandleDealEvent | python/sinopac_nt/execution.py:783-841 | The state after a deal is the specified step |
| ExecutionClients.ExecutionClient.GenerateOrderStatusReports | python/sinopac_nt/execution.py:1248-1337 | The loop returns the specified reports and leaves the specified map, also when a row raises |
| ExecutionClients.ExecutionClient.ProcessAll | python/sinopac_nt/execution.py:661-841 | After any inputs the client is in the state of the specified run, so all statements about runs hold of it |
| Attribution.FillsExactly | python/sinopac_nt/execution.py:783-880 | A step generates a fill of an order if and only if it is a deal on its trade, while the order works, after or with the first such message since the last restart |
| Attribution.FillsAfterALostReply | python/sinopac_nt/execution.py:1082-1106 | For an order whose placement was lost in transport, that message is an order event or a report row with its token, so no deal is attributed earlier |
| Attribution.BoundExactly | python/sinopac_nt/execution.py:843-880 | With the replies on time, an order's trade is bound if and only if the order works and, since the last restart, an accepting reply or a message with its token was processed |
| Attribution.StepBindsExactly | python/sinopac_nt/execution.py:661-880 | One input keeps that equivalence |
| Attribution.RowsBindExactly | python/sinopac_nt/execution.py:1287-1292 | Report rows bind a working order's trade if and only if a row with its token is looked up before a row raises |
| Attribution.HeardMeans | python/sinopac_nt/execution.py:865-880 | The two have been brought together if and only if some input did so with no restart since |
| Attribution.DealFillsExactly | python/sinopac_nt/execution.py:783-841 | A deal fills an order if and only if it is on its trade and the trade is bound, or it has the token and the order is open |
| Attribution.FillSaysTheDeal | python/sinopac_nt/execution.py:783-836 | A deal traced to an order generates exactly one event, a fill of that order with the deal's quantity and price, the order's venue id or else the trade id, and the trade with the exchange sequence, or else the order number, as its identity |
| Attribution.OnlyDealsFill | python/sinopac_nt/execution.py:783-841 | No other input generates a fill |
| Conservation.FillsAreConservedExactly | python/sinopac_nt/execution.py:783-841 | Over any run, whatever comes between the deals: unless changed keys and confused keys meet in one run, an order's ledger gains the sum of the executions booked for it if and only if each is counted once, and that if and only if redeliveries keep their keys and the keys are new and tell executions apart |
| Conservation.NothingIsLostExactly | python/sinopac_nt/execution.py:783-841 | If redeliveries keep their keys, it gains the sum of all executions ever reported for its trade, each counted once, if and only if each was booked at one of its deliveries and the keys are new and tell them apart |
| Conservation.BooksExactly | python/sinopac_nt/execution.py:783-880 | With the replies on time, a delivery is booked if and only if its order works and was brought together with its trade, by an accepting reply or a token, since the last restart; every other delivery is lost to the ledger |
| Conservation.UndisturbedFillsAreConserved | python/sinopac_nt/execution.py:783-841 | While nothing but executions within its quantity happens to a working, bound order, every one of them is in its ledger once, if and only if the keys are new and tell them apart |
| Conservation.SharedKeyLosesAFill | python/sinopac_nt/execution.py:790-790 | A concrete failing run: an exchange sequence that equals another deal's order number makes the second fill disappear |
| Conservation.LateSequenceCountsTwice | src/websocket/order_parse.rs:84-85 | A concrete failing run: an execution reported first without and then with its exchange sequence is counted twice |
| Conservation.TwoFaultsMayCancel | python/sinopac_nt/execution.py:790-790 | Confused keys and a changed key together can still count each execution once |
| Conservation.LedgerAfterRun | python/sinopac_nt/execution.py:783-841 | After any run the ledger has gained exactly what counting each new key of the booked deals once gives |
| Conservation.UnbookedKeepsLedger | python/sinopac_nt/execution.py:661-841 | An input of any kind that books no deal for an order leaves its ledger alone |
| Conservation.BookedDealIsCounted | python/sinopac_nt/execution.py:821-841 | A booked deal is counted if its key is new, and only then |
| Conservation.CountedOnceExactly | python/sinopac_nt/execution.py:784-790 | If redeliveries keep their keys, every execution is counted exactly once, and the count adds up, if and only if all were delivered under new keys that tell them apart |
| Conservation.CountedOnceIfKeysAreKept | python/sinopac_nt/execution.py:784-790 | If the keys are new and tell executions apart, every execution is counted exactly once, and the count adds up, if and only if redeliveries keep their keys |
| Conservation.CountedIsOnePerKey | python/sinopac_nt/execution.py:786-790 | The counted deals were delivered, have different and new keys, and cover every new key delivered |
| Conservation.SameKeySameId | python/sinopac_nt/execution.py:827-827 | On one trade, fill ids agree if and only if deal keys do |
| Reports.ReportsAreFilteredAndMapped | python/sinopac_nt/execution.py:1248-1341 | Although the loop fills the map as it goes, over distinct trades it reports the pure filter-and-map of the rows in order |
| Reports.BackfillingIsInvisible | python/sinopac_nt/execution.py:1287-1292 | The same from any row on, whatever the earlier rows bound |
| Reports.RaisingRowEndsTheReports | python/sinopac_nt/execution.py:1338-1341 | When a row raises, exactly the reports of the rows before it are returned |
| Reports.ReportsSayTheRows | python/sinopac_nt/execution.py:1248-1341 | For any rows: one report for each chosen row before the first bad one, in order, and each has its row's code, trade, quantity, filled quantity (zero if missing), price, side, type, time in force and status, stated on the row's texts |
| Reports.RowsEndExactly | python/sinopac_nt/execution.py:1256-1341 | Which rows raise, which are passed over and which are reported, by the keys they have |
| Reports.StatusIsRead | python/sinopac_nt/execution.py:155-163 | A status text is read as the gateway's table says, alone or after a dot, and any other text as denied |
| Reports.TifIsRead | python/sinopac_nt/execution.py:1281-1285 | Likewise the time in force; another or missing order type lasts for the day |
| Reports.ReportsNameTheirTrades | python/sinopac_nt/execution.py:1287-1306 | Each report names the owner of its trade, or the synthetic id of its own trade |
| Reports.SharedIdsExactly | python/sinopac_nt/execution.py:1287-1306 | Reports of different trades share a client order id if and only if one is of an own order that bears the other's synthetic name |
| Reports.DistinctTradesGetDistinctIds | python/sinopac_nt/execution.py:1293-1306 | With own orders named otherwise, two reports share a client order id only if they report the same trade |
| Reports.OwnOrdersAreRecoveredExactly | python/sinopac_nt/execution.py:1287-1306 | An own order is reported under its own id if and only if its trade is bound, or the row carries its token and the order is open; or its name is the synthetic one |
| Tokens.DigitsAreChained | python/sinopac_nt/execution.py:131-131 | Each digit is fixed by the next one and six bits of the hash |
| Tokens.TokenReads | python/sinopac_nt/execution.py:131-131 | The six characters are the alphabet's letters for the hash shifted by six bits each, modulo 62 |
| Tokens.AlphabetInOrder | python/sinopac_nt/execution.py:107-107 | The alphabet runs through the digits, the lower-case and then the upper-case letters |
| Tokens.EveryTokenIsReached | python/sinopac_nt/execution.py:118-122 | Every base-62 string of six characters is the token of some hash, already of a 36-bit one |
| Tokens.TokensCollideExactly | python/sinopac_nt/execution.py:131-131 | Two hashes have one token if and only if their six-bit groups and the rest agree modulo 62 |
| Tokens.B62IsABijection | python/sinopac_nt/execution.py:107-107 | The alphabet maps digits to characters one to one |
| Tokens.PreimageHasDigits | python/sinopac_nt/execution.py:131-131 | A hash with any wanted digits exists, for any number of digits |
| Gate.Decide | python/sinopac_nt/execution.py:956-1046 | The request is placed if and only if the Taiwan rules hold, stated in the strategy's terms; it is unsupported if and only if its type is |
| Gate.RefusalNamesABrokenRule | python/sinopac_nt/execution.py:888-926 | A refusal's reason is a rule that the order really breaks |
| Gate.RefusalNamesTheFirst | python/sinopac_nt/execution.py:987-1027 | And no rule that is tried earlier is broken |
| Gate.PlacedOrderIsLegal | python/sinopac_nt/execution.py:1029-1046 | A placed request obeys the venue's rules, says what the order said, carries the token, and its price is on the grid within half a tick, in a tie at the even multiple |
| Gate.TagRulesAreTaiwanRules | python/sinopac_nt/execution.py:378-461 | The rules on mapped tags are the rules on the order, through the market, price type and time in force |
| Gate.ValidateAndMapTags | python/sinopac_nt/execution.py:378-461 | Tags validate if and only if the names are known and the stock rules on price type, lot, quantity and condition hold |
| Gate.FromTagsReadsTheFirst | python/sinopac_nt/tags.py:98-101 | The first tag with the prefix decides; without one the order is a common-lot cash order, no day-trade short, with automatic open-close |
| Grid.SnapIsNearestMultiple | python/sinopac_nt/execution.py:134-152 | The snapped price is on the grid, within half a tick, no grid price is nearer, and a tie goes to the even multiple |
| Grid.RoundIsHalfEven | python/sinopac_nt/execution.py:151-151 | The quotient is rounded to a nearest integer, to the even one in a tie |
| Grid.HalfEvenIsUnique | python/sinopac_nt/execution.py:151-151 | No other integer meets that description |
| Grid.SnapFixesTheGrid | python/sinopac_nt/execution.py:134-152 | A price stays where it is if and only if it is on the grid |
| Grid.SnapIsIdempotent | python/sinopac_nt/execution.py:134-152 | Snapping twice is snapping once |
| Grid.SnapIsMonotone | python/sinopac_nt/execution.py:134-152 | Snapping keeps the order of prices |
| Grid.SnapIsOdd | python/sinopac_nt/execution.py:144-147 | Snapping has no bias between the signs |
| Ticks.SnappedPriceIsRepresentable | src/http/parse.rs:268-288 | Every tick the tables select is a whole number of units at its precision, so a snapped price is written exactly |
| Ticks.StockTicks | src/common/tick_size.rs:29-43 | The tick and precision of a common stock in each price interval |
| Ticks.EtfAndOptionTicks | src/common/tick_size.rs:55-61 | Those of beneficiary certificates and of options |
| Ticks.FuturesTicks | src/http/parse.rs:268-288 | Stock and certificate futures tick as these do, index futures by their root, and all others by one |
| Ticks.FinerTickFixesCoarserGrid | src/common/tick_size.rs:29-61 | Within a table the ticks divide each other upwards, so a price on a coarse grid is fixed by every finer tick |
| Ticks.SnapStaysInTier | src/common/tick_size.rs:29-61 | Snapping with the tick of the price's own tier crosses no boundary and lands on the grid of the tier it lands in |
| Ticks.ReferenceTickExactly | src/http/parse.rs:203-208 | The tick of the reference price is enough in another tier if and only if that tier's tick is no coarser |
| Ticks.CoarserTierIsMissed | src/http/parse.rs:203-208 | In every coarser tier some snapped price is off the venue's grid |
| Ticks.NaNReferenceTakesTheLastTier | src/common/tick_size.rs:29-43 | A NaN reference selects the coarsest tick, and a negative one a finer one |
| Book.FillSide | src/websocket/parse.rs:132-145 | The loop fails if and only if one of the first ten live levels does not convert, and otherwise fills exactly those, in order |
| Book.ParseDepth10 | src/websocket/parse.rs:115-177 | The loops compute the specified depth |
| Book.PushAdds | src/websocket/parse.rs:202-220 | The loop fails if and only if a live level does not convert, and otherwise appends one ADD for each, in order |
| Book.ParseDeltas | src/websocket/parse.rs:184-247 | The loops and the final flag compute the specified deltas |
| Book.DeltasSucceedExactly | src/websocket/parse.rs:184-247 | A delta batch exists if and only if both price arrays have entries and every zipped entry with volume converts; no side needs to have any |
| Book.DepthSucceedsExactly | src/websocket/parse.rs:115-177 | A depth exists if and only if both price arrays have entries, the first ten entries with volume of each side convert, and some entry has volume; its flags are F_LAST and F_SNAPSHOT |
| Book.QuoteSucceedsExactly | src/websocket/parse.rs:82-107 | A quote exists if and only if both sides have a first entry with volume that converts, whatever comes after it, and it reports these entries |
| Book.LiveAt | src/websocket/parse.rs:133-145 | An entry with volume is a live level, at the place that the entries with volume before it leave |
| Book.EntryOf | src/websocket/parse.rs:133-145 | Every live level is such an entry |
| Book.ReplayRebuildsTheBook | src/websocket/parse.rs:179-247 | Replaying the deltas on any earlier book leaves exactly the positive-volume levels of the snapshot, in order |
| Book.OnlyTheLastDeltaIsLast | src/websocket/parse.rs:242-244 | Exactly the last delta carries F_LAST, exactly the first is the CLEAR, and apart from F_LAST an ADD has no flag and the CLEAR has the library's |
| Book.DepthAgreesWithDeltas | src/websocket/parse.rs:115-247 | When the deltas parse, the depth parses if and only if a level is live, and is the first ten replayed orders of each side with counts of one on exactly these; the converse holds up to ten levels |
| Book.QuoteIsTopOfBook | src/websocket/parse.rs:74-108 | Any quote is the first level of both sides of the replayed book, and with the deltas parsed it exists if and only if both array heads have volume |
| Book.LongerArrayIsTruncated | src/websocket/parse.rs:133-133 | What lies past the shorter of two arrays changes nothing |
| Feed.Deserialize | src/websocket/messages.rs:55-59 | No text decodes to the reconnection sentinel |
| Feed.DeserializesExactly | src/websocket/messages.rs:33-54 | Each of the six kinds of message is decoded from exactly the readable, fitting texts with its own tag, with their payload |
| Feed.DecodesExactly | src/websocket/handler.rs:145-168 | The signal yields the sentinel, every other text what its decoding gives, and control frames, commands and stops yield nothing |
| Feed.LivePartExactly | src/websocket/handler.rs:79-171 | Inputs are taken from the front, up to and including the first close frame, stop or disconnect |
| Feed.HandlesExactly | src/websocket/handler.rs:86-134 | Commands alone decide who has a client and what is tracked, whether or not their frames arrive |
| Feed.CommandFramesExactly | src/websocket/handler.rs:92-123 | With a client a command to subscribe or unsubscribe is one frame, and nothing else is sent |
| Feed.SentinelsAreSignals | src/websocket/handler.rs:146-162 | Over any inputs, sentinels and reconnection signals are equally many |
| Feed.FeedHandler.HandleCommand | src/websocket/handler.rs:86-134 | A command changes the tracked set whether or not its frame arrives, and is sent only with a client |
| Feed.FeedHandler.ResubscribeAll | src/websocket/handler.rs:175-199 | One subscribe frame goes out for each tracked topic, whatever the order, and a failed one does not stop the rest |
| Feed.FeedHandler.HandleInput | src/websocket/handler.rs:85-170 | One pass of the loop yields the decoded message and reaches the specified state |
| Feed.FeedHandler.Next | src/websocket/handler.rs:78-172 | Inputs are consumed in order up to the first that yields a message or ends the loop, and the effects are the answers to them, each in its turn |
| Feed.FeedHandler.RunTask | src/websocket/client.rs:180-189 | The forwarded messages are the order-preserving decode of the consumed frames without poison and control frames, with one sentinel for each signal; all frames sent and messages forwarded are the answers to the inputs, in order |
| Feed.SentinelsFollowResubscriptions | src/websocket/handler.rs:146-153 | In the effects of a whole run, right before each sentinel stand the frames that answer its signal: one for each topic tracked at that point |
| Feed.ExplainsInTurn | src/websocket/handler.rs:78-172 | The effects of two stretches of inputs, one after the other, are the effects of both |
| Subscriptions.WsClient.SetBidaskOutputs | src/python/websocket.rs:95-108 | The flags of the code are its three bits, and other codes keep theirs |
| Subscriptions.DataClient.UpdateBidaskOutputsFor | python/sinopac_nt/data.py:210-217 | When all other codes' flags match the sets, afterwards every code's do |
| Subscriptions.DataClient.SubscribeTradeTicks | python/sinopac_nt/data.py:241-250 | The set, the flags and the queue change exactly as the request demands |
| Subscriptions.DataClient.SubscribeQuoteTicks | python/sinopac_nt/data.py:252-264 | The same; the stream is requested only by its first user |
| Subscriptions.DataClient.SubscribeOrderBookDeltas | python/sinopac_nt/data.py:266-278 | The same |
| Subscriptions.DataClient.SubscribeOrderBookDepth | python/sinopac_nt/data.py:280-292 | The same |
| Subscriptions.DataClient.UnsubscribeTradeTicks | python/sinopac_nt/data.py:306-315 | The same, in reverse |
| Subscriptions.DataClient.UnsubscribeQuoteTicks | python/sinopac_nt/data.py:317-328 | The same; the stream is released only by its last user |
| Subscriptions.DataClient.UnsubscribeOrderBookDeltas | python/sinopac_nt/data.py:330-341 | The same |
| Subscriptions.DataClient.UnsubscribeOrderBookDepth | python/sinopac_nt/data.py:343-354 | The same |
| Subscriptions.RequestMovesOneTopic | python/sinopac_nt/data.py:203-217 | A request changes no wanted stream but its own |
| Subscriptions.AppliedExactly | python/sinopac_nt/data.py:241-354 | A request moves its code in or out of its own set, and nothing else |
| Subscriptions.WantedExactly | python/sinopac_nt/data.py:203-217 | Trades want the tick stream, the three other kinds the one BidAsk stream, and the flags are one, two and four for them |
| Subscriptions.StackStaysInStep | python/sinopac_nt/data.py:241-354 | After any requests, draining, failed sends and reconnections, folding the pending commands over the tracked set gives exactly the wanted streams, and the flags are exactly the membership bits |
| Subscriptions.PerformMove | src/websocket/handler.rs:85-134 | The data client, the queue and the feed handler together move as the stack does |
| Subscriptions.PlaySession | python/sinopac_nt/data.py:241-354 | A session over the objects themselves ends in the state of the stack, in step |
| Subscriptions.ServedExactly | src/websocket/handler.rs:92-123 | Over a whole session the gateway always serves exactly the tracked topics if and only if every lost send was of a command that asked for nothing new and every dropped connection had nothing to serve |
| Subscriptions.MoveServesExactly | src/websocket/handler.rs:100-122 | One move keeps the gateway at the tracked set if and only if it is safe in that sense before it is made |
| Subscriptions.GatewayServesExactly | src/websocket/handler.rs:92-199 | Whatever was lost, the gateway serves a topic if and only if, on the present connection, the last frame about it that got through subscribed it |
| Subscriptions.LostSendIsNotRetried | src/websocket/handler.rs:100-106 | A concrete failing run: when the frame of a first subscription is lost, the queue is empty, the topic is tracked, and the gateway serves nothing |
| Subscriptions.ReconnectHeals | src/websocket/handler.rs:146-199 | Whatever was lost before the last reconnection, once its signal is handled and sends arrive, the gateway serves exactly the tracked set |
| Subscriptions.HealingProgresses | src/websocket/handler.rs:175-199 | From a fresh connection on, the gateway never serves an untracked topic, and serves them all after the signal |
| Emission.OnBidAsk | src/python/websocket.rs:192-267 | One message yields the specified data, although the loop sees flags and not subscriptions |
| Emission.Session | src/python/websocket.rs:148-323 | Over any interleaving of requests and messages the delivered data are the specified stream |
| Emission.KindsAreIndependent | src/python/websocket.rs:215-266 | A kind is delivered if and only if it is subscribed and its own translation succeeds, whatever the others do |
| Emission.DataComeInOrder | src/python/websocket.rs:192-267 | A quote comes before a depth and a depth before deltas, each at most once; an unknown code or an unreadable timestamp yields nothing |
| Emission.SpecifiedIsOwnCode | src/python/websocket.rs:193-196 | A message yields data of its own code only |
| Dispatchers.Dispatcher.Dispatch | python/sinopac_nt/factories.py:138-141 | Each handler listed at the start is called once and in order, whatever handlers register or unregister meanwhile; only a handler that raises stops it |
| Dispatchers.WithoutRemovesExactly | python/sinopac_nt/factories.py:148-150 | Removing a handler removes it and nothing else |
| Dispatchers.Reach | python/sinopac_nt/factories.py:139-141 | A message reaches the handlers up to the first that raises |
| Dispatchers.MoveIsBalancedExactly | python/sinopac_nt/factories.py:143-167 | A connect or disconnect keeps count, handlers and socket in balance if and only if it comes in turn and works |
| Dispatchers.RunsAreBalancedExactly | python/sinopac_nt/factories.py:143-167 | A whole run stays balanced if and only if every client connects and disconnects in turn and every connect works |
| Dispatchers.OutOfTurn | python/sinopac_nt/factories.py:143-167 | Concrete failing runs: after a double connect the socket stays up without clients, and a failed connect stays counted |
| Dispatchers.PlayClients | python/sinopac_nt/data.py:160-188 | Clients connecting to and disconnecting from the object itself leave it in the state of the run, balanced if they took turns |
| Dispatchers.RegisteredAreLive | python/sinopac_nt/factories.py:143-150 | In any run the registered handlers are exactly the live clients, each once |
| Dispatchers.HandlersAreInOrder | python/sinopac_nt/factories.py:138-150 | In any run handlers are listed, and so called, in the order in which the live clients registered |

## Left out

- Modify and cancel commands, order lists and batches: each sends one request for one order and touches no state modelled here.
- Pending-cancel and pending-update statuses: they belong to the domain library; with them a late `New` failure could meet a partially filled order that does not show that status.
- Identifier constructors: the library refuses empty or over-long ids with an exception, and here every string is an id.
- Missing keys of event dictionaries: events always carry the fields that the Rust side sets; only `list_trades` rows may lack any.
- Exceptions in the middle of a handler other than those named, such as a failing message bus.
- Positions, balances, fill reports (always empty) and the single-order report: lookups.
- Mass-status reconciliation in the domain library: a report's effect on the cached orders is not modelled.
- Correlation.ClientConfig: the BLAKE2s digest is an arbitrary 64-bit hash.
- Gate.Decide: the JSON codec of the tag body is an arbitrary partial function, so its round trip is not stated.
- Gate.PlacedOrderIsLegal: the final conversion to a binary float is not modelled, and an instrument whose precision cannot write its own increment is not rounded again.
- Grid.SnapIsNearestMultiple: the quotient is exact, without the 28 significant digits of Python's decimal context.
- Ticks.SnappedPriceIsRepresentable: the product multipliers, lot sizes and price limits of contracts are other tables and are not modelled.
- Warnings, logs and the texts of rejection reasons: a reason is the name of its rule.
- Feed.FeedHandler.Next: the choice among ready inputs is the order of the inbox, the end of the inbox stands for the closed stream, and back-pressure, time and task cancellation are absent.
- Feed.FeedHandler.RunTask: a dropped message receiver, which also ends the loop, is not modelled.
- Subscriptions.StackStaysInStep: one session from the completed connection on; subscription commands do not overlap, as asyncio would let them at an `await`.
- Subscriptions.ReconnectHeals: a fresh connection starts with no subscriptions at the gateway, and the gateway itself is a set of topics.
- Emission.Session: ticks, order updates, confirmations and the recovery from panics in the loop; messages are processed between requests.
- Book.ReplayRebuildsTheBook: the consumer keeps a list a side; sorting and merging of equal prices by the domain library's book are not modelled.
- Dispatchers.RunsAreBalancedExactly: the socket stays up between a connect and the last disconnect; transports that drop in between are not modelled.
- Reconnection with backoff, HTTP requests, time-outs, contract download, instrument providers, configuration and logging set-up.
