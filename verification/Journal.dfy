/**
 The durable tables of src/store.rs and what each transaction makes of them.

 A row's id is its position in its table: rows of these tables are never deleted and ids grow
 with creation time. A risk reservation (primary key `intent_id`) and the prepared order with its
 single attempt are parts of the intent row. A transaction that returns an error commits nothing.
 */
module Journal {
  import opened Wrappers
  import opened Domain
  import opened Sums
  import opened Risk

  datatype ReservationState = Active | Consumed | Released

  datatype Reservation = Reservation(
    conditionId: string, tokenId: string, side: Side,
    quantity: real, quoteExposure: real, feeRate: real, state: ReservationState)

  datatype AttemptState =
    | AttemptPrepared | AttemptSubmitting | AttemptAccepted | AttemptRejected
    | AttemptUnknown | AttemptResolved | AttemptCancelled

  /** The persisted payload, the deterministic venue identifier, and the one submission attempt. */
  datatype PreparedOrder = PreparedOrder(payload: string, orderKey: string, attempt: AttemptState)

  datatype Intent = Intent(
    request: Request,
    state: IntentState,
    reservation: Option<Reservation>,
    prepared: Option<PreparedOrder>)

  datatype Order = Order(
    intent: nat, venueId: Option<string>, conditionId: string, tokenId: string, side: Side,
    price: real, feeRate: real, quoteExposure: real,
    original: real, remaining: real, state: OrderState)

  /** The UNIQUE key of a trade row: one venue id, several joined, or a reference to the order. */
  datatype TradeKey = VenueTrade(id: string) | JoinedTrades(ids: seq<string>) | OfVenueOrder(venueId: string) | OfOrder(order: nat)

  datatype Trade = Trade(order: nat, key: TradeKey, price: real, size: real, day: int)

  datatype Position = Position(tokenId: string, shares: real)

  datatype Control = Control(state: ServiceState, revision: nat)

  datatype Journal = Journal(
    intents: seq<Intent>,
    orders: seq<Order>,
    trades: seq<Trade>,
    positions: seq<Position>,
    control: Control)

  datatype Refusal = NotFound | IdentityMismatch | NewRiskDisabled | UniqueViolation

  /** What the venue reports about an order. */
  datatype Observation = Observation(
    state: OrderState, remaining: real, filled: real, price: Option<real>, tradeIds: seq<string>)

  // ---------------------------------------------------------------------------------------------
  // Risk exposure
  // ---------------------------------------------------------------------------------------------

  /** One row of the risk queries: an active order or an active reservation. */
  datatype Exposure = Exposure(
    conditionId: string, tokenId: string, side: Side,
    feeRate: real, quoteExposure: real, original: real, quantity: real)

  function OrderExposure(o: Order): Exposure {
    Exposure(o.conditionId, o.tokenId, o.side, o.feeRate, o.quoteExposure, o.original, o.remaining)
  }

  function ReservationExposure(r: Reservation): Exposure {
    Exposure(r.conditionId, r.tokenId, r.side, r.feeRate, r.quoteExposure, r.quantity, r.quantity)
  }

  predicate Reserving(i: Intent) {
    i.reservation.Some? && i.reservation.value.state.Active?
  }

  function OfOrders(weight: Exposure -> real): Order -> real {
    (o: Order) => if o.state.Active() then weight(OrderExposure(o)) else 0.0
  }

  function OfReservations(weight: Exposure -> real): Intent -> real {
    (i: Intent) => if Reserving(i) then weight(ReservationExposure(i.reservation.value)) else 0.0
  }

  /** The weight of everything the risk queries count. */
  function Exposed(j: Journal, weight: Exposure -> real): real {
    Total(j.orders, OfOrders(weight)) + Total(j.intents, OfReservations(weight))
  }

  function Notional(e: Exposure): real {
    if e.original > 0.0 then e.quoteExposure * e.quantity / e.original else 0.0
  }

  function WithFee(notional: real, feeRate: real): real {
    notional * (1.0 + feeRate)
  }

  function Each(): Exposure -> real {
    (e: Exposure) => 1.0
  }

  function MarketNotional(conditionId: string): Exposure -> real {
    (e: Exposure) => if e.conditionId == conditionId then Notional(e) else 0.0
  }

  function Pending(tokenId: string, side: Side): Exposure -> real {
    (e: Exposure) => if e.tokenId == tokenId && e.side == side then e.quantity else 0.0
  }

  function BuyGross(): Exposure -> real {
    (e: Exposure) => if e.side.Buy? then WithFee(Notional(e), e.feeRate) else 0.0
  }

  function AbsoluteShares(): Position -> real {
    (p: Position) => Abs(p.shares)
  }

  function MatchedOn(today: int): Trade -> real {
    (t: Trade) => if t.day >= today then t.price * t.size else 0.0
  }

  function SharesOf(positions: seq<Position>, tokenId: string): real {
    if positions == [] then 0.0
    else
      var last := positions[|positions| - 1];
      if last.tokenId == tokenId then last.shares else SharesOf(positions[..|positions| - 1], tokenId)
  }

  /** Rows are unique by token: the one row of the token is replaced, or a first one is added. */
  function Upsert(positions: seq<Position>, tokenId: string, shares: real): seq<Position> {
    if positions == [] then [Position(tokenId, shares)]
    else
      var last := positions[|positions| - 1];
      if last.tokenId == tokenId then positions[|positions| - 1 := Position(tokenId, shares)]
      else Upsert(positions[..|positions| - 1], tokenId, shares) + [last]
  }

  predicate ExposuresValid(j: Journal) {
    && (forall o | 0 <= o < |j.orders| && j.orders[o].state.Active() :: j.orders[o].original > 0.0)
    && (forall i | 0 <= i < |j.intents| && Reserving(j.intents[i]) :: j.intents[i].reservation.value.quantity > 0.0)
  }

  predicate IsActiveOrder(o: Order) { o.state.Active() }

  function CountRows<T>(rows: seq<T>, counted: T -> bool): nat {
    if rows == [] then 0
    else CountRows(rows[..|rows| - 1], counted) + if counted(rows[|rows| - 1]) then 1 else 0
  }

  function OpenCount(j: Journal): nat {
    CountRows(j.orders, IsActiveOrder) + CountRows(j.intents, Reserving)
  }

  /** `build_risk_snapshot`, with its refusal of a row whose original quantity is not positive. */
  function SnapshotOf(j: Journal, conditionId: string, tokenId: string, today: int)
    : Result<RiskSnapshot, Refusal>
  {
    if !ExposuresValid(j) then Err(IdentityMismatch)
    else Ok(RiskSnapshot(
      OpenCount(j),
      Exposed(j, MarketNotional(conditionId)),
      SharesOf(j.positions, tokenId),
      Exposed(j, Pending(tokenId, Buy)),
      Exposed(j, Pending(tokenId, Sell)),
      Exposed(j, BuyGross()) + Total(j.positions, AbsoluteShares()),
      Total(j.trades, MatchedOn(today))))
  }

  // ---------------------------------------------------------------------------------------------
  // Venue evidence and fills
  // ---------------------------------------------------------------------------------------------

  predicate ValidEvidence(original: real, state: OrderState, remaining: real, filled: real, price: Option<real>) {
    && original > 0.0 && remaining >= 0.0 && filled >= 0.0
    && remaining <= original && filled <= original && remaining + filled <= original
    && !state.Prepared? && !state.Submitting? && !state.CancelPending?
    && !(state.Filled? && remaining != 0.0)
    && !(state.Live? && remaining == 0.0)
    && !(state.PartiallyFilled? && (remaining == 0.0 || filled == 0.0))
    && !(state.Rejected? && filled != 0.0)
    && !(state.Unknown? && (filled != 0.0 || remaining != original))
    && (filled > 0.0 ==> price.Some? && 0.0 < price.value < 1.0)
  }

  predicate ValidTransition(prior: OrderState, next: OrderState) {
    || prior == next
    || ((prior.Live? || prior.PartiallyFilled?) && next.CancelPending?)
    || ((prior.CancelPending? || prior.Unknown?) && (next.Filled? || next.Cancelled? || next.Expired?))
  }

  function KeyOf(tradeIds: seq<string>, venueId: Option<string>, order: nat): TradeKey {
    if |tradeIds| == 1 then VenueTrade(tradeIds[0])
    else if |tradeIds| > 1 then JoinedTrades(tradeIds)
    else if venueId.Some? then OfVenueOrder(venueId.value)
    else OfOrder(order)
  }

  predicate Recorded(trades: seq<Trade>, key: TradeKey) {
    exists k | 0 <= k < |trades| :: trades[k].key == key
  }

  function Signed(side: Side, quantity: real): real {
    if side.Buy? then quantity else -quantity
  }

  /** `apply_matched_fill`: record the trade and move the position, unless its key is taken. */
  function MatchFill(j: Journal, o: nat, order: Order, venueId: Option<string>, filled: real,
                     price: Option<real>, tradeIds: seq<string>, day: int): Journal
  {
    var key := KeyOf(tradeIds, venueId, o);
    if filled <= 0.0 || Recorded(j.trades, key) then j
    else
      var tradePrice := if price.Some? then price.value else order.price;
      j.(trades := j.trades + [Trade(o, key, tradePrice, filled, day)],
         positions := Upsert(j.positions, order.tokenId,
                             SharesOf(j.positions, order.tokenId) + Signed(order.side, filled)))
  }

  // ---------------------------------------------------------------------------------------------
  // Transactions
  // ---------------------------------------------------------------------------------------------

  /** `admit_intent` without its idempotency check, which module Idempotency models. */
  function AdmitIntent(j: Journal, request: Request): Result<Journal, Refusal> {
    if !j.control.state.Ready? then Err(NewRiskDisabled)
    else Ok(j.(intents := j.intents + [Intent(request, IntentState.Received, None, None)]))
  }

  function SetIntent(j: Journal, i: nat, row: Intent): Journal
    requires i < |j.intents|
  {
    j.(intents := j.intents[i := row])
  }

  function TransitionIntent(j: Journal, i: nat, expected: IntentState, next: IntentState): Result<Journal, Refusal> {
    if i >= |j.intents| || j.intents[i].state != expected then Err(NotFound)
    else Ok(SetIntent(j, i, j.intents[i].(state := next)))
  }

  /** The reservation row an approved request is given. */
  function ReservationFor(request: Request, market: MarketRules, shares: real, quote: real): Reservation {
    Reservation(request.conditionId, request.tokenId, request.side, shares, quote, market.LargerFee(), Active)
  }

  /** `evaluate_and_reserve_risk`: the decision, the reservation and the new state in one commit. */
  function EvaluateAndReserve(j: Journal, i: nat, policy: RiskPolicy, market: MarketRules,
                              book: OrderBook, today: int): Result<(Journal, Decision), Refusal>
    requires i < |j.intents|
  {
    var row := j.intents[i];
    var request := row.request;
    var snapshot :- SnapshotOf(j, request.conditionId, request.tokenId, today);
    var decision := Evaluate(policy, request, market, book, snapshot);
    if decision.Refuse? then
      if !row.state.Validating? then Err(IdentityMismatch)
      else Ok((SetIntent(j, i, row.(state := IntentState.Rejected)), decision))
    else
      var price := request.ProtectionPrice();
      var quantity := request.QuantityDecimal();
      if price.None? || quantity.None? then Err(IdentityMismatch)
      else
        var worst := ConservativeExposure(request, market, quantity.value, price.value);
        if worst.None? then Err(IdentityMismatch)
        else if row.reservation.Some? then Err(UniqueViolation)
        else if !row.state.Validating? then Err(IdentityMismatch)
        else
          var reservation := ReservationFor(request, market, worst.value.0, worst.value.1);
          Ok((SetIntent(j, i, row.(state := IntentState.Approved, reservation := Some(reservation))), decision))
  }

  /** The order row that takes over a reservation. */
  function OrderFor(i: nat, request: Request, reservation: Reservation, price: real, feeRate: real): Order {
    Order(i, None, request.conditionId, request.tokenId, request.side, price, feeRate,
          reservation.quoteExposure, reservation.quantity, reservation.quantity, OrderState.Prepared)
  }

  function CreatePreparedOrder(j: Journal, i: nat, payload: string, orderKey: string, feeRate: real)
    : Result<Journal, Refusal>
    requires i < |j.intents|
  {
    var row := j.intents[i];
    var price := row.request.ProtectionPrice();
    if price.None? || !Reserving(row) || !row.state.Preparing? then Err(IdentityMismatch)
    else
      var reservation := row.reservation.value;
      var next := row.(state := IntentState.Prepared,
                       reservation := Some(reservation.(state := Consumed)),
                       prepared := Some(PreparedOrder(payload, orderKey, AttemptPrepared)));
      Ok(SetIntent(j, i, next).(orders := j.orders + [OrderFor(i, row.request, reservation, price.value, feeRate)]))
  }

  function RejectPreparation(j: Journal, i: nat): Result<Journal, Refusal>
    requires i < |j.intents|
  {
    var row := j.intents[i];
    if !Reserving(row) || !row.state.Preparing? then Err(IdentityMismatch)
    else Ok(SetIntent(j, i, row.(state := IntentState.Rejected,
                                 reservation := Some(row.reservation.value.(state := Released)))))
  }

  predicate HasAttempt(row: Intent, attempt: AttemptState) {
    row.prepared.Some? && row.prepared.value.attempt == attempt
  }

  /** The intent row with its attempt moved from one state to another, if it is in the first. */
  function MoveAttempt(row: Intent, from: AttemptState, to: AttemptState): Intent {
    if HasAttempt(row, from) then row.(prepared := Some(row.prepared.value.(attempt := to))) else row
  }

  function BeginSubmission(j: Journal, i: nat, o: nat): Result<Journal, Refusal> {
    if !j.control.state.Ready? then Err(NewRiskDisabled)
    else if !(i < |j.intents| && j.intents[i].state.Prepared?) then Err(IdentityMismatch)
    else if !(o < |j.orders| && j.orders[o].intent == i && j.orders[o].state.Prepared?) then Err(IdentityMismatch)
    else if !HasAttempt(j.intents[i], AttemptPrepared) then Err(IdentityMismatch)
    else Ok(SetIntent(j, i, MoveAttempt(j.intents[i], AttemptPrepared, AttemptSubmitting).(state := IntentState.Submitting))
            .(orders := j.orders[o := j.orders[o].(state := OrderState.Submitting)]))
  }

  function Coalesce(first: Option<string>, second: Option<string>): Option<string> {
    if first.Some? then first else second
  }

  /** The remaining quantity `finish_submission` writes. */
  function FinishRemaining(original: real, state: OrderState, filled: real): real {
    if state.Terminal() then 0.0 else Max(original - filled, 0.0)
  }

  /**
   `finish_submission`. `unknown` selects the intent state UNKNOWN instead of SUBMITTED; only then
   is the attempt UNKNOWN and the fill not matched.
   */
  function FinishSubmission(j: Journal, i: nat, o: nat, unknown: bool, state: OrderState,
                            venueId: Option<string>, filled: real, price: Option<real>,
                            tradeIds: seq<string>, day: int): Result<Journal, Refusal>
  {
    if !(o < |j.orders| && j.orders[o].intent == i && j.orders[o].state.Submitting?) then Err(IdentityMismatch)
    else
      var prior := j.orders[o];
      var remaining := FinishRemaining(prior.original, state, filled);
      if !ValidEvidence(prior.original, state, remaining, filled, price) then Err(IdentityMismatch)
      else if !(i < |j.intents| && j.intents[i].state.Submitting?) then Err(IdentityMismatch)
      else
        var attempt := if unknown then AttemptUnknown
                       else if state.Rejected? then AttemptRejected else AttemptAccepted;
        var row := MoveAttempt(j.intents[i], AttemptSubmitting, attempt)
                   .(state := if unknown then IntentState.Unknown else IntentState.Submitted);
        var order := prior.(state := state, venueId := Coalesce(venueId, prior.venueId), remaining := remaining);
        var next := SetIntent(j, i, row).(orders := j.orders[o := order]);
        Ok(if unknown then next else MatchFill(next, o, prior, venueId, filled, price, tradeIds, day))
  }

  /** The join condition of `recover_interrupted_submissions`. */
  predicate Interrupted(j: Journal, o: nat)
    requires o < |j.orders|
  {
    var order := j.orders[o];
    && order.intent < |j.intents|
    && j.intents[order.intent].prepared.Some?
    && (order.state.Submitting? || j.intents[order.intent].state.Submitting?)
  }

  predicate InterruptedIntent(j: Journal, i: nat) {
    exists o | 0 <= o < |j.orders| :: j.orders[o].intent == i && Interrupted(j, o)
  }

  function UnknownOrder(j: Journal, o: nat): Order
    requires o < |j.orders|
  {
    var order := j.orders[o];
    if Interrupted(j, o) then
      order.(state := OrderState.Unknown,
             venueId := Coalesce(order.venueId, Some(j.intents[order.intent].prepared.value.orderKey)))
    else order
  }

  function UnknownIntent(j: Journal, i: nat): Intent
    requires i < |j.intents|
  {
    if InterruptedIntent(j, i) then
      MoveAttempt(j.intents[i], AttemptSubmitting, AttemptUnknown).(state := IntentState.Unknown)
    else j.intents[i]
  }

  function RecoverInterrupted(j: Journal): Journal {
    j.(orders := seq(|j.orders|, o requires 0 <= o < |j.orders| => UnknownOrder(j, o)),
       intents := seq(|j.intents|, i requires 0 <= i < |j.intents| => UnknownIntent(j, i)))
  }

  /** Whether `recover_interrupted_submissions` reports a positive count. */
  predicate AnyInterrupted(j: Journal) {
    exists o | 0 <= o < |j.orders| :: Interrupted(j, o)
  }

  function PreparedCount(orders: seq<Order>, i: nat): nat {
    if orders == [] then 0
    else
      var last := orders[|orders| - 1];
      PreparedCount(orders[..|orders| - 1], i) + if last.intent == i && last.state.Prepared? then 1 else 0
  }

  /** A PREPARED intent must own exactly one prepared order and attempt. */
  predicate Recoverable(j: Journal, i: nat)
    requires i < |j.intents|
  {
    j.intents[i].state.Prepared? ==>
      HasAttempt(j.intents[i], AttemptPrepared) && PreparedCount(j.orders, i) == 1
  }

  function RecoverIntent(row: Intent): Intent {
    if row.state.Validating? || row.state.Approved? || row.state.Preparing? then
      row.(state := IntentState.Received,
           reservation := if Reserving(row) then Some(row.reservation.value.(state := Released)) else row.reservation)
    else row
  }

  function RecoverPreSubmission(j: Journal): Result<Journal, Refusal> {
    if exists i | 0 <= i < |j.intents| :: !Recoverable(j, i) then Err(IdentityMismatch)
    else Ok(j.(intents := seq(|j.intents|, i requires 0 <= i < |j.intents| => RecoverIntent(j.intents[i]))))
  }

  /** The intent update that accompanies an order leaving UNKNOWN. */
  function SubmittedIfUnknown(row: Intent): Intent {
    if row.state.Unknown? then row.(state := IntentState.Submitted) else row
  }

  function ResolveUnknown(j: Journal, o: nat, venueId: string, seen: Observation, day: int): Result<Journal, Refusal> {
    if seen.state.Unknown? then Ok(j)
    else if !(o < |j.orders| && j.orders[o].state.Unknown? && j.orders[o].intent < |j.intents|) then Err(IdentityMismatch)
    else
      var prior := j.orders[o];
      if !ValidEvidence(prior.original, seen.state, seen.remaining, seen.filled, seen.price) then Err(IdentityMismatch)
      else
        var order := prior.(state := seen.state, venueId := Some(venueId), remaining := seen.remaining);
        var row := MoveAttempt(SubmittedIfUnknown(j.intents[prior.intent]), AttemptUnknown, AttemptResolved);
        var next := SetIntent(j, prior.intent, row).(orders := j.orders[o := order]);
        Ok(MatchFill(next, o, prior, Some(venueId), seen.filled, seen.price, seen.tradeIds, day))
  }

  function TransitionOrder(j: Journal, o: nat, next: OrderState): Result<Journal, Refusal> {
    if !(o < |j.orders| && j.orders[o].intent < |j.intents|) then Err(NotFound)
    else
      var prior := j.orders[o];
      if next.CancelPending? && prior.state.Terminal() then Ok(j)
      else if !ValidTransition(prior.state, next) then Err(IdentityMismatch)
      else
        var moved := j.(orders := j.orders[o := prior.(state := next)]);
        Ok(if prior.state.Unknown? && (next.Filled? || next.Cancelled? || next.Expired?)
           then SetIntent(moved, prior.intent, SubmittedIfUnknown(j.intents[prior.intent]))
           else moved)
  }

  function CancelPreparedOrder(j: Journal, o: nat): Result<Journal, Refusal> {
    if !(o < |j.orders| && j.orders[o].state.Prepared? && j.orders[o].intent < |j.intents|) then Err(NotFound)
    else
      var order := j.orders[o];
      var row := MoveAttempt(j.intents[order.intent], AttemptPrepared, AttemptCancelled);
      Ok(SetIntent(j, order.intent, if row.state.Prepared? then row.(state := IntentState.Rejected) else row)
         .(orders := j.orders[o := order.(state := OrderState.Cancelled)]))
  }

  /** The state `reconcile_order_projection` writes: a pending cancellation is not reopened. */
  function ProjectedState(prior: OrderState, seen: OrderState): OrderState {
    if prior.CancelPending? && (seen.Live? || seen.PartiallyFilled?) then OrderState.CancelPending else seen
  }

  function LocalFilled(order: Order): real {
    Max(order.original - order.remaining, 0.0)
  }

  /** `reconcile_order_projection`. It does not look at the order's current state before writing. */
  function ReconcileProjection(j: Journal, o: nat, seen: Observation, day: int): Result<Journal, Refusal> {
    if o >= |j.orders| then Err(NotFound)
    else
      var prior := j.orders[o];
      if !ValidEvidence(prior.original, seen.state, seen.remaining, seen.filled, seen.price) then Err(IdentityMismatch)
      else if seen.filled < LocalFilled(prior) then Err(IdentityMismatch)
      else
        var delta := seen.filled - LocalFilled(prior);
        var next := ProjectedState(prior.state, seen.state);
        if next == prior.state && seen.remaining == prior.remaining && delta == 0.0 then Ok(j)
        else
          Ok(MatchFill(j.(orders := j.orders[o := prior.(state := next, remaining := seen.remaining)]),
                       o, prior, prior.venueId, delta, seen.price, seen.tradeIds, day))
  }

  /** The state the core order takes when its paper order is filled by a market trade. */
  function PaperFilledState(prior: OrderState, paper: OrderState): OrderState {
    if prior.CancelPending? && !paper.Filled? then OrderState.CancelPending else paper
  }

  /** The core half of one fill of `apply_paper_trade_through`; nothing happens to other orders. */
  function ProjectPaperFill(j: Journal, o: nat, paper: OrderState, remaining: real, fill: real,
                            tradePrice: real, tradeId: string, day: int): Journal
    requires o < |j.orders|
  {
    var prior := j.orders[o];
    if !prior.state.Open() then j
    else
      MatchFill(j.(orders := j.orders[o := prior.(state := PaperFilledState(prior.state, paper), remaining := remaining)]),
                o, prior, prior.venueId, fill, Some(tradePrice), [tradeId], day)
  }

  /** `set_service_state_inner`; `expected` is the revision a resume read. */
  function SetServiceState(j: Journal, next: ServiceState, expected: Option<nat>): Result<Journal, Refusal> {
    if expected.Some? && (!j.control.state.Halted? || j.control.revision != expected.value) then Err(IdentityMismatch)
    else Ok(j.(control := Control(next, j.control.revision + 1)))
  }
}
