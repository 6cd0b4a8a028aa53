/**
 The journal half of src/store.rs as the store runs it: one method per transaction over mutable tables.

 A method updates rows step by step, as its SQL does, and checks affected rows after the fact; an error
 then rolls the tables back to the savepoint. Each method is proved to commit exactly what its
 transaction function of module Journal says, or to change nothing.
 */
module Store {
  import opened Wrappers
  import opened Domain
  import opened Sums
  import opened Risk
  import opened Journal
  import J = Journal
  import Recovery
  import opened OrderBounds

  // ---------------------------------------------------------------------------------------------
  // The rows of the risk queries
  // ---------------------------------------------------------------------------------------------

  function OrderRows(orders: seq<Order>): seq<Exposure> {
    if orders == [] then []
    else
      var last := orders[|orders| - 1];
      OrderRows(orders[..|orders| - 1]) + if last.state.Active() then [OrderExposure(last)] else []
  }

  function ReservationRows(intents: seq<Intent>): seq<Exposure> {
    if intents == [] then []
    else
      var last := intents[|intents| - 1];
      ReservationRows(intents[..|intents| - 1])
      + if Reserving(last) then [ReservationExposure(last.reservation.value)] else []
  }

  predicate Valued(rows: seq<Exposure>) {
    forall e | e in rows :: e.original > 0.0
  }

  lemma ValuedConcat(first: seq<Exposure>, second: seq<Exposure>)
    ensures Valued(first + second) <==> Valued(first) && Valued(second)
  {
    if Valued(first + second) {
      forall e | e in first ensures e.original > 0.0 {
        assert e in first + second;
      }
      forall e | e in second ensures e.original > 0.0 {
        assert e in first + second;
      }
    }
  }

  lemma ValuedOne(e: Exposure)
    ensures Valued([e]) <==> e.original > 0.0
  {
    assert e in [e];
  }

  predicate ValidOrders(orders: seq<Order>) {
    forall o | 0 <= o < |orders| && orders[o].state.Active() :: orders[o].original > 0.0
  }

  predicate ValidReservations(intents: seq<Intent>) {
    forall i | 0 <= i < |intents| && Reserving(intents[i]) :: intents[i].reservation.value.quantity > 0.0
  }

  lemma {:induction false} OrderRowsAreValued(orders: seq<Order>)
    ensures Valued(OrderRows(orders)) <==> ValidOrders(orders)
  {
    if orders != [] {
      var init, last := orders[..|orders| - 1], orders[|orders| - 1];
      OrderRowsAreValued(init);
      ValuedOne(OrderExposure(last));
      ValuedConcat(OrderRows(init), if last.state.Active() then [OrderExposure(last)] else []);
      assert ValidOrders(orders) <==> ValidOrders(init) && (last.state.Active() ==> last.original > 0.0);
    }
  }

  lemma {:induction false} ReservationRowsAreValued(intents: seq<Intent>)
    ensures Valued(ReservationRows(intents)) <==> ValidReservations(intents)
  {
    if intents != [] {
      var init, last := intents[..|intents| - 1], intents[|intents| - 1];
      ReservationRowsAreValued(init);
      if Reserving(last) {
        ValuedOne(ReservationExposure(last.reservation.value));
      }
      ValuedConcat(ReservationRows(init), if Reserving(last) then [ReservationExposure(last.reservation.value)] else []);
      assert ValidReservations(intents) <==>
        ValidReservations(init) && (Reserving(last) ==> last.reservation.value.quantity > 0.0);
    }
  }

  lemma {:induction false} OrderRowsAre(orders: seq<Order>)
    ensures |OrderRows(orders)| == CountRows(orders, IsActiveOrder)
    ensures forall weight: Exposure -> real :: Total(OrderRows(orders), weight) == Total(orders, OfOrders(weight))
  {
    if orders != [] {
      var init, last := orders[..|orders| - 1], orders[|orders| - 1];
      OrderRowsAre(init);
      forall weight: Exposure -> real ensures Total(OrderRows(orders), weight) == Total(orders, OfOrders(weight)) {
        TotalAppend(OrderRows(init), OrderExposure(last), weight);
        assert OrderRows(init) + [] == OrderRows(init);
      }
    }
  }

  lemma {:induction false} ReservationRowsAre(intents: seq<Intent>)
    ensures |ReservationRows(intents)| == CountRows(intents, Reserving)
    ensures forall weight: Exposure -> real :: Total(ReservationRows(intents), weight) == Total(intents, OfReservations(weight))
  {
    if intents != [] {
      var init, last := intents[..|intents| - 1], intents[|intents| - 1];
      ReservationRowsAre(init);
      forall weight: Exposure -> real ensures Total(ReservationRows(intents), weight) == Total(intents, OfReservations(weight)) {
        if Reserving(last) {
          TotalAppend(ReservationRows(init), ReservationExposure(last.reservation.value), weight);
        }
        assert ReservationRows(init) + [] == ReservationRows(init);
        assert OfReservations(weight)(last) == if Reserving(last) then weight(ReservationExposure(last.reservation.value)) else 0.0;
      }
    }
  }

  /** The two queries one after the other see exactly the exposure of the journal. */
  lemma RowsAreExposure(j: Journal)
    ensures var rows := OrderRows(j.orders) + ReservationRows(j.intents);
      && |rows| == OpenCount(j)
      && (Valued(rows) <==> ExposuresValid(j))
      && forall weight: Exposure -> real :: Total(rows, weight) == Exposed(j, weight)
  {
    OrderRowsAre(j.orders);
    ReservationRowsAre(j.intents);
    var first, second := OrderRows(j.orders), ReservationRows(j.intents);
    ValuedConcat(first, second);
    OrderRowsAreValued(j.orders);
    ReservationRowsAreValued(j.intents);
    forall weight: Exposure -> real ensures Total(first + second, weight) == Exposed(j, weight) {
      TotalConcat(first, second, weight);
      assert Total(first, weight) == Total(j.orders, OfOrders(weight));
      assert Total(second, weight) == Total(j.intents, OfReservations(weight));
    }
  }

  lemma {:induction false} TotalConcat<T>(first: seq<T>, second: seq<T>, weight: T -> real)
    ensures Total(first + second, weight) == Total(first, weight) + Total(second, weight)
  {
    if second == [] {
      assert first + second == first;
    } else {
      var n := |second| - 1;
      TotalConcat(first, second[..n], weight);
      assert (first + second)[..|first + second| - 1] == first + second[..n];
    }
  }

  datatype ExposureSums = ExposureSums(marketNotional: real, pendingBuys: real, pendingSells: real, gross: real)

  /** The accumulating loop over the selected rows; None for a row without a positive original quantity. */
  method SumExposure(rows: seq<Exposure>, conditionId: string, tokenId: string) returns (sums: Option<ExposureSums>)
    ensures sums.Some? <==> Valued(rows)
    ensures sums.Some? ==> sums.value == ExposureSums(
      Total(rows, MarketNotional(conditionId)), Total(rows, Pending(tokenId, Buy)),
      Total(rows, Pending(tokenId, Sell)), Total(rows, BuyGross()))
  {
    var market, buys, sells, gross := 0.0, 0.0, 0.0, 0.0;
    for k := 0 to |rows|
      invariant forall i | 0 <= i < k :: rows[i].original > 0.0
      invariant market == Total(rows[..k], MarketNotional(conditionId))
      invariant buys == Total(rows[..k], Pending(tokenId, Buy)) && sells == Total(rows[..k], Pending(tokenId, Sell))
      invariant gross == Total(rows[..k], BuyGross())
    {
      var row := rows[k];
      if row.original <= 0.0 {
        assert row in rows;
        return None;
      }
      TotalNext(rows, k, MarketNotional(conditionId));
      TotalNext(rows, k, Pending(tokenId, Buy));
      TotalNext(rows, k, Pending(tokenId, Sell));
      TotalNext(rows, k, BuyGross());
      var notional := Notional(row);
      if row.conditionId == conditionId {
        market := market + notional;
      }
      if row.tokenId == tokenId {
        match row.side {
          case Buy => buys := buys + row.quantity;
          case Sell => sells := sells + row.quantity;
        }
      }
      if row.side.Buy? {
        gross := gross + WithFee(notional, row.feeRate);
      }
    }
    assert rows[..|rows|] == rows;
    sums := Some(ExposureSums(market, buys, sells, gross));
  }

  method SumPositions(positions: seq<Position>, tokenId: string) returns (position: real, absolute: real)
    ensures position == SharesOf(positions, tokenId) && absolute == Total(positions, AbsoluteShares())
  {
    position, absolute := 0.0, 0.0;
    for k := 0 to |positions|
      invariant position == SharesOf(positions[..k], tokenId) && absolute == Total(positions[..k], AbsoluteShares())
    {
      TotalNext(positions, k, AbsoluteShares());
      assert positions[..k + 1][..k] == positions[..k];
      absolute := absolute + Abs(positions[k].shares);
      if positions[k].tokenId == tokenId {
        position := positions[k].shares;
      }
    }
    assert positions[..|positions|] == positions;
  }

  method SumMatched(trades: seq<Trade>, today: int) returns (matched: real)
    ensures matched == Total(trades, MatchedOn(today))
  {
    matched := 0.0;
    for k := 0 to |trades|
      invariant matched == Total(trades[..k], MatchedOn(today))
    {
      TotalNext(trades, k, MatchedOn(today));
      if trades[k].day >= today {
        matched := matched + trades[k].price * trades[k].size;
      }
    }
    assert trades[..|trades|] == trades;
  }

  // ---------------------------------------------------------------------------------------------
  // The store
  // ---------------------------------------------------------------------------------------------

  /** A committed transaction leaves its journal, a refused one the journal before it. */
  predicate Outcome(before: Journal, after: Result<Journal, Refusal>, now: Journal, refusal: Option<Refusal>) {
    match after
    case Ok(next) => now == next && refusal.None?
    case Err(error) => now == before && refusal == Some(error)
  }

  class JournalStore {
    var intents: seq<Intent>
    var orders: seq<Order>
    var trades: seq<Trade>
    var positions: seq<Position>
    var control: Control

    function View(): Journal
      reads this
    {
      Journal(intents, orders, trades, positions, control)
    }

    constructor (opening: seq<Position>)
      ensures View() == Journal([], [], [], opening, Control(Starting, 0))
    {
      intents, orders, trades, positions, control := [], [], [], opening, Control(Starting, 0);
    }

    method Rollback(savepoint: Journal)
      modifies this
      ensures View() == savepoint
    {
      intents, orders, trades := savepoint.intents, savepoint.orders, savepoint.trades;
      positions, control := savepoint.positions, savepoint.control;
    }

    method AdmitIntent(request: Request) returns (refusal: Option<Refusal>)
      modifies this`intents
      ensures Outcome(old(View()), J.AdmitIntent(old(View()), request), View(), refusal)
    {
      if !control.state.Ready? {
        return Some(NewRiskDisabled);
      }
      intents := intents + [Intent(request, IntentState.Received, None, None)];
      refusal := None;
    }

    method TransitionIntent(i: nat, expected: IntentState, next: IntentState) returns (refusal: Option<Refusal>)
      modifies this`intents
      ensures Outcome(old(View()), J.TransitionIntent(old(View()), i, expected, next), View(), refusal)
    {
      if i >= |intents| || intents[i].state != expected {
        return Some(NotFound);
      }
      intents := intents[i := intents[i].(state := next)];
      refusal := None;
    }

    method BuildRiskSnapshot(conditionId: string, tokenId: string, today: int)
      returns (snapshot: Result<RiskSnapshot, Refusal>)
      ensures snapshot == SnapshotOf(View(), conditionId, tokenId, today)
    {
      RowsAreExposure(View());
      var rows := OrderRows(orders) + ReservationRows(intents);
      var sums := SumExposure(rows, conditionId, tokenId);
      if sums.None? {
        return Err(IdentityMismatch);
      }
      var position, absolute := SumPositions(positions, tokenId);
      var matched := SumMatched(trades, today);
      assert Total(rows, BuyGross()) == Exposed(View(), BuyGross());
      snapshot := Ok(RiskSnapshot(|rows|, sums.value.marketNotional, position, sums.value.pendingBuys,
                                  sums.value.pendingSells, sums.value.gross + absolute, matched));
    }

    method EvaluateAndReserve(i: nat, policy: RiskPolicy, market: MarketRules, book: OrderBook, today: int)
      returns (result: Result<Decision, Refusal>)
      requires i < |intents|
      modifies this`intents
      ensures var after := J.EvaluateAndReserve(old(View()), i, policy, market, book, today);
        && View() == (if after.Ok? then after.value.0 else old(View()))
        && result == (if after.Ok? then Ok(after.value.1) else Err(after.error))
    {
      var savepoint := intents;
      var request := intents[i].request;
      var snapshot := BuildRiskSnapshot(request.conditionId, request.tokenId, today);
      if snapshot.Err? {
        return Err(snapshot.error);
      }
      var decision := Evaluate(policy, request, market, book, snapshot.value);
      var next := IntentState.Rejected;
      if decision.Approve? {
        var price, quantity := request.ProtectionPrice(), request.QuantityDecimal();
        if price.None? || quantity.None? {
          return Err(IdentityMismatch);
        }
        var worst := ConservativeExposure(request, market, quantity.value, price.value);
        if worst.None? {
          return Err(IdentityMismatch);
        }
        if intents[i].reservation.Some? {
          return Err(UniqueViolation);
        }
        var reservation := ReservationFor(request, market, worst.value.0, worst.value.1);
        intents := intents[i := intents[i].(reservation := Some(reservation))];
        next := IntentState.Approved;
      }
      if !intents[i].state.Validating? {
        intents := savepoint;
        return Err(IdentityMismatch);
      }
      intents := intents[i := intents[i].(state := next)];
      result := Ok(decision);
    }

    method CreatePreparedOrder(i: nat, payload: string, orderKey: string, feeRate: real)
      returns (refusal: Option<Refusal>)
      requires i < |intents|
      modifies this
      ensures Outcome(old(View()), J.CreatePreparedOrder(old(View()), i, payload, orderKey, feeRate), View(), refusal)
    {
      var savepoint := View();
      intents := intents[i := intents[i].(prepared := Some(PreparedOrder(payload, orderKey, AttemptPrepared)))];
      var price := intents[i].request.ProtectionPrice();
      if price.None? || !Reserving(intents[i]) {
        Rollback(savepoint);
        return Some(IdentityMismatch);
      }
      var reservation := intents[i].reservation.value;
      orders := orders + [OrderFor(i, intents[i].request, reservation, price.value, feeRate)];
      intents := intents[i := intents[i].(reservation := Some(reservation.(state := Consumed)))];
      if !intents[i].state.Preparing? {
        Rollback(savepoint);
        return Some(IdentityMismatch);
      }
      intents := intents[i := intents[i].(state := IntentState.Prepared)];
      refusal := None;
    }

    method RejectPreparation(i: nat) returns (refusal: Option<Refusal>)
      requires i < |intents|
      modifies this
      ensures Outcome(old(View()), J.RejectPreparation(old(View()), i), View(), refusal)
    {
      var savepoint := View();
      if !Reserving(intents[i]) {
        return Some(IdentityMismatch);
      }
      intents := intents[i := intents[i].(reservation := Some(intents[i].reservation.value.(state := Released)))];
      if !intents[i].state.Preparing? {
        Rollback(savepoint);
        return Some(IdentityMismatch);
      }
      intents := intents[i := intents[i].(state := IntentState.Rejected)];
      refusal := None;
    }

    /** The attempt of intent `i`, updated where it is in state `from`; the result is the affected rows. */
    method UpdateAttempt(i: nat, from: AttemptState, to: AttemptState) returns (affected: nat)
      requires i < |intents|
      modifies this`intents
      ensures intents == old(intents)[i := MoveAttempt(old(intents)[i], from, to)]
      ensures affected == if HasAttempt(old(intents)[i], from) then 1 else 0
    {
      affected := 0;
      if intents[i].prepared.Some? && intents[i].prepared.value.attempt == from {
        intents := intents[i := intents[i].(prepared := Some(intents[i].prepared.value.(attempt := to)))];
        affected := 1;
      }
    }

    method BeginSubmission(i: nat, o: nat) returns (refusal: Option<Refusal>)
      modifies this
      ensures Outcome(old(View()), J.BeginSubmission(old(View()), i, o), View(), refusal)
    {
      if !control.state.Ready? {
        return Some(NewRiskDisabled);
      }
      var savepoint := View();
      var intentRows, orderRows := 0, 0;
      if i < |intents| && intents[i].state.Prepared? {
        intents := intents[i := intents[i].(state := IntentState.Submitting)];
        intentRows := 1;
      }
      if o < |orders| && orders[o].intent == i && orders[o].state.Prepared? {
        orders := orders[o := orders[o].(state := OrderState.Submitting)];
        orderRows := 1;
      }
      if intentRows != 1 || orderRows != 1 {
        Rollback(savepoint);
        return Some(IdentityMismatch);
      }
      var attempts := UpdateAttempt(i, AttemptPrepared, AttemptSubmitting);
      if attempts != 1 {
        Rollback(savepoint);
        return Some(IdentityMismatch);
      }
      refusal := None;
    }

    /** `apply_matched_fill`. */
    method ApplyMatchedFill(o: nat, order: Order, venueId: Option<string>, filled: real, price: Option<real>,
                            tradeIds: seq<string>, day: int)
      modifies this`trades, this`positions
      ensures View() == MatchFill(old(View()), o, order, venueId, filled, price, tradeIds, day)
    {
      if filled <= 0.0 {
        return;
      }
      var key := KeyOf(tradeIds, venueId, o);
      for k := 0 to |trades|
        invariant forall i | 0 <= i < k :: trades[i].key != key
        invariant unchanged(this)
      {
        if trades[k].key == key {
          assert Recorded(trades, key);
          return;
        }
      }
      assert !Recorded(trades, key);
      trades := trades + [Trade(o, key, if price.Some? then price.value else order.price, filled, day)];
      var current := SharesOf(positions, order.tokenId);
      var next := if order.side.Buy? then current + filled else current - filled;
      positions := Upsert(positions, order.tokenId, next);
    }

    method FinishSubmission(i: nat, o: nat, unknown: bool, state: OrderState, venueId: Option<string>, filled: real,
                            price: Option<real>, tradeIds: seq<string>, day: int) returns (refusal: Option<Refusal>)
      modifies this
      ensures Outcome(old(View()),
                      J.FinishSubmission(old(View()), i, o, unknown, state, venueId, filled, price, tradeIds, day),
                      View(), refusal)
    {
      var savepoint := View();
      if !(o < |orders| && orders[o].intent == i && orders[o].state.Submitting?) {
        return Some(IdentityMismatch);
      }
      var prior := orders[o];
      var remaining := if state.Terminal() then 0.0 else Max(prior.original - filled, 0.0);
      if !ValidEvidence(prior.original, state, remaining, filled, price) {
        return Some(IdentityMismatch);
      }
      var intentRows := 0;
      if i < |intents| && intents[i].state.Submitting? {
        intents := intents[i := intents[i].(state := if unknown then IntentState.Unknown else IntentState.Submitted)];
        intentRows := 1;
      }
      orders := orders[o := prior.(state := state, venueId := Coalesce(venueId, prior.venueId), remaining := remaining)];
      if !unknown {
        ApplyMatchedFill(o, prior, venueId, filled, price, tradeIds, day);
      }
      if intentRows != 1 {
        Rollback(savepoint);
        return Some(IdentityMismatch);
      }
      var attempt := if unknown then AttemptUnknown else if state.Rejected? then AttemptRejected else AttemptAccepted;
      var _ := UpdateAttempt(i, AttemptSubmitting, attempt);
      FinishRow(savepoint.intents[i], unknown, attempt);
      refusal := None;
    }

    method ResolveUnknown(o: nat, venueId: string, seen: Observation, day: int) returns (refusal: Option<Refusal>)
      modifies this
      ensures Outcome(old(View()), J.ResolveUnknown(old(View()), o, venueId, seen, day), View(), refusal)
    {
      if seen.state.Unknown? {
        return None;
      }
      if !(o < |orders| && orders[o].state.Unknown? && orders[o].intent < |intents|) {
        return Some(IdentityMismatch);
      }
      var prior := orders[o];
      if !ValidEvidence(prior.original, seen.state, seen.remaining, seen.filled, seen.price) {
        return Some(IdentityMismatch);
      }
      orders := orders[o := prior.(state := seen.state, venueId := Some(venueId), remaining := seen.remaining)];
      if intents[prior.intent].state.Unknown? {
        intents := intents[prior.intent := intents[prior.intent].(state := IntentState.Submitted)];
      }
      ApplyMatchedFill(o, prior, Some(venueId), seen.filled, seen.price, seen.tradeIds, day);
      var _ := UpdateAttempt(prior.intent, AttemptUnknown, AttemptResolved);
      refusal := None;
    }

    method TransitionOrder(o: nat, next: OrderState) returns (refusal: Option<Refusal>)
      modifies this`orders, this`intents
      ensures Outcome(old(View()), J.TransitionOrder(old(View()), o, next), View(), refusal)
    {
      if !(o < |orders| && orders[o].intent < |intents|) {
        return Some(NotFound);
      }
      var prior := orders[o];
      if next.CancelPending? && prior.state.Terminal() {
        return None;
      }
      if !ValidTransition(prior.state, next) {
        return Some(IdentityMismatch);
      }
      orders := orders[o := prior.(state := next)];
      if prior.state.Unknown? && (next.Filled? || next.Cancelled? || next.Expired?) {
        if intents[prior.intent].state.Unknown? {
          intents := intents[prior.intent := intents[prior.intent].(state := IntentState.Submitted)];
        }
      }
      refusal := None;
    }

    method CancelPreparedOrder(o: nat) returns (refusal: Option<Refusal>)
      modifies this`orders, this`intents
      ensures Outcome(old(View()), J.CancelPreparedOrder(old(View()), o), View(), refusal)
    {
      if !(o < |orders| && orders[o].state.Prepared? && orders[o].intent < |intents|) {
        return Some(NotFound);
      }
      var i := orders[o].intent;
      orders := orders[o := orders[o].(state := OrderState.Cancelled)];
      if intents[i].state.Prepared? {
        intents := intents[i := intents[i].(state := IntentState.Rejected)];
      }
      var _ := UpdateAttempt(i, AttemptPrepared, AttemptCancelled);
      refusal := None;
    }

    method ReconcileProjection(o: nat, seen: Observation, day: int) returns (refusal: Option<Refusal>)
      modifies this
      ensures Outcome(old(View()), J.ReconcileProjection(old(View()), o, seen, day), View(), refusal)
    {
      if o >= |orders| {
        return Some(NotFound);
      }
      var order := orders[o];
      if !ValidEvidence(order.original, seen.state, seen.remaining, seen.filled, seen.price) {
        return Some(IdentityMismatch);
      }
      var localFilled := Max(order.original - order.remaining, 0.0);
      if seen.filled < localFilled {
        return Some(IdentityMismatch);
      }
      var delta := seen.filled - localFilled;
      var next := seen.state;
      if order.state.CancelPending? && (seen.state.Live? || seen.state.PartiallyFilled?) {
        next := OrderState.CancelPending;
      }
      if next == order.state && seen.remaining == order.remaining && delta == 0.0 {
        return None;
      }
      orders := orders[o := order.(state := next, remaining := seen.remaining)];
      ApplyMatchedFill(o, order, order.venueId, delta, seen.price, seen.tradeIds, day);
      refusal := None;
    }

    method SetServiceState(next: ServiceState, expected: Option<nat>) returns (refusal: Option<Refusal>)
      modifies this`control
      ensures Outcome(old(View()), J.SetServiceState(old(View()), next, expected), View(), refusal)
    {
      if expected.Some? && (!control.state.Halted? || control.revision != expected.value) {
        return Some(IdentityMismatch);
      }
      control := Control(next, control.revision + 1);
      refusal := None;
    }

    /** Every order the join selects becomes UNKNOWN with its intent and attempt; the result is their number. */
    method RecoverInterrupted() returns (count: nat)
      modifies this`orders, this`intents
      ensures View() == J.RecoverInterrupted(old(View()))
      ensures count > 0 <==> AnyInterrupted(old(View()))
    {
      var start := View();
      count := 0;
      for o := 0 to |start.orders|
        invariant orders == OrdersDone(start, o) && intents == IntentsDone(start, o)
        invariant trades == start.trades && positions == start.positions && control == start.control
        invariant count > 0 <==> exists k | 0 <= k < o :: Interrupted(start, k)
      {
        if Interrupted(start, o) {
          var i := start.orders[o].intent;
          orders := orders[o := orders[o].(
            state := OrderState.Unknown,
            venueId := Coalesce(orders[o].venueId, Some(start.intents[i].prepared.value.orderKey)))];
          intents := intents[i := intents[i].(state := IntentState.Unknown)];
          var _ := UpdateAttempt(i, AttemptSubmitting, AttemptUnknown);
          count := count + 1;
        }
        DoneNext(start, o);
      }
      DoneAll(start);
    }

    /** Local work goes back to RECEIVED with its reservation released; the result is the work to queue. */
    method RecoverPreSubmission() returns (result: Result<seq<nat>, Refusal>)
      modifies this
      ensures var after := J.RecoverPreSubmission(old(View()));
        && View() == (if after.Ok? then after.value else old(View()))
        && (result.Ok? <==> after.Ok?) && (result.Err? ==> result.error == after.error)
      ensures result.Ok? ==> forall i: nat :: i in result.value <==> i < |old(intents)| && Recovery.Local(old(intents)[i].state)
      ensures result.Ok? ==> forall a, b | 0 <= a < b < |result.value| :: result.value[a] < result.value[b]
    {
      var start := View();
      var ids: seq<nat> := [];
      for i := 0 to |start.intents|
        invariant forall k | 0 <= k < i :: Recoverable(start, k)
        invariant |intents| == |start.intents|
        invariant forall k | 0 <= k < |intents| :: intents[k] == if k < i then RecoverIntent(start.intents[k]) else start.intents[k]
        invariant orders == start.orders && trades == start.trades && positions == start.positions && control == start.control
        invariant forall k: nat :: k in ids <==> k < i && Recovery.Local(start.intents[k].state)
        invariant forall a | 0 <= a < |ids| :: ids[a] < i
        invariant forall a, b | 0 <= a < b < |ids| :: ids[a] < ids[b]
      {
        var state := intents[i].state;
        if state.Prepared? {
          if !(HasAttempt(intents[i], AttemptPrepared) && PreparedCount(orders, i) == 1) {
            assert !Recoverable(start, i);
            Rollback(start);
            return Err(IdentityMismatch);
          }
          ids := ids + [i];
        } else if state.Received? {
          ids := ids + [i];
        } else if state.Validating? || state.Approved? || state.Preparing? {
          if Reserving(intents[i]) {
            intents := intents[i := intents[i].(reservation := Some(intents[i].reservation.value.(state := Released)))];
          }
          intents := intents[i := intents[i].(state := IntentState.Received)];
          ids := ids + [i];
        }
      }
      assert View() == J.RecoverPreSubmission(start).value;
      result := Ok(ids);
    }
  }

  /** Setting the state and moving the attempt commute. */
  lemma FinishRow(row: Intent, unknown: bool, attempt: AttemptState)
    ensures var state := if unknown then IntentState.Unknown else IntentState.Submitted;
      MoveAttempt(row.(state := state), AttemptSubmitting, attempt) == MoveAttempt(row, AttemptSubmitting, attempt).(state := state)
  {
  }

  /** The states a recovered intent is queued in. */
  predicate Recovered(state: IntentState) {
    state.Received? || state.Prepared?
  }

  // ---------------------------------------------------------------------------------------------
  // The recovery loop, `n` orders in
  // ---------------------------------------------------------------------------------------------

  predicate InterruptedBefore(j: Journal, i: nat, n: nat)
    requires n <= |j.orders|
  {
    exists o | 0 <= o < n :: j.orders[o].intent == i && Interrupted(j, o)
  }

  function OrdersDone(j: Journal, n: nat): seq<Order>
    requires n <= |j.orders|
  {
    seq(|j.orders|, o requires 0 <= o < |j.orders| => if o < n then UnknownOrder(j, o) else j.orders[o])
  }

  function IntentsDone(j: Journal, n: nat): seq<Intent>
    requires n <= |j.orders|
  {
    seq(|j.intents|, i requires 0 <= i < |j.intents| =>
      if InterruptedBefore(j, i, n)
      then MoveAttempt(j.intents[i], AttemptSubmitting, AttemptUnknown).(state := IntentState.Unknown)
      else j.intents[i])
  }

  /** One more selected order rewrites its own row and its intent's, the latter perhaps again. */
  lemma DoneNext(j: Journal, n: nat)
    requires n < |j.orders|
    ensures OrdersDone(j, n + 1) == OrdersDone(j, n)[n := UnknownOrder(j, n)]
    ensures !Interrupted(j, n) ==> IntentsDone(j, n + 1) == IntentsDone(j, n)
    ensures Interrupted(j, n) ==>
      var i := j.orders[n].intent;
      IntentsDone(j, n + 1) == IntentsDone(j, n)[i :=
        MoveAttempt(IntentsDone(j, n)[i].(state := IntentState.Unknown), AttemptSubmitting, AttemptUnknown)]
  {
    forall i: nat ensures InterruptedBefore(j, i, n + 1)
        <==> InterruptedBefore(j, i, n) || (j.orders[n].intent == i && Interrupted(j, n)) {
    }
  }

  lemma DoneAll(j: Journal)
    ensures RecoverInterrupted(j) == j.(orders := OrdersDone(j, |j.orders|), intents := IntentsDone(j, |j.orders|))
  {
    var n := |j.orders|;
    assert OrdersDone(j, n) == RecoverInterrupted(j).orders;
    forall i: nat | i < |j.intents| ensures IntentsDone(j, n)[i] == RecoverInterrupted(j).intents[i] {
      assert InterruptedBefore(j, i, n) <==> InterruptedIntent(j, i);
    }
  }
}
