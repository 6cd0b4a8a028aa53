/**
 What a risk snapshot counts, row by row.

 A snapshot is nothing over empty tables, and each row added to a table raises it by what that row
 contributes; so the amounts are fixed without a mention of the sums that compute them.
 */
module Snapshots {
  import opened Wrappers
  import opened Domain
  import opened Sums
  import opened Risk
  import opened Journal
  import opened RiskEnvelope
  import opened Fills

  /** What one open row adds: a count, its market's notional, its token's pending shares, and a buy's cost with its fee. */
  function Raised(s: RiskSnapshot, inMarket: bool, ofToken: bool, side: Side, notional: real, fee: real, shares: real): RiskSnapshot {
    s.(openOrderCount := s.openOrderCount + 1,
       marketOpenNotional := s.marketOpenNotional + if inMarket then notional else 0.0,
       tokenPendingBuys := s.tokenPendingBuys + if ofToken && side.Buy? then shares else 0.0,
       tokenPendingSells := s.tokenPendingSells + if ofToken && side.Sell? then shares else 0.0,
       grossExposure := s.grossExposure + if side.Buy? then notional + FeeOf(notional, fee) else 0.0)
  }

  lemma EmptySnapshot(control: Control, conditionId: string, tokenId: string, today: int)
    ensures SnapshotOf(Journal([], [], [], [], control), conditionId, tokenId, today)
         == Ok(RiskSnapshot(0, 0.0, 0.0, 0.0, 0.0, 0.0, 0.0))
  {
  }

  /** A trade counts against the day with its price times its size, exactly when it is not from before that day. */
  lemma TradeRaisesSnapshot(j: Journal, trade: Trade, conditionId: string, tokenId: string, today: int)
    ensures var after := SnapshotOf(j.(trades := j.trades + [trade]), conditionId, tokenId, today);
      match SnapshotOf(j, conditionId, tokenId, today)
      case Err(error) => after == Err(error)
      case Ok(s) => after == Ok(s.(dailyMatchedNotional :=
        s.dailyMatchedNotional + if trade.day < today then 0.0 else trade.price * trade.size))
  {
    var b := j.(trades := j.trades + [trade]);
    TotalAppend(j.trades, trade, MatchedOn(today));
    assert MatchedOn(today)(trade) == if trade.day < today then 0.0 else trade.price * trade.size;
    SameRowsSameExposure(j, b);
  }

  lemma SameRowsSameExposure(j: Journal, b: Journal)
    requires b.orders == j.orders && b.intents == j.intents
    ensures ExposuresValid(b) <==> ExposuresValid(j)
    ensures OpenCount(b) == OpenCount(j) && forall weight: Exposure -> real :: Exposed(b, weight) == Exposed(j, weight)
  {
  }

  /** An order that is not counted adds nothing. */
  predicate Uncounted(state: OrderState) {
    state.Filled? || state.Cancelled? || state.Expired? || state.Rejected?
  }

  /** An open order counts with the part of its worst cost that its remaining quantity is of the original one. */
  lemma OrderRaisesSnapshot(j: Journal, order: Order, conditionId: string, tokenId: string, today: int)
    requires SnapshotOf(j, conditionId, tokenId, today).Ok?
    ensures var s := SnapshotOf(j, conditionId, tokenId, today).value;
      var after := SnapshotOf(j.(orders := j.orders + [order]), conditionId, tokenId, today);
      if Uncounted(order.state) then after == Ok(s)
      else if order.original <= 0.0 then after.Err?
      else after == Ok(Raised(s, order.conditionId == conditionId, order.tokenId == tokenId, order.side,
                              OpenPart(order.quoteExposure, order.remaining, order.original), order.feeRate, order.remaining))
  {
    var b := j.(orders := j.orders + [order]);
    OrderAppends(j, order);
    OrderAppendsValidly(j, order);
    if !order.state.Active() {
      UncountedRaisesNothing(j, b, conditionId, tokenId, today, OrderExposure(order));
    } else if order.original > 0.0 {
      RowRaises(j, b, conditionId, tokenId, today, OrderExposure(order));
    }
  }

  lemma OrderAppendsValidly(j: Journal, order: Order)
    requires ExposuresValid(j)
    ensures ExposuresValid(j.(orders := j.orders + [order])) <==> (order.state.Active() ==> order.original > 0.0)
  {
    var b := j.(orders := j.orders + [order]);
    assert b.orders[|j.orders|] == order;
    assert forall o | 0 <= o < |j.orders| :: b.orders[o] == j.orders[o];
  }

  lemma IntentAppendsValidly(j: Journal, row: Intent)
    requires ExposuresValid(j)
    ensures ExposuresValid(j.(intents := j.intents + [row])) <==> (Reserving(row) ==> row.reservation.value.quantity > 0.0)
  {
    var b := j.(intents := j.intents + [row]);
    assert b.intents[|j.intents|] == row;
    assert forall i | 0 <= i < |j.intents| :: b.intents[i] == j.intents[i];
  }

  ghost predicate Adds(j: Journal, b: Journal, e: Exposure, counted: bool) {
    forall weight: Exposure -> real :: Exposed(b, weight) == Exposed(j, weight) + if counted then weight(e) else 0.0
  }

  lemma OrderAppends(j: Journal, order: Order)
    ensures Adds(j, j.(orders := j.orders + [order]), OrderExposure(order), order.state.Active())
  {
    forall weight: Exposure -> real
      ensures Exposed(j.(orders := j.orders + [order]), weight)
           == Exposed(j, weight) + if order.state.Active() then weight(OrderExposure(order)) else 0.0
    {
      TotalAppend(j.orders, order, OfOrders(weight));
    }
  }

  lemma IntentAppends(j: Journal, row: Intent)
    requires row.reservation.Some?
    ensures Adds(j, j.(intents := j.intents + [row]), ReservationExposure(row.reservation.value), row.reservation.value.state.Active?)
  {
    forall weight: Exposure -> real
      ensures Exposed(j.(intents := j.intents + [row]), weight)
           == Exposed(j, weight) + if Reserving(row) then weight(ReservationExposure(row.reservation.value)) else 0.0
    {
      TotalAppend(j.intents, row, OfReservations(weight));
      WeightOfReservation(row, weight);
    }
  }

  /** The open part of a row's worst cost. */
  function OpenPart(quote: real, quantity: real, original: real): real
    requires original > 0.0
  {
    quote * quantity / original
  }

  lemma WeightsOf(e: Exposure, conditionId: string, tokenId: string)
    requires e.original > 0.0
    ensures var notional := OpenPart(e.quoteExposure, e.quantity, e.original);
      && MarketNotional(conditionId)(e) == (if e.conditionId == conditionId then notional else 0.0)
      && BuyGross()(e) == (if e.side.Buy? then notional + FeeOf(notional, e.feeRate) else 0.0)
      && Pending(tokenId, Buy)(e) == (if e.tokenId == tokenId && e.side.Buy? then e.quantity else 0.0)
      && Pending(tokenId, Sell)(e) == (if e.tokenId == tokenId && e.side.Sell? then e.quantity else 0.0)
  {
    var notional := OpenPart(e.quoteExposure, e.quantity, e.original);
    assert Notional(e) == notional;
    WithItsFee(notional, e.feeRate);
  }

  lemma WithItsFee(notional: real, feeRate: real)
    ensures WithFee(notional, feeRate) == notional + FeeOf(notional, feeRate)
  {
  }

  /** One more row of exposure, in either table. */
  lemma RowRaises(j: Journal, b: Journal, conditionId: string, tokenId: string, today: int, e: Exposure)
    requires Adds(j, b, e, true) && e.original > 0.0 && b.positions == j.positions && b.trades == j.trades
    requires SnapshotOf(j, conditionId, tokenId, today).Ok? && ExposuresValid(b)
    ensures SnapshotOf(b, conditionId, tokenId, today)
         == Ok(Raised(SnapshotOf(j, conditionId, tokenId, today).value, e.conditionId == conditionId, e.tokenId == tokenId,
                      e.side, OpenPart(e.quoteExposure, e.quantity, e.original), e.feeRate, e.quantity))
  {
    WeightsOf(e, conditionId, tokenId);
    OneMoreRow(j, b, e);
    assert Exposed(b, MarketNotional(conditionId)) == Exposed(j, MarketNotional(conditionId)) + MarketNotional(conditionId)(e);
    assert Exposed(b, BuyGross()) == Exposed(j, BuyGross()) + BuyGross()(e);
    assert Exposed(b, Pending(tokenId, Buy)) == Exposed(j, Pending(tokenId, Buy)) + Pending(tokenId, Buy)(e);
    assert Exposed(b, Pending(tokenId, Sell)) == Exposed(j, Pending(tokenId, Sell)) + Pending(tokenId, Sell)(e);
  }

  lemma OneMoreRow(j: Journal, b: Journal, e: Exposure)
    requires Adds(j, b, e, true)
    ensures OpenCount(b) == OpenCount(j) + 1
  {
    OpenCountIsExposed(j);
    OpenCountIsExposed(b);
    assert Exposed(b, Each()) == Exposed(j, Each()) + Each()(e);
  }

  lemma UncountedRaisesNothing(j: Journal, b: Journal, conditionId: string, tokenId: string, today: int, e: Exposure)
    requires Adds(j, b, e, false) && b.positions == j.positions && b.trades == j.trades
    requires SnapshotOf(j, conditionId, tokenId, today).Ok? && ExposuresValid(b)
    ensures SnapshotOf(b, conditionId, tokenId, today) == SnapshotOf(j, conditionId, tokenId, today)
  {
    OpenCountIsExposed(j);
    OpenCountIsExposed(b);
    assert Exposed(b, Each()) == Exposed(j, Each());
    assert Exposed(b, MarketNotional(conditionId)) == Exposed(j, MarketNotional(conditionId));
    assert Exposed(b, BuyGross()) == Exposed(j, BuyGross());
    assert Exposed(b, Pending(tokenId, Buy)) == Exposed(j, Pending(tokenId, Buy));
    assert Exposed(b, Pending(tokenId, Sell)) == Exposed(j, Pending(tokenId, Sell));
  }

  /** An active reservation counts in full; a consumed or released one does not count. */
  lemma ReservationRaisesSnapshot(j: Journal, row: Intent, conditionId: string, tokenId: string, today: int)
    requires SnapshotOf(j, conditionId, tokenId, today).Ok? && row.reservation.Some?
    ensures var r := row.reservation.value;
      var s := SnapshotOf(j, conditionId, tokenId, today).value;
      var after := SnapshotOf(j.(intents := j.intents + [row]), conditionId, tokenId, today);
      if !r.state.Active? then after == Ok(s)
      else if r.quantity <= 0.0 then after.Err?
      else after == Ok(Raised(s, r.conditionId == conditionId, r.tokenId == tokenId, r.side, r.quoteExposure, r.feeRate, r.quantity))
  {
    var b, r := j.(intents := j.intents + [row]), row.reservation.value;
    IntentAppends(j, row);
    IntentAppendsValidly(j, row);
    if !r.state.Active? {
      UncountedRaisesNothing(j, b, conditionId, tokenId, today, ReservationExposure(r));
    } else if r.quantity > 0.0 {
      RowRaises(j, b, conditionId, tokenId, today, ReservationExposure(r));
      WholeIsOpen(r.quoteExposure, r.quantity);
    }
  }

  lemma WholeIsOpen(quote: real, quantity: real)
    requires quantity > 0.0
    ensures OpenPart(quote, quantity, quantity) == quote
  {
  }

  lemma PlainIntentRaisesNothing(j: Journal, row: Intent, conditionId: string, tokenId: string, today: int)
    requires SnapshotOf(j, conditionId, tokenId, today).Ok? && row.reservation.None?
    ensures SnapshotOf(j.(intents := j.intents + [row]), conditionId, tokenId, today) == SnapshotOf(j, conditionId, tokenId, today)
  {
    var b := j.(intents := j.intents + [row]);
    forall weight: Exposure -> real ensures Exposed(b, weight) == Exposed(j, weight) {
      TotalAppend(j.intents, row, OfReservations(weight));
      WeightOfReservation(row, weight);
    }
    OpenCountIsExposed(j);
    OpenCountIsExposed(b);
    assert Exposed(b, Each()) == Exposed(j, Each());
    IntentAppendsValidly(j, row);
  }

  /** A position counts its shares for its own token, and their absolute value for all. */
  lemma PositionRaisesSnapshot(j: Journal, position: Position, conditionId: string, tokenId: string, today: int)
    requires SnapshotOf(j, conditionId, tokenId, today).Ok?
    ensures var s := SnapshotOf(j, conditionId, tokenId, today).value;
      SnapshotOf(j.(positions := j.positions + [position]), conditionId, tokenId, today)
      == Ok(s.(tokenPosition := if position.tokenId == tokenId then position.shares else s.tokenPosition,
               grossExposure := s.grossExposure + if position.shares >= 0.0 then position.shares else -position.shares))
  {
    TotalAppend(j.positions, position, AbsoluteShares());
    assert (j.positions + [position])[..|j.positions|] == j.positions;
    assert ExposuresValid(j.(positions := j.positions + [position])) <==> ExposuresValid(j);
  }

  /** What the policy still lets trade today. */
  function DailyRoom(policy: RiskPolicy, s: RiskSnapshot): real {
    policy.maxDailyMatchedNotional - s.dailyMatchedNotional
  }

  /** A trade of the day takes its notional out of that room, and a request that no longer fits into it is not approved. */
  lemma TodaysTradesUseUpTheDay(j: Journal, trade: Trade, i: nat, policy: RiskPolicy, market: MarketRules, book: OrderBook,
            today: int)
    requires i < |j.intents| && trade.day >= today
    requires var request := j.intents[i].request;
      && SnapshotOf(j, request.conditionId, request.tokenId, today).Ok?
      && request.quantity.Some? && request.price.Some?
    requires var request := j.intents[i].request;
      var quote := if request.side.Buy? && request.Immediate() then request.quantity.value else request.quantity.value * request.price.value;
      quote > DailyRoom(policy, SnapshotOf(j, request.conditionId, request.tokenId, today).value) - trade.price * trade.size
    ensures var after := EvaluateAndReserve(j.(trades := j.trades + [trade]), i, policy, market, book, today);
      after.Ok? ==> after.value.1.Refuse?
  {
    var request, b := j.intents[i].request, j.(trades := j.trades + [trade]);
    TradeRaisesSnapshot(j, trade, request.conditionId, request.tokenId, today);
    OverTheDayIsRefused(policy, request, market, book, SnapshotOf(b, request.conditionId, request.tokenId, today).value);
  }

  lemma OverTheDayIsRefused(policy: RiskPolicy, request: Request, market: MarketRules, book: OrderBook, s: RiskSnapshot)
    requires request.quantity.Some? && request.price.Some?
    requires var quote := if request.side.Buy? && request.Immediate() then request.quantity.value else request.quantity.value * request.price.value;
      quote > DailyRoom(policy, s)
    ensures Evaluate(policy, request, market, book, s).Refuse?
  {
  }

  /** A recorded fill of the day takes its notional out of the room of every later request, whatever else the transaction wrote. */
  lemma FillUsesUpTheDay(a: Journal, b: Journal, o: nat, key: TradeKey, price: real, size: real, day: int, policy: RiskPolicy,
            conditionId: string, tokenId: string, today: int)
    requires o < |a.orders| && FilledBy(a, b, o, key, price, size, day)
    requires SnapshotOf(a, conditionId, tokenId, today).Ok? && SnapshotOf(b, conditionId, tokenId, today).Ok?
    ensures DailyRoom(policy, SnapshotOf(b, conditionId, tokenId, today).value)
         == DailyRoom(policy, SnapshotOf(a, conditionId, tokenId, today).value) - if day < today then 0.0 else price * size
  {
    TotalAppend(a.trades, Trade(o, key, price, size, day), MatchedOn(today));
  }

  function Magnitude(shares: real): real {
    if shares >= 0.0 then shares else -shares
  }

  /** A moved position counts with its new magnitude in place of its old one, and no other position moves. */
  lemma {:induction false} UpsertMovesGross(positions: seq<Position>, tokenId: string, shares: real)
    ensures Total(Upsert(positions, tokenId, shares), AbsoluteShares())
         == Total(positions, AbsoluteShares()) - Magnitude(SharesOf(positions, tokenId)) + Magnitude(shares)
  {
    var weight := AbsoluteShares();
    if positions == [] {
      TotalAppend([], Position(tokenId, shares), weight);
      assert [] + [Position(tokenId, shares)] == [Position(tokenId, shares)];
    } else {
      var n := |positions| - 1;
      var init, last := positions[..n], positions[n];
      if last.tokenId == tokenId {
        assert positions[n := Position(tokenId, shares)] == init + [Position(tokenId, shares)];
        TotalAppend(init, Position(tokenId, shares), weight);
      } else {
        UpsertMovesGross(init, tokenId, shares);
        TotalAppend(Upsert(init, tokenId, shares), last, weight);
      }
    }
  }
}
