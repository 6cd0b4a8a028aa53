/**
 How each transaction changes the exposure the risk queries see, and the limits that survive it.

 A weight is any real-valued measure of one exposure row; the open count, a market's open notional
 and a token's pending quantities are weights. Handovers keep every weight; fills, cancellations and
 releases of still-counted rows only shrink the monotone ones; an approval re-establishes the limits.
 */
module RiskEnvelope {
  import opened Wrappers
  import opened Domain
  import opened Sums
  import opened Risk
  import opened Journal
  import opened OrderBounds

  ghost predicate Monotone(weight: Exposure -> real) {
    forall e: Exposure, q: real {:trigger weight(e.(quantity := q))} ::
      0.0 <= q <= e.quantity && e.original > 0.0 && e.quoteExposure >= 0.0
      ==> 0.0 <= weight(e.(quantity := q)) <= weight(e)
  }

  lemma NotionalMonotone(e: Exposure, q: real)
    requires 0.0 <= q <= e.quantity && e.original > 0.0 && e.quoteExposure >= 0.0
    ensures 0.0 <= Notional(e.(quantity := q)) <= Notional(e)
  {
    var low, high := e.quoteExposure * q, e.quoteExposure * e.quantity;
    assert 0.0 <= low <= high;
    assert low / e.original <= high / e.original;
  }

  lemma LimitWeightsMonotone(conditionId: string, tokenId: string, side: Side)
    ensures Monotone(Each()) && Monotone(MarketNotional(conditionId)) && Monotone(Pending(tokenId, side))
  {
    var w := MarketNotional(conditionId);
    forall e: Exposure, q: real | 0.0 <= q <= e.quantity && e.original > 0.0 && e.quoteExposure >= 0.0
      ensures 0.0 <= w(e.(quantity := q)) <= w(e)
    {
      NotionalMonotone(e, q);
    }
  }

  // ---------------------------------------------------------------------------------------------
  // The open order count as a weight
  // ---------------------------------------------------------------------------------------------

  lemma {:induction false} CountIsTotal<T>(rows: seq<T>, counted: T -> bool, weight: T -> real)
    requires forall row :: row in rows ==> weight(row) == if counted(row) then 1.0 else 0.0
    ensures CountRows(rows, counted) as real == Total(rows, weight)
  {
    if rows != [] {
      CountIsTotal(rows[..|rows| - 1], counted, weight);
    }
  }

  lemma OpenCountIsExposed(j: Journal)
    ensures OpenCount(j) as real == Exposed(j, Each())
  {
    CountIsTotal(j.orders, IsActiveOrder, OfOrders(Each()));
    CountIsTotal(j.intents, Reserving, OfReservations(Each()));
  }

  // ---------------------------------------------------------------------------------------------
  // Moves of one order
  // ---------------------------------------------------------------------------------------------

  lemma WeightOfReservation(row: Intent, weight: Exposure -> real)
    ensures OfReservations(weight)(row)
         == if Reserving(row) then weight(ReservationExposure(row.reservation.value)) else 0.0
  {
  }

  lemma ReservationsUnchanged(a: seq<Intent>, b: seq<Intent>, weight: Exposure -> real)
    requires SameReservations(a, b)
    ensures Total(a, OfReservations(weight)) == Total(b, OfReservations(weight))
  {
    forall i | 0 <= i < |a| ensures OfReservations(weight)(a[i]) == OfReservations(weight)(b[i]) {
      assert a[i].reservation == b[i].reservation;
      WeightOfReservation(a[i], weight);
      WeightOfReservation(b[i], weight);
    }
    TotalSame(a, b, OfReservations(weight));
  }

  /** Exactly one summand changes. */
  lemma MovesShiftExposure(a: Journal, b: Journal, o: nat, applied: real, weight: Exposure -> real)
    requires Moves(a, b, o, applied)
    ensures Exposed(b, weight) == Exposed(a, weight) - OfOrders(weight)(a.orders[o]) + OfOrders(weight)(b.orders[o])
  {
    assert b.orders == a.orders[o := b.orders[o]];
    TotalUpdate(a.orders, o, b.orders[o], OfOrders(weight));
    ReservationsUnchanged(a.intents, b.intents, weight);
  }

  lemma MovesShrinkExposure(a: Journal, b: Journal, o: nat, applied: real, weight: Exposure -> real)
    requires Sound(a) && Moves(a, b, o, applied) && Drops(a, b, o, applied) && Monotone(weight)
    requires a.orders[o].state.Active() || !b.orders[o].state.Active()
    ensures Exposed(b, weight) <= Exposed(a, weight)
  {
    MovesShiftExposure(a, b, o, applied, weight);
    var before := OrderExposure(a.orders[o]);
    assert OrderExposure(b.orders[o]) == before.(quantity := b.orders[o].remaining);
    assert 0.0 <= weight(before.(quantity := b.orders[o].remaining)) <= weight(before);
  }

  // ---------------------------------------------------------------------------------------------
  // The position envelope
  // ---------------------------------------------------------------------------------------------

  /** The position if every pending buy fills and no sell does. */
  function LongCase(j: Journal, tokenId: string): real {
    SharesOf(j.positions, tokenId) + Exposed(j, Pending(tokenId, Buy))
  }

  /** The position if every pending sell fills and no buy does. */
  function ShortCase(j: Journal, tokenId: string): real {
    SharesOf(j.positions, tokenId) - Exposed(j, Pending(tokenId, Sell))
  }

  ghost predicate InsideEnvelope(j: Journal, limit: real) {
    forall t :: LongCase(j, t) <= limit && -limit <= ShortCase(j, t)
  }

  function Counted(o: Order): real {
    if o.state.Active() then o.remaining else 0.0
  }

  lemma PendingOfOrder(o: Order, t: string, side: Side)
    ensures OfOrders(Pending(t, side))(o) == if o.tokenId == t && o.side == side then Counted(o) else 0.0
  {
    assert Pending(t, side)(OrderExposure(o)) == if o.tokenId == t && o.side == side then o.remaining else 0.0;
  }

  /** The exact change of both cases for the order's own token; other tokens keep theirs. */
  lemma MovesShiftCases(a: Journal, b: Journal, o: nat, applied: real, t: string)
    requires Moves(a, b, o, applied)
    ensures var own := t == a.orders[o].tokenId;
            var growth := applied + Counted(b.orders[o]) - Counted(a.orders[o]);
            && (a.orders[o].side.Buy? ==>
                  && LongCase(b, t) == LongCase(a, t) + (if own then growth else 0.0)
                  && ShortCase(b, t) == ShortCase(a, t) + (if own then applied else 0.0))
            && (a.orders[o].side.Sell? ==>
                  && LongCase(b, t) == LongCase(a, t) - (if own then applied else 0.0)
                  && ShortCase(b, t) == ShortCase(a, t) - (if own then growth else 0.0))
  {
    MovesShiftExposure(a, b, o, applied, Pending(t, Buy));
    MovesShiftExposure(a, b, o, applied, Pending(t, Sell));
    PendingOfOrder(a.orders[o], t, Buy);
    PendingOfOrder(a.orders[o], t, Sell);
    PendingOfOrder(b.orders[o], t, Buy);
    PendingOfOrder(b.orders[o], t, Sell);
  }

  /** The quantity an order counts with after a projection. */
  function Reopened(j: Journal, o: nat, seen: Observation): real
    requires o < |j.orders|
  {
    if ProjectedState(j.orders[o].state, seen.state).Active() then seen.remaining else 0.0
  }

  /** What a projection adds to its order's share of the worst case. */
  function Growth(j: Journal, o: nat, seen: Observation): real
    requires o < |j.orders|
  {
    ProjectedFill(j, o, seen) + Reopened(j, o, seen) - Counted(j.orders[o])
  }

  lemma ProjectedRow(a: Journal, o: nat, seen: Observation, day: int)
    requires ReconcileProjection(a, o, seen, day).Ok?
    ensures o < |a.orders| == |ReconcileProjection(a, o, seen, day).value.orders|
    ensures ReconcileProjection(a, o, seen, day).value.orders[o]
         == a.orders[o].(state := ProjectedState(a.orders[o].state, seen.state), remaining := seen.remaining)
  {
  }

  /**
   `reconcile_order_projection` writes without looking at the current state. It pushes neither worst case
   of its token outwards exactly when the order was still counted, or the observation brings no new fill
   and leaves the order uncounted.
   */
  lemma ProjectionKeepsEnvelopeIff(a: Journal, o: nat, seen: Observation, day: int)
    requires Sound(a) && !seen.state.Unknown? && ReconcileProjection(a, o, seen, day).Ok?
    ensures var b := ReconcileProjection(a, o, seen, day).value;
            var t := a.orders[o].tokenId;
            (LongCase(b, t) <= LongCase(a, t) && ShortCase(a, t) <= ShortCase(b, t))
            <==> (a.orders[o].state.Active() || (ProjectedFill(a, o, seen) == 0.0 && Reopened(a, o, seen) == 0.0))
    ensures var b := ReconcileProjection(a, o, seen, day).value;
            (forall limit :: a.orders[o].state.Active() && InsideEnvelope(a, limit) ==> InsideEnvelope(b, limit))
  {
    var b := ReconcileProjection(a, o, seen, day).value;
    var applied := ReconcileMoves(a, o, seen, day);
    ProjectedRow(a, o, seen, day);
    MovesShiftCases(a, b, o, applied, a.orders[o].tokenId);
    forall t ensures a.orders[o].state.Active() ==> LongCase(b, t) <= LongCase(a, t) && ShortCase(a, t) <= ShortCase(b, t) {
      MovesShiftCases(a, b, o, applied, t);
    }
  }

  /** Whether the order's token has room for what the projection adds. */
  ghost predicate HasHeadroom(j: Journal, o: nat, seen: Observation, limit: real)
    requires o < |j.orders|
  {
    var t := j.orders[o].tokenId;
    if j.orders[o].side.Buy? then LongCase(j, t) + Growth(j, o, seen) <= limit
    else -limit <= ShortCase(j, t) - Growth(j, o, seen)
  }

  /** A given limit survives a projection exactly when there is headroom for its growth. */
  lemma ProjectionKeepsLimitIff(a: Journal, o: nat, seen: Observation, day: int, limit: real)
    requires Sound(a) && !seen.state.Unknown? && ReconcileProjection(a, o, seen, day).Ok? && InsideEnvelope(a, limit)
    ensures InsideEnvelope(ReconcileProjection(a, o, seen, day).value, limit) <==> HasHeadroom(a, o, seen, limit)
  {
    var b := ReconcileProjection(a, o, seen, day).value;
    var own := a.orders[o].tokenId;
    var applied := ReconcileMoves(a, o, seen, day);
    ProjectedRow(a, o, seen, day);
    MovesShiftCases(a, b, o, applied, own);
    assert LongCase(a, own) <= limit && -limit <= ShortCase(a, own);
    if HasHeadroom(a, o, seen, limit) {
      forall t ensures LongCase(b, t) <= limit && -limit <= ShortCase(b, t) {
        assert LongCase(a, t) <= limit && -limit <= ShortCase(a, t);
        MovesShiftCases(a, b, o, applied, t);
      }
    } else {
      assert !(LongCase(b, own) <= limit && -limit <= ShortCase(b, own));
    }
  }

  /** Everything admission promises that later steps keep: positions, open orders, open notional. */
  ghost predicate WithinLimits(j: Journal, policy: RiskPolicy) {
    && InsideEnvelope(j, policy.maxNetPositionPerToken)
    && OpenCount(j) <= policy.maxOpenOrders
    && (forall c :: Exposed(j, MarketNotional(c)) <= policy.maxOpenNotionalPerMarket)
  }

  lemma MovesKeepLimits(a: Journal, b: Journal, o: nat, applied: real, policy: RiskPolicy)
    requires Sound(a) && WithinLimits(a, policy)
    requires Moves(a, b, o, applied) && Drops(a, b, o, applied)
    requires a.orders[o].state.Active() || (applied == 0.0 && !b.orders[o].state.Active())
    ensures WithinLimits(b, policy)
  {
    forall t ensures LongCase(b, t) <= policy.maxNetPositionPerToken && -policy.maxNetPositionPerToken <= ShortCase(b, t) {
      assert LongCase(a, t) <= policy.maxNetPositionPerToken && -policy.maxNetPositionPerToken <= ShortCase(a, t);
      MovesShiftCases(a, b, o, applied, t);
    }
    ExposureShrinks(a, b, o, applied, policy);
  }

  lemma ExposureShrinks(a: Journal, b: Journal, o: nat, applied: real, policy: RiskPolicy)
    requires Sound(a) && WithinLimits(a, policy)
    requires Moves(a, b, o, applied) && Drops(a, b, o, applied)
    requires a.orders[o].state.Active() || !b.orders[o].state.Active()
    ensures OpenCount(b) <= policy.maxOpenOrders
    ensures forall c :: Exposed(b, MarketNotional(c)) <= policy.maxOpenNotionalPerMarket
  {
    LimitWeightsMonotone("", "", Buy);
    MovesShrinkExposure(a, b, o, applied, Each());
    OpenCountIsExposed(a);
    OpenCountIsExposed(b);
    forall c ensures Exposed(b, MarketNotional(c)) <= policy.maxOpenNotionalPerMarket {
      LimitWeightsMonotone(c, "", Buy);
      MovesShrinkExposure(a, b, o, applied, MarketNotional(c));
    }
  }

  // ---------------------------------------------------------------------------------------------
  // All limits across a projection
  // ---------------------------------------------------------------------------------------------

  /** The exposure of the order as the projection leaves it. */
  function ReopenedExposure(j: Journal, o: nat, seen: Observation): Exposure
    requires o < |j.orders|
  {
    OrderExposure(j.orders[o].(remaining := seen.remaining))
  }

  /** The check `reconcile_order_projection` lacks: an order that is closed here fits the limits again. */
  ghost predicate ProjectionFits(j: Journal, o: nat, seen: Observation, policy: RiskPolicy)
    requires o < |j.orders|
  {
    var prior := j.orders[o];
    prior.state.Active() ||
    (&& HasHeadroom(j, o, seen, policy.maxNetPositionPerToken)
     && (ProjectedState(prior.state, seen.state).Active() ==>
           && OpenCount(j) < policy.maxOpenOrders
           && Exposed(j, MarketNotional(prior.conditionId)) + Notional(ReopenedExposure(j, o, seen)) <= policy.maxOpenNotionalPerMarket))
  }

  /** How a projection onto a closed order moves any weight over the exposure. */
  lemma ClosedProjectionShifts(a: Journal, o: nat, seen: Observation, day: int, weight: Exposure -> real)
    requires Sound(a) && !seen.state.Unknown? && ReconcileProjection(a, o, seen, day).Ok? && !a.orders[o].state.Active()
    ensures Exposed(ReconcileProjection(a, o, seen, day).value, weight) == Exposed(a, weight)
         + if ProjectedState(a.orders[o].state, seen.state).Active() then weight(ReopenedExposure(a, o, seen)) else 0.0
  {
    var b := ReconcileProjection(a, o, seen, day).value;
    var applied := ReconcileMoves(a, o, seen, day);
    ProjectedRow(a, o, seen, day);
    MovesShiftExposure(a, b, o, applied, weight);
    assert OfOrders(weight)(a.orders[o]) == 0.0;
    assert OrderExposure(b.orders[o]) == ReopenedExposure(a, o, seen);
  }

  lemma ClosedProjectionCounts(a: Journal, o: nat, seen: Observation, day: int)
    requires Sound(a) && !seen.state.Unknown? && ReconcileProjection(a, o, seen, day).Ok? && !a.orders[o].state.Active()
    ensures OpenCount(ReconcileProjection(a, o, seen, day).value)
         == OpenCount(a) + if ProjectedState(a.orders[o].state, seen.state).Active() then 1 else 0
  {
    OpenCountIsExposed(a);
    OpenCountIsExposed(ReconcileProjection(a, o, seen, day).value);
    ClosedProjectionShifts(a, o, seen, day, Each());
  }

  lemma ClosedProjectionKeepsNotionalIff(a: Journal, o: nat, seen: Observation, day: int, limit: real)
    requires Sound(a) && !seen.state.Unknown? && ReconcileProjection(a, o, seen, day).Ok? && !a.orders[o].state.Active()
    requires forall c :: Exposed(a, MarketNotional(c)) <= limit
    ensures (forall c :: Exposed(ReconcileProjection(a, o, seen, day).value, MarketNotional(c)) <= limit)
       <==> (ProjectedState(a.orders[o].state, seen.state).Active() ==>
               Exposed(a, MarketNotional(a.orders[o].conditionId)) + Notional(ReopenedExposure(a, o, seen)) <= limit)
  {
    var b := ReconcileProjection(a, o, seen, day).value;
    var e := ReopenedExposure(a, o, seen);
    var own := a.orders[o].conditionId;
    forall c ensures Exposed(b, MarketNotional(c)) == Exposed(a, MarketNotional(c))
        + if ProjectedState(a.orders[o].state, seen.state).Active() && c == own then Notional(e) else 0.0 {
      ClosedProjectionShifts(a, o, seen, day, MarketNotional(c));
      assert MarketNotional(c)(e) == if c == own then Notional(e) else 0.0;
    }
    if forall c :: Exposed(b, MarketNotional(c)) <= limit {
      assert Exposed(b, MarketNotional(own)) <= limit;
    }
  }

  /** All limits survive a projection exactly when the order is still counted here or fits again. */
  lemma ProjectionKeepsLimitsIff(a: Journal, o: nat, seen: Observation, day: int, policy: RiskPolicy)
    requires Sound(a) && !seen.state.Unknown? && ReconcileProjection(a, o, seen, day).Ok? && WithinLimits(a, policy)
    ensures WithinLimits(ReconcileProjection(a, o, seen, day).value, policy) <==> ProjectionFits(a, o, seen, policy)
  {
    var b := ReconcileProjection(a, o, seen, day).value;
    if a.orders[o].state.Active() {
      var applied := ReconcileMoves(a, o, seen, day);
      MovesKeepLimits(a, b, o, applied, policy);
    } else {
      ProjectionKeepsLimitIff(a, o, seen, day, policy.maxNetPositionPerToken);
      ClosedProjectionCounts(a, o, seen, day);
      ClosedProjectionKeepsNotionalIff(a, o, seen, day, policy.maxOpenNotionalPerMarket);
    }
  }

  // ---------------------------------------------------------------------------------------------
  // Handover: the same exposure in another table or another state
  // ---------------------------------------------------------------------------------------------

  ghost predicate SameExposure(a: Journal, b: Journal) {
    && a.positions == b.positions && a.trades == b.trades
    && (ExposuresValid(a) <==> ExposuresValid(b))
    && forall weight: Exposure -> real :: Exposed(a, weight) == Exposed(b, weight)
  }

  /** Equal exposure means an equal risk snapshot, for every market, token and day. */
  lemma SameExposureSameSnapshot(a: Journal, b: Journal, conditionId: string, tokenId: string, today: int)
    requires SameExposure(a, b)
    ensures SnapshotOf(a, conditionId, tokenId, today) == SnapshotOf(b, conditionId, tokenId, today)
  {
    OpenCountIsExposed(a);
    OpenCountIsExposed(b);
    assert Exposed(a, Each()) == Exposed(b, Each());
  }

  lemma SameExposureKeepsLimits(a: Journal, b: Journal, policy: RiskPolicy)
    requires SameExposure(a, b) && WithinLimits(a, policy)
    ensures WithinLimits(b, policy)
  {
    OpenCountIsExposed(a);
    OpenCountIsExposed(b);
    assert Exposed(a, Each()) == Exposed(b, Each());
    forall t ensures LongCase(b, t) <= policy.maxNetPositionPerToken && -policy.maxNetPositionPerToken <= ShortCase(b, t) {
      assert LongCase(a, t) <= policy.maxNetPositionPerToken;
      assert Exposed(a, Pending(t, Buy)) == Exposed(b, Pending(t, Buy));
      assert Exposed(a, Pending(t, Sell)) == Exposed(b, Pending(t, Sell));
    }
    forall c ensures Exposed(b, MarketNotional(c)) <= policy.maxOpenNotionalPerMarket {
      assert Exposed(a, MarketNotional(c)) == Exposed(b, MarketNotional(c));
    }
  }

  /** The reservation leaves its table as the order that takes it over enters the other. */
  lemma CreateConservesExposure(a: Journal, i: nat, payload: string, orderKey: string, feeRate: real)
    requires i < |a.intents| && CreatePreparedOrder(a, i, payload, orderKey, feeRate).Ok?
    requires var r := a.intents[i].reservation.value;
             var request := a.intents[i].request;
             && r.feeRate == feeRate && r.conditionId == request.conditionId
             && r.tokenId == request.tokenId && r.side == request.side
    ensures SameExposure(a, CreatePreparedOrder(a, i, payload, orderKey, feeRate).value)
  {
    var b := CreatePreparedOrder(a, i, payload, orderKey, feeRate).value;
    var order := b.orders[|a.orders|];
    forall weight: Exposure -> real ensures Exposed(a, weight) == Exposed(b, weight) {
      TotalAppend(a.orders, order, OfOrders(weight));
      TotalUpdate(a.intents, i, b.intents[i], OfReservations(weight));
      var e := ReservationExposure(a.intents[i].reservation.value);
      assert OrderExposure(order) == e;
      assert OfOrders(weight)(order) == weight(e);
      WeightOfReservation(a.intents[i], weight);
      WeightOfReservation(b.intents[i], weight);
    }
    CreateKeepsValidity(a, i, payload, orderKey, feeRate);
  }

  lemma CreateKeepsValidity(a: Journal, i: nat, payload: string, orderKey: string, feeRate: real)
    requires i < |a.intents| && CreatePreparedOrder(a, i, payload, orderKey, feeRate).Ok?
    ensures ExposuresValid(a) <==> ExposuresValid(CreatePreparedOrder(a, i, payload, orderKey, feeRate).value)
  {
    var b := CreatePreparedOrder(a, i, payload, orderKey, feeRate).value;
    if ExposuresValid(b) {
      assert b.orders[|a.orders|].state.Active();
      forall o | 0 <= o < |a.orders| && a.orders[o].state.Active() ensures a.orders[o].original > 0.0 {
        assert b.orders[o] == a.orders[o];
      }
      forall k | 0 <= k < |a.intents| && Reserving(a.intents[k]) ensures a.intents[k].reservation.value.quantity > 0.0 {
        if k != i {
          assert b.intents[k] == a.intents[k];
        }
      }
    }
  }

  /** A state change inside the counted states that leaves quantities alone. */
  lemma RestateConservesExposure(a: Journal, b: Journal)
    requires |a.orders| == |b.orders| && SameReservations(a.intents, b.intents)
    requires a.positions == b.positions && a.trades == b.trades
    requires forall o | 0 <= o < |a.orders| ::
      && OrderExposure(a.orders[o]) == OrderExposure(b.orders[o])
      && (a.orders[o].state.Active() <==> b.orders[o].state.Active())
    ensures SameExposure(a, b)
  {
    forall weight: Exposure -> real ensures Exposed(a, weight) == Exposed(b, weight) {
      TotalSame(a.orders, b.orders, OfOrders(weight));
      ReservationsUnchanged(a.intents, b.intents, weight);
    }
    forall o | 0 <= o < |a.orders| ensures a.orders[o].original == b.orders[o].original {
      assert OrderExposure(a.orders[o]) == OrderExposure(b.orders[o]);
    }
  }

  lemma BeginConservesExposure(a: Journal, i: nat, o: nat)
    requires BeginSubmission(a, i, o).Ok?
    ensures SameExposure(a, BeginSubmission(a, i, o).value)
  {
    RestateConservesExposure(a, BeginSubmission(a, i, o).value);
  }

  /** An ambiguous response keeps the maximum reservation: the order is still counted in full. */
  lemma AmbiguousFinishConservesExposure(a: Journal, i: nat, o: nat, venueId: Option<string>, tradeIds: seq<string>,
            day: int)
    requires Sound(a) && FinishSubmission(a, i, o, true, OrderState.Unknown, venueId, 0.0, None, tradeIds, day).Ok?
    ensures SameExposure(a, FinishSubmission(a, i, o, true, OrderState.Unknown, venueId, 0.0, None, tradeIds, day).value)
  {
    RestateConservesExposure(a, FinishSubmission(a, i, o, true, OrderState.Unknown, venueId, 0.0, None, tradeIds, day).value);
  }

  lemma RecoverInterruptedConservesExposure(a: Journal)
    requires forall o | 0 <= o < |a.orders| && Interrupted(a, o) :: a.orders[o].state.Active()
    ensures SameExposure(a, RecoverInterrupted(a))
  {
    RestateConservesExposure(a, RecoverInterrupted(a));
  }

  // ---------------------------------------------------------------------------------------------
  // Approval, release and recovery
  // ---------------------------------------------------------------------------------------------

  /** One row gains or loses a reservation; no order, position or trade changes. */
  lemma ReservationShiftsExposure(a: Journal, i: nat, row: Intent, weight: Exposure -> real)
    requires i < |a.intents|
    ensures Exposed(SetIntent(a, i, row), weight)
         == Exposed(a, weight) - OfReservations(weight)(a.intents[i]) + OfReservations(weight)(row)
  {
    TotalUpdate(a.intents, i, row, OfReservations(weight));
  }

  /** What an approval tells about the snapshot it was checked against. */
  lemma ApprovedMeans(policy: RiskPolicy, request: Request, market: MarketRules, book: OrderBook,
            snapshot: RiskSnapshot)
    requires Evaluate(policy, request, market, book, snapshot).Approve?
    ensures request.QuantityDecimal().Some? && request.ProtectionPrice().Some?
    ensures ConservativeExposure(request, market, request.QuantityDecimal().value, request.ProtectionPrice().value).Some?
    ensures var (shares, quote) := ConservativeExposure(request, market, request.QuantityDecimal().value, request.ProtectionPrice().value).value;
            && shares > 0.0 && quote > 0.0
            && snapshot.openOrderCount < policy.maxOpenOrders
            && snapshot.marketOpenNotional + quote <= policy.maxOpenNotionalPerMarket
            && LongAfter(request, shares, snapshot) <= policy.maxNetPositionPerToken
            && -policy.maxNetPositionPerToken <= ShortAfter(request, shares, snapshot)
  {
    var q, p := request.QuantityDecimal().value, request.ProtectionPrice().value;
    assert QuoteOf(q, p) > 0.0;
    if market.tickSize > 0.0 {
      assert q / market.tickSize > 0.0;
    }
  }

  /** The row an approval writes, with the reservation it was checked to afford. */
  lemma ApprovalShape(a: Journal, i: nat, policy: RiskPolicy, market: MarketRules, book: OrderBook, today: int)
    returns (reservation: Reservation)
    requires i < |a.intents|
    requires EvaluateAndReserve(a, i, policy, market, book, today).Ok?
    requires EvaluateAndReserve(a, i, policy, market, book, today).value.1.Approve?
    ensures !Reserving(a.intents[i])
    ensures EvaluateAndReserve(a, i, policy, market, book, today).value.0
         == SetIntent(a, i, a.intents[i].(state := IntentState.Approved, reservation := Some(reservation)))
    ensures reservation.state.Active? && reservation.quantity > 0.0 && reservation.quoteExposure > 0.0
    ensures reservation.tokenId == a.intents[i].request.tokenId && reservation.conditionId == a.intents[i].request.conditionId
    ensures OpenCount(a) < policy.maxOpenOrders
    ensures Exposed(a, MarketNotional(reservation.conditionId)) + reservation.quoteExposure <= policy.maxOpenNotionalPerMarket
    ensures reservation.side.Buy? ==>
      LongCase(a, reservation.tokenId) + reservation.quantity <= policy.maxNetPositionPerToken
    ensures reservation.side.Sell? ==>
      -policy.maxNetPositionPerToken <= ShortCase(a, reservation.tokenId) - reservation.quantity
  {
    var request := a.intents[i].request;
    var snapshot := SnapshotOf(a, request.conditionId, request.tokenId, today).value;
    ApprovedMeans(policy, request, market, book, snapshot);
    var (shares, quote) := ConservativeExposure(request, market, request.QuantityDecimal().value, request.ProtectionPrice().value).value;
    reservation := ReservationFor(request, market, shares, quote);
  }

  lemma NewReservationKeepsLimits(a: Journal, i: nat, row: Intent, policy: RiskPolicy)
    requires i < |a.intents| && Sound(a) && WithinLimits(a, policy)
    requires !Reserving(a.intents[i]) && Reserving(row) && SoundReservation(row)
    requires var r := row.reservation.value;
      && OpenCount(a) < policy.maxOpenOrders
      && Exposed(a, MarketNotional(r.conditionId)) + r.quoteExposure <= policy.maxOpenNotionalPerMarket
      && (r.side.Buy? ==> LongCase(a, r.tokenId) + r.quantity <= policy.maxNetPositionPerToken)
      && (r.side.Sell? ==> -policy.maxNetPositionPerToken <= ShortCase(a, r.tokenId) - r.quantity)
    ensures WithinLimits(SetIntent(a, i, row), policy)
  {
    var b := SetIntent(a, i, row);
    var e := ReservationExposure(row.reservation.value);
    ApprovedCount(a, i, row);
    forall t ensures LongCase(b, t) <= policy.maxNetPositionPerToken && -policy.maxNetPositionPerToken <= ShortCase(b, t) {
      assert LongCase(a, t) <= policy.maxNetPositionPerToken && -policy.maxNetPositionPerToken <= ShortCase(a, t);
      ReservationShiftsExposure(a, i, row, Pending(t, Buy));
      ReservationShiftsExposure(a, i, row, Pending(t, Sell));
      assert OfReservations(Pending(t, Buy))(row) == if e.tokenId == t && e.side.Buy? then e.quantity else 0.0;
      assert OfReservations(Pending(t, Sell))(row) == if e.tokenId == t && e.side.Sell? then e.quantity else 0.0;
    }
    forall c ensures Exposed(b, MarketNotional(c)) <= policy.maxOpenNotionalPerMarket {
      ReservationShiftsExposure(a, i, row, MarketNotional(c));
      FullNotional(e);
      assert OfReservations(MarketNotional(c))(row) == if e.conditionId == c then e.quoteExposure else 0.0;
    }
  }

  /** After an approval the limits hold of the new state, because they were checked with it included. */
  lemma EvaluationKeepsLimits(a: Journal, i: nat, policy: RiskPolicy, market: MarketRules, book: OrderBook, today: int)
    requires i < |a.intents| && Sound(a) && WithinLimits(a, policy)
    requires EvaluateAndReserve(a, i, policy, market, book, today).Ok?
    ensures var b := EvaluateAndReserve(a, i, policy, market, book, today).value.0;
            Sound(b) && WithinLimits(b, policy)
  {
    var (b, decision) := EvaluateAndReserve(a, i, policy, market, book, today).value;
    if decision.Refuse? {
      RestateIntentKeepsLimits(a, i, b.intents[i], policy);
    } else {
      var reservation := ApprovalShape(a, i, policy, market, book, today);
      NewReservationKeepsLimits(a, i, b.intents[i], policy);
      RestateIntentKeepsSound(a, i, b.intents[i]);
    }
  }

  lemma FullNotional(e: Exposure)
    requires e.quantity == e.original > 0.0
    ensures Notional(e) == e.quoteExposure
  {
  }

  lemma ApprovedCount(a: Journal, i: nat, row: Intent)
    requires i < |a.intents| && !Reserving(a.intents[i])
    ensures OpenCount(SetIntent(a, i, row)) <= OpenCount(a) + 1
  {
    var b := SetIntent(a, i, row);
    ReservationShiftsExposure(a, i, row, Each());
    OpenCountIsExposed(a);
    OpenCountIsExposed(b);
  }

  lemma RestateIntentKeepsSound(a: Journal, i: nat, row: Intent)
    requires i < |a.intents| && Sound(a) && SoundReservation(row)
    ensures Sound(SetIntent(a, i, row))
  {
    var b := SetIntent(a, i, row);
    forall o | 0 <= o < |b.orders| ensures Traded(b, o) == Traded(a, o) {
    }
  }

  /** An intent row that keeps its reservation, or stops reserving, never raises a limit weight. */
  lemma RestateIntentKeepsLimits(a: Journal, i: nat, row: Intent, policy: RiskPolicy)
    requires i < |a.intents| && Sound(a) && WithinLimits(a, policy)
    requires row.reservation == a.intents[i].reservation || !Reserving(row)
    ensures Sound(SetIntent(a, i, row)) && WithinLimits(SetIntent(a, i, row), policy)
  {
    var b := SetIntent(a, i, row);
    assert SoundReservation(a.intents[i]);
    RestateIntentKeepsSound(a, i, row);
    ShrunkReservationsKeepLimits(a, b, policy);
  }

  ghost predicate ShrunkReservations(a: Journal, b: Journal) {
    && b.orders == a.orders && b.positions == a.positions && b.trades == a.trades
    && |b.intents| == |a.intents|
    && forall i | 0 <= i < |a.intents| ::
         b.intents[i].reservation == a.intents[i].reservation || !Reserving(b.intents[i])
  }

  lemma ShrunkReservationsShrinkExposure(a: Journal, b: Journal, weight: Exposure -> real)
    requires Sound(a) && ShrunkReservations(a, b) && Monotone(weight)
    ensures Exposed(b, weight) <= Exposed(a, weight)
  {
    forall i | 0 <= i < |a.intents| ensures OfReservations(weight)(b.intents[i]) <= OfReservations(weight)(a.intents[i]) {
      assert SoundReservation(a.intents[i]);
      assert b.intents[i].reservation == a.intents[i].reservation || !Reserving(b.intents[i]);
      WeightOfReservation(a.intents[i], weight);
      WeightOfReservation(b.intents[i], weight);
      if Reserving(a.intents[i]) {
        var e := ReservationExposure(a.intents[i].reservation.value);
        assert e.(quantity := e.quantity) == e;
        assert 0.0 <= weight(e.(quantity := e.quantity)) <= weight(e);
      }
    }
    TotalMonotone(b.intents, a.intents, OfReservations(weight));
  }

  lemma ShrunkReservationsKeepLimits(a: Journal, b: Journal, policy: RiskPolicy)
    requires Sound(a) && ShrunkReservations(a, b) && WithinLimits(a, policy)
    ensures WithinLimits(b, policy)
  {
    forall weight: Exposure -> real | Monotone(weight) ensures Exposed(b, weight) <= Exposed(a, weight) {
      ShrunkReservationsShrinkExposure(a, b, weight);
    }
    ShrunkExposureKeepsLimits(a, b, policy);
  }

  /** Limits hold of less exposure over the same positions. */
  lemma ShrunkExposureKeepsLimits(a: Journal, b: Journal, policy: RiskPolicy)
    requires WithinLimits(a, policy) && b.positions == a.positions
    requires forall weight: Exposure -> real | Monotone(weight) :: Exposed(b, weight) <= Exposed(a, weight)
    ensures WithinLimits(b, policy)
  {
    forall t ensures LongCase(b, t) <= policy.maxNetPositionPerToken && -policy.maxNetPositionPerToken <= ShortCase(b, t) {
      assert LongCase(a, t) <= policy.maxNetPositionPerToken && -policy.maxNetPositionPerToken <= ShortCase(a, t);
      LimitWeightsMonotone("", t, Buy);
      LimitWeightsMonotone("", t, Sell);
      assert Exposed(b, Pending(t, Buy)) <= Exposed(a, Pending(t, Buy));
      assert Exposed(b, Pending(t, Sell)) <= Exposed(a, Pending(t, Sell));
    }
    LimitWeightsMonotone("", "", Buy);
    assert Exposed(b, Each()) <= Exposed(a, Each());
    OpenCountIsExposed(a);
    OpenCountIsExposed(b);
    forall c ensures Exposed(b, MarketNotional(c)) <= policy.maxOpenNotionalPerMarket {
      LimitWeightsMonotone(c, "", Buy);
      assert Exposed(b, MarketNotional(c)) <= Exposed(a, MarketNotional(c));
    }
  }
}
