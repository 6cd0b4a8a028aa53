/**
 What every order-writing transaction does to quantities, trades and positions.

 `Moves` is the common effect; each transaction is shown to have it with a recorded trade no larger
 than its drop in remaining quantity. `Sound` is the row invariant the risk results rest on.
 */
module OrderBounds {
  import opened Wrappers
  import opened Domain
  import opened Sums
  import opened Risk
  import opened Journal

  function SizeFor(o: nat): Trade -> real {
    (t: Trade) => if t.order == o then t.size else 0.0
  }

  /** The sum of the trade sizes recorded for one order. */
  function Traded(j: Journal, o: nat): real {
    Total(j.trades, SizeFor(o))
  }

  predicate SoundOrder(o: Order) {
    && o.original > 0.0 && o.quoteExposure >= 0.0
    && 0.0 <= o.remaining <= o.original
    && (o.state.Prepared? || o.state.Submitting? || o.state.Unknown? ==> o.remaining == o.original)
  }

  predicate SoundReservation(i: Intent) {
    Reserving(i) ==> i.reservation.value.quantity > 0.0 && i.reservation.value.quoteExposure >= 0.0
  }

  ghost predicate Sound(j: Journal) {
    && (forall o | 0 <= o < |j.orders| ::
          SoundOrder(j.orders[o]) && j.orders[o].intent < |j.intents|
          && Traded(j, o) <= j.orders[o].original - j.orders[o].remaining)
    && (forall i | 0 <= i < |j.intents| :: SoundReservation(j.intents[i]))
    && (forall k | 0 <= k < |j.trades| :: j.trades[k].order < |j.orders|)
  }

  predicate SameTerms(a: Order, b: Order) {
    && a.intent == b.intent && a.conditionId == b.conditionId && a.tokenId == b.tokenId
    && a.side == b.side && a.price == b.price && a.feeRate == b.feeRate
    && a.quoteExposure == b.quoteExposure && a.original == b.original
  }

  /** Intents keep their requests and reservations; states and attempts may change. */
  predicate SameReservations(a: seq<Intent>, b: seq<Intent>) {
    && |a| == |b|
    && forall i | 0 <= i < |a| :: a[i].reservation == b[i].reservation
  }

  /** From `a` to `b` only order `o` is rewritten, and `applied` shares are recorded as traded. */
  ghost predicate Moves(a: Journal, b: Journal, o: nat, applied: real) {
    && o < |a.orders| && |b.orders| == |a.orders|
    && (forall k | 0 <= k < |a.orders| && k != o :: b.orders[k] == a.orders[k])
    && SameTerms(a.orders[o], b.orders[o])
    && SameReservations(a.intents, b.intents)
    && applied >= 0.0
    && (forall k :: Traded(b, k) == Traded(a, k) + if k == o then applied else 0.0)
    && (forall t :: SharesOf(b.positions, t) == SharesOf(a.positions, t)
          + if t == a.orders[o].tokenId then Signed(a.orders[o].side, applied) else 0.0)
    && (|b.trades| == |a.trades| || (|b.trades| == |a.trades| + 1 && b.trades[|a.trades|].order == o))
    && a.trades <= b.trades
  }

  /** The order did not lose less than the trade it gained. */
  predicate Drops(a: Journal, b: Journal, o: nat, applied: real)
    requires o < |a.orders| && o < |b.orders|
  {
    && 0.0 <= b.orders[o].remaining
    && applied <= a.orders[o].remaining - b.orders[o].remaining
  }

  lemma {:induction false} UpsertShares(positions: seq<Position>, tokenId: string, shares: real, other: string)
    ensures SharesOf(Upsert(positions, tokenId, shares), other)
         == if other == tokenId then shares else SharesOf(positions, other)
  {
    if positions != [] {
      var last := positions[|positions| - 1];
      var rest := positions[..|positions| - 1];
      if last.tokenId == tokenId {
        assert positions[|positions| - 1 := Position(tokenId, shares)][..|positions| - 1] == rest;
      } else {
        UpsertShares(rest, tokenId, shares, other);
        assert (Upsert(rest, tokenId, shares) + [last])[..|Upsert(rest, tokenId, shares)|] == Upsert(rest, tokenId, shares);
      }
    }
  }

  /** What `MatchFill` records: the whole fill, or nothing when the trade key is already known. */
  function Applied(j: Journal, o: nat, venueId: Option<string>, filled: real, tradeIds: seq<string>): real {
    if filled <= 0.0 || Recorded(j.trades, KeyOf(tradeIds, venueId, o)) then 0.0 else filled
  }

  lemma MatchFillMoves(j: Journal, o: nat, order: Order, venueId: Option<string>, filled: real,
                       price: Option<real>, tradeIds: seq<string>, day: int)
    requires o < |j.orders| && SameTerms(order, j.orders[o])
    ensures Moves(j, MatchFill(j, o, order, venueId, filled, price, tradeIds, day), o,
                  Applied(j, o, venueId, filled, tradeIds))
  {
    var next := MatchFill(j, o, order, venueId, filled, price, tradeIds, day);
    if |next.trades| != |j.trades| {
      var trade := next.trades[|j.trades|];
      forall k ensures Traded(next, k) == Traded(j, k) + if k == o then filled else 0.0 {
        TotalAppend(j.trades, trade, SizeFor(k));
      }
      var shares := SharesOf(j.positions, order.tokenId) + Signed(order.side, filled);
      forall t ensures SharesOf(next.positions, t) == SharesOf(j.positions, t)
          + if t == order.tokenId then Signed(order.side, filled) else 0.0 {
        UpsertShares(j.positions, order.tokenId, shares, t);
      }
    }
  }

  /** A row update followed by a matched fill, as every order transaction is built. */
  lemma RewriteMoves(a: Journal, mid: Journal, o: nat, venueId: Option<string>, filled: real,
                     price: Option<real>, tradeIds: seq<string>, day: int)
    requires o < |a.orders| && o < |mid.orders|
    requires mid.orders == a.orders[o := mid.orders[o]] && SameTerms(a.orders[o], mid.orders[o])
    requires SameReservations(a.intents, mid.intents)
    requires mid.trades == a.trades && mid.positions == a.positions
    ensures Moves(a, MatchFill(mid, o, a.orders[o], venueId, filled, price, tradeIds, day), o,
                  Applied(a, o, venueId, filled, tradeIds))
  {
    MatchFillMoves(mid, o, a.orders[o], venueId, filled, price, tradeIds, day);
  }

  lemma QuietMoves(a: Journal, b: Journal, o: nat)
    requires o < |a.orders| && o < |b.orders|
    requires b.orders == a.orders[o := b.orders[o]] && SameTerms(a.orders[o], b.orders[o])
    requires SameReservations(a.intents, b.intents)
    requires b.trades == a.trades && b.positions == a.positions
    ensures Moves(a, b, o, 0.0)
  {
  }

  lemma FinishMoves(j: Journal, i: nat, o: nat, unknown: bool, state: OrderState, venueId: Option<string>,
                    filled: real, price: Option<real>, tradeIds: seq<string>, day: int) returns (applied: real)
    requires Sound(j)
    requires FinishSubmission(j, i, o, unknown, state, venueId, filled, price, tradeIds, day).Ok?
    ensures var next := FinishSubmission(j, i, o, unknown, state, venueId, filled, price, tradeIds, day).value;
            Moves(j, next, o, applied) && Drops(j, next, o, applied) && SoundOrder(next.orders[o])
    ensures applied == if unknown then 0.0 else Applied(j, o, venueId, filled, tradeIds)
  {
    var next := FinishSubmission(j, i, o, unknown, state, venueId, filled, price, tradeIds, day).value;
    if unknown {
      applied := 0.0;
      QuietMoves(j, next, o);
    } else {
      applied := Applied(j, o, venueId, filled, tradeIds);
      var remaining := FinishRemaining(j.orders[o].original, state, filled);
      var order := j.orders[o].(state := state, venueId := Coalesce(venueId, j.orders[o].venueId), remaining := remaining);
      var attempt := if state.Rejected? then AttemptRejected else AttemptAccepted;
      var row := MoveAttempt(j.intents[i], AttemptSubmitting, attempt).(state := IntentState.Submitted);
      var mid := SetIntent(j, i, row).(orders := j.orders[o := order]);
      RewriteMoves(j, mid, o, venueId, filled, price, tradeIds, day);
    }
  }

  lemma ResolveMoves(j: Journal, o: nat, venueId: string, seen: Observation, day: int) returns (applied: real)
    requires Sound(j) && !seen.state.Unknown?
    requires ResolveUnknown(j, o, venueId, seen, day).Ok?
    ensures var next := ResolveUnknown(j, o, venueId, seen, day).value;
            Moves(j, next, o, applied) && Drops(j, next, o, applied) && SoundOrder(next.orders[o])
    ensures applied == Applied(j, o, Some(venueId), seen.filled, seen.tradeIds)
  {
    var prior := j.orders[o];
    applied := Applied(j, o, Some(venueId), seen.filled, seen.tradeIds);
    var order := prior.(state := seen.state, venueId := Some(venueId), remaining := seen.remaining);
    var row := MoveAttempt(SubmittedIfUnknown(j.intents[prior.intent]), AttemptUnknown, AttemptResolved);
    var mid := SetIntent(j, prior.intent, row).(orders := j.orders[o := order]);
    RewriteMoves(j, mid, o, Some(venueId), seen.filled, seen.price, seen.tradeIds, day);
  }

  /** The trade a projection records: what the venue shows beyond the local fill, unless its key is known. */
  function ProjectedFill(j: Journal, o: nat, seen: Observation): real
    requires o < |j.orders|
  {
    Applied(j, o, j.orders[o].venueId, seen.filled - LocalFilled(j.orders[o]), seen.tradeIds)
  }

  lemma ReconcileMoves(j: Journal, o: nat, seen: Observation, day: int) returns (applied: real)
    requires Sound(j) && !seen.state.Unknown?
    requires ReconcileProjection(j, o, seen, day).Ok?
    ensures var next := ReconcileProjection(j, o, seen, day).value;
            Moves(j, next, o, applied) && Drops(j, next, o, applied) && SoundOrder(next.orders[o])
    ensures applied == ProjectedFill(j, o, seen)
  {
    applied := ProjectionMoves(j, o, seen, day);
    ProjectionDrops(j, o, seen, day);
  }

  lemma ProjectionMoves(j: Journal, o: nat, seen: Observation, day: int) returns (applied: real)
    requires ReconcileProjection(j, o, seen, day).Ok?
    ensures Moves(j, ReconcileProjection(j, o, seen, day).value, o, applied)
    ensures applied == ProjectedFill(j, o, seen)
  {
    var prior := j.orders[o];
    var delta := seen.filled - LocalFilled(prior);
    var state := ProjectedState(prior.state, seen.state);
    if state == prior.state && seen.remaining == prior.remaining && delta == 0.0 {
      applied := 0.0;
      QuietMoves(j, j, o);
    } else {
      applied := Applied(j, o, prior.venueId, delta, seen.tradeIds);
      var mid := j.(orders := j.orders[o := prior.(state := state, remaining := seen.remaining)]);
      RewriteMoves(j, mid, o, prior.venueId, delta, seen.price, seen.tradeIds, day);
    }
  }

  lemma ProjectionDrops(j: Journal, o: nat, seen: Observation, day: int)
    requires Sound(j) && !seen.state.Unknown? && ReconcileProjection(j, o, seen, day).Ok?
    ensures var next := ReconcileProjection(j, o, seen, day).value;
      && o < |next.orders| && SoundOrder(next.orders[o])
      && 0.0 <= seen.filled - LocalFilled(j.orders[o]) <= j.orders[o].remaining - next.orders[o].remaining
  {
    assert SoundOrder(j.orders[o]);
  }

  lemma PaperFillMoves(j: Journal, o: nat, paper: OrderState, remaining: real, fill: real,
                       tradePrice: real, tradeId: string, day: int) returns (applied: real)
    requires Sound(j) && o < |j.orders|
    requires paper.PartiallyFilled? || paper.Filled?
    requires 0.0 <= remaining && 0.0 < fill && remaining + fill <= j.orders[o].remaining
    ensures var next := ProjectPaperFill(j, o, paper, remaining, fill, tradePrice, tradeId, day);
            Moves(j, next, o, applied) && Drops(j, next, o, applied) && SoundOrder(next.orders[o])
    ensures applied == if j.orders[o].state.Open() then Applied(j, o, j.orders[o].venueId, fill, [tradeId]) else 0.0
  {
    var prior := j.orders[o];
    if prior.state.Open() {
      applied := Applied(j, o, prior.venueId, fill, [tradeId]);
      var mid := j.(orders := j.orders[o := prior.(state := PaperFilledState(prior.state, paper), remaining := remaining)]);
      RewriteMoves(j, mid, o, prior.venueId, fill, Some(tradePrice), [tradeId], day);
    } else {
      applied := 0.0;
      QuietMoves(j, j, o);
    }
  }

  lemma TransitionMoves(j: Journal, o: nat, state: OrderState)
    requires Sound(j) && TransitionOrder(j, o, state).Ok?
    ensures var next := TransitionOrder(j, o, state).value;
            Moves(j, next, o, 0.0) && Drops(j, next, o, 0.0) && SoundOrder(next.orders[o])
  {
    QuietMoves(j, TransitionOrder(j, o, state).value, o);
  }

  lemma CancelPreparedMoves(j: Journal, o: nat)
    requires Sound(j) && CancelPreparedOrder(j, o).Ok?
    ensures var next := CancelPreparedOrder(j, o).value;
            Moves(j, next, o, 0.0) && Drops(j, next, o, 0.0) && SoundOrder(next.orders[o])
  {
    QuietMoves(j, CancelPreparedOrder(j, o).value, o);
  }

  lemma BeginMoves(j: Journal, i: nat, o: nat)
    requires Sound(j) && BeginSubmission(j, i, o).Ok?
    ensures var next := BeginSubmission(j, i, o).value;
            Moves(j, next, o, 0.0) && Drops(j, next, o, 0.0) && SoundOrder(next.orders[o])
  {
    QuietMoves(j, BeginSubmission(j, i, o).value, o);
  }

  /** Rows stay sound across any such move: trades never outgrow what the order has lost. */
  lemma MovesKeepSound(a: Journal, b: Journal, o: nat, applied: real)
    requires Sound(a) && Moves(a, b, o, applied) && Drops(a, b, o, applied) && SoundOrder(b.orders[o])
    ensures Sound(b)
  {
    forall k | 0 <= k < |b.orders| ensures Traded(b, k) <= b.orders[k].original - b.orders[k].remaining {
      assert Traded(a, k) <= a.orders[k].original - a.orders[k].remaining;
    }
    forall i | 0 <= i < |b.intents| ensures SoundReservation(b.intents[i]) {
      assert SoundReservation(a.intents[i]);
    }
    forall k | 0 <= k < |b.trades| ensures b.trades[k].order < |b.orders| {
      if k < |a.trades| {
        assert b.trades[k] == a.trades[k];
      }
    }
  }
}
