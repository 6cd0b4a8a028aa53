/**
 What a matched fill leaves in the journal: one trade row, and the shares it moves.

 Every transaction that can bring a fill records it in full, once, and nothing else; `key` is the UNIQUE
 trade id, given by cases over what the venue sent.
 */
module Fills {
  import opened Wrappers
  import opened Domain
  import opened Sums
  import opened Journal
  import opened OrderBounds

  /** One venue trade id is the key; several are joined; without any the order is named, by its venue id if it has one. */
  predicate Names(key: TradeKey, tradeIds: seq<string>, venueId: Option<string>, o: nat) {
    match |tradeIds|
    case 0 => if venueId.Some? then key == OfVenueOrder(venueId.value) else key == OfOrder(o)
    case 1 => key == VenueTrade(tradeIds[0])
    case _ => key == JoinedTrades(tradeIds)
  }

  predicate Taken(trades: seq<Trade>, key: TradeKey) {
    exists k | 0 <= k < |trades| :: trades[k].key == key
  }

  /** No trade, and no share moved. */
  ghost predicate NothingFilled(a: Journal, b: Journal) {
    b.trades == a.trades && b.positions == a.positions
  }

  /** One trade of `size` at `price`: the order has traded that much more, and its token's position follows its side. */
  ghost predicate FilledBy(a: Journal, b: Journal, o: nat, key: TradeKey, price: real, size: real, day: int)
    requires o < |a.orders|
  {
    && b.trades == a.trades + [Trade(o, key, price, size, day)]
    && (forall k :: Traded(b, k) == Traded(a, k) + if k == o then size else 0.0)
    && (forall t :: SharesOf(b.positions, t) == SharesOf(a.positions, t)
          + if t != a.orders[o].tokenId then 0.0 else if a.orders[o].side.Buy? then size else -size)
  }

  /** The fill is recorded unless there is none or its key is taken. */
  ghost predicate Records(a: Journal, b: Journal, o: nat, key: TradeKey, price: real, size: real, day: int)
    requires o < |a.orders|
  {
    if size > 0.0 && !Taken(a.trades, key) then FilledBy(a, b, o, key, price, size, day) else NothingFilled(a, b)
  }

  lemma MatchRecords(a: Journal, o: nat, order: Order, venueId: Option<string>, size: real, price: Option<real>,
            tradeIds: seq<string>, day: int, key: TradeKey)
    requires o < |a.orders| && SameTerms(order, a.orders[o]) && Names(key, tradeIds, venueId, o)
    ensures var b := MatchFill(a, o, order, venueId, size, price, tradeIds, day);
      && b.orders == a.orders && b.intents == a.intents && b.control == a.control
      && Records(a, b, o, key, if price.Some? then price.value else order.price, size, day)
  {
    var b := MatchFill(a, o, order, venueId, size, price, tradeIds, day);
    assert KeyOf(tradeIds, venueId, o) == key;
    assert Recorded(a.trades, key) <==> Taken(a.trades, key);
    MatchFillMoves(a, o, order, venueId, size, price, tradeIds, day);
    if size > 0.0 && !Taken(a.trades, key) {
      assert b.trades == a.trades + [Trade(o, key, if price.Some? then price.value else order.price, size, day)];
    }
  }

  /** Only order `o` is rewritten, and its intent's state and attempt; `row` is what the order becomes. */
  predicate Rewrites(a: Journal, b: Journal, o: nat, row: Order) {
    && o < |a.orders| && b.orders == a.orders[o := row]
    && |b.intents| == |a.intents| && b.control == a.control
    && (forall i | 0 <= i < |a.intents| ::
          b.intents[i].request == a.intents[i].request && b.intents[i].reservation == a.intents[i].reservation)
    && (forall i | 0 <= i < |a.intents| && i != a.orders[o].intent :: b.intents[i] == a.intents[i])
  }

  /** The attempt of an intent goes from one state to another. */
  predicate AttemptGoes(a: Intent, b: Intent, from: AttemptState, to: AttemptState) {
    HasAttempt(a, from) ==> HasAttempt(b, to)
  }

  // ---------------------------------------------------------------------------------------------
  // The answer of a submission
  // ---------------------------------------------------------------------------------------------

  /** What the order and its intent become once an answer is recorded. */
  ghost predicate AnswerWritten(a: Journal, b: Journal, i: nat, o: nat, state: OrderState, venueId: Option<string>, left: real) {
    && o < |a.orders| && i < |a.intents| && i < |b.intents|
    && AttemptGoes(a.intents[i], b.intents[i], AttemptSubmitting,
                   if state.Unknown? then AttemptUnknown else if state.Rejected? then AttemptRejected else AttemptAccepted)
    && Rewrites(a, b, o, a.orders[o].(state := state, remaining := left,
                                      venueId := if venueId.Some? then venueId else a.orders[o].venueId))
    && (if state.Unknown? then b.intents[i].state.Unknown? else b.intents[i].state.Submitted?)
  }

  /**
   A recorded answer: the fill it reports is recorded, priced as reported; the order keeps what was not
   filled, or nothing if it has ended.
   */
  lemma FinishRecords(a: Journal, i: nat, o: nat, state: OrderState, venueId: Option<string>, filled: real,
            price: Option<real>, tradeIds: seq<string>, day: int, key: TradeKey)
    requires FinishSubmission(a, i, o, false, state, venueId, filled, price, tradeIds, day).Ok?
    requires Names(key, tradeIds, venueId, o) && !state.Unknown?
    ensures var b := FinishSubmission(a, i, o, false, state, venueId, filled, price, tradeIds, day).value;
      && AnswerWritten(a, b, i, o, state, venueId, if state.Terminal() then 0.0 else a.orders[o].original - filled)
      && (filled > 0.0 ==> price.Some?)
      && Records(a, b, o, key, if price.Some? then price.value else 0.0, filled, day)
  {
    var prior := a.orders[o];
    var left := if state.Terminal() then 0.0 else prior.original - filled;
    var row := MoveAttempt(a.intents[i], AttemptSubmitting, if state.Rejected? then AttemptRejected else AttemptAccepted)
               .(state := IntentState.Submitted);
    var order := prior.(state := state, venueId := Coalesce(venueId, prior.venueId), remaining := left);
    var mid := SetIntent(a, i, row).(orders := a.orders[o := order]);
    MatchRecords(mid, o, prior, venueId, filled, price, tradeIds, day, key);
    MidRecords(a, mid, MatchFill(mid, o, prior, venueId, filled, price, tradeIds, day), o, key,
               if price.Some? then price.value else prior.price, filled, day);
  }

  /** Rewriting rows before the fill does not change what the fill adds. */
  lemma MidRecords(a: Journal, mid: Journal, b: Journal, o: nat, key: TradeKey, price: real, size: real, day: int)
    requires o < |a.orders| && o < |mid.orders| && mid.trades == a.trades && mid.positions == a.positions
    requires mid.orders[o].tokenId == a.orders[o].tokenId && mid.orders[o].side == a.orders[o].side
    requires Records(mid, b, o, key, price, size, day)
    ensures Records(a, b, o, key, price, size, day)
  {
    assert forall k :: Traded(mid, k) == Traded(a, k);
  }

  /** An outcome that stays unknown: the whole order is kept open and nothing is recorded. */
  lemma UnknownFinishRecordsNothing(a: Journal, i: nat, o: nat, orderKey: string, day: int)
    requires FinishSubmission(a, i, o, true, OrderState.Unknown, Some(orderKey), 0.0, None, [], day).Ok?
    ensures var b := FinishSubmission(a, i, o, true, OrderState.Unknown, Some(orderKey), 0.0, None, [], day).value;
      && AnswerWritten(a, b, i, o, OrderState.Unknown, Some(orderKey), a.orders[o].original)
      && NothingFilled(a, b)
  {
  }

  // ---------------------------------------------------------------------------------------------
  // The settlement of an unknown order, and the projection of an open one
  // ---------------------------------------------------------------------------------------------

  /** A settled order takes what the venue shows of it, and all of its fill is recorded. */
  lemma ResolutionRecords(a: Journal, o: nat, venueId: string, seen: Observation, day: int, key: TradeKey)
    requires ResolveUnknown(a, o, venueId, seen, day).Ok? && !seen.state.Unknown?
    requires Names(key, seen.tradeIds, Some(venueId), o)
    ensures var b := ResolveUnknown(a, o, venueId, seen, day).value;
      && o < |a.orders| && a.orders[o].state.Unknown? && a.orders[o].intent < |b.intents|
      && Rewrites(a, b, o, a.orders[o].(state := seen.state, venueId := Some(venueId), remaining := seen.remaining))
      && !b.intents[a.orders[o].intent].state.Unknown?
      && (a.intents[a.orders[o].intent].state.Unknown? ==> b.intents[a.orders[o].intent].state.Submitted?)
      && AttemptGoes(a.intents[a.orders[o].intent], b.intents[a.orders[o].intent], AttemptUnknown, AttemptResolved)
      && (seen.filled > 0.0 ==> seen.price.Some?)
      && Records(a, b, o, key, if seen.price.Some? then seen.price.value else 0.0, seen.filled, day)
  {
    var prior := a.orders[o];
    var order := prior.(state := seen.state, venueId := Some(venueId), remaining := seen.remaining);
    var row := MoveAttempt(SubmittedIfUnknown(a.intents[prior.intent]), AttemptUnknown, AttemptResolved);
    var mid := SetIntent(a, prior.intent, row).(orders := a.orders[o := order]);
    MatchRecords(mid, o, prior, Some(venueId), seen.filled, seen.price, seen.tradeIds, day, key);
    MidRecords(a, mid, MatchFill(mid, o, prior, Some(venueId), seen.filled, seen.price, seen.tradeIds, day), o, key,
               if seen.price.Some? then seen.price.value else prior.price, seen.filled, day);
  }

  /**
   A projected order takes what the venue shows of it, but a pending cancellation that is shown resting
   stays pending. What it shows filled beyond the local fill is recorded.
   */
  lemma ProjectionRecords(a: Journal, o: nat, seen: Observation, day: int, key: TradeKey)
    requires Sound(a) && ReconcileProjection(a, o, seen, day).Ok?
    requires o < |a.orders| && Names(key, seen.tradeIds, a.orders[o].venueId, o)
    ensures var b := ReconcileProjection(a, o, seen, day).value;
      var pending := a.orders[o].state.CancelPending? && (seen.state.Live? || seen.state.PartiallyFilled?);
      && b.orders == a.orders[o := a.orders[o].(state := if pending then OrderState.CancelPending else seen.state,
                                                 remaining := seen.remaining)]
      && b.intents == a.intents && b.control == a.control
      && (seen.filled > 0.0 ==> seen.price.Some?)
      && Records(a, b, o, key, if seen.price.Some? then seen.price.value else 0.0,
                 seen.filled - (a.orders[o].original - a.orders[o].remaining), day)
  {
    var prior := a.orders[o];
    assert SoundOrder(prior);
    var delta := seen.filled - (prior.original - prior.remaining);
    var mid := a.(orders := a.orders[o := prior.(state := ProjectedState(prior.state, seen.state), remaining := seen.remaining)]);
    MatchRecords(mid, o, prior, prior.venueId, delta, seen.price, seen.tradeIds, day, key);
    MidRecords(a, mid, MatchFill(mid, o, prior, prior.venueId, delta, seen.price, seen.tradeIds, day), o, key,
               if seen.price.Some? then seen.price.value else prior.price, delta, day);
    if ProjectedState(prior.state, seen.state) == prior.state && seen.remaining == prior.remaining && delta == 0.0 {
      assert a.orders[o := prior] == a.orders;
    }
  }

  /** The journal half of a fill of the paper exchange, on an order that is open. */
  lemma PaperFillRecords(a: Journal, o: nat, paper: OrderState, remaining: real, fill: real, price: real, tradeId: string,
            day: int)
    requires o < |a.orders| && a.orders[o].state.Open()
    ensures var b := ProjectPaperFill(a, o, paper, remaining, fill, price, tradeId, day);
      var pending := a.orders[o].state.CancelPending? && !paper.Filled?;
      && b.orders == a.orders[o := a.orders[o].(state := if pending then OrderState.CancelPending else paper, remaining := remaining)]
      && b.intents == a.intents && b.control == a.control
      && Records(a, b, o, VenueTrade(tradeId), price, fill, day)
  {
    var prior := a.orders[o];
    var mid := a.(orders := a.orders[o := prior.(state := PaperFilledState(prior.state, paper), remaining := remaining)]);
    MatchRecords(mid, o, prior, prior.venueId, fill, Some(price), [tradeId], day, VenueTrade(tradeId));
    MidRecords(a, mid, MatchFill(mid, o, prior, prior.venueId, fill, Some(price), [tradeId], day), o, VenueTrade(tradeId),
               price, fill, day);
  }
}
