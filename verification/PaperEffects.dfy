/** What a submission, a fill and a cancellation of the paper exchange write, amount by amount. */
module PaperEffects {
  import opened Wrappers
  import opened Domain
  import opened WalkBook
  import opened PaperLedger
  import opened PaperBalance
  import opened PaperRuns
  import opened PaperMatching

  /** The same order of the same request. */
  predicate SameTerms(a: PaperOrder, b: PaperOrder) {
    && a.id == b.id && a.tokenId == b.tokenId && a.side == b.side && a.price == b.price && a.feeRate == b.feeRate
    && a.original == b.original && a.createdAt == b.createdAt
  }

  /** A fill at `price`: its quote and fee are charged on top, the rest stays open, and the order ends when nothing is left. */
  predicate FillWritten(a: PaperOrder, b: PaperOrder, price: real, fill: real, eventId: string) {
    && SameTerms(a, b)
    && b.filled == a.filled + fill && b.remaining == a.remaining - fill
    && b.quote == a.quote + fill * price && b.fee == a.fee + FeeOf(fill * price, a.feeRate)
    && (if b.remaining == 0.0 then b.state.Filled? else b.state.PartiallyFilled?)
    && b.tradeIds == a.tradeIds + [eventId]
    && b.reservedQuote == (if a.side.Buy? then Cost(b.remaining, a.price, a.feeRate) else 0.0)
    && b.reservedShares == (if a.side.Sell? then b.remaining else 0.0)
  }

  /** Every order a market trade reaches is written the fill it is due, at the price of the trade. */
  lemma TradeWritesFills(l: Ledger, eventId: string, tokenId: string, price: real, size: real, observedAt: int)
    requires Balanced(l) && ValidTrade(eventId, tokenId, price, size) && eventId !in l.events
    ensures var result := ApplyTradeThrough(l, eventId, tokenId, price, size, observedAt);
      && result.Ok? && |result.value.orders| == |l.orders|
      && forall r | 0 <= r < |l.orders| ::
           var fill := FairFill(l, l.orders[r], tokenId, price, size, observedAt);
           if fill > 0.0 then FillWritten(l.orders[r], result.value.orders[r], price, fill, eventId)
           else result.value.orders[r] == l.orders[r]
  {
    TradeFillsFairly(l, eventId, tokenId, price, size, observedAt);
    forall r | 0 <= r < |l.orders| && FairFill(l, l.orders[r], tokenId, price, size, observedAt) > 0.0
      ensures FillWritten(l.orders[r], FilledRow(l.orders[r], price, FairFill(l, l.orders[r], tokenId, price, size, observedAt), eventId),
                          price, FairFill(l, l.orders[r], tokenId, price, size, observedAt), eventId)
    {
      assert SoundOrder(l.orders[r]);
      FillIsWritten(l.orders[r], price, FairFill(l, l.orders[r], tokenId, price, size, observedAt), eventId);
    }
  }

  lemma FillIsWritten(o: PaperOrder, price: real, fill: real, eventId: string)
    requires SoundOrder(o) && Resting(o) && 0.0 < fill <= o.remaining && 0.0 < price < 1.0 && Crossed(o, price)
    ensures FillWritten(o, FilledRow(o, price, fill, eventId), price, fill, eventId)
  {
    FilledIsSound(o, price, fill, eventId);
  }

  /** A cancelled order ends CANCELLED with what it had filled; the account gets its whole reserve back and nothing else. */
  lemma CancellationFrees(l: Ledger, id: nat)
    requires Balanced(l)
    ensures CancelOrder(l, id).Ok? <==> exists k :: 0 <= k < |l.orders| && l.orders[k].id == id
    ensures CancelOrder(l, id).Ok? ==>
      var (k, after) := (Find(l.orders, id), CancelOrder(l, id).value);
      && k < |l.orders| && l.orders[k].id == id
      && (if l.orders[k].state.Terminal() then after == l
          else
            var o, b := l.orders[k], after.orders[k];
            && after.orders == l.orders[k := b]
            && SameTerms(o, b) && b.state.Cancelled? && b.remaining == 0.0
            && b.filled == o.filled && b.quote == o.quote && b.fee == o.fee && b.tradeIds == o.tradeIds
            && b.reservedQuote == 0.0 && b.reservedShares == 0.0
            && after.quoteBalance == l.quoteBalance && after.reservedQuote == l.reservedQuote - o.reservedQuote
            && after.events == l.events
            && forall t :: HoldingOf(after, t).shares == HoldingOf(l, t).shares
                 && HoldingOf(after, t).reserved == HoldingOf(l, t).reserved - if t == o.tokenId then o.reservedShares else 0.0)
  {
    FindFinds(l.orders, id);
    var k := Find(l.orders, id);
    if k < |l.orders| {
      RowWithinReserve(l, k);
    }
  }

  /** An order that may rest is live with its whole quantity and its reserve, and has traded nothing. */
  lemma RestingOrderWaits(request: Request, market: MarketRules, walk: PaperFill, id: nat, createdAt: int)
    requires request.QuantityDecimal().Some? && request.ProtectionPrice().Some? && market.tickSize > 0.0
    requires !request.Immediate()
    ensures var o := SubmittedOrder(request, market, walk, id, createdAt);
      && o.state.Live? && o.original == o.remaining == request.quantity.value && o.filled == o.quote == o.fee == 0.0 && o.tradeIds == []
      && o.price == request.price.value && o.tokenId == request.tokenId && o.side == request.side
      && o.feeRate >= market.makerFeeRate && o.feeRate >= market.takerFeeRate
  {
  }

  /** An immediate order takes its walk of the book and ends: filled if the walk is complete, cancelled if not. */
  lemma ImmediateOrderTakesItsWalk(request: Request, market: MarketRules, walk: PaperFill, id: nat, createdAt: int)
    requires request.QuantityDecimal().Some? && request.ProtectionPrice().Some? && market.tickSize > 0.0
    requires request.Immediate() && (request.timeInForce.Fak? || walk.complete)
    ensures var o := SubmittedOrder(request, market, walk, id, createdAt);
      && o.remaining == 0.0 && o.filled == walk.shares && o.quote == walk.quote && o.fee == walk.fee
      && (if walk.complete then o.state.Filled? else o.state.Cancelled?)
      && o.price == request.price.value && o.tokenId == request.tokenId && o.side == request.side
      && (walk.shares > 0.0 <==> o.tradeIds != [])
  {
  }
}
