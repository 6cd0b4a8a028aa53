/**
 The books of the paper exchange: reserves are exactly what the open orders need, balances always
 cover them, and cash and shares move by exactly the recorded fills.
 */
module PaperBalance {
  import opened Wrappers
  import opened Domain
  import opened Sums
  import opened WalkBook
  import opened PaperLedger

  predicate Resting(o: PaperOrder) {
    o.state.Live? || o.state.PartiallyFilled?
  }

  predicate SoundOrder(o: PaperOrder) {
    && 0.0 <= o.feeRate <= 1.0 && 0.0 < o.price < 1.0
    && 0.0 <= o.remaining && 0.0 <= o.filled && 0.0 <= o.quote && o.fee == FeeOf(o.quote, o.feeRate)
    && (if Resting(o) then o.remaining > 0.0 && o.remaining + o.filled == o.original
        else o.state.Terminal() && o.remaining == 0.0)
    && o.reservedQuote == (if o.side.Buy? then Cost(o.remaining, o.price, o.feeRate) else 0.0)
    && o.reservedShares == (if o.side.Sell? then o.remaining else 0.0)
    && (o.side.Buy? ==> o.quote + o.fee <= Cost(o.filled, o.price, o.feeRate))
  }

  function QuoteReserve(): PaperOrder -> real {
    (o: PaperOrder) => o.reservedQuote
  }

  function ShareReserve(tokenId: string): PaperOrder -> real {
    (o: PaperOrder) => if o.tokenId == tokenId then o.reservedShares else 0.0
  }

  /** The cash an order has brought in, fees taken off. */
  function CashFlow(): PaperOrder -> real {
    (o: PaperOrder) => if o.side.Buy? then -(o.quote + o.fee) else o.quote - o.fee
  }

  function ShareFlow(tokenId: string): PaperOrder -> real {
    (o: PaperOrder) => if o.tokenId != tokenId then 0.0 else if o.side.Buy? then o.filled else -o.filled
  }

  predicate DistinctIds(orders: seq<PaperOrder>) {
    forall i, j | 0 <= i < j < |orders| :: orders[i].id != orders[j].id
  }

  /** The reserve columns are sums over the order rows. */
  ghost predicate Booked(l: Ledger) {
    && l.reservedQuote == Total(l.orders, QuoteReserve())
    && forall t :: HoldingOf(l, t).reserved == Total(l.orders, ShareReserve(t))
  }

  ghost predicate Solvent(l: Ledger) {
    && 0.0 <= l.reservedQuote <= l.quoteBalance
    && forall t {:trigger HoldingOf(l, t)} :: 0.0 <= HoldingOf(l, t).reserved <= HoldingOf(l, t).shares
  }

  ghost predicate Balanced(l: Ledger) {
    && (forall k | 0 <= k < |l.orders| :: SoundOrder(l.orders[k]))
    && DistinctIds(l.orders) && Booked(l) && Solvent(l)
  }

  /** Cash and shares beyond what the orders account for: what the account was opened with. */
  function OpeningCash(l: Ledger): real {
    l.quoteBalance - Total(l.orders, CashFlow())
  }

  function OpeningShares(l: Ledger, tokenId: string): real {
    HoldingOf(l, tokenId).shares - Total(l.orders, ShareFlow(tokenId))
  }

  ghost predicate Conserves(a: Ledger, b: Ledger) {
    && OpeningCash(b) == OpeningCash(a)
    && forall t :: OpeningShares(b, t) == OpeningShares(a, t)
  }

  // ---------------------------------------------------------------------------------------------
  // Costs
  // ---------------------------------------------------------------------------------------------

  lemma CostSplits(a: real, b: real, price: real, feeRate: real)
    ensures Cost(a + b, price, feeRate) == Cost(a, price, feeRate) + Cost(b, price, feeRate)
  {
    var unit := price * (1.0 + feeRate);
    assert Cost(a, price, feeRate) == a * unit;
    assert Cost(b, price, feeRate) == b * unit;
    assert Cost(a + b, price, feeRate) == (a + b) * unit;
  }

  lemma CostNonNegative(shares: real, price: real, feeRate: real)
    requires shares >= 0.0 && price >= 0.0 && feeRate >= 0.0
    ensures Cost(shares, price, feeRate) >= 0.0
  {
    ProductNonNegative(shares, price);
    ProductNonNegative(shares * price, 1.0 + feeRate);
  }

  lemma CostGrowsWithPrice(shares: real, low: real, high: real, feeRate: real)
    requires shares >= 0.0 && low <= high && feeRate >= 0.0
    ensures Cost(shares, low, feeRate) <= Cost(shares, high, feeRate)
  {
    ProductOrder(low, high, shares);
    ProductOrder(shares * low, shares * high, 1.0 + feeRate);
  }

  /** Quote and fee together are the cost. */
  lemma QuoteWithFee(quote: real, feeRate: real)
    ensures quote + FeeOf(quote, feeRate) == quote * (1.0 + feeRate)
  {
  }

  lemma FeeAtMostQuote(quote: real, feeRate: real)
    requires quote >= 0.0 && 0.0 <= feeRate <= 1.0
    ensures 0.0 <= FeeOf(quote, feeRate) <= quote
  {
    ProductOrder(feeRate, 1.0, quote);
  }

  lemma FillIsCharged(shares: real, price: real, feeRate: real)
    requires shares >= 0.0 && price >= 0.0 && 0.0 <= feeRate <= 1.0
    ensures var quote := QuoteOf(shares, price);
      && 0.0 <= FeeOf(quote, feeRate) <= quote
      && quote + FeeOf(quote, feeRate) == Cost(shares, price, feeRate)
  {
    var quote := QuoteOf(shares, price);
    ProductNonNegative(shares, price);
    FeeAtMostQuote(quote, feeRate);
    QuoteWithFee(quote, feeRate);
  }

  // ---------------------------------------------------------------------------------------------
  // One row changes, and the books with it
  // ---------------------------------------------------------------------------------------------

  /** The books of `b` differ from those of `a` by what `next` reserves and moves beyond `prior`. */
  ghost predicate BooksFollow(a: Ledger, b: Ledger, weight: (PaperOrder -> real) -> real) {
    && b.reservedQuote - a.reservedQuote == weight(QuoteReserve())
    && b.quoteBalance - a.quoteBalance == weight(CashFlow())
    && (forall t :: HoldingOf(b, t).reserved - HoldingOf(a, t).reserved == weight(ShareReserve(t)))
    && (forall t :: HoldingOf(b, t).shares - HoldingOf(a, t).shares == weight(ShareFlow(t)))
  }

  function Gained(prior: PaperOrder, next: PaperOrder): (PaperOrder -> real) -> real {
    (weight: PaperOrder -> real) => weight(next) - weight(prior)
  }

  function Brought(next: PaperOrder): (PaperOrder -> real) -> real {
    (weight: PaperOrder -> real) => weight(next)
  }

  ghost predicate BooksAdd(a: Ledger, b: Ledger, weight: (PaperOrder -> real) -> real) {
    && Total(b.orders, QuoteReserve()) - Total(a.orders, QuoteReserve()) == weight(QuoteReserve())
    && Total(b.orders, CashFlow()) - Total(a.orders, CashFlow()) == weight(CashFlow())
    && (forall t :: Total(b.orders, ShareReserve(t)) - Total(a.orders, ShareReserve(t)) == weight(ShareReserve(t)))
    && (forall t :: Total(b.orders, ShareFlow(t)) - Total(a.orders, ShareFlow(t)) == weight(ShareFlow(t)))
  }

  lemma BooksStayBooked(a: Ledger, b: Ledger, weight: (PaperOrder -> real) -> real)
    requires Booked(a) && BooksFollow(a, b, weight) && BooksAdd(a, b, weight)
    ensures Booked(b) && Conserves(a, b)
  {
    forall t ensures HoldingOf(b, t).reserved == Total(b.orders, ShareReserve(t)) {
      assert HoldingOf(b, t).reserved - HoldingOf(a, t).reserved == weight(ShareReserve(t));
      assert Total(b.orders, ShareReserve(t)) - Total(a.orders, ShareReserve(t)) == weight(ShareReserve(t));
    }
    forall t ensures OpeningShares(b, t) == OpeningShares(a, t) {
      assert HoldingOf(b, t).shares - HoldingOf(a, t).shares == weight(ShareFlow(t));
      assert Total(b.orders, ShareFlow(t)) - Total(a.orders, ShareFlow(t)) == weight(ShareFlow(t));
    }
  }

  lemma RewriteIsBooked(a: Ledger, b: Ledger, k: nat, next: PaperOrder)
    requires Booked(a) && k < |a.orders| && b.orders == a.orders[k := next]
    requires BooksFollow(a, b, Gained(a.orders[k], next))
    ensures Booked(b) && Conserves(a, b)
  {
    forall weight: PaperOrder -> real
      ensures Total(b.orders, weight) - Total(a.orders, weight) == Gained(a.orders[k], next)(weight)
    {
      TotalUpdate(a.orders, k, next, weight);
    }
    BooksStayBooked(a, b, Gained(a.orders[k], next));
  }

  lemma AppendIsBooked(a: Ledger, b: Ledger, next: PaperOrder)
    requires Booked(a) && b.orders == a.orders + [next]
    requires BooksFollow(a, b, Brought(next))
    ensures Booked(b) && Conserves(a, b)
  {
    forall weight: PaperOrder -> real ensures Total(b.orders, weight) - Total(a.orders, weight) == Brought(next)(weight) {
      TotalAppend(a.orders, next, weight);
    }
    BooksStayBooked(a, b, Brought(next));
  }

  /** No order reserves more than its account column: subtracting a row's own reserve cannot go below zero. */
  lemma RowWithinReserve(l: Ledger, k: nat)
    requires Balanced(l) && k < |l.orders|
    ensures 0.0 <= l.orders[k].reservedQuote <= l.reservedQuote
    ensures 0.0 <= l.orders[k].reservedShares <= HoldingOf(l, l.orders[k].tokenId).reserved
  {
    forall i | 0 <= i < |l.orders| ensures l.orders[i].reservedQuote >= 0.0 {
      var o := l.orders[i];
      assert SoundOrder(o);
      CostNonNegative(o.remaining, o.price, o.feeRate);
    }
    assert forall i | 0 <= i < |l.orders| :: l.orders[i].reservedShares >= 0.0 by {
      assert forall i | 0 <= i < |l.orders| :: SoundOrder(l.orders[i]);
    }
    TotalDominates(l.orders, k, QuoteReserve());
    TotalDominates(l.orders, k, ShareReserve(l.orders[k].tokenId));
  }

  // ---------------------------------------------------------------------------------------------
  // Rows
  // ---------------------------------------------------------------------------------------------

  /** A fill below a buyer's price costs no more than the reserve it releases. */
  lemma FilledIsSound(o: PaperOrder, tradePrice: real, fill: real, eventId: string)
    requires SoundOrder(o) && Resting(o) && 0.0 < fill <= o.remaining
    requires Crossed(o, tradePrice) && 0.0 < tradePrice
    ensures var row := FilledRow(o, tradePrice, fill, eventId);
      && SoundOrder(row)
      && row.reservedQuote == o.reservedQuote - Released(o, fill)
      && row.reservedShares == o.reservedShares - (if o.side.Sell? then fill else 0.0)
  {
    var quote := QuoteOf(fill, tradePrice);
    FillIsCharged(fill, tradePrice, o.feeRate);
    FeeAdds(o.quote, quote, o.feeRate);
    if o.side.Buy? {
      CostSplits(o.remaining - fill, fill, o.price, o.feeRate);
      CostNonNegative(o.remaining - fill, o.price, o.feeRate);
      CostSplits(o.filled, fill, o.price, o.feeRate);
      CostGrowsWithPrice(fill, tradePrice, o.price, o.feeRate);
    }
  }

  // ---------------------------------------------------------------------------------------------
  // Orders as the venue submits them
  // ---------------------------------------------------------------------------------------------

  /** The walk behind an immediate order, taken at the rate the order will be charged. */
  ghost predicate WalkedFor(request: Request, market: MarketRules, book: OrderBook, walk: PaperFill)
    requires request.QuantityDecimal().Some? && request.ProtectionPrice().Some?
  {
    request.Immediate() ==>
      if request.side.Buy? then WalkedBuy(book.asks, request.quantity.value, request.price.value, market.LargerFee(), walk)
      else WalkedSell(book.bids, request.quantity.value, request.price.value, market.LargerFee(), walk)
  }

  lemma AllocationWithinPrice(takes: seq<Take>, levels: seq<PriceLevel>, worst: real)
    requires ValidLevels(levels) && Allocates(takes, levels, Buy, worst)
    ensures Total(takes, Value()) <= QuoteOf(Total(takes, Shares()), worst)
  {
    forall k | 0 <= k < |takes| ensures TakeGain(Buy, worst)(takes[k]) >= 0.0 {
      assert Takes(takes[k], levels[k], Buy, worst);
      if levels[k].price <= worst {
        ProductNonNegative(takes[k].shares, worst - levels[k].price);
      } else {
        assert takes[k].shares == 0.0;
      }
    }
    TotalNonNegative(takes, TakeGain(Buy, worst));
    TakeGainTotal(takes, Buy, worst);
  }

  lemma AllocationNonNegative(takes: seq<Take>, levels: seq<PriceLevel>, side: Side, worst: real)
    requires ValidLevels(levels) && Allocates(takes, levels, side, worst)
    ensures Total(takes, Value()) >= 0.0 && Total(takes, Shares()) >= 0.0
  {
    forall k | 0 <= k < |takes| ensures Value()(takes[k]) >= 0.0 && Shares()(takes[k]) >= 0.0 {
      assert Takes(takes[k], levels[k], side, worst) && levels[k] in levels;
      ProductNonNegative(takes[k].shares, levels[k].price);
    }
    TotalNonNegative(takes, Value());
    TotalNonNegative(takes, Shares());
  }

  /** A walk's quote is non-negative, and for a buy at most the shares at the protection price. */
  lemma AttainedIsPriced(levels: seq<PriceLevel>, side: Side, worst: real, shares: real, quote: real)
    requires ValidLevels(levels) && Attained(levels, side, worst, shares, quote)
    ensures shares >= 0.0 && quote >= 0.0
    ensures side.Buy? ==> quote <= QuoteOf(shares, worst)
  {
    var takes: seq<Take> :| Allocates(takes, levels, side, worst)
      && Total(takes, Shares()) == shares && Total(takes, Value()) == quote;
    AllocationNonNegative(takes, levels, side, worst);
    if side.Buy? {
      AllocationWithinPrice(takes, levels, worst);
    }
  }

  lemma BuyWithinCost(shares: real, quote: real, price: real, feeRate: real)
    requires quote <= QuoteOf(shares, price) && feeRate >= 0.0
    ensures quote + FeeOf(quote, feeRate) <= Cost(shares, price, feeRate)
  {
    ProductOrder(quote, shares * price, 1.0 + feeRate);
    QuoteWithFee(quote, feeRate);
  }

  predicate ChargedFor(side: Side, price: real, feeRate: real, fill: PaperFill) {
    && fill.shares >= 0.0 && fill.quote >= 0.0 && fill.fee == FeeOf(fill.quote, feeRate)
    && (side.Buy? ==> fill.quote + fill.fee <= Cost(fill.shares, price, feeRate))
  }

  lemma WalkIsCharged(request: Request, market: MarketRules, book: OrderBook, walk: PaperFill)
    requires request.QuantityDecimal().Some? && request.ProtectionPrice().Some? && request.Immediate()
    requires ValidLevels(book.asks) && ValidLevels(book.bids) && WalkedFor(request, market, book, walk)
    requires market.LargerFee() >= 0.0
    ensures ChargedFor(request.side, request.price.value, market.LargerFee(), walk)
  {
    var levels := if request.side.Buy? then book.asks else book.bids;
    AttainedIsPriced(levels, request.side, request.price.value, walk.shares, walk.quote);
    if request.side.Buy? {
      BuyWithinCost(walk.shares, walk.quote, request.price.value, market.LargerFee());
    }
  }

  /** Whatever the venue builds from a valid book and fee rates in [0, 1] is a sound order. */
  lemma SubmittedIsSound(request: Request, market: MarketRules, book: OrderBook, walk: PaperFill, id: nat,
            createdAt: int)
    requires request.QuantityDecimal().Some? && request.ProtectionPrice().Some?
    requires market.tickSize > 0.0 && 0.0 <= market.makerFeeRate <= 1.0 && 0.0 <= market.takerFeeRate <= 1.0
    requires ValidLevels(book.asks) && ValidLevels(book.bids) && WalkedFor(request, market, book, walk)
    ensures SoundOrder(SubmittedOrder(request, market, walk, id, createdAt))
  {
    if request.Immediate() {
      WalkIsCharged(request, market, book, walk);
    }
    ChargedIsSound(request, market, walk, id, createdAt);
  }

  lemma ChargedIsSound(request: Request, market: MarketRules, walk: PaperFill, id: nat, createdAt: int)
    requires request.QuantityDecimal().Some? && request.ProtectionPrice().Some?
    requires market.tickSize > 0.0 && 0.0 <= market.LargerFee() <= 1.0
    requires request.Immediate() ==> ChargedFor(request.side, request.price.value, market.LargerFee(), walk)
    ensures SoundOrder(SubmittedOrder(request, market, walk, id, createdAt))
  {
  }

  /**
   A fill-or-kill order is filled to within the tolerance or not at all; it is killed only when the
   book's whole eligible depth would not have completed it.
   */
  lemma FillOrKill(request: Request, market: MarketRules, book: OrderBook, walk: PaperFill, id: nat, createdAt: int)
    requires request.QuantityDecimal().Some? && request.ProtectionPrice().Some? && market.tickSize > 0.0
    requires request.timeInForce.Fok? && WalkedFor(request, market, book, walk)
    ensures var o := SubmittedOrder(request, market, walk, id, createdAt);
      var quantity := request.quantity.value;
      if o.state.Filled? then
        quantity - (if request.side.Buy? then o.quote + o.fee else o.filled) <= TOLERANCE
      else
        && o.state.Cancelled? && o.filled == 0.0 && o.quote == 0.0 && o.fee == 0.0 && o.tradeIds == []
        && walk.shares == Total(if request.side.Buy? then book.asks else book.bids, Depth(request.side, request.price.value))
  {
  }
}
