/** The admission policy (src/risk.rs): a chain of checks over one request and one risk snapshot. */
module Risk {
  import opened Wrappers
  import opened Domain
  import opened Sums

  datatype RiskSnapshot = RiskSnapshot(
    openOrderCount: nat,
    marketOpenNotional: real,
    tokenPosition: real,
    tokenPendingBuys: real,
    tokenPendingSells: real,
    grossExposure: real,
    dailyMatchedNotional: real)

  datatype RiskPolicy = RiskPolicy(
    allowedConditionIds: set<string>,
    allowedTokenIds: set<string>,
    allowedSides: set<Side>,
    allowedTimeInForce: set<TimeInForce>,
    maxQuotePerOrder: real,
    maxSharesPerOrder: real,
    maxOpenOrders: nat,
    maxOpenNotionalPerMarket: real,
    maxNetPositionPerToken: real,
    maxGrossExposure: real,
    maxDailyMatchedNotional: real,
    maxWorstPriceDistance: real,
    minVisibleDepth: real)

  datatype Reason =
    | ConditionNotAllowed | TokenNotAllowed | SideNotAllowed | TimeInForceNotAllowed
    | MarketNotAcceptingOrders | InvalidQuantity | InvalidPrice | MarketRulesInvalid
    | MaxSharesPerOrder | MaxQuotePerOrder | MaxOpenOrders | MaxMarketExposure
    | MaxTokenPosition | MaxGrossExposure | MaxDailyMatchedNotional
    | EmptyBook | WorstPriceDistance | MinVisibleDepth

  datatype Decision = Approve | Refuse(reason: Reason)

  /** The share count and quote amount an order may consume at worst. */
  function ConservativeExposure(request: Request, market: MarketRules, quantity: real, price: real)
    : Option<(real, real)>
  {
    if request.side.Buy? && request.Immediate() then
      if market.tickSize > 0.0 then Some((quantity / market.tickSize, quantity)) else None
    else
      Some((quantity, QuoteOf(quantity, price)))
  }

  function BestBid(bids: seq<PriceLevel>): Option<real> {
    if bids == [] then None
    else
      match BestBid(bids[1..])
      case None => Some(bids[0].price)
      case Some(best) => Some(Max(bids[0].price, best))
  }

  function BestAsk(asks: seq<PriceLevel>): Option<real> {
    if asks == [] then None
    else
      match BestAsk(asks[1..])
      case None => Some(asks[0].price)
      case Some(best) => Some(Min(asks[0].price, best))
  }

  function AskDepth(price: real): PriceLevel -> real {
    (level: PriceLevel) => if level.price <= price then level.size else 0.0
  }

  function BidDepth(price: real): PriceLevel -> real {
    (level: PriceLevel) => if level.price >= price then level.size else 0.0
  }

  /** The last checks of the chain, made for immediate orders only. */
  function EvaluateBook(policy: RiskPolicy, side: Side, price: real, book: OrderBook): Decision {
    var reference := if side.Buy? then BestAsk(book.asks) else BestBid(book.bids);
    var depth := if side.Buy? then Total(book.asks, AskDepth(price)) else Total(book.bids, BidDepth(price));
    if reference.None? then Refuse(EmptyBook)
    else if Abs(price - reference.value) > policy.maxWorstPriceDistance then Refuse(WorstPriceDistance)
    else if depth < policy.minVisibleDepth then Refuse(MinVisibleDepth)
    else Approve
  }

  function LongAfter(request: Request, shares: real, snapshot: RiskSnapshot): real {
    snapshot.tokenPosition + snapshot.tokenPendingBuys + if request.side.Buy? then shares else 0.0
  }

  function ShortAfter(request: Request, shares: real, snapshot: RiskSnapshot): real {
    snapshot.tokenPosition - snapshot.tokenPendingSells - if request.side.Sell? then shares else 0.0
  }

  /** The checks that compare the order's worst case with the snapshot and the limits. */
  function EvaluateLimits(policy: RiskPolicy, request: Request, market: MarketRules,
                          shares: real, quote: real, snapshot: RiskSnapshot): Decision
  {
    var worst := Max(Abs(LongAfter(request, shares, snapshot)), Abs(ShortAfter(request, shares, snapshot)));
    var gross := snapshot.grossExposure
      + if request.side.Buy? then quote + FeeOf(quote, market.takerFeeRate) else 0.0;
    if shares > policy.maxSharesPerOrder then Refuse(MaxSharesPerOrder)
    else if quote > policy.maxQuotePerOrder then Refuse(MaxQuotePerOrder)
    else if snapshot.openOrderCount >= policy.maxOpenOrders then Refuse(MaxOpenOrders)
    else if snapshot.marketOpenNotional + quote > policy.maxOpenNotionalPerMarket then Refuse(MaxMarketExposure)
    else if worst > policy.maxNetPositionPerToken then Refuse(MaxTokenPosition)
    else if gross > policy.maxGrossExposure then Refuse(MaxGrossExposure)
    else if snapshot.dailyMatchedNotional + quote > policy.maxDailyMatchedNotional then
      Refuse(MaxDailyMatchedNotional)
    else Approve
  }

  function Evaluate(policy: RiskPolicy, request: Request, market: MarketRules,
                    book: OrderBook, snapshot: RiskSnapshot): Decision
  {
    if policy.allowedConditionIds != {} && request.conditionId !in policy.allowedConditionIds then
      Refuse(ConditionNotAllowed)
    else if policy.allowedTokenIds != {} && request.tokenId !in policy.allowedTokenIds then
      Refuse(TokenNotAllowed)
    else if request.side !in policy.allowedSides then Refuse(SideNotAllowed)
    else if request.timeInForce !in policy.allowedTimeInForce then Refuse(TimeInForceNotAllowed)
    else if !market.active || market.closed || !market.acceptingOrders then Refuse(MarketNotAcceptingOrders)
    else if request.QuantityDecimal().None? then Refuse(InvalidQuantity)
    else if request.ProtectionPrice().None? then Refuse(InvalidPrice)
    else
      var price := request.ProtectionPrice().value;
      match ConservativeExposure(request, market, request.QuantityDecimal().value, price)
      case None => Refuse(MarketRulesInvalid)
      case Some((shares, quote)) =>
        var limits := EvaluateLimits(policy, request, market, shares, quote, snapshot);
        if limits.Refuse? then limits
        else if request.Immediate() then EvaluateBook(policy, request.side, price, book)
        else Approve
  }
}
