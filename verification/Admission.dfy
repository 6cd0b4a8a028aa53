/** What the admission policy of src/risk.rs admits, stated without its chain of early returns. */
module Admission {
  import opened Wrappers
  import opened Domain
  import opened Sums
  import opened Risk

  predicate Within(value: real, limit: real) {
    -limit <= value <= limit
  }

  predicate Listed<T(==)>(allowed: set<T>, value: T) {
    allowed == {} || value in allowed
  }

  /** The request is one the policy and the market take at all. */
  predicate Tradable(policy: RiskPolicy, request: Request, market: MarketRules) {
    && Listed(policy.allowedConditionIds, request.conditionId) && Listed(policy.allowedTokenIds, request.tokenId)
    && request.side in policy.allowedSides && request.timeInForce in policy.allowedTimeInForce
    && market.active && !market.closed && market.acceptingOrders
    && request.quantity.Some? && request.quantity.value > 0.0
    && request.price.Some? && 0.0 < request.price.value < 1.0
    && (request.side.Buy? && request.Immediate() ==> market.tickSize > 0.0)
  }

  /** The most shares the order can move and the most quote it can trade. */
  function WorstShares(request: Request, market: MarketRules): real
    requires request.quantity.Some? && (request.side.Buy? && request.Immediate() ==> market.tickSize > 0.0)
  {
    if request.side.Buy? && request.Immediate() then request.quantity.value / market.tickSize else request.quantity.value
  }

  function WorstQuote(request: Request): real
    requires request.quantity.Some? && request.price.Some?
  {
    if request.side.Buy? && request.Immediate() then request.quantity.value else QuoteOf(request.quantity.value, request.price.value)
  }

  /** Every limit holds with the order's worst case included. */
  predicate Affordable(policy: RiskPolicy, request: Request, market: MarketRules, snapshot: RiskSnapshot)
    requires Tradable(policy, request, market)
  {
    var shares, quote := WorstShares(request, market), WorstQuote(request);
    var bought := if request.side.Buy? then shares else 0.0;
    var sold := if request.side.Sell? then shares else 0.0;
    && shares <= policy.maxSharesPerOrder && quote <= policy.maxQuotePerOrder
    && snapshot.openOrderCount + 1 <= policy.maxOpenOrders
    && snapshot.marketOpenNotional + quote <= policy.maxOpenNotionalPerMarket
    && Within(snapshot.tokenPosition + snapshot.tokenPendingBuys + bought, policy.maxNetPositionPerToken)
    && Within(snapshot.tokenPosition - snapshot.tokenPendingSells - sold, policy.maxNetPositionPerToken)
    && snapshot.grossExposure + (if request.side.Buy? then quote + FeeOf(quote, market.takerFeeRate) else 0.0) <= policy.maxGrossExposure
    && snapshot.dailyMatchedNotional + quote <= policy.maxDailyMatchedNotional
  }

  /** No level of the side is better than this one. */
  predicate IsBest(levels: seq<PriceLevel>, side: Side, level: PriceLevel) {
    level in levels && forall other | other in levels :: if side.Buy? then level.price <= other.price else other.price <= level.price
  }

  /** An immediate order meets a book whose best price is near its own and which is deep enough through it. */
  ghost predicate Visible(policy: RiskPolicy, side: Side, price: real, book: OrderBook) {
    var levels := if side.Buy? then book.asks else book.bids;
    && (exists level :: IsBest(levels, side, level) && Within(price - level.price, policy.maxWorstPriceDistance))
    && (if side.Buy? then Total(book.asks, AskDepth(price)) else Total(book.bids, BidDepth(price))) >= policy.minVisibleDepth
  }

  lemma {:induction false} BestAskIsBest(asks: seq<PriceLevel>)
    ensures BestAsk(asks).None? <==> asks == []
    ensures BestAsk(asks).Some? ==> forall level :: IsBest(asks, Buy, level) ==> level.price == BestAsk(asks).value
    ensures BestAsk(asks).Some? ==> exists level :: IsBest(asks, Buy, level)
  {
    if asks != [] {
      var first, rest := asks[0], asks[1..];
      assert asks == [first] + rest;
      BestAskIsBest(rest);
      if rest == [] {
        assert IsBest(asks, Buy, first);
      } else {
        var best :| IsBest(rest, Buy, best);
        assert IsBest(asks, Buy, if first.price <= best.price then first else best);
      }
    }
  }

  lemma {:induction false} BestBidIsBest(bids: seq<PriceLevel>)
    ensures BestBid(bids).None? <==> bids == []
    ensures BestBid(bids).Some? ==> forall level :: IsBest(bids, Sell, level) ==> level.price == BestBid(bids).value
    ensures BestBid(bids).Some? ==> exists level :: IsBest(bids, Sell, level)
  {
    if bids != [] {
      var first, rest := bids[0], bids[1..];
      assert bids == [first] + rest;
      BestBidIsBest(rest);
      if rest == [] {
        assert IsBest(bids, Sell, first);
      } else {
        var best :| IsBest(rest, Sell, best);
        assert IsBest(bids, Sell, if first.price >= best.price then first else best);
      }
    }
  }

  /** A reference price that is the best price: near it means near some best level. */
  lemma NearBest(levels: seq<PriceLevel>, side: Side, best: Option<real>, price: real, distance: real)
    requires best.None? <==> levels == []
    requires best.Some? ==> forall level :: IsBest(levels, side, level) ==> level.price == best.value
    requires best.Some? ==> exists level :: IsBest(levels, side, level)
    ensures (best.Some? && Abs(price - best.value) <= distance)
       <==> exists level :: IsBest(levels, side, level) && Within(price - level.price, distance)
  {
    if best.Some? {
      var level :| IsBest(levels, side, level);
      assert Within(price - level.price, distance) <==> Abs(price - best.value) <= distance;
    }
  }

  lemma BookPassesIffVisible(policy: RiskPolicy, side: Side, price: real, book: OrderBook)
    ensures EvaluateBook(policy, side, price, book).Approve? <==> Visible(policy, side, price, book)
  {
    if side.Buy? {
      BestAskIsBest(book.asks);
      NearBest(book.asks, side, BestAsk(book.asks), price, policy.maxWorstPriceDistance);
    } else {
      BestBidIsBest(book.bids);
      NearBest(book.bids, side, BestBid(book.bids), price, policy.maxWorstPriceDistance);
    }
  }

  lemma LimitsPassIffAffordable(policy: RiskPolicy, request: Request, market: MarketRules, snapshot: RiskSnapshot)
    requires Tradable(policy, request, market)
    ensures EvaluateLimits(policy, request, market, WorstShares(request, market), WorstQuote(request), snapshot).Approve?
       <==> Affordable(policy, request, market, snapshot)
  {
  }

  lemma TradableIsEvaluated(policy: RiskPolicy, request: Request, market: MarketRules, book: OrderBook,
            snapshot: RiskSnapshot)
    requires Tradable(policy, request, market)
    ensures Evaluate(policy, request, market, book, snapshot).Approve?
       <==> && EvaluateLimits(policy, request, market, WorstShares(request, market), WorstQuote(request), snapshot).Approve?
            && (request.Immediate() ==> EvaluateBook(policy, request.side, request.price.value, book).Approve?)
  {
  }

  lemma UntradableIsRefused(policy: RiskPolicy, request: Request, market: MarketRules, book: OrderBook,
            snapshot: RiskSnapshot)
    requires !Tradable(policy, request, market)
    ensures Evaluate(policy, request, market, book, snapshot).Refuse?
  {
  }

  /** The policy approves exactly the requests that are tradable, affordable and, if immediate, visible in the book. */
  lemma ApprovedIff(policy: RiskPolicy, request: Request, market: MarketRules, book: OrderBook, snapshot: RiskSnapshot)
    ensures Evaluate(policy, request, market, book, snapshot).Approve?
       <==> && Tradable(policy, request, market)
            && Affordable(policy, request, market, snapshot)
            && (request.Immediate() ==> Visible(policy, request.side, request.price.value, book))
  {
    if !Tradable(policy, request, market) {
      UntradableIsRefused(policy, request, market, book, snapshot);
    } else {
      TradableIsEvaluated(policy, request, market, book, snapshot);
      LimitsPassIffAffordable(policy, request, market, snapshot);
      BookPassesIffVisible(policy, request.side, request.price.value, book);
    }
  }

  // ---------------------------------------------------------------------------------------------
  // The reason of a refusal
  // ---------------------------------------------------------------------------------------------

  /** Where the policy looks for it. */
  function Rank(reason: Reason): nat {
    match reason
    case ConditionNotAllowed => 0 case TokenNotAllowed => 1 case SideNotAllowed => 2 case TimeInForceNotAllowed => 3
    case MarketNotAcceptingOrders => 4 case InvalidQuantity => 5 case InvalidPrice => 6 case MarketRulesInvalid => 7
    case MaxSharesPerOrder => 8 case MaxQuotePerOrder => 9 case MaxOpenOrders => 10 case MaxMarketExposure => 11
    case MaxTokenPosition => 12 case MaxGrossExposure => 13 case MaxDailyMatchedNotional => 14
    case EmptyBook => 15 case WorstPriceDistance => 16 case MinVisibleDepth => 17
  }

  /** Quantity, price and tick size are such that the order's worst case is defined. */
  predicate Sized(request: Request, market: MarketRules) {
    && request.quantity.Some? && request.price.Some?
    && (request.side.Buy? && request.Immediate() ==> market.tickSize > 0.0)
  }

  /** What each reason says of the request's own fields. */
  predicate BreaksRule(reason: Reason, policy: RiskPolicy, request: Request, market: MarketRules) {
    match reason
    case ConditionNotAllowed => !Listed(policy.allowedConditionIds, request.conditionId)
    case TokenNotAllowed => !Listed(policy.allowedTokenIds, request.tokenId)
    case SideNotAllowed => request.side !in policy.allowedSides
    case TimeInForceNotAllowed => request.timeInForce !in policy.allowedTimeInForce
    case MarketNotAcceptingOrders => !(market.active && !market.closed && market.acceptingOrders)
    case InvalidQuantity => !(request.quantity.Some? && request.quantity.value > 0.0)
    case InvalidPrice => !(request.price.Some? && 0.0 < request.price.value < 1.0)
    case MarketRulesInvalid => request.side.Buy? && request.Immediate() && market.tickSize <= 0.0
    case _ => false
  }

  /** What each reason says of the order's worst case and the limits. */
  predicate BreaksLimit(reason: Reason, policy: RiskPolicy, request: Request, market: MarketRules, snapshot: RiskSnapshot)
    requires Sized(request, market)
  {
    var shares, quote := WorstShares(request, market), WorstQuote(request);
    match reason
    case MaxSharesPerOrder => shares > policy.maxSharesPerOrder
    case MaxQuotePerOrder => quote > policy.maxQuotePerOrder
    case MaxOpenOrders => snapshot.openOrderCount + 1 > policy.maxOpenOrders
    case MaxMarketExposure => snapshot.marketOpenNotional + quote > policy.maxOpenNotionalPerMarket
    case MaxTokenPosition =>
      || !Within(snapshot.tokenPosition + snapshot.tokenPendingBuys + (if request.side.Buy? then shares else 0.0), policy.maxNetPositionPerToken)
      || !Within(snapshot.tokenPosition - snapshot.tokenPendingSells - (if request.side.Sell? then shares else 0.0), policy.maxNetPositionPerToken)
    case MaxGrossExposure =>
      snapshot.grossExposure + (if request.side.Buy? then quote + FeeOf(quote, market.takerFeeRate) else 0.0) > policy.maxGrossExposure
    case MaxDailyMatchedNotional => snapshot.dailyMatchedNotional + quote > policy.maxDailyMatchedNotional
    case _ => false
  }

  /** What each reason says of the book an immediate order meets. */
  ghost predicate BreaksBook(reason: Reason, policy: RiskPolicy, side: Side, price: real, book: OrderBook) {
    var levels := if side.Buy? then book.asks else book.bids;
    match reason
    case EmptyBook => levels == []
    case WorstPriceDistance =>
      levels != [] && !exists level :: IsBest(levels, side, level) && Within(price - level.price, policy.maxWorstPriceDistance)
    case MinVisibleDepth =>
      (if side.Buy? then Total(book.asks, AskDepth(price)) else Total(book.bids, BidDepth(price))) < policy.minVisibleDepth
    case _ => false
  }

  ghost predicate Violates(reason: Reason, policy: RiskPolicy, request: Request, market: MarketRules, book: OrderBook,
            snapshot: RiskSnapshot)
  {
    || BreaksRule(reason, policy, request, market)
    || (Sized(request, market) && BreaksLimit(reason, policy, request, market, snapshot))
    || (request.price.Some? && request.Immediate() && BreaksBook(reason, policy, request.side, request.price.value, book))
  }

  lemma BookNamesFirst(policy: RiskPolicy, side: Side, price: real, book: OrderBook, reason: Reason)
    ensures var decision := EvaluateBook(policy, side, price, book);
      && (decision == Refuse(reason) ==> BreaksBook(reason, policy, side, price, book))
      && (BreaksBook(reason, policy, side, price, book) ==> decision.Refuse? && 15 <= Rank(decision.reason) <= Rank(reason))
  {
    if side.Buy? {
      BestAskIsBest(book.asks);
      NearBest(book.asks, side, BestAsk(book.asks), price, policy.maxWorstPriceDistance);
    } else {
      BestBidIsBest(book.bids);
      NearBest(book.bids, side, BestBid(book.bids), price, policy.maxWorstPriceDistance);
    }
  }

  lemma LimitsNameFirst(policy: RiskPolicy, request: Request, market: MarketRules, snapshot: RiskSnapshot, reason: Reason)
    requires Sized(request, market)
    ensures var decision := EvaluateLimits(policy, request, market, WorstShares(request, market), WorstQuote(request), snapshot);
      && (decision == Refuse(reason) ==> BreaksLimit(reason, policy, request, market, snapshot) && 8 <= Rank(reason) <= 14)
      && (BreaksLimit(reason, policy, request, market, snapshot) ==> decision.Refuse? && Rank(decision.reason) <= Rank(reason))
  {
  }

  lemma RulesNameFirst(policy: RiskPolicy, request: Request, market: MarketRules, book: OrderBook, snapshot: RiskSnapshot,
            reason: Reason)
    ensures var decision := Evaluate(policy, request, market, book, snapshot);
      && (decision == Refuse(reason) && Rank(reason) < 8 ==> BreaksRule(reason, policy, request, market))
      && (BreaksRule(reason, policy, request, market) ==> decision.Refuse? && Rank(decision.reason) <= Rank(reason) < 8)
      && (!Tradable(policy, request, market) ==> decision.Refuse? && Rank(decision.reason) < 8)
  {
    if request.QuantityDecimal().Some? && request.ProtectionPrice().Some? {
      var worst := ConservativeExposure(request, market, request.QuantityDecimal().value, request.ProtectionPrice().value);
      if worst.Some? {
        LimitsNameFirst(policy, request, market, snapshot, reason);
        BookNamesFirst(policy, request.side, request.price.value, book, reason);
      }
    }
  }

  lemma DecisionNamesFirst(policy: RiskPolicy, request: Request, market: MarketRules, book: OrderBook, snapshot: RiskSnapshot,
            reason: Reason)
    ensures var decision := Evaluate(policy, request, market, book, snapshot);
      && (decision == Refuse(reason) ==> Violates(reason, policy, request, market, book, snapshot))
      && (Violates(reason, policy, request, market, book, snapshot) ==> decision.Refuse? && Rank(decision.reason) <= Rank(reason))
  {
    RulesNameFirst(policy, request, market, book, snapshot, reason);
    if Sized(request, market) {
      LimitsNameFirst(policy, request, market, snapshot, reason);
    }
    if request.price.Some? {
      BookNamesFirst(policy, request.side, request.price.value, book, reason);
    }
  }

  /** A refusal names the first rule, limit or book check that the order fails, in the policy's order. */
  lemma RefusedForFirstViolation(policy: RiskPolicy, request: Request, market: MarketRules, book: OrderBook,
            snapshot: RiskSnapshot, reason: Reason)
    ensures Evaluate(policy, request, market, book, snapshot) == Refuse(reason) <==>
      && Violates(reason, policy, request, market, book, snapshot)
      && forall other | Violates(other, policy, request, market, book, snapshot) :: Rank(reason) <= Rank(other)
  {
    forall other
      ensures Violates(other, policy, request, market, book, snapshot) ==>
        var decision := Evaluate(policy, request, market, book, snapshot);
        decision.Refuse? && Rank(decision.reason) <= Rank(other)
    {
      DecisionNamesFirst(policy, request, market, book, snapshot, other);
    }
    DecisionNamesFirst(policy, request, market, book, snapshot, reason);
    var decision := Evaluate(policy, request, market, book, snapshot);
    if decision.Refuse? {
      DecisionNamesFirst(policy, request, market, book, snapshot, decision.reason);
      RanksDiffer(decision.reason, reason);
    }
  }

  lemma RanksDiffer(a: Reason, b: Reason)
    ensures Rank(a) == Rank(b) ==> a == b
  {
  }
}
