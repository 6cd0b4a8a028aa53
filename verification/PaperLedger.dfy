/**
 The paper exchange's durable ledger (src/store.rs, the paper half): orders, the cash account with
 its reserve, and the inventory with its reserves, and what each paper transaction makes of them.
 */
module PaperLedger {
  import opened Wrappers
  import opened Domain
  import opened WalkBook

  /** What the venue knows a row by: how it was submitted, or the market trade that last filled it. */
  datatype Evidence =
    | Submission(insufficientDepth: bool, fill: PaperFill)
    | TradeThrough(eventId: string, tradePrice: real, quantity: real)

  /** A paper venue order. Ids are ordered as the database orders them; the average price is derived. */
  datatype PaperOrder = PaperOrder(
    id: nat, tokenId: string, side: Side, state: OrderState, price: real, feeRate: real,
    original: real, remaining: real, filled: real, quote: real, fee: real,
    reservedQuote: real, reservedShares: real, tradeIds: seq<string>, evidence: Evidence, createdAt: int)
  {
    function AveragePrice(): Option<real> {
      if filled > 0.0 then Some(quote / filled) else None
    }
  }

  datatype Holding = Holding(shares: real, reserved: real)

  datatype Ledger = Ledger(
    orders: seq<PaperOrder>,
    quoteBalance: real,
    reservedQuote: real,
    inventory: map<string, Holding>,
    events: set<string>)

  datatype PaperRefusal = NotFound | EvidenceMismatch | Insufficient | InvalidEvent | Overdraw | InvalidRequest

  function HoldingOf(l: Ledger, tokenId: string): Holding {
    if tokenId in l.inventory then l.inventory[tokenId] else Holding(0.0, 0.0)
  }

  /** The row with this id, or the number of rows. */
  function Find(orders: seq<PaperOrder>, id: nat): nat {
    if orders == [] then 0
    else if orders[0].id == id then 0
    else 1 + Find(orders[1..], id)
  }

  /** What `shares` cost at `price` with the fee. */
  function Cost(shares: real, price: real, feeRate: real): real {
    shares * price * (1.0 + feeRate)
  }

  // ---------------------------------------------------------------------------------------------
  // Transactions
  // ---------------------------------------------------------------------------------------------

  /**
   The order `PaperVenue::submit` commits. An immediate order brings the fill of its walk, which a
   FOK order that is not complete gives up; a resting order brings no fill and a reserve.
   */
  function SubmittedOrder(request: Request, market: MarketRules, walk: PaperFill, id: nat, createdAt: int): PaperOrder
    requires request.QuantityDecimal().Some? && request.ProtectionPrice().Some?
    requires market.tickSize > 0.0
  {
    var quantity, price, feeRate := request.quantity.value, request.price.value, market.LargerFee();
    var immediate := request.Immediate();
    var unfilled := request.timeInForce.Fok? && !walk.complete;
    var fill := if unfilled || !immediate then PaperFill(0.0, 0.0, 0.0, false) else walk;
    var original := if request.side.Buy? && immediate then quantity / market.tickSize else quantity;
    PaperOrder(
      id, request.tokenId, request.side,
      if !immediate then Live else if !unfilled && walk.complete then Filled else OrderState.Cancelled,
      price, feeRate, original, if immediate then 0.0 else original,
      fill.shares, fill.quote, fill.fee,
      if !immediate && request.side.Buy? then Cost(quantity, price, feeRate) else 0.0,
      if !immediate && request.side.Sell? then quantity else 0.0,
      if fill.shares > 0.0 then ["submission"] else [], Submission(unfilled, fill), createdAt)
  }

  function CommitOrder(l: Ledger, order: PaperOrder): Result<Ledger, PaperRefusal> {
    var k := Find(l.orders, order.id);
    if k < |l.orders| then
      if l.orders[k].evidence != order.evidence then Err(EvidenceMismatch) else Ok(l)
    else
      var holding := HoldingOf(l, order.tokenId);
      match order.side
      case Buy =>
        var debit := order.quote + order.fee;
        if l.quoteBalance - l.reservedQuote < debit + order.reservedQuote then Err(Insufficient)
        else Ok(l.(orders := l.orders + [order],
                   quoteBalance := l.quoteBalance - debit,
                   reservedQuote := l.reservedQuote + order.reservedQuote,
                   inventory := l.inventory[order.tokenId := Holding(holding.shares + order.filled, holding.reserved)]))
      case Sell =>
        if holding.shares - holding.reserved < order.filled + order.reservedShares then Err(Insufficient)
        else Ok(l.(orders := l.orders + [order],
                   quoteBalance := l.quoteBalance + (order.quote - order.fee),
                   inventory := l.inventory[order.tokenId :=
                     Holding(holding.shares - order.filled, holding.reserved + order.reservedShares)]))
  }

  function CancelledRow(o: PaperOrder): PaperOrder {
    o.(state := OrderState.Cancelled, remaining := 0.0, reservedQuote := 0.0, reservedShares := 0.0)
  }

  function CancelOrder(l: Ledger, id: nat): Result<Ledger, PaperRefusal> {
    var k := Find(l.orders, id);
    if k >= |l.orders| then Err(NotFound)
    else
      var o := l.orders[k];
      if o.state.Terminal() then Ok(l)
      else
        var holding := HoldingOf(l, o.tokenId);
        Ok(l.(orders := l.orders[k := CancelledRow(o)],
              reservedQuote := Max(l.reservedQuote - o.reservedQuote, 0.0),
              inventory := if o.tokenId in l.inventory
                           then l.inventory[o.tokenId := holding.(reserved := Max(holding.reserved - o.reservedShares, 0.0))]
                           else l.inventory))
  }

  // ---------------------------------------------------------------------------------------------
  // Trade-through
  // ---------------------------------------------------------------------------------------------

  predicate Matchable(o: PaperOrder, tokenId: string, observedAt: int) {
    o.tokenId == tokenId && (o.state.Live? || o.state.PartiallyFilled?) && o.createdAt <= observedAt
  }

  /** Time priority, ties broken by id. */
  predicate Earlier(a: PaperOrder, b: PaperOrder) {
    a.createdAt < b.createdAt || (a.createdAt == b.createdAt && a.id < b.id)
  }

  function InsertRow(orders: seq<PaperOrder>, rows: seq<nat>, r: nat): seq<nat>
    requires r < |orders| && forall k | 0 <= k < |rows| :: rows[k] < |orders|
  {
    if rows == [] then [r]
    else
      var last := rows[|rows| - 1];
      if Earlier(orders[r], orders[last]) then InsertRow(orders, rows[..|rows| - 1], r) + [last]
      else rows + [r]
  }

  /** The SELECT of the matching routine over the first `n` rows, in its ORDER BY. */
  function OpenRows(orders: seq<PaperOrder>, n: nat, tokenId: string, observedAt: int): (rows: seq<nat>)
    requires n <= |orders|
    ensures forall k | 0 <= k < |rows| :: rows[k] < n
  {
    if n == 0 then []
    else
      var before := OpenRows(orders, n - 1, tokenId, observedAt);
      if Matchable(orders[n - 1], tokenId, observedAt) then
        InsertRowBound(orders, before, n - 1, n);
        InsertRow(orders, before, n - 1)
      else before
  }

  lemma {:induction false} InsertRowBound(orders: seq<PaperOrder>, rows: seq<nat>, r: nat, n: nat)
    requires r < n <= |orders| && forall k | 0 <= k < |rows| :: rows[k] < n
    ensures forall k | 0 <= k < |InsertRow(orders, rows, r)| :: InsertRow(orders, rows, r)[k] < n
  {
    if rows != [] {
      InsertRowBound(orders, rows[..|rows| - 1], r, n);
    }
  }

  predicate Crossed(o: PaperOrder, tradePrice: real) {
    if o.side.Buy? then tradePrice < o.price else tradePrice > o.price
  }

  /** The account of one token while a trade is being matched. */
  datatype Matching = Matching(
    orders: seq<PaperOrder>, quoteBalance: real, reservedQuote: real, holding: Holding, left: real)

  function Released(o: PaperOrder, fill: real): real {
    if o.side.Buy? then Cost(fill, o.price, o.feeRate) else 0.0
  }

  /** The order row after `fill` shares trade for `quote` and `fee`. */
  function RowAfter(o: PaperOrder, fill: real, quote: real, fee: real, released: real, trade: Evidence): PaperOrder
    requires trade.TradeThrough?
  {
    var remaining := o.remaining - fill;
    o.(state := if remaining == 0.0 then OrderState.Filled else OrderState.PartiallyFilled,
       remaining := remaining,
       filled := o.filled + fill,
       quote := o.quote + quote,
       fee := o.fee + fee,
       reservedQuote := if o.side.Buy? then Max(o.reservedQuote - released, 0.0) else o.reservedQuote,
       reservedShares := if o.side.Sell? then Max(o.reservedShares - fill, 0.0) else o.reservedShares,
       tradeIds := o.tradeIds + [trade.eventId],
       evidence := trade)
  }

  function FilledRow(o: PaperOrder, tradePrice: real, fill: real, eventId: string): PaperOrder {
    var quote := QuoteOf(fill, tradePrice);
    RowAfter(o, fill, quote, FeeOf(quote, o.feeRate), Released(o, fill), TradeThrough(eventId, tradePrice, fill))
  }

  /** The account and the token's inventory after the same fill. */
  function BooksAfter(m: Matching, side: Side, fill: real, quote: real, fee: real, released: real): Matching {
    match side
    case Buy => m.(reservedQuote := Max(m.reservedQuote - released, 0.0),
                   quoteBalance := m.quoteBalance - (quote + fee),
                   holding := m.holding.(shares := m.holding.shares + fill))
    case Sell => m.(holding := Holding(m.holding.shares - fill, Max(m.holding.reserved - fill, 0.0)),
                    quoteBalance := m.quoteBalance + (quote - fee))
  }

  /** The quantity a crossing order takes of what is left of the trade. */
  function FillOf(o: PaperOrder, tradePrice: real, left: real): real {
    if left > 0.0 && Crossed(o, tradePrice) then Min(o.remaining, left) else 0.0
  }

  /** A fill of row `r` for the given amounts, unless it would overdraw. */
  function ApplyFill(m: Matching, r: nat, fill: real, quote: real, fee: real, released: real, trade: Evidence)
    : Result<Matching, PaperRefusal>
    requires r < |m.orders| && trade.TradeThrough?
  {
    var next := BooksAfter(m, m.orders[r].side, fill, quote, fee, released);
    if next.quoteBalance < 0.0 || next.holding.shares < 0.0 then Err(Overdraw)
    else Ok(next.(orders := m.orders[r := RowAfter(m.orders[r], fill, quote, fee, released, trade)], left := m.left - fill))
  }

  /** One turn of the matching loop. */
  function MatchRow(m: Matching, r: nat, tradePrice: real, eventId: string): Result<Matching, PaperRefusal>
    requires r < |m.orders|
  {
    var o := m.orders[r];
    var fill := FillOf(o, tradePrice, m.left);
    if fill <= 0.0 then Ok(m)
    else
      var quote := QuoteOf(fill, tradePrice);
      ApplyFill(m, r, fill, quote, FeeOf(quote, o.feeRate), Released(o, fill), TradeThrough(eventId, tradePrice, fill))
  }

  function MatchRows(m: Matching, rows: seq<nat>, tradePrice: real, eventId: string): (result: Result<Matching,
            PaperRefusal>)
    requires forall k | 0 <= k < |rows| :: rows[k] < |m.orders|
    ensures result.Ok? ==> |result.value.orders| == |m.orders|
    decreases |rows|
  {
    if rows == [] then Ok(m)
    else
      var before := MatchRows(m, rows[..|rows| - 1], tradePrice, eventId);
      if before.Err? then before else MatchRow(before.value, rows[|rows| - 1], tradePrice, eventId)
  }

  function StartMatching(l: Ledger, tokenId: string, size: real): Matching {
    Matching(l.orders, l.quoteBalance, l.reservedQuote, HoldingOf(l, tokenId), size)
  }

  /** The ledger a matching writes back, with its event recorded. */
  function Settled(l: Ledger, m: Matching, tokenId: string, eventId: string): Ledger {
    Ledger(m.orders, m.quoteBalance, m.reservedQuote, l.inventory[tokenId := m.holding], l.events + {eventId})
  }

  function ApplyTradeThrough(l: Ledger, eventId: string, tokenId: string, price: real, size: real, observedAt: int)
    : Result<Ledger, PaperRefusal>
  {
    if eventId == "" || tokenId == "" || price <= 0.0 || price >= 1.0 || size <= 0.0 then Err(InvalidEvent)
    else if eventId in l.events then Ok(l)
    else
      var rows := OpenRows(l.orders, |l.orders|, tokenId, observedAt);
      match MatchRows(StartMatching(l, tokenId, size), rows, price, eventId)
      case Err(error) => Err(error)
      case Ok(m) => Ok(Settled(l, m, tokenId, eventId))
  }
}
