/**
 The paper exchange as the store runs it: each method is one transaction over the mutable tables.

 A method reads the rows into locals, updates them step by step, and writes them back at its commit;
 an error returns before the write. `View` is the ledger the transaction functions of module
 PaperLedger describe.
 */
module PaperExchange {
  import opened Wrappers
  import opened Domain
  import opened Sums
  import opened WalkBook
  import opened PaperLedger
  import opened PaperBalance
  import opened PaperRuns
  import opened PaperMatching

  /** The trade ids an order has recorded. */
  function TradeIds(): PaperOrder -> real {
    (o: PaperOrder) => |o.tradeIds| as real
  }

  /** The loop over the selected rows, which stops as soon as the trade is used up. */
  method MatchAll(start: Matching, rows: seq<nat>, tradePrice: real, eventId: string)
    returns (result: Result<Matching, PaperRefusal>, fills: nat)
    requires InRange(start.orders, rows)
    ensures result == MatchRows(start, rows, tradePrice, eventId)
    ensures result.Ok? ==> Total(result.value.orders, TradeIds()) == Total(start.orders, TradeIds()) + fills as real
  {
    var m := start;
    fills := 0;
    assert rows[..0] == [];
    for k := 0 to |rows|
      invariant MatchRows(start, rows[..k], tradePrice, eventId) == Ok(m)
      invariant Total(m.orders, TradeIds()) == Total(start.orders, TradeIds()) + fills as real
    {
      assert rows[..k + 1][..k] == rows[..k];
      if m.left <= 0.0 {
        NothingLeft(start, rows, k, tradePrice, eventId);
        return Ok(m), fills;
      }
      var turn, filled := MatchOne(m, rows[k], tradePrice, eventId);
      if turn.Err? {
        FailureStays(start, rows, k + 1, tradePrice, eventId);
        return turn, fills;
      }
      m := turn.value;
      fills := fills + if filled then 1 else 0;
    }
    assert rows[..|rows|] == rows;
    result := Ok(m);
  }

  /** One turn of the loop: the fill of one crossing order, its row, and the account. */
  method MatchOne(m: Matching, r: nat, tradePrice: real, eventId: string)
    returns (result: Result<Matching, PaperRefusal>, filled: bool)
    requires r < |m.orders| && m.left > 0.0
    ensures result == MatchRow(m, r, tradePrice, eventId)
    ensures result.Ok? ==>
      Total(result.value.orders, TradeIds()) == Total(m.orders, TradeIds()) + if filled then 1.0 else 0.0
  {
    var o := m.orders[r];
    var crossed := match o.side case Buy => tradePrice < o.price case Sell => tradePrice > o.price;
    if !crossed {
      return Ok(m), false;
    }
    var fill := Min(o.remaining, m.left);
    if fill <= 0.0 {
      return Ok(m), false;
    }
    var quote := QuoteOf(fill, tradePrice);
    var fee := FeeOf(quote, o.feeRate);
    assert MatchRow(m, r, tradePrice, eventId)
        == ApplyFill(m, r, fill, quote, fee, Released(o, fill), TradeThrough(eventId, tradePrice, fill));
    var balance, reserve, shares, reservedShares := m.quoteBalance, m.reservedQuote, m.holding.shares, m.holding.reserved;
    var rowQuote, rowShares := o.reservedQuote, o.reservedShares;
    match o.side {
      case Buy =>
        var released := Cost(fill, o.price, o.feeRate);
        reserve := Max(reserve - released, 0.0);
        balance := balance - (quote + fee);
        shares := shares + fill;
        rowQuote := Max(rowQuote - released, 0.0);
      case Sell =>
        reservedShares := Max(reservedShares - fill, 0.0);
        shares := shares - fill;
        balance := balance + (quote - fee);
        rowShares := Max(rowShares - fill, 0.0);
    }
    if balance < 0.0 || shares < 0.0 {
      return Err(Overdraw), false;
    }
    var row := o.(state := if o.remaining - fill == 0.0 then OrderState.Filled else OrderState.PartiallyFilled,
                  remaining := o.remaining - fill, filled := o.filled + fill,
                  quote := o.quote + quote, fee := o.fee + fee,
                  reservedQuote := rowQuote, reservedShares := rowShares,
                  tradeIds := o.tradeIds + [eventId], evidence := TradeThrough(eventId, tradePrice, fill));
    TotalUpdate(m.orders, r, row, TradeIds());
    result := Ok(Matching(m.orders[r := row], balance, reserve, Holding(shares, reservedShares), m.left - fill));
    filled := true;
  }

  class PaperTables {
    var orders: seq<PaperOrder>
    var quoteBalance: real
    var reservedQuote: real
    var inventory: map<string, Holding>
    var events: set<string>

    function View(): Ledger
      reads this
    {
      Ledger(orders, quoteBalance, reservedQuote, inventory, events)
    }

    /** The account and inventory as `initialize_paper_account` writes them. */
    constructor (startingQuote: real, startingShares: map<string, real>)
      requires startingQuote >= 0.0 && forall t | t in startingShares :: startingShares[t] >= 0.0
      ensures Opened(View()) && Balanced(View())
      ensures quoteBalance == startingQuote
      ensures forall t :: HoldingOf(View(), t).shares == if t in startingShares then startingShares[t] else 0.0
    {
      orders, quoteBalance, reservedQuote, events := [], startingQuote, 0.0, {};
      inventory := map t | t in startingShares :: Holding(startingShares[t], 0.0);
    }

    method CommitOrder(order: PaperOrder) returns (result: Result<PaperOrder, PaperRefusal>)
      modifies this
      ensures var after := PaperLedger.CommitOrder(old(View()), order);
        && (result.Ok? <==> after.Ok?) && (result.Err? ==> result.error == after.error)
        && View() == (if after.Ok? then after.value else old(View()))
      ensures result.Ok? ==> result.value in orders && result.value.id == order.id && result.value.evidence == order.evidence
    {
      var k := Find(orders, order.id);
      FindFinds(orders, order.id);
      if k < |orders| {
        if orders[k].evidence != order.evidence {
          return Err(EvidenceMismatch);
        }
        return Ok(orders[k]);
      }
      var balance, reserve := quoteBalance, reservedQuote;
      var shares, reservedShares := 0.0, 0.0;
      if order.tokenId in inventory {
        shares, reservedShares := inventory[order.tokenId].shares, inventory[order.tokenId].reserved;
      }
      match order.side {
        case Buy =>
          var debit := order.quote + order.fee;
          if balance - reserve < debit + order.reservedQuote {
            return Err(Insufficient);
          }
          balance := balance - debit;
          reserve := reserve + order.reservedQuote;
          shares := shares + order.filled;
        case Sell =>
          if shares - reservedShares < order.filled + order.reservedShares {
            return Err(Insufficient);
          }
          shares := shares - order.filled;
          reservedShares := reservedShares + order.reservedShares;
          balance := balance + (order.quote - order.fee);
      }
      quoteBalance, reservedQuote := balance, reserve;
      inventory := inventory[order.tokenId := Holding(shares, reservedShares)];
      orders := orders + [order];
      result := Ok(order);
    }

    /**
     `PaperVenue::submit` on the book and rules it has fetched: walk the book for an immediate order,
     set the reserves of a resting one, and commit.
     */
    method Submit(request: Request, market: MarketRules, book: OrderBook, id: nat, now: int)
      returns (result: Result<PaperOrder, PaperRefusal>, ghost walk: PaperFill)
      requires market.tickSize > 0.0 && market.LargerFee() >= 0.0 && ValidLevels(book.asks) && ValidLevels(book.bids)
      modifies this
      ensures (request.QuantityDecimal().None? || request.ProtectionPrice().None?) ==>
        result == Err(InvalidRequest) && View() == old(View())
      ensures request.QuantityDecimal().Some? && request.ProtectionPrice().Some? ==>
        var after := PaperLedger.CommitOrder(old(View()), SubmittedOrder(request, market, walk, id, now));
        && WalkedFor(request, market, book, walk)
        && (result.Ok? <==> after.Ok?) && View() == (if after.Ok? then after.value else old(View()))
    {
      walk := PaperFill(0.0, 0.0, 0.0, false);
      if request.QuantityDecimal().None? || request.ProtectionPrice().None? {
        return Err(InvalidRequest), walk;
      }
      var quantity, price, feeRate := request.quantity.value, request.price.value, market.LargerFee();
      var immediate := request.Immediate();
      var fill := PaperFill(0.0, 0.0, 0.0, false);
      if immediate {
        fill := WalkBook.WalkBook(book, request.side, quantity, price, feeRate);
        walk := fill;
      }
      var unfilled := request.timeInForce.Fok? && !fill.complete;
      var reserveQuote, reserveShares := 0.0, 0.0;
      if !immediate {
        match request.side {
          case Buy => reserveQuote := Cost(quantity, price, feeRate);
          case Sell => reserveShares := quantity;
        }
      }
      var state := if unfilled then OrderState.Cancelled
                   else if immediate then if fill.complete then Filled else OrderState.Cancelled
                   else Live;
      if unfilled {
        fill := PaperFill(0.0, 0.0, 0.0, false);
      }
      var original := if request.side.Buy? && immediate then quantity / market.tickSize else quantity;
      var tradeIds := if fill.shares > 0.0 then ["submission"] else [];
      result := CommitOrder(PaperOrder(
        id, request.tokenId, request.side, state, price, feeRate, original, if immediate then 0.0 else original,
        fill.shares, fill.quote, fill.fee, reserveQuote, reserveShares, tradeIds, Submission(unfilled, fill), now));
    }

    /** Matches one market trade against the open orders of its token; the result is the number of fills. */
    method ApplyTradeThrough(eventId: string, tokenId: string, tradePrice: real, tradeSize: real, observedAt: int)
      returns (result: Result<nat, PaperRefusal>)
      modifies this
      ensures var after := PaperLedger.ApplyTradeThrough(old(View()), eventId, tokenId, tradePrice, tradeSize, observedAt);
        && (result.Ok? <==> after.Ok?) && (result.Err? ==> result.error == after.error)
        && View() == (if after.Ok? then after.value else old(View()))
      ensures result.Ok? ==>
        Total(orders, TradeIds()) == Total(old(orders), TradeIds()) + result.value as real
    {
      if eventId == "" || tokenId == "" || tradePrice <= 0.0 || tradePrice >= 1.0 || tradeSize <= 0.0 {
        return Err(InvalidEvent);
      }
      if eventId in events {
        return Ok(0);
      }
      var holding := if tokenId in inventory then inventory[tokenId] else Holding(0.0, 0.0);
      var rows := OpenRows(orders, |orders|, tokenId, observedAt);
      var matched, fills := MatchAll(Matching(orders, quoteBalance, reservedQuote, holding, tradeSize), rows, tradePrice, eventId);
      if matched.Err? {
        return Err(matched.error);
      }
      orders, quoteBalance, reservedQuote := matched.value.orders, matched.value.quoteBalance, matched.value.reservedQuote;
      inventory := inventory[tokenId := matched.value.holding];
      events := events + {eventId};
      result := Ok(fills);
    }

    method CancelOrder(id: nat) returns (result: Result<PaperOrder, PaperRefusal>)
      modifies this`orders, this`reservedQuote, this`inventory
      ensures var after := PaperLedger.CancelOrder(old(View()), id);
        && (result.Ok? <==> after.Ok?) && (result.Err? ==> result.error == after.error)
        && View() == (if after.Ok? then after.value else old(View()))
      ensures result.Ok? ==> result.value in orders && result.value.id == id
    {
      var k := Find(orders, id);
      FindFinds(orders, id);
      if k == |orders| {
        return Err(NotFound);
      }
      var o := orders[k];
      if !o.state.Terminal() {
        reservedQuote := Max(reservedQuote - o.reservedQuote, 0.0);
        if o.tokenId in inventory {
          var holding := inventory[o.tokenId];
          inventory := inventory[o.tokenId := holding.(reserved := Max(holding.reserved - o.reservedShares, 0.0))];
        }
        orders := orders[k := o.(state := OrderState.Cancelled, remaining := 0.0, reservedQuote := 0.0, reservedShares := 0.0)];
      }
      assert orders[k] in orders;
      result := Ok(orders[k]);
    }
  }

  /** Once the trade is used up the remaining rows change nothing, so the loop may stop. */
  lemma {:induction false} NothingLeft(m: Matching, rows: seq<nat>, k: nat, tradePrice: real, eventId: string)
    requires InRange(m.orders, rows) && k <= |rows|
    requires MatchRows(m, rows[..k], tradePrice, eventId).Ok? && MatchRows(m, rows[..k], tradePrice, eventId).value.left <= 0.0
    ensures MatchRows(m, rows, tradePrice, eventId) == MatchRows(m, rows[..k], tradePrice, eventId)
    decreases |rows|
  {
    if k < |rows| {
      var init := rows[..|rows| - 1];
      assert init[..k] == rows[..k];
      NothingLeft(m, init, k, tradePrice, eventId);
    } else {
      assert rows[..k] == rows;
    }
  }

  lemma {:induction false} FailureStays(m: Matching, rows: seq<nat>, k: nat, tradePrice: real, eventId: string)
    requires InRange(m.orders, rows) && k <= |rows| && MatchRows(m, rows[..k], tradePrice, eventId).Err?
    ensures MatchRows(m, rows, tradePrice, eventId) == MatchRows(m, rows[..k], tradePrice, eventId)
    decreases |rows|
  {
    if k < |rows| {
      var init := rows[..|rows| - 1];
      assert init[..k] == rows[..k];
      FailureStays(m, init, k, tradePrice, eventId);
    } else {
      assert rows[..k] == rows;
    }
  }
}
