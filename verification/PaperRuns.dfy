/** Every paper transaction keeps the books; so does every run of them. */
module PaperRuns {
  import opened Wrappers
  import opened Domain
  import opened Sums
  import opened WalkBook
  import opened PaperLedger
  import opened PaperBalance

  lemma {:induction false} FindFinds(orders: seq<PaperOrder>, id: nat)
    ensures Find(orders, id) <= |orders|
    ensures Find(orders, id) < |orders| ==> orders[Find(orders, id)].id == id
    ensures Find(orders, id) == |orders| ==> forall k | 0 <= k < |orders| :: orders[k].id != id
  {
    if orders != [] && orders[0].id != id {
      FindFinds(orders[1..], id);
      forall k | 0 < k < |orders| ensures orders[k] == orders[1..][k - 1] {
      }
    }
  }

  // ---------------------------------------------------------------------------------------------
  // Commit and cancel
  // ---------------------------------------------------------------------------------------------

  lemma CommitKeepsBalance(a: Ledger, order: PaperOrder)
    requires Balanced(a) && SoundOrder(order) && CommitOrder(a, order).Ok?
    ensures Balanced(CommitOrder(a, order).value) && Conserves(a, CommitOrder(a, order).value)
  {
    var b := CommitOrder(a, order).value;
    FindFinds(a.orders, order.id);
    if Find(a.orders, order.id) == |a.orders| {
      CommitFollowsBooks(a, order);
      AppendIsBooked(a, b, order);
      CommitStaysSolvent(a, order);
      AppendKeepsRows(a.orders, order);
    }
  }

  lemma AppendKeepsRows(orders: seq<PaperOrder>, next: PaperOrder)
    requires DistinctIds(orders) && forall i | 0 <= i < |orders| :: SoundOrder(orders[i]) && orders[i].id != next.id
    requires SoundOrder(next)
    ensures var rows := orders + [next];
      DistinctIds(rows) && forall i | 0 <= i < |rows| :: SoundOrder(rows[i])
  {
  }

  lemma CommitFollowsBooks(a: Ledger, order: PaperOrder)
    requires Find(a.orders, order.id) == |a.orders| && SoundOrder(order) && CommitOrder(a, order).Ok?
    ensures BooksFollow(a, CommitOrder(a, order).value, Brought(order))
    ensures CommitOrder(a, order).value.orders == a.orders + [order]
  {
  }

  lemma CommitStaysSolvent(a: Ledger, order: PaperOrder)
    requires Solvent(a) && SoundOrder(order) && CommitOrder(a, order).Ok?
    ensures Solvent(CommitOrder(a, order).value)
  {
    FeeAtMostQuote(order.quote, order.feeRate);
    CostNonNegative(order.remaining, order.price, order.feeRate);
    AffordedStaysSolvent(a, order);
  }

  lemma AffordedStaysSolvent(a: Ledger, order: PaperOrder)
    requires Solvent(a) && CommitOrder(a, order).Ok?
    requires order.reservedQuote >= 0.0 && order.reservedShares >= 0.0 && order.filled >= 0.0
    requires order.side.Sell? ==> order.fee <= order.quote && order.reservedQuote == 0.0
    ensures Solvent(CommitOrder(a, order).value)
  {
    var b := CommitOrder(a, order).value;
    forall t ensures 0.0 <= HoldingOf(b, t).reserved <= HoldingOf(b, t).shares {
      assert 0.0 <= HoldingOf(a, t).reserved <= HoldingOf(a, t).shares;
    }
  }

  /** The books with the order's effect in them, whether or not the account can bear it. */
  ghost predicate BooksWith(a: Ledger, order: PaperOrder, b: Ledger) {
    b.orders == a.orders + [order] && BooksFollow(a, b, Brought(order))
  }

  /** A new order is refused exactly when every ledger with its effect in the books would be insolvent. */
  lemma CommitIffAffordable(a: Ledger, order: PaperOrder)
    requires Balanced(a) && SoundOrder(order) && Find(a.orders, order.id) == |a.orders|
    ensures CommitOrder(a, order).Ok? <==> exists b :: BooksWith(a, order, b) && Solvent(b)
  {
    if CommitOrder(a, order).Ok? {
      CommitFollowsBooks(a, order);
      CommitStaysSolvent(a, order);
      assert BooksWith(a, order, CommitOrder(a, order).value);
    }
    forall b | BooksWith(a, order, b) && Solvent(b) ensures CommitOrder(a, order).Ok? {
      AffordableCommits(a, order, b);
    }
  }

  lemma AffordableCommits(a: Ledger, order: PaperOrder, b: Ledger)
    requires Find(a.orders, order.id) == |a.orders| && BooksWith(a, order, b) && Solvent(b)
    ensures CommitOrder(a, order).Ok?
  {
    var t := order.tokenId;
    assert 0.0 <= HoldingOf(b, t).reserved <= HoldingOf(b, t).shares;
    assert HoldingOf(b, t).reserved - HoldingOf(a, t).reserved == Brought(order)(ShareReserve(t));
    assert HoldingOf(b, t).shares - HoldingOf(a, t).shares == Brought(order)(ShareFlow(t));
  }

  lemma CancelKeepsBalance(a: Ledger, id: nat)
    requires Balanced(a) && CancelOrder(a, id).Ok?
    ensures Balanced(CancelOrder(a, id).value) && Conserves(a, CancelOrder(a, id).value)
  {
    var k := Find(a.orders, id);
    FindFinds(a.orders, id);
    var o := a.orders[k];
    if !o.state.Terminal() {
      RowWithinReserve(a, k);
      assert SoundOrder(o);
      CancelShrinksReserves(a, k);
      RewriteIsBooked(a, CancelOrder(a, id).value, k, CancelledRow(o));
      RewriteKeepsRows(a.orders, k, CancelledRow(o));
    }
  }

  lemma CancelShrinksReserves(a: Ledger, k: nat)
    requires Balanced(a) && k < |a.orders| && !a.orders[k].state.Terminal()
    requires Find(a.orders, a.orders[k].id) == k
    ensures var o := a.orders[k];
      var b := CancelOrder(a, o.id).value;
      && Solvent(b) && BooksFollow(a, b, Gained(o, CancelledRow(o)))
  {
    RowWithinReserve(a, k);
    var o := a.orders[k];
    var b := CancelOrder(a, o.id).value;
    assert Solvent(a);
    forall t
      ensures HoldingOf(b, t).shares == HoldingOf(a, t).shares
      ensures HoldingOf(b, t).reserved == HoldingOf(a, t).reserved - ShareReserve(t)(o)
      ensures 0.0 <= HoldingOf(b, t).reserved <= HoldingOf(b, t).shares
    {
      assert 0.0 <= HoldingOf(a, t).reserved <= HoldingOf(a, t).shares;
    }
  }

  lemma RewriteKeepsRows(orders: seq<PaperOrder>, k: nat, next: PaperOrder)
    requires k < |orders| && next.id == orders[k].id && SoundOrder(next)
    requires DistinctIds(orders) && forall i | 0 <= i < |orders| :: SoundOrder(orders[i])
    ensures var rows := orders[k := next];
      DistinctIds(rows) && forall i | 0 <= i < |rows| :: SoundOrder(rows[i])
  {
  }

  // ---------------------------------------------------------------------------------------------
  // Trade-through
  // ---------------------------------------------------------------------------------------------

  /** A fill never overdraws: what it takes was reserved, and no clamp is reached. */
  lemma MatchRowKeepsBalance(l: Ledger, m: Matching, r: nat, tokenId: string, tradePrice: real, eventId: string)
    requires Balanced(Settled(l, m, tokenId, eventId)) && 0.0 < tradePrice < 1.0
    requires r < |m.orders| && m.orders[r].tokenId == tokenId
    ensures MatchRow(m, r, tradePrice, eventId).Ok?
    ensures var a, b := Settled(l, m, tokenId, eventId), Settled(l, MatchRow(m, r, tradePrice, eventId).value, tokenId, eventId);
      Balanced(b) && Conserves(a, b)
  {
    var a := Settled(l, m, tokenId, eventId);
    var o := m.orders[r];
    var fill := FillOf(o, tradePrice, m.left);
    assert SoundOrder(o);
    if fill > 0.0 {
      FilledIsSound(o, tradePrice, fill, eventId);
      MatchRowShrinksReserves(l, m, r, tokenId, tradePrice, eventId);
      var b := Settled(l, MatchRow(m, r, tradePrice, eventId).value, tokenId, eventId);
      var row := FilledRow(o, tradePrice, fill, eventId);
      RewriteIsBooked(a, b, r, row);
      RewriteKeepsRows(a.orders, r, row);
    }
  }

  lemma MatchRowShrinksReserves(l: Ledger, m: Matching, r: nat, tokenId: string, tradePrice: real, eventId: string)
    requires Balanced(Settled(l, m, tokenId, eventId)) && 0.0 < tradePrice < 1.0
    requires r < |m.orders| && m.orders[r].tokenId == tokenId && FillOf(m.orders[r], tradePrice, m.left) > 0.0
    ensures MatchRow(m, r, tradePrice, eventId).Ok?
    ensures var a, b := Settled(l, m, tokenId, eventId), Settled(l, MatchRow(m, r, tradePrice, eventId).value, tokenId, eventId);
      var o := m.orders[r];
      Solvent(b) && BooksFollow(a, b, Gained(o, FilledRow(o, tradePrice, FillOf(o, tradePrice, m.left), eventId)))
  {
    var o := m.orders[r];
    var fill := FillOf(o, tradePrice, m.left);
    assert SoundOrder(o);
    FillIsCovered(o, tradePrice, fill);
    var quote := QuoteOf(fill, tradePrice);
    FillFollowsBooks(l, m, r, tokenId, eventId, fill, quote, FeeOf(quote, o.feeRate), Released(o, fill),
                     TradeThrough(eventId, tradePrice, fill));
  }

  /** What a fill costs is within the reserve it releases, and that within the row's reserve. */
  lemma FillIsCovered(o: PaperOrder, tradePrice: real, fill: real)
    requires SoundOrder(o) && 0.0 < fill <= o.remaining && Crossed(o, tradePrice) && 0.0 < tradePrice
    ensures var quote := QuoteOf(fill, tradePrice);
      && 0.0 <= FeeOf(quote, o.feeRate) <= quote
      && (o.side.Buy? ==> quote + FeeOf(quote, o.feeRate) <= Released(o, fill) <= o.reservedQuote)
    ensures o.side.Sell? ==> fill <= o.reservedShares
  {
    FillIsCharged(fill, tradePrice, o.feeRate);
    if o.side.Buy? {
      CostGrowsWithPrice(fill, tradePrice, o.price, o.feeRate);
      CostSplits(o.remaining - fill, fill, o.price, o.feeRate);
      CostNonNegative(o.remaining - fill, o.price, o.feeRate);
    }
  }

  lemma FillFollowsBooks(l: Ledger, m: Matching, r: nat, tokenId: string, eventId: string,
                         fill: real, quote: real, fee: real, released: real, trade: Evidence)
    requires Balanced(Settled(l, m, tokenId, eventId)) && trade.TradeThrough?
    requires r < |m.orders| && m.orders[r].tokenId == tokenId
    requires 0.0 < fill && 0.0 <= fee <= quote
    requires m.orders[r].side.Buy? ==> quote + fee <= released <= m.orders[r].reservedQuote
    requires m.orders[r].side.Sell? ==> fill <= m.orders[r].reservedShares
    ensures var o := m.orders[r];
      var row := RowAfter(o, fill, quote, fee, released, trade);
      var next := BooksAfter(m, o.side, fill, quote, fee, released).(orders := m.orders[r := row]);
      var a, b := Settled(l, m, tokenId, eventId), Settled(l, next, tokenId, eventId);
      && Solvent(b) && BooksFollow(a, b, Gained(o, row))
      && next.quoteBalance >= 0.0 && next.holding.shares >= 0.0
  {
    var a := Settled(l, m, tokenId, eventId);
    var o := m.orders[r];
    RowWithinReserve(a, r);
    assert HoldingOf(a, tokenId) == m.holding;
    assert m.holding.reserved <= m.holding.shares;
    var row := RowAfter(o, fill, quote, fee, released, trade);
    var next := BooksAfter(m, o.side, fill, quote, fee, released).(orders := m.orders[r := row]);
    var b := Settled(l, next, tokenId, eventId);
    forall t | t != tokenId ensures HoldingOf(b, t) == HoldingOf(a, t) {
    }
    forall t ensures 0.0 <= HoldingOf(b, t).reserved <= HoldingOf(b, t).shares {
      if t != tokenId {
        assert 0.0 <= HoldingOf(a, t).reserved <= HoldingOf(a, t).shares;
      }
    }
  }

  lemma ConservesTransitive(a: Ledger, b: Ledger, c: Ledger)
    requires Conserves(a, b) && Conserves(b, c)
    ensures Conserves(a, c)
  {
    forall t ensures OpeningShares(c, t) == OpeningShares(a, t) {
      assert OpeningShares(c, t) == OpeningShares(b, t);
    }
  }

  predicate OfToken(orders: seq<PaperOrder>, rows: seq<nat>, tokenId: string) {
    forall k | 0 <= k < |rows| :: rows[k] < |orders| && orders[rows[k]].tokenId == tokenId
  }

  /** Matching rewrites rows in place: ids, tokens and terms stay. */
  lemma {:induction false} MatchRowsKeepTerms(m: Matching, rows: seq<nat>, tradePrice: real, eventId: string)
    requires forall k | 0 <= k < |rows| :: rows[k] < |m.orders|
    requires MatchRows(m, rows, tradePrice, eventId).Ok?
    ensures forall i | 0 <= i < |m.orders| ::
      MatchRows(m, rows, tradePrice, eventId).value.orders[i].tokenId == m.orders[i].tokenId
  {
    if rows != [] {
      MatchRowsKeepTerms(m, rows[..|rows| - 1], tradePrice, eventId);
    }
  }

  lemma {:induction false} MatchRowsKeepBalance(l: Ledger, m: Matching, rows: seq<nat>, tokenId: string,
            tradePrice: real, eventId: string)
    requires Balanced(Settled(l, m, tokenId, eventId)) && 0.0 < tradePrice < 1.0 && OfToken(m.orders, rows, tokenId)
    ensures MatchRows(m, rows, tradePrice, eventId).Ok?
    ensures var a, b := Settled(l, m, tokenId, eventId), Settled(l, MatchRows(m, rows, tradePrice, eventId).value, tokenId, eventId);
      Balanced(b) && Conserves(a, b)
    decreases |rows|
  {
    if rows != [] {
      var init, r := rows[..|rows| - 1], rows[|rows| - 1];
      MatchRowsKeepBalance(l, m, init, tokenId, tradePrice, eventId);
      MatchRowsKeepTerms(m, init, tradePrice, eventId);
      var mid := MatchRows(m, init, tradePrice, eventId).value;
      assert mid.orders[r].tokenId == m.orders[r].tokenId == tokenId;
      MatchRowKeepsBalance(l, mid, r, tokenId, tradePrice, eventId);
      ConservesTransitive(Settled(l, m, tokenId, eventId), Settled(l, mid, tokenId, eventId),
                          Settled(l, MatchRow(mid, r, tradePrice, eventId).value, tokenId, eventId));
    }
  }

  lemma {:induction false} OpenRowsOfToken(orders: seq<PaperOrder>, n: nat, tokenId: string, observedAt: int)
    requires n <= |orders|
    ensures OfToken(orders, OpenRows(orders, n, tokenId, observedAt), tokenId)
  {
    if n > 0 {
      OpenRowsOfToken(orders, n - 1, tokenId, observedAt);
      if Matchable(orders[n - 1], tokenId, observedAt) {
        InsertOfToken(orders, OpenRows(orders, n - 1, tokenId, observedAt), n - 1, tokenId);
      }
    }
  }

  lemma {:induction false} InsertOfToken(orders: seq<PaperOrder>, rows: seq<nat>, r: nat, tokenId: string)
    requires OfToken(orders, rows, tokenId) && r < |orders| && orders[r].tokenId == tokenId
    ensures OfToken(orders, InsertRow(orders, rows, r), tokenId)
  {
    if rows != [] && Earlier(orders[r], orders[rows[|rows| - 1]]) {
      InsertOfToken(orders, rows[..|rows| - 1], r, tokenId);
    }
  }

  lemma StartIsBalanced(l: Ledger, tokenId: string, size: real, eventId: string)
    requires Balanced(l)
    ensures Balanced(Settled(l, StartMatching(l, tokenId, size), tokenId, eventId))
    ensures Conserves(l, Settled(l, StartMatching(l, tokenId, size), tokenId, eventId))
  {
    var b := Settled(l, StartMatching(l, tokenId, size), tokenId, eventId);
    forall t ensures HoldingOf(b, t) == HoldingOf(l, t) {
    }
    forall t ensures HoldingOf(b, t).reserved == Total(b.orders, ShareReserve(t)) {
      assert HoldingOf(l, t).reserved == Total(l.orders, ShareReserve(t));
    }
    forall t ensures 0.0 <= HoldingOf(b, t).reserved <= HoldingOf(b, t).shares {
      assert 0.0 <= HoldingOf(l, t).reserved <= HoldingOf(l, t).shares;
    }
  }

  /** A market trade is refused only for its own fields, never because a fill would overdraw. */
  lemma TradeThroughKeepsBalance(a: Ledger, eventId: string, tokenId: string, price: real, size: real, observedAt: int)
    requires Balanced(a)
    ensures var result := ApplyTradeThrough(a, eventId, tokenId, price, size, observedAt);
      && (result.Err? <==> eventId == "" || tokenId == "" || price <= 0.0 || price >= 1.0 || size <= 0.0)
      && (result.Ok? ==> Balanced(result.value) && Conserves(a, result.value))
  {
    if !(eventId == "" || tokenId == "" || price <= 0.0 || price >= 1.0 || size <= 0.0) && eventId !in a.events {
      var rows := OpenRows(a.orders, |a.orders|, tokenId, observedAt);
      var m := StartMatching(a, tokenId, size);
      StartIsBalanced(a, tokenId, size, eventId);
      OpenRowsOfToken(a.orders, |a.orders|, tokenId, observedAt);
      MatchRowsKeepBalance(a, m, rows, tokenId, price, eventId);
      var b := Settled(a, MatchRows(m, rows, price, eventId).value, tokenId, eventId);
      ConservesTransitive(a, Settled(a, m, tokenId, eventId), b);
      assert ApplyTradeThrough(a, eventId, tokenId, price, size, observedAt) == Ok(b);
    }
  }

  // ---------------------------------------------------------------------------------------------
  // Runs
  // ---------------------------------------------------------------------------------------------

  datatype PaperStep =
    | Submit(request: Request, market: MarketRules, book: OrderBook, walk: PaperFill, id: nat, createdAt: int)
    | Cancel(id: nat)
    | Trade(eventId: string, tokenId: string, price: real, size: real, observedAt: int)

  /** What the venue may ask of the ledger: a sound submission, any cancellation, any market trade. */
  ghost predicate Admissible(step: PaperStep) {
    match step
    case Submit(request, market, book, walk, _, _) =>
      && request.QuantityDecimal().Some? && request.ProtectionPrice().Some?
      && market.tickSize > 0.0 && 0.0 <= market.makerFeeRate <= 1.0 && 0.0 <= market.takerFeeRate <= 1.0
      && ValidLevels(book.asks) && ValidLevels(book.bids) && WalkedFor(request, market, book, walk)
    case _ => true
  }

  function Apply(l: Ledger, step: PaperStep): Result<Ledger, PaperRefusal>
    requires step.Submit? ==> step.request.QuantityDecimal().Some? && step.request.ProtectionPrice().Some?
                              && step.market.tickSize > 0.0
  {
    match step
    case Submit(request, market, _, walk, id, createdAt) =>
      CommitOrder(l, SubmittedOrder(request, market, walk, id, createdAt))
    case Cancel(id) => CancelOrder(l, id)
    case Trade(eventId, tokenId, price, size, observedAt) => ApplyTradeThrough(l, eventId, tokenId, price, size, observedAt)
  }

  /** One step of a run: the committed ledger, or the same ledger when the transaction is refused. */
  function After(l: Ledger, step: PaperStep): Ledger
    requires step.Submit? ==> step.request.QuantityDecimal().Some? && step.request.ProtectionPrice().Some?
                              && step.market.tickSize > 0.0
  {
    var result := Apply(l, step);
    if result.Ok? then result.value else l
  }

  /** The account as it is initialised: no orders, no reserves, no negative balance. */
  ghost predicate Opened(l: Ledger) {
    && l.orders == [] && l.quoteBalance >= 0.0 && l.reservedQuote == 0.0 && l.events == {}
    && forall t {:trigger HoldingOf(l, t)} :: HoldingOf(l, t).reserved == 0.0 && HoldingOf(l, t).shares >= 0.0
  }

  ghost predicate LedgerRun(ledgers: seq<Ledger>, steps: seq<PaperStep>) {
    && |ledgers| == |steps| + 1 && Opened(ledgers[0])
    && forall k {:trigger steps[k]} | 0 <= k < |steps| :: Admissible(steps[k]) && ledgers[k + 1] == After(ledgers[k], steps[k])
  }

  lemma StepKeepsBalance(l: Ledger, step: PaperStep)
    requires Balanced(l) && Admissible(step)
    ensures Balanced(After(l, step)) && Conserves(l, After(l, step))
    ensures Apply(l, step) != Err(Overdraw)
  {
    match step {
      case Submit(request, market, book, walk, id, createdAt) =>
        SubmittedIsSound(request, market, book, walk, id, createdAt);
        var order := SubmittedOrder(request, market, walk, id, createdAt);
        if CommitOrder(l, order).Ok? {
          CommitKeepsBalance(l, order);
        }
      case Cancel(id) =>
        if CancelOrder(l, id).Ok? {
          CancelKeepsBalance(l, id);
        }
      case Trade(eventId, tokenId, price, size, observedAt) =>
        TradeThroughKeepsBalance(l, eventId, tokenId, price, size, observedAt);
        TradeThroughRefusal(l, eventId, tokenId, price, size, observedAt);
    }
  }

  lemma TradeThroughRefusal(l: Ledger, eventId: string, tokenId: string, price: real, size: real, observedAt: int)
    requires Balanced(l)
    ensures ApplyTradeThrough(l, eventId, tokenId, price, size, observedAt) != Err(Overdraw)
  {
    TradeThroughKeepsBalance(l, eventId, tokenId, price, size, observedAt);
  }

  /**
   In every reachable ledger the reserves are the sums over the orders and never exceed the balances,
   cash and shares are the opening ones moved by exactly the recorded fills, and the overdraw error
   is never met.
   */
  lemma {:induction false} LedgerIsAlwaysBalanced(ledgers: seq<Ledger>, steps: seq<PaperStep>, k: nat)
    requires LedgerRun(ledgers, steps) && k < |ledgers|
    ensures Balanced(ledgers[k]) && Conserves(ledgers[0], ledgers[k])
    ensures k < |steps| ==> Apply(ledgers[k], steps[k]) != Err(Overdraw)
  {
    if k > 0 {
      LedgerIsAlwaysBalanced(ledgers, steps, k - 1);
      assert ledgers[k] == After(ledgers[k - 1], steps[k - 1]);
      StepKeepsBalance(ledgers[k - 1], steps[k - 1]);
      ConservesTransitive(ledgers[0], ledgers[k - 1], ledgers[k]);
    }
    if k < |steps| {
      assert Admissible(steps[k]);
      StepKeepsBalance(ledgers[k], steps[k]);
    }
  }
}
