/** What becomes of one paper order over a run, and what its reserve is good for. */
module PaperOrders {
  import opened Wrappers
  import opened Domain
  import opened Sums
  import opened WalkBook
  import opened PaperLedger
  import opened PaperBalance
  import opened PaperRuns
  import opened PaperMatching

  /** Terms stay, fills only add up, open quantity is only given up, and a finished order is final. */
  predicate RowEvolves(a: PaperOrder, b: PaperOrder) {
    && a.id == b.id && a.tokenId == b.tokenId && a.side == b.side && a.price == b.price && a.feeRate == b.feeRate
    && a.original == b.original && a.createdAt == b.createdAt && a.tradeIds <= b.tradeIds
    && a.filled <= b.filled && b.filled + b.remaining <= a.filled + a.remaining
    && (!Resting(a) ==> a == b)
  }

  predicate RowsEvolve(a: Ledger, b: Ledger) {
    && |a.orders| <= |b.orders|
    && (forall k | 0 <= k < |a.orders| :: RowEvolves(a.orders[k], b.orders[k]))
    && a.events <= b.events
  }

  lemma TradeEvolves(l: Ledger, eventId: string, tokenId: string, price: real, size: real, observedAt: int)
    requires Balanced(l) && ApplyTradeThrough(l, eventId, tokenId, price, size, observedAt).Ok?
    ensures RowsEvolve(l, ApplyTradeThrough(l, eventId, tokenId, price, size, observedAt).value)
  {
    if eventId !in l.events {
      TradeFillsFairly(l, eventId, tokenId, price, size, observedAt);
      forall k | 0 <= k < |l.orders|
        ensures RowEvolves(l.orders[k], ApplyTradeThrough(l, eventId, tokenId, price, size, observedAt).value.orders[k])
      {
        assert SoundOrder(l.orders[k]);
      }
    }
  }

  lemma StepEvolves(l: Ledger, step: PaperStep)
    requires Balanced(l) && Admissible(step)
    ensures RowsEvolve(l, After(l, step))
  {
    match step {
      case Submit(_, _, _, _, _, _) =>
      case Cancel(id) =>
        FindFinds(l.orders, id);
        assert forall k | 0 <= k < |l.orders| :: SoundOrder(l.orders[k]);
      case Trade(eventId, tokenId, price, size, observedAt) =>
        if ApplyTradeThrough(l, eventId, tokenId, price, size, observedAt).Ok? {
          TradeEvolves(l, eventId, tokenId, price, size, observedAt);
        }
    }
  }

  lemma RowsEvolveTransitive(a: Ledger, b: Ledger, c: Ledger)
    requires RowsEvolve(a, b) && RowsEvolve(b, c)
    ensures RowsEvolve(a, c)
  {
    forall k | 0 <= k < |a.orders| ensures RowEvolves(a.orders[k], c.orders[k]) {
      assert RowEvolves(a.orders[k], b.orders[k]) && RowEvolves(b.orders[k], c.orders[k]);
    }
  }

  /** Rows of any ledger of a run evolve into those of any later one. */
  lemma {:induction false} RunEvolves(ledgers: seq<Ledger>, steps: seq<PaperStep>, k: nat, n: nat)
    requires LedgerRun(ledgers, steps) && k <= n < |ledgers|
    ensures RowsEvolve(ledgers[k], ledgers[n])
  {
    if k < n {
      RunEvolves(ledgers, steps, k, n - 1);
      LedgerIsAlwaysBalanced(ledgers, steps, n - 1);
      assert ledgers[n] == After(ledgers[n - 1], steps[n - 1]);
      StepEvolves(ledgers[n - 1], steps[n - 1]);
      RowsEvolveTransitive(ledgers[k], ledgers[n - 1], ledgers[n]);
    }
  }

  /** Whatever fills come, a buy that rests in ledger `k` without a fill never costs more than its reserve there. */
  lemma RestingBuyWithinReserve(ledgers: seq<Ledger>, steps: seq<PaperStep>, k: nat, n: nat, r: nat)
    requires LedgerRun(ledgers, steps) && k <= n < |ledgers| && r < |ledgers[k].orders|
    requires var o := ledgers[k].orders[r]; Resting(o) && o.side.Buy? && o.filled == 0.0
    ensures |ledgers[k].orders| <= |ledgers[n].orders|
    ensures ledgers[n].orders[r].quote + ledgers[n].orders[r].fee <= ledgers[k].orders[r].reservedQuote
  {
    RunEvolves(ledgers, steps, k, n);
    LedgerIsAlwaysBalanced(ledgers, steps, k);
    LedgerIsAlwaysBalanced(ledgers, steps, n);
    var o, later := ledgers[k].orders[r], ledgers[n].orders[r];
    assert SoundOrder(o) && SoundOrder(later) && RowEvolves(o, later);
    CostSplits(later.filled, o.remaining - later.filled, o.price, o.feeRate);
    CostNonNegative(o.remaining - later.filled, o.price, o.feeRate);
  }

  // ---------------------------------------------------------------------------------------------
  // The fee rates that are safe
  // ---------------------------------------------------------------------------------------------

  /** A step the venue may take in a market whose larger fee rate is `f`, whatever `f` is. */
  ghost predicate Rated(step: PaperStep, f: real) {
    match step
    case Submit(request, market, book, walk, _, _) =>
      && request.QuantityDecimal().Some? && request.ProtectionPrice().Some?
      && market.tickSize > 0.0 && 0.0 <= market.makerFeeRate && 0.0 <= market.takerFeeRate && market.LargerFee() == f
      && ValidLevels(book.asks) && ValidLevels(book.bids) && WalkedFor(request, market, book, walk)
    case _ => true
  }

  ghost predicate RatedRun(ledgers: seq<Ledger>, steps: seq<PaperStep>, f: real) {
    && |ledgers| == |steps| + 1 && Opened(ledgers[0])
    && forall k {:trigger steps[k]} | 0 <= k < |steps| :: Rated(steps[k], f) && ledgers[k + 1] == After(ledgers[k], steps[k])
  }

  ghost predicate Overdraws(ledgers: seq<Ledger>, steps: seq<PaperStep>, f: real)
    requires RatedRun(ledgers, steps, f)
  {
    exists k | 0 <= k < |steps| :: Apply(ledgers[k], steps[k]) == Err(Overdraw)
  }

  /** A sale of ten shares resting at one half. */
  function RestingSale(f: real): PaperOrder {
    PaperOrder(0, "t", Sell, Live, 0.5, f, 10.0, 10.0, 0.0, 0.0, 0.0, 0.0, 10.0, [],
               Submission(false, PaperFill(0.0, 0.0, 0.0, false)), 0)
  }

  function WithSale(f: real): Ledger {
    Ledger([RestingSale(f)], 0.0, 0.0, map["t" := Holding(10.0, 10.0)], {})
  }

  /** Its fill at 0.6 earns six and costs six times the rate. */
  lemma SaleOverdraws(f: real)
    requires f > 1.0
    ensures ApplyTradeThrough(WithSale(f), "e", "t", 0.6, 10.0, 0) == Err(Overdraw)
  {
    var o, l := RestingSale(f), WithSale(f);
    assert OpenRows(l.orders, 0, "t", 0) == [];
    assert OpenRows(l.orders, 1, "t", 0) == [0];
    var m := StartMatching(l, "t", 10.0);
    assert FillOf(o, 0.6, 10.0) == 10.0;
    assert QuoteOf(10.0, 0.6) == 6.0 && FeeOf(6.0, f) == 6.0 * f > 6.0;
    assert MatchRow(m, 0, 0.6, "e") == Err(Overdraw);
    assert MatchRows(m, [], 0.6, "e") == Ok(m);
    assert [0][..0] == [];
    assert MatchRows(m, [0], 0.6, "e") == Err(Overdraw);
  }

  /** At any rate above one, an account that opens with shares and no cash can be overdrawn by one sale. */
  lemma FeesAboveOneOverdraw(f: real) returns (ledgers: seq<Ledger>, steps: seq<PaperStep>)
    requires f > 1.0
    ensures RatedRun(ledgers, steps, f) && Overdraws(ledgers, steps, f)
  {
    var start := Ledger([], 0.0, 0.0, map["t" := Holding(10.0, 0.0)], {});
    var request := Request("c", "t", Sell, Gtc, Some(10.0), Some(0.5));
    var submit := Submit(request, MarketRules(true, false, true, 0.01, f, f), OrderBook([], []),
                         PaperFill(0.0, 0.0, 0.0, false), 0, 0);
    var trade := Trade("e", "t", 0.6, 10.0, 0);
    assert start.inventory["t" := Holding(10.0, 10.0)] == map["t" := Holding(10.0, 10.0)];
    assert After(start, submit) == WithSale(f);
    SaleOverdraws(f);
    ledgers, steps := [start, WithSale(f), WithSale(f)], [submit, trade];
    assert After(WithSale(f), trade) == WithSale(f);
    assert Apply(ledgers[1], steps[1]) == Err(Overdraw);
  }

  /** Paper accounts in a market with fee rate `f` are never overdrawn exactly when `f` is at most one. */
  lemma NeverOverdrawnIff(f: real)
    requires f >= 0.0
    ensures (forall ledgers, steps | RatedRun(ledgers, steps, f) :: !Overdraws(ledgers, steps, f)) <==> f <= 1.0
  {
    if f > 1.0 {
      var ledgers, steps := FeesAboveOneOverdraw(f);
      assert RatedRun(ledgers, steps, f) && Overdraws(ledgers, steps, f);
    } else {
      forall ledgers, steps | RatedRun(ledgers, steps, f) ensures !Overdraws(ledgers, steps, f) {
        LowRatesAreAdmissible(ledgers, steps, f);
        forall k | 0 <= k < |steps| ensures Apply(ledgers[k], steps[k]) != Err(Overdraw) {
          LedgerIsAlwaysBalanced(ledgers, steps, k);
        }
      }
    }
  }

  lemma LowRatesAreAdmissible(ledgers: seq<Ledger>, steps: seq<PaperStep>, f: real)
    requires RatedRun(ledgers, steps, f) && f <= 1.0
    ensures LedgerRun(ledgers, steps)
  {
    forall k | 0 <= k < |steps| ensures Admissible(steps[k]) {
      assert Rated(steps[k], f);
    }
  }
}
