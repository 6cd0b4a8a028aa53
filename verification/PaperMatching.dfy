/**
 What one market trade does to the open orders of its token: a waterfall in time priority.

 The fill of each order is given in closed form over the order table, without mention of the loop.
 */
module PaperMatching {
  import opened Wrappers
  import opened Domain
  import opened Sums
  import opened PaperLedger
  import opened PaperBalance
  import opened PaperRuns

  // ---------------------------------------------------------------------------------------------
  // The selected rows
  // ---------------------------------------------------------------------------------------------

  predicate InRange(orders: seq<PaperOrder>, rows: seq<nat>) {
    forall k | 0 <= k < |rows| :: rows[k] < |orders|
  }

  predicate InTimeOrder(orders: seq<PaperOrder>, rows: seq<nat>)
    requires InRange(orders, rows)
  {
    forall i, j | 0 <= i < j < |rows| :: Earlier(orders[rows[i]], orders[rows[j]])
  }

  lemma {:induction false} InsertMembers(orders: seq<PaperOrder>, rows: seq<nat>, r: nat)
    requires InRange(orders, rows) && r < |orders|
    ensures InRange(orders, InsertRow(orders, rows, r))
    ensures forall x :: x in InsertRow(orders, rows, r) <==> x in rows || x == r
  {
    if rows != [] {
      assert rows == rows[..|rows| - 1] + [rows[|rows| - 1]];
      InsertMembers(orders, rows[..|rows| - 1], r);
    }
  }

  predicate AllEarlier(orders: seq<PaperOrder>, rows: seq<nat>, r: nat)
    requires InRange(orders, rows) && r < |orders|
  {
    forall x | x in rows :: Earlier(orders[x], orders[r])
  }

  lemma AppendInOrder(orders: seq<PaperOrder>, rows: seq<nat>, r: nat)
    requires InRange(orders, rows) && r < |orders| && InTimeOrder(orders, rows) && AllEarlier(orders, rows, r)
    ensures InRange(orders, rows + [r]) && InTimeOrder(orders, rows + [r])
  {
  }

  lemma {:induction false} InsertKeepsOrder(orders: seq<PaperOrder>, rows: seq<nat>, r: nat)
    requires DistinctIds(orders) && InRange(orders, rows) && r < |orders| && r !in rows
    requires InTimeOrder(orders, rows)
    ensures InRange(orders, InsertRow(orders, rows, r)) && InTimeOrder(orders, InsertRow(orders, rows, r))
  {
    if rows != [] {
      var init, last := rows[..|rows| - 1], rows[|rows| - 1];
      EndIsLatest(orders, rows);
      assert orders[last].id != orders[r].id;
      if Earlier(orders[r], orders[last]) {
        InsertKeepsOrder(orders, init, r);
        InsertMembers(orders, init, r);
        AppendInOrder(orders, InsertRow(orders, init, r), last);
      } else {
        assert Earlier(orders[last], orders[r]);
        assert rows == init + [last];
        AppendInOrder(orders, rows, r);
      }
    }
  }

  lemma EndIsLatest(orders: seq<PaperOrder>, rows: seq<nat>)
    requires InRange(orders, rows) && InTimeOrder(orders, rows) && rows != []
    ensures InRange(orders, rows[..|rows| - 1]) && InTimeOrder(orders, rows[..|rows| - 1])
    ensures AllEarlier(orders, rows[..|rows| - 1], rows[|rows| - 1])
  {
  }

  predicate IsMatchableRow(orders: seq<PaperOrder>, n: nat, r: nat, tokenId: string, observedAt: int)
    requires n <= |orders|
  {
    r < n && Matchable(orders[r], tokenId, observedAt)
  }

  lemma {:induction false} OpenRowsSelect(orders: seq<PaperOrder>, n: nat, tokenId: string, observedAt: int)
    requires n <= |orders|
    ensures forall r: nat :: r in OpenRows(orders, n, tokenId, observedAt) <==> IsMatchableRow(orders, n, r, tokenId, observedAt)
  {
    if n > 0 {
      OpenRowsSelect(orders, n - 1, tokenId, observedAt);
      if Matchable(orders[n - 1], tokenId, observedAt) {
        InsertMembers(orders, OpenRows(orders, n - 1, tokenId, observedAt), n - 1);
      }
    }
  }

  lemma {:induction false} OpenRowsInOrder(orders: seq<PaperOrder>, n: nat, tokenId: string, observedAt: int)
    requires n <= |orders| && DistinctIds(orders)
    ensures InTimeOrder(orders, OpenRows(orders, n, tokenId, observedAt))
  {
    if n > 0 {
      OpenRowsInOrder(orders, n - 1, tokenId, observedAt);
      if Matchable(orders[n - 1], tokenId, observedAt) {
        OpenRowsSelect(orders, n - 1, tokenId, observedAt);
        InsertKeepsOrder(orders, OpenRows(orders, n - 1, tokenId, observedAt), n - 1);
      }
    }
  }

  /** The SELECT finds exactly the matchable rows, each once, oldest first. */
  lemma OpenRowsAreTheMatchable(orders: seq<PaperOrder>, tokenId: string, observedAt: int)
    requires DistinctIds(orders)
    ensures var rows := OpenRows(orders, |orders|, tokenId, observedAt);
      && InRange(orders, rows) && InTimeOrder(orders, rows)
      && (forall i, j | 0 <= i < j < |rows| :: rows[i] != rows[j])
      && (forall r: nat :: r in rows <==> r < |orders| && Matchable(orders[r], tokenId, observedAt))
  {
    OpenRowsSelect(orders, |orders|, tokenId, observedAt);
    OpenRowsInOrder(orders, |orders|, tokenId, observedAt);
    var rows := OpenRows(orders, |orders|, tokenId, observedAt);
    forall i, j | 0 <= i < j < |rows| ensures rows[i] != rows[j] {
      assert Earlier(orders[rows[i]], orders[rows[j]]);
    }
    forall r: nat ensures r in rows <==> r < |orders| && Matchable(orders[r], tokenId, observedAt) {
      assert r in rows <==> IsMatchableRow(orders, |orders|, r, tokenId, observedAt);
    }
  }

  function AtRow(orders: seq<PaperOrder>, weight: PaperOrder -> real): nat -> real {
    (r: nat) => if r < |orders| then weight(orders[r]) else 0.0
  }

  function IfMatchable(weight: PaperOrder -> real, tokenId: string, observedAt: int): PaperOrder -> real {
    (o: PaperOrder) => if Matchable(o, tokenId, observedAt) then weight(o) else 0.0
  }

  lemma {:induction false} InsertTotal(orders: seq<PaperOrder>, rows: seq<nat>, r: nat, weight: nat -> real)
    requires InRange(orders, rows) && r < |orders|
    ensures Total(InsertRow(orders, rows, r), weight) == Total(rows, weight) + weight(r)
  {
    if rows == [] || !Earlier(orders[r], orders[rows[|rows| - 1]]) {
      TotalAppend(rows, r, weight);
      assert [] + [r] == [r];
    } else {
      var init, last := rows[..|rows| - 1], rows[|rows| - 1];
      InsertTotal(orders, init, r, weight);
      TotalAppend(InsertRow(orders, init, r), last, weight);
    }
  }

  /** A sum over the selected rows is a sum over the table. */
  lemma {:induction false} OpenRowsTotal(orders: seq<PaperOrder>, n: nat, tokenId: string, observedAt: int,
            weight: PaperOrder -> real)
    requires n <= |orders|
    ensures Total(OpenRows(orders, n, tokenId, observedAt), AtRow(orders, weight))
         == Total(orders[..n], IfMatchable(weight, tokenId, observedAt))
  {
    if n > 0 {
      OpenRowsTotal(orders, n - 1, tokenId, observedAt, weight);
      TotalNext(orders, n - 1, IfMatchable(weight, tokenId, observedAt));
      if Matchable(orders[n - 1], tokenId, observedAt) {
        InsertTotal(orders, OpenRows(orders, n - 1, tokenId, observedAt), n - 1, AtRow(orders, weight));
      }
    }
  }

  // ---------------------------------------------------------------------------------------------
  // The loop
  // ---------------------------------------------------------------------------------------------

  /** What an order would take of an unlimited trade. */
  function Demand(price: real): PaperOrder -> real {
    (o: PaperOrder) => if Crossed(o, price) then o.remaining else 0.0
  }

  function LeftAfter(orders: seq<PaperOrder>, rows: seq<nat>, price: real, size: real): real {
    Max(0.0, size - Total(rows, AtRow(orders, Demand(price))))
  }

  /** The row as the trade leaves it, when `left` shares of the trade reach it. */
  function Reached(o: PaperOrder, price: real, left: real, eventId: string): PaperOrder {
    if FillOf(o, price, left) > 0.0 then FilledRow(o, price, FillOf(o, price, left), eventId) else o
  }

  lemma MatchRowReaches(m: Matching, r: nat, price: real, eventId: string)
    requires r < |m.orders| && m.left >= 0.0 && m.orders[r].remaining >= 0.0 && MatchRow(m, r, price, eventId).Ok?
    ensures var next := MatchRow(m, r, price, eventId).value;
      && next.orders == m.orders[r := Reached(m.orders[r], price, m.left, eventId)]
      && next.left == Max(0.0, m.left - Demand(price)(m.orders[r]))
  {
  }

  predicate ReachedAt(m: Matching, next: Matching, rows: seq<nat>, k: nat, price: real, eventId: string)
    requires k < |rows| && rows[k] < |m.orders| == |next.orders|
  {
    next.orders[rows[k]] == Reached(m.orders[rows[k]], price, LeftAfter(m.orders, rows[..k], price, m.left), eventId)
  }

  predicate Selected(orders: seq<PaperOrder>, rows: seq<nat>) {
    && InRange(orders, rows)
    && (forall i, j | 0 <= i < j < |rows| :: rows[i] != rows[j])
    && (forall k | 0 <= k < |rows| :: orders[rows[k]].remaining >= 0.0)
  }

  /** The state after the rows so far: the waterfall up to here, nothing else touched. */
  predicate Waterfall(m: Matching, next: Matching, rows: seq<nat>, price: real, eventId: string)
    requires InRange(m.orders, rows)
  {
    && |next.orders| == |m.orders| && next.left == LeftAfter(m.orders, rows, price, m.left)
    && (forall k | 0 <= k < |rows| :: ReachedAt(m, next, rows, k, price, eventId))
    && (forall i: nat | i < |m.orders| && i !in rows :: next.orders[i] == m.orders[i])
  }

  lemma LeftAfterNext(orders: seq<PaperOrder>, rows: seq<nat>, price: real, size: real)
    requires Selected(orders, rows) && rows != [] && size >= 0.0
    ensures LeftAfter(orders, rows, price, size)
         == Max(0.0, LeftAfter(orders, rows[..|rows| - 1], price, size) - Demand(price)(orders[rows[|rows| - 1]]))
  {
  }

  /** One more row of the waterfall. */
  lemma WaterfallNext(m: Matching, mid: Matching, next: Matching, rows: seq<nat>, price: real, eventId: string)
    requires Selected(m.orders, rows) && rows != [] && m.left >= 0.0
    requires Waterfall(m, mid, rows[..|rows| - 1], price, eventId)
    requires var r := rows[|rows| - 1];
      next.orders == mid.orders[r := Reached(mid.orders[r], price, mid.left, eventId)]
      && next.left == Max(0.0, mid.left - Demand(price)(mid.orders[r]))
    ensures Waterfall(m, next, rows, price, eventId)
  {
    var n := |rows| - 1;
    var init, r := rows[..n], rows[n];
    assert r !in init;
    LeftAfterNext(m.orders, rows, price, m.left);
    forall k | 0 <= k < |rows| ensures ReachedAt(m, next, rows, k, price, eventId) {
      if k < n {
        assert ReachedAt(m, mid, init, k, price, eventId);
        assert init[..k] == rows[..k] && init[k] == rows[k];
      }
    }
    assert rows == init + [r];
  }

  lemma {:induction false} MatchRowsIsWaterfall(m: Matching, rows: seq<nat>, price: real, eventId: string)
    requires Selected(m.orders, rows) && m.left >= 0.0 && MatchRows(m, rows, price, eventId).Ok?
    ensures Waterfall(m, MatchRows(m, rows, price, eventId).value, rows, price, eventId)
    decreases |rows|
  {
    if rows != [] {
      var n := |rows| - 1;
      var init, r := rows[..n], rows[n];
      MatchRowsIsWaterfall(m, init, price, eventId);
      var mid := MatchRows(m, init, price, eventId).value;
      assert r !in init && mid.orders[r] == m.orders[r];
      MatchRowReaches(mid, r, price, eventId);
      WaterfallNext(m, mid, MatchRow(mid, r, price, eventId).value, rows, price, eventId);
    }
  }

  function Filled(): PaperOrder -> real {
    (o: PaperOrder) => o.filled
  }

  /** Shares are handed over: what the orders gain is what the trade loses. */
  lemma {:induction false} MatchRowsConserveTrade(m: Matching, rows: seq<nat>, price: real, eventId: string)
    requires InRange(m.orders, rows) && MatchRows(m, rows, price, eventId).Ok?
    ensures var next := MatchRows(m, rows, price, eventId).value;
      Total(next.orders, Filled()) + next.left == Total(m.orders, Filled()) + m.left
    decreases |rows|
  {
    if rows != [] {
      var init, r := rows[..|rows| - 1], rows[|rows| - 1];
      MatchRowsConserveTrade(m, init, price, eventId);
      var mid := MatchRows(m, init, price, eventId).value;
      var fill := FillOf(mid.orders[r], price, mid.left);
      if fill > 0.0 {
        TotalUpdate(mid.orders, r, FilledRow(mid.orders[r], price, fill, eventId), Filled());
      }
    }
  }

  // ---------------------------------------------------------------------------------------------
  // The closed form over the order table
  // ---------------------------------------------------------------------------------------------

  /** The open crossing quantity a trade meets. */
  function OpenDemand(tokenId: string, price: real, observedAt: int): PaperOrder -> real {
    IfMatchable(Demand(price), tokenId, observedAt)
  }

  /** The part of it with time priority over `o`. */
  function DemandBefore(o: PaperOrder, price: real): PaperOrder -> real {
    (earlier: PaperOrder) => if Earlier(earlier, o) then Demand(price)(earlier) else 0.0
  }

  function DemandAhead(l: Ledger, o: PaperOrder, tokenId: string, price: real, observedAt: int): real {
    Total(l.orders, IfMatchable(DemandBefore(o, price), tokenId, observedAt))
  }

  /** The fill of one order: what it still wants, limited by what the orders before it leave. */
  function FairFill(l: Ledger, o: PaperOrder, tokenId: string, price: real, size: real, observedAt: int): real {
    if Matchable(o, tokenId, observedAt) && Crossed(o, price)
    then Min(o.remaining, Max(0.0, size - DemandAhead(l, o, tokenId, price, observedAt)))
    else 0.0
  }

  lemma DemandBeforeRow(orders: seq<PaperOrder>, rows: seq<nat>, k: nat, price: real)
    requires InRange(orders, rows) && InTimeOrder(orders, rows) && k < |rows|
    ensures Total(rows[..k], AtRow(orders, Demand(price)))
         == Total(rows, AtRow(orders, DemandBefore(orders[rows[k]], price)))
  {
    var before := AtRow(orders, DemandBefore(orders[rows[k]], price));
    forall i | k <= i < |rows| ensures before(rows[i]) == 0.0 {
      assert i > k ==> Earlier(orders[rows[k]], orders[rows[i]]);
      assert !Earlier(orders[rows[i]], orders[rows[k]]);
      assert before(rows[i]) == DemandBefore(orders[rows[k]], price)(orders[rows[i]]);
    }
    TotalPrefix(rows, k, before);
    forall i | 0 <= i < k ensures AtRow(orders, Demand(price))(rows[..k][i]) == before(rows[..k][i]) {
      assert Earlier(orders[rows[i]], orders[rows[k]]);
    }
    TotalAgrees(rows[..k], rows[..k], AtRow(orders, Demand(price)), before);
  }

  lemma ReachedFairly(l: Ledger, rows: seq<nat>, k: nat, tokenId: string, price: real, size: real, observedAt: int)
    requires Balanced(l) && rows == OpenRows(l.orders, |l.orders|, tokenId, observedAt) && k < |rows|
    ensures FillOf(l.orders[rows[k]], price, LeftAfter(l.orders, rows[..k], price, size))
         == FairFill(l, l.orders[rows[k]], tokenId, price, size, observedAt)
  {
    OpenRowsAreTheMatchable(l.orders, tokenId, observedAt);
    DemandBeforeRow(l.orders, rows, k, price);
    OpenRowsTotal(l.orders, |l.orders|, tokenId, observedAt, DemandBefore(l.orders[rows[k]], price));
    assert l.orders[..|l.orders|] == l.orders;
    assert rows[k] in rows && SoundOrder(l.orders[rows[k]]);
  }

  predicate ValidTrade(eventId: string, tokenId: string, price: real, size: real) {
    eventId != "" && tokenId != "" && 0.0 < price < 1.0 && size > 0.0
  }

  /** A new market trade leaves every order with exactly its fair fill. */
  lemma TradeFillsFairly(l: Ledger, eventId: string, tokenId: string, price: real, size: real, observedAt: int)
    requires Balanced(l) && ValidTrade(eventId, tokenId, price, size) && eventId !in l.events
    ensures var result := ApplyTradeThrough(l, eventId, tokenId, price, size, observedAt);
      && result.Ok? && |result.value.orders| == |l.orders|
      && forall r | 0 <= r < |l.orders| ::
           var fill := FairFill(l, l.orders[r], tokenId, price, size, observedAt);
           result.value.orders[r] == if fill > 0.0 then FilledRow(l.orders[r], price, fill, eventId) else l.orders[r]
  {
    var rows := OpenRows(l.orders, |l.orders|, tokenId, observedAt);
    var m := StartMatching(l, tokenId, size);
    TradeThroughKeepsBalance(l, eventId, tokenId, price, size, observedAt);
    MatchingSucceeds(l, eventId, tokenId, price, size, observedAt);
    SelectedRowsAreSound(l, tokenId, observedAt);
    MatchRowsIsWaterfall(m, rows, price, eventId);
    var next := MatchRows(m, rows, price, eventId).value;
    forall r | 0 <= r < |l.orders| ensures
        var fill := FairFill(l, l.orders[r], tokenId, price, size, observedAt);
        next.orders[r] == if fill > 0.0 then FilledRow(l.orders[r], price, fill, eventId) else l.orders[r]
    {
      if r in rows {
        var k :| 0 <= k < |rows| && rows[k] == r;
        ReachedFairly(l, rows, k, tokenId, price, size, observedAt);
        assert ReachedAt(m, next, rows, k, price, eventId);
      }
    }
  }

  lemma MatchingSucceeds(l: Ledger, eventId: string, tokenId: string, price: real, size: real, observedAt: int)
    requires Balanced(l) && ValidTrade(eventId, tokenId, price, size) && eventId !in l.events
    ensures var matched := MatchRows(StartMatching(l, tokenId, size), OpenRows(l.orders, |l.orders|, tokenId, observedAt), price, eventId);
      && matched.Ok?
      && ApplyTradeThrough(l, eventId, tokenId, price, size, observedAt) == Ok(Settled(l, matched.value, tokenId, eventId))
  {
    TradeThroughKeepsBalance(l, eventId, tokenId, price, size, observedAt);
  }

  lemma SelectedRowsAreSound(l: Ledger, tokenId: string, observedAt: int)
    requires Balanced(l)
    ensures var rows := OpenRows(l.orders, |l.orders|, tokenId, observedAt);
      && Selected(l.orders, rows)
      && (forall r: nat :: r in rows <==> r < |l.orders| && Matchable(l.orders[r], tokenId, observedAt))
  {
    OpenRowsAreTheMatchable(l.orders, tokenId, observedAt);
    var rows := OpenRows(l.orders, |l.orders|, tokenId, observedAt);
    forall k | 0 <= k < |rows| ensures l.orders[rows[k]].remaining >= 0.0 {
      assert SoundOrder(l.orders[rows[k]]);
    }
  }

  /** Together the orders gain the whole trade, or all that crosses it if that is less. */
  lemma TradeFillsInTotal(l: Ledger, eventId: string, tokenId: string, price: real, size: real, observedAt: int)
    requires Balanced(l) && ValidTrade(eventId, tokenId, price, size) && eventId !in l.events
    ensures var result := ApplyTradeThrough(l, eventId, tokenId, price, size, observedAt);
      && result.Ok?
      && Total(result.value.orders, Filled()) - Total(l.orders, Filled())
         == Min(size, Total(l.orders, OpenDemand(tokenId, price, observedAt)))
  {
    var rows := OpenRows(l.orders, |l.orders|, tokenId, observedAt);
    var m := StartMatching(l, tokenId, size);
    MatchingSucceeds(l, eventId, tokenId, price, size, observedAt);
    SelectedRowsAreSound(l, tokenId, observedAt);
    MatchRowsIsWaterfall(m, rows, price, eventId);
    MatchRowsConserveTrade(m, rows, price, eventId);
    OpenRowsTotal(l.orders, |l.orders|, tokenId, observedAt, Demand(price));
    assert l.orders[..|l.orders|] == l.orders;
  }

  /** No order is reached while an older crossing order of the token still wants shares. */
  lemma TradeRespectsTimePriority(l: Ledger, eventId: string, tokenId: string, price: real, size: real,
            observedAt: int, r: nat, s: nat)
    requires Balanced(l) && ValidTrade(eventId, tokenId, price, size) && eventId !in l.events
    requires r < |l.orders| && s < |l.orders| && Earlier(l.orders[r], l.orders[s])
    requires Matchable(l.orders[r], tokenId, observedAt) && Crossed(l.orders[r], price)
    ensures var result := ApplyTradeThrough(l, eventId, tokenId, price, size, observedAt);
      && result.Ok? && |result.value.orders| == |l.orders|
      && (result.value.orders[s] != l.orders[s] ==>
            result.value.orders[r].state.Filled? && result.value.orders[r].remaining == 0.0)
  {
    TradeFillsFairly(l, eventId, tokenId, price, size, observedAt);
    EarlierDemandFits(l, tokenId, price, observedAt, r, s);
    assert SoundOrder(l.orders[r]);
  }

  /** What stands before the older order, and the older order itself, stand before the younger one. */
  lemma EarlierDemandFits(l: Ledger, tokenId: string, price: real, observedAt: int, r: nat, s: nat)
    requires Balanced(l) && r < |l.orders| && s < |l.orders| && Earlier(l.orders[r], l.orders[s])
    requires Matchable(l.orders[r], tokenId, observedAt) && Crossed(l.orders[r], price)
    ensures DemandAhead(l, l.orders[r], tokenId, price, observedAt) + l.orders[r].remaining
         <= DemandAhead(l, l.orders[s], tokenId, price, observedAt)
  {
    var older := IfMatchable(DemandBefore(l.orders[r], price), tokenId, observedAt);
    var younger := IfMatchable(DemandBefore(l.orders[s], price), tokenId, observedAt);
    var between := (o: PaperOrder) => younger(o) - older(o);
    forall k | 0 <= k < |l.orders| ensures between(l.orders[k]) >= 0.0 {
      assert SoundOrder(l.orders[k]);
      DemandBeforeGrows(l.orders[k], l.orders[r], l.orders[s], tokenId, price, observedAt);
    }
    TotalDominates(l.orders, r, between);
    forall k | 0 <= k < |l.orders| ensures between(l.orders[k]) == 1.0 * younger(l.orders[k]) - older(l.orders[k]) {
    }
    TotalLinear(l.orders, 1.0, younger, older, between);
    assert SoundOrder(l.orders[r]);
    DemandBeforeGrows(l.orders[r], l.orders[r], l.orders[s], tokenId, price, observedAt);
  }

  lemma DemandBeforeGrows(o: PaperOrder, older: PaperOrder, younger: PaperOrder, tokenId: string, price: real,
            observedAt: int)
    requires Earlier(older, younger) && o.remaining >= 0.0
    ensures IfMatchable(DemandBefore(older, price), tokenId, observedAt)(o)
         <= IfMatchable(DemandBefore(younger, price), tokenId, observedAt)(o)
    ensures o == older && Matchable(o, tokenId, observedAt) && Crossed(o, price) ==>
      && IfMatchable(DemandBefore(older, price), tokenId, observedAt)(o) == 0.0
      && IfMatchable(DemandBefore(younger, price), tokenId, observedAt)(o) == o.remaining
  {
    DemandBeforeIs(o, older, tokenId, price, observedAt);
    DemandBeforeIs(o, younger, tokenId, price, observedAt);
  }

  lemma DemandBeforeIs(o: PaperOrder, later: PaperOrder, tokenId: string, price: real, observedAt: int)
    ensures IfMatchable(DemandBefore(later, price), tokenId, observedAt)(o)
         == if Matchable(o, tokenId, observedAt) && Earlier(o, later) && Crossed(o, price) then o.remaining else 0.0
  {
    assert IfMatchable(DemandBefore(later, price), tokenId, observedAt)(o)
        == if Matchable(o, tokenId, observedAt) then DemandBefore(later, price)(o) else 0.0;
    assert DemandBefore(later, price)(o) == if Earlier(o, later) then Demand(price)(o) else 0.0;
  }

  /** An event id is spent once: applying it again leaves the ledger alone, whatever it claims. */
  lemma RepeatedTradeChangesNothing(l: Ledger, eventId: string, tokenId: string, price: real, size: real,
            observedAt: int,
                                    tokenId': string, price': real, size': real, observedAt': int)
    requires Balanced(l) && ValidTrade(eventId, tokenId, price, size) && ValidTrade(eventId, tokenId', price', size')
    ensures var first := ApplyTradeThrough(l, eventId, tokenId, price, size, observedAt);
      first.Ok? && ApplyTradeThrough(first.value, eventId, tokenId', price', size', observedAt') == first
  {
    TradeThroughKeepsBalance(l, eventId, tokenId, price, size, observedAt);
  }
}
