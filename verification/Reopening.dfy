/**
 The journal with the orders that open reconciliations may still bring back counted as if they were open.

 A projection writes without looking at the current state, so it can reopen an order that was closed since
 it was listed. What keeps the limits over whole runs is that they hold with every listed order counted.
 */
module Reopening {
  import opened Wrappers
  import opened Domain
  import opened Sums
  import opened Risk
  import opened Journal
  import opened OrderBounds
  import opened RiskEnvelope

  function ReopenedOrder(o: Order): Order {
    if o.state.Active() then o else o.(state := Live)
  }

  /** Every closed order of `listed` live again, with what remains of it. */
  function Reopen(j: Journal, listed: set<nat>): Journal {
    j.(orders := seq(|j.orders|, o requires 0 <= o < |j.orders| =>
                   if o in listed then ReopenedOrder(j.orders[o]) else j.orders[o]))
  }

  lemma ReopenNothing(j: Journal)
    ensures Reopen(j, {}) == j
  {
    assert Reopen(j, {}).orders == j.orders;
  }

  /** Listing more orders that are open changes nothing. */
  lemma ReopenOpen(j: Journal, listed: set<nat>, more: set<nat>)
    requires forall o | o in more :: o < |j.orders| && j.orders[o].state.Active()
    ensures Reopen(j, listed + more) == Reopen(j, listed)
  {
    assert Reopen(j, listed + more).orders == Reopen(j, listed).orders;
  }

  lemma ReopenSound(j: Journal, listed: set<nat>)
    requires Sound(j)
    ensures Sound(Reopen(j, listed))
  {
    var r := Reopen(j, listed);
    forall o | 0 <= o < |r.orders|
      ensures SoundOrder(r.orders[o]) && r.orders[o].intent < |r.intents|
      ensures Traded(r, o) <= r.orders[o].original - r.orders[o].remaining
    {
      assert SoundOrder(j.orders[o]) && Traded(r, o) == Traded(j, o);
    }
  }

  lemma ReopenIntents(j: Journal, listed: set<nat>, intents: seq<Intent>)
    ensures Reopen(j.(intents := intents), listed) == Reopen(j, listed).(intents := intents)
  {
    assert Reopen(j.(intents := intents), listed).orders == Reopen(j, listed).orders;
  }

  /** A move of one order is the same move with the listed orders reopened. */
  lemma ReopenMoves(a: Journal, b: Journal, o: nat, applied: real, listed: set<nat>)
    requires Moves(a, b, o, applied) && Drops(a, b, o, applied)
    ensures Moves(Reopen(a, listed), Reopen(b, listed), o, applied)
    ensures Drops(Reopen(a, listed), Reopen(b, listed), o, applied)
  {
    var c, d := Reopen(a, listed), Reopen(b, listed);
    forall k ensures Traded(d, k) == Traded(c, k) + if k == o then applied else 0.0 {
      assert Traded(b, k) == Traded(a, k) + if k == o then applied else 0.0;
    }
    forall t ensures SharesOf(d.positions, t) == SharesOf(c.positions, t)
        + if t == c.orders[o].tokenId then Signed(c.orders[o].side, applied) else 0.0 {
    }
  }

  /** So it keeps the limits of the reopened journal when the order is listed, counted, or stays closed without a trade. */
  lemma ReopenedMovesKeepLimits(a: Journal, b: Journal, o: nat, applied: real, listed: set<nat>, policy: RiskPolicy)
    requires Sound(a) && Moves(a, b, o, applied) && Drops(a, b, o, applied)
    requires o in listed || a.orders[o].state.Active() || (applied == 0.0 && !b.orders[o].state.Active())
    requires WithinLimits(Reopen(a, listed), policy)
    ensures WithinLimits(Reopen(b, listed), policy)
  {
    ReopenSound(a, listed);
    ReopenMoves(a, b, o, applied, listed);
    MovesKeepLimits(Reopen(a, listed), Reopen(b, listed), o, applied, policy);
  }

  /** The same exposure, order by order, is the same exposure with the listed orders reopened. */
  lemma ReopenRestates(a: Journal, b: Journal, listed: set<nat>)
    requires |a.orders| == |b.orders| && SameReservations(a.intents, b.intents)
    requires a.positions == b.positions && a.trades == b.trades
    requires forall o | 0 <= o < |a.orders| ::
      && OrderExposure(a.orders[o]) == OrderExposure(b.orders[o])
      && (a.orders[o].state.Active() <==> b.orders[o].state.Active())
    ensures SameExposure(Reopen(a, listed), Reopen(b, listed))
  {
    var c, d := Reopen(a, listed), Reopen(b, listed);
    forall o | 0 <= o < |c.orders|
      ensures OrderExposure(c.orders[o]) == OrderExposure(d.orders[o])
      ensures c.orders[o].state.Active() <==> d.orders[o].state.Active()
    {
      assert OrderExposure(a.orders[o]) == OrderExposure(b.orders[o]);
    }
    RestateConservesExposure(c, d);
  }

  lemma RowShrinks(o: Order, weight: Exposure -> real)
    requires SoundOrder(o) && Monotone(weight)
    ensures OfOrders(weight)(o) <= OfOrders(weight)(ReopenedOrder(o))
  {
    var e := OrderExposure(o);
    assert OrderExposure(ReopenedOrder(o)) == e && e.(quantity := e.quantity) == e;
    assert 0.0 <= weight(e.(quantity := e.quantity)) <= weight(e);
  }

  /** A reconciliation that ends takes its orders out of the count. */
  lemma EndingShrinks(j: Journal, listed: set<nat>, fewer: set<nat>, policy: RiskPolicy)
    requires Sound(j) && fewer <= listed && WithinLimits(Reopen(j, listed), policy)
    ensures WithinLimits(Reopen(j, fewer), policy)
  {
    var a, b := Reopen(j, listed), Reopen(j, fewer);
    forall weight: Exposure -> real | Monotone(weight) ensures Exposed(b, weight) <= Exposed(a, weight) {
      forall o | 0 <= o < |j.orders| ensures OfOrders(weight)(b.orders[o]) <= OfOrders(weight)(a.orders[o]) {
        assert SoundOrder(j.orders[o]);
        RowShrinks(j.orders[o], weight);
      }
      TotalMonotone(b.orders, a.orders, OfOrders(weight));
    }
    ShrunkExposureKeepsLimits(a, b, policy);
  }

  /** In particular the limits hold of the journal itself. */
  lemma ReopenedMeansWithin(j: Journal, listed: set<nat>, policy: RiskPolicy)
    requires Sound(j) && WithinLimits(Reopen(j, listed), policy)
    ensures WithinLimits(j, policy)
  {
    EndingShrinks(j, listed, {}, policy);
    ReopenNothing(j);
  }
}
