/** What a crash recovery makes of the rows it finds, by their states alone. */
module Recovery {
  import opened Wrappers
  import opened Domain
  import opened Journal

  // ---------------------------------------------------------------------------------------------
  // Work whose venue request had not begun
  // ---------------------------------------------------------------------------------------------

  /** Work the previous process had begun and not yet persisted for the venue. */
  predicate Begun(state: IntentState) {
    state.Validating? || state.Approved? || state.Preparing?
  }

  /** Work no venue request of which had begun. */
  predicate Local(state: IntentState) {
    state.Received? || Begun(state) || state.Prepared?
  }

  /** The intent starts over, and what was reserved for it is free again. */
  predicate StartsOver(a: Intent, b: Intent) {
    && b.state.Received? && b.request == a.request && b.prepared == a.prepared
    && (a.reservation.None? <==> b.reservation.None?)
    && (a.reservation.Some? ==>
          && !b.reservation.value.state.Active?
          && b.reservation.value == a.reservation.value.(state := b.reservation.value.state)
          && (if a.reservation.value.state.Active? then b.reservation.value.state.Released?
              else b.reservation == a.reservation))
  }

  /** Begun work is begun no longer, and every other row is as it was. */
  lemma LocalWorkStartsOver(j: Journal)
    requires RecoverPreSubmission(j).Ok?
    ensures var next := RecoverPreSubmission(j).value;
      && next == j.(intents := next.intents) && |next.intents| == |j.intents|
      && forall i | 0 <= i < |j.intents| ::
           && !Begun(next.intents[i].state)
           && (if Begun(j.intents[i].state) then StartsOver(j.intents[i], next.intents[i])
               else next.intents[i] == j.intents[i])
  {
  }

  /** The PREPARED orders of an intent. */
  ghost function PreparedOrders(j: Journal, i: nat): set<nat> {
    set o: nat | o < |j.orders| && j.orders[o].intent == i && j.orders[o].state.Prepared?
  }

  lemma {:induction false} PreparedOrdersAreCounted(orders: seq<Order>, i: nat)
    ensures PreparedCount(orders, i) == |set o: nat | o < |orders| && orders[o].intent == i && orders[o].state.Prepared?|
  {
    var all := set o: nat | o < |orders| && orders[o].intent == i && orders[o].state.Prepared?;
    if orders == [] {
      assert all == {};
    } else {
      var n := |orders| - 1;
      PreparedOrdersAreCounted(orders[..n], i);
      var before := set o: nat | o < n && orders[..n][o].intent == i && orders[..n][o].state.Prepared?;
      if orders[n].intent == i && orders[n].state.Prepared? {
        assert all == before + {n};
      } else {
        assert all == before;
      }
    }
  }

  /** The recovery is refused exactly when a PREPARED intent lacks its attempt or does not own one PREPARED order. */
  lemma RecoveryGoesThroughIff(j: Journal)
    ensures RecoverPreSubmission(j).Ok? <==>
      forall i | 0 <= i < |j.intents| && j.intents[i].state.Prepared? ::
        HasAttempt(j.intents[i], AttemptPrepared) && |PreparedOrders(j, i)| == 1
  {
    forall i | 0 <= i < |j.intents|
      ensures Recoverable(j, i) <==>
        (j.intents[i].state.Prepared? ==> HasAttempt(j.intents[i], AttemptPrepared) && |PreparedOrders(j, i)| == 1)
    {
      PreparedOrdersAreCounted(j.orders, i);
    }
    if RecoverPreSubmission(j).Ok? {
      assert forall i | 0 <= i < |j.intents| :: Recoverable(j, i);
    } else {
      var i :| 0 <= i < |j.intents| && !Recoverable(j, i);
      assert j.intents[i].state.Prepared?;
    }
  }

  // ---------------------------------------------------------------------------------------------
  // Submissions that were interrupted
  // ---------------------------------------------------------------------------------------------

  /** A prepared intent and its order, one of them SUBMITTING. */
  predicate CutOff(j: Journal, o: nat) {
    && o < |j.orders| && j.orders[o].intent < |j.intents| && j.intents[j.orders[o].intent].prepared.Some?
    && (j.orders[o].state.Submitting? || j.intents[j.orders[o].intent].state.Submitting?)
  }

  /** Each such order is UNKNOWN under the identifier it was prepared with, its intent and attempt too; nothing else changes. */
  lemma CutOffSubmissionsAreUnknown(j: Journal)
    ensures var next := RecoverInterrupted(j);
      && next == j.(orders := next.orders, intents := next.intents)
      && |next.orders| == |j.orders| && |next.intents| == |j.intents|
      && (forall o | 0 <= o < |j.orders| && !CutOff(j, o) :: next.orders[o] == j.orders[o])
      && (forall o | 0 <= o < |j.orders| && CutOff(j, o) ::
            && next.orders[o] == j.orders[o].(
                 state := OrderState.Unknown,
                 venueId := if j.orders[o].venueId.Some? then j.orders[o].venueId
                            else Some(j.intents[j.orders[o].intent].prepared.value.orderKey))
            && next.intents[j.orders[o].intent].state.Unknown?
            && (HasAttempt(j.intents[j.orders[o].intent], AttemptSubmitting) ==>
                  HasAttempt(next.intents[j.orders[o].intent], AttemptUnknown)))
      && (forall i | 0 <= i < |j.intents| ::
            && next.intents[i].request == j.intents[i].request && next.intents[i].reservation == j.intents[i].reservation
            && ((forall o | 0 <= o < |j.orders| && CutOff(j, o) :: j.orders[o].intent != i) ==> next.intents[i] == j.intents[i]))
    ensures AnyInterrupted(j) <==> exists o :: CutOff(j, o)
  {
    var next := RecoverInterrupted(j);
    forall o | 0 <= o < |j.orders| ensures Interrupted(j, o) <==> CutOff(j, o) {
    }
    forall o | 0 <= o < |j.orders| ensures next.orders[o] == UnknownOrder(j, o) {
    }
    forall i | 0 <= i < |j.intents| ensures next.intents[i] == UnknownIntent(j, i) {
    }
    forall o | 0 <= o < |j.orders| && CutOff(j, o) ensures InterruptedIntent(j, j.orders[o].intent) {
      assert Interrupted(j, o);
    }
  }
}
