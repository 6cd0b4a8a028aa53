/**
 The invariant that ties an intent, its reservation, its prepared payload and its order together,
 and the ways rows may evolve. Both are kept by every transaction from a linked journal.
 */
module JournalLinks {
  import opened Wrappers
  import opened Domain
  import opened Risk
  import opened Journal

  predicate BeforePrepared(state: IntentState) {
    state.Received? || state.Validating? || state.Approved? || state.Preparing?
  }

  /** The states of an intent for which a venue request has begun. */
  predicate Launched(state: IntentState) {
    state.Submitting? || state.Submitted? || state.Unknown?
  }

  predicate SameSubject(row: Intent, r: Reservation) {
    r.conditionId == row.request.conditionId && r.tokenId == row.request.tokenId && r.side == row.request.side
  }

  predicate LinkedIntent(row: Intent) {
    && (BeforePrepared(row.state) ==> row.prepared.None?)
    && (Reserving(row) <==> row.state.Approved? || row.state.Preparing?)
    && (row.reservation.Some? ==> SameSubject(row, row.reservation.value))
    && (row.prepared.Some? ==> row.reservation.Some? && row.reservation.value.state.Consumed?)
    && (Launched(row.state) || row.state.Prepared? ==> row.prepared.Some?)
  }

  predicate Pairs(row: Intent, state: OrderState) {
    && row.prepared.Some?
    && match row.state
       case Prepared => state.Prepared? && HasAttempt(row, AttemptPrepared)
       case Submitting => state.Submitting? && HasAttempt(row, AttemptSubmitting)
       case Unknown => state.Unknown?
       case Submitted => state.Open() || state.Terminal()
       case Rejected => state.Cancelled?
       case _ => false
  }

  predicate HasOrder(j: Journal, i: nat) {
    exists o | 0 <= o < |j.orders| :: j.orders[o].intent == i
  }

  ghost predicate Linked(j: Journal) {
    && (forall i | 0 <= i < |j.intents| :: LinkedIntent(j.intents[i]) && (j.intents[i].prepared.Some? ==> HasOrder(j, i)))
    && (forall o | 0 <= o < |j.orders| ::
          j.orders[o].intent < |j.intents| && Pairs(j.intents[j.orders[o].intent], j.orders[o].state))
    && (forall o, p | 0 <= o < p < |j.orders| :: j.orders[o].intent != j.orders[p].intent)
  }

  /** What no transaction undoes: payloads, launches and reservation rows stay; ids keep their meaning. */
  predicate IntentEvolves(a: Intent, b: Intent) {
    && (a.prepared.Some? ==> b.prepared.Some? && b.prepared.value.payload == a.prepared.value.payload)
    && (Launched(a.state) ==> Launched(b.state))
    && (a.reservation.Some? ==> b.reservation.Some? && b.reservation.value.feeRate == a.reservation.value.feeRate)
    && (a.reservation.Some? && a.reservation.value.state.Released? ==> b.reservation.value.state.Released?)
  }

  ghost predicate Evolves(a: Journal, b: Journal) {
    && |a.intents| <= |b.intents| && |a.orders| <= |b.orders|
    && (forall i | 0 <= i < |a.intents| :: IntentEvolves(a.intents[i], b.intents[i]))
    && (forall o | 0 <= o < |a.orders| :: b.orders[o].intent == a.orders[o].intent)
  }

  lemma EvolvesTransitive(a: Journal, b: Journal, c: Journal)
    requires Evolves(a, b) && Evolves(b, c)
    ensures Evolves(a, c)
  {
    forall i | 0 <= i < |a.intents| ensures IntentEvolves(a.intents[i], c.intents[i]) {
      assert IntentEvolves(a.intents[i], b.intents[i]) && IntentEvolves(b.intents[i], c.intents[i]);
    }
    forall o | 0 <= o < |a.orders| ensures c.orders[o].intent == a.orders[o].intent {
      assert b.orders[o].intent == a.orders[o].intent;
    }
  }

  /** A submission in flight is not disturbed, and no order becomes UNKNOWN. */
  ghost predicate Undisturbed(a: Journal, b: Journal) {
    && |a.orders| == |b.orders| && |a.intents| <= |b.intents|
    && (forall i | 0 <= i < |a.intents| :: a.intents[i].state.Submitting? ==> b.intents[i].state.Submitting?)
    && (forall o | 0 <= o < |a.orders| :: b.orders[o].state.Unknown? ==> a.orders[o].state.Unknown?)
  }

  /** Orders whose intent is SUBMITTED stay so. */
  ghost predicate SubmittedStay(a: Journal, b: Journal) {
    && |a.intents| <= |b.intents|
    && forall i | 0 <= i < |a.intents| :: a.intents[i].state.Submitted? ==> b.intents[i].state.Submitted?
  }

  /** One intent row changes; orders do not. */
  lemma IntentUpdate(a: Journal, b: Journal, i: nat)
    requires Linked(a) && i < |a.intents| && i < |b.intents|
    requires b.intents == a.intents[i := b.intents[i]] && b.orders == a.orders
    requires LinkedIntent(b.intents[i]) && IntentEvolves(a.intents[i], b.intents[i])
    requires b.intents[i].prepared.None?
    ensures Linked(b) && Evolves(a, b)
  {
    assert LinkedIntent(a.intents[i]);
    forall o | 0 <= o < |b.orders| ensures Pairs(b.intents[b.orders[o].intent], b.orders[o].state) {
      assert Pairs(a.intents[a.orders[o].intent], a.orders[o].state);
    }
    forall k | 0 <= k < |b.intents| && b.intents[k].prepared.Some? ensures HasOrder(b, k) {
      assert HasOrder(a, k);
    }
  }

  /** One order changes together with its intent. */
  lemma PairUpdate(a: Journal, b: Journal, o: nat)
    requires Linked(a) && o < |a.orders| && o < |b.orders|
    requires b.orders == a.orders[o := b.orders[o]] && b.orders[o].intent == a.orders[o].intent
    requires a.orders[o].intent < |b.intents|
    requires b.intents == a.intents[a.orders[o].intent := b.intents[a.orders[o].intent]]
    requires LinkedIntent(b.intents[a.orders[o].intent])
    requires IntentEvolves(a.intents[a.orders[o].intent], b.intents[a.orders[o].intent])
    requires Pairs(b.intents[a.orders[o].intent], b.orders[o].state)
    ensures Linked(b) && Evolves(a, b)
  {
    var i := a.orders[o].intent;
    forall p | 0 <= p < |b.orders| ensures Pairs(b.intents[b.orders[p].intent], b.orders[p].state) {
      if p < o {
        assert a.orders[p].intent != a.orders[o].intent;
      } else if o < p {
        assert a.orders[o].intent != a.orders[p].intent;
      }
      assert Pairs(a.intents[a.orders[p].intent], a.orders[p].state);
    }
    forall k | 0 <= k < |b.intents| && b.intents[k].prepared.Some? ensures HasOrder(b, k) {
      if k == i {
        assert b.orders[o].intent == k;
      } else {
        assert HasOrder(a, k);
        var p :| 0 <= p < |a.orders| && a.orders[p].intent == k;
        assert b.orders[p].intent == k;
      }
    }
    forall p, q | 0 <= p < q < |b.orders| ensures b.orders[p].intent != b.orders[q].intent {
      assert a.orders[p].intent != a.orders[q].intent;
    }
  }

  /** Trades, positions and control state do not matter. */
  lemma SameRows(a: Journal, b: Journal)
    requires a.intents == b.intents && a.orders == b.orders
    ensures Linked(a) ==> Linked(b)
    ensures Evolves(a, b) && Undisturbed(a, b) && SubmittedStay(a, b)
  {
    if Linked(a) {
      forall i | 0 <= i < |b.intents| && b.intents[i].prepared.Some? ensures HasOrder(b, i) {
        assert HasOrder(a, i);
      }
    }
  }

  lemma AdmitLinks(a: Journal, request: Request)
    requires Linked(a) && AdmitIntent(a, request).Ok?
    ensures var b := AdmitIntent(a, request).value;
            Linked(b) && Evolves(a, b) && Undisturbed(a, b) && SubmittedStay(a, b)
  {
    var b := AdmitIntent(a, request).value;
    forall i | 0 <= i < |b.intents| ensures LinkedIntent(b.intents[i]) && (b.intents[i].prepared.Some? ==> HasOrder(b, i)) {
      if i < |a.intents| {
        assert b.intents[i] == a.intents[i];
        assert b.intents[i].prepared.Some? ==> HasOrder(a, i);
      }
    }
  }

  lemma TransitionIntentLinks(a: Journal, i: nat, expected: IntentState, next: IntentState)
    requires Linked(a) && TransitionIntent(a, i, expected, next).Ok?
    requires (expected.Received? && (next.Validating? || next.Rejected?)) || (expected.Validating? && next.Rejected?)
             || (expected.Approved? && next.Preparing?)
    ensures var b := TransitionIntent(a, i, expected, next).value;
            Linked(b) && Evolves(a, b) && Undisturbed(a, b) && SubmittedStay(a, b)
  {
    assert LinkedIntent(a.intents[i]);
    IntentUpdate(a, TransitionIntent(a, i, expected, next).value, i);
  }

  lemma EvaluateLinks(a: Journal, i: nat, policy: RiskPolicy, market: MarketRules, book: OrderBook, today: int)
    requires Linked(a) && i < |a.intents| && EvaluateAndReserve(a, i, policy, market, book, today).Ok?
    ensures var (b, decision) := EvaluateAndReserve(a, i, policy, market, book, today).value;
            && Linked(b) && Evolves(a, b) && Undisturbed(a, b) && SubmittedStay(a, b)
            && (decision.Approve? ==> b.intents[i].reservation.Some? && b.intents[i].reservation.value.feeRate == market.LargerFee())
  {
    assert LinkedIntent(a.intents[i]);
    IntentUpdate(a, EvaluateAndReserve(a, i, policy, market, book, today).value.0, i);
  }

  lemma RejectPreparationLinks(a: Journal, i: nat)
    requires Linked(a) && i < |a.intents| && RejectPreparation(a, i).Ok?
    ensures var b := RejectPreparation(a, i).value;
            Linked(b) && Evolves(a, b) && Undisturbed(a, b) && SubmittedStay(a, b)
  {
    assert LinkedIntent(a.intents[i]);
    IntentUpdate(a, RejectPreparation(a, i).value, i);
  }

  /** A prepared order is only ever added to an intent that has none, so payloads are written once. */
  lemma CreateLinks(a: Journal, i: nat, payload: string, orderKey: string, feeRate: real)
    requires Linked(a) && i < |a.intents| && CreatePreparedOrder(a, i, payload, orderKey, feeRate).Ok?
    ensures a.intents[i].prepared.None? && !HasOrder(a, i)
    ensures var b := CreatePreparedOrder(a, i, payload, orderKey, feeRate).value;
            && Linked(b) && Evolves(a, b) && SubmittedStay(a, b)
            && CarriesPayload(b, i, |a.orders|, payload)
  {
    var b := CreatePreparedOrder(a, i, payload, orderKey, feeRate).value;
    assert LinkedIntent(a.intents[i]);
    forall o | 0 <= o < |a.orders| ensures a.orders[o].intent != i {
      assert Pairs(a.intents[a.orders[o].intent], a.orders[o].state);
    }
    forall k | 0 <= k < |b.intents| && b.intents[k].prepared.Some? ensures HasOrder(b, k) {
      if k == i {
        assert b.orders[|a.orders|].intent == i;
      } else {
        assert HasOrder(a, k);
        var p :| 0 <= p < |a.orders| && a.orders[p].intent == k;
        assert b.orders[p].intent == k;
      }
    }
    forall o | 0 <= o < |b.orders| ensures Pairs(b.intents[b.orders[o].intent], b.orders[o].state) {
      if o < |a.orders| {
        assert Pairs(a.intents[a.orders[o].intent], a.orders[o].state);
        assert b.orders[o] == a.orders[o];
      }
    }
  }

  predicate CarriesPayload(j: Journal, i: nat, o: nat, payload: string) {
    && i < |j.intents| && o < |j.orders| && j.orders[o].intent == i
    && j.intents[i].prepared.Some? && j.intents[i].prepared.value.payload == payload
  }

  lemma BeginLinks(a: Journal, i: nat, o: nat)
    requires Linked(a) && BeginSubmission(a, i, o).Ok?
    ensures var b := BeginSubmission(a, i, o).value;
            && Linked(b) && Evolves(a, b) && SubmittedStay(a, b)
            && a.intents[i].state.Prepared? && b.intents[i].state.Submitting?
            && (forall p | 0 <= p < |b.orders| :: b.orders[p].state.Unknown? ==> a.orders[p].state.Unknown?)
  {
    assert LinkedIntent(a.intents[i]);
    PairUpdate(a, BeginSubmission(a, i, o).value, o);
  }

  lemma FinishLinks(a: Journal, i: nat, o: nat, unknown: bool, state: OrderState, venueId: Option<string>,
                    filled: real, price: Option<real>, tradeIds: seq<string>, day: int)
    requires Linked(a) && (unknown <==> state.Unknown?)
    requires FinishSubmission(a, i, o, unknown, state, venueId, filled, price, tradeIds, day).Ok?
    ensures var b := FinishSubmission(a, i, o, unknown, state, venueId, filled, price, tradeIds, day).value;
            && Linked(b) && Evolves(a, b) && SubmittedStay(a, b)
            && (!unknown ==> forall p | 0 <= p < |b.orders| :: b.orders[p].state.Unknown? ==> a.orders[p].state.Unknown?)
  {
    assert LinkedIntent(a.intents[i]);
    PairUpdate(a, FinishSubmission(a, i, o, unknown, state, venueId, filled, price, tradeIds, day).value, o);
  }

  lemma ResolveLinks(a: Journal, o: nat, venueId: string, seen: Observation, day: int)
    requires Linked(a) && ResolveUnknown(a, o, venueId, seen, day).Ok?
    ensures var b := ResolveUnknown(a, o, venueId, seen, day).value;
            && Linked(b) && Evolves(a, b) && Undisturbed(a, b) && SubmittedStay(a, b)
            && (!seen.state.Unknown? ==> !b.orders[o].state.Unknown?)
  {
    if seen.state.Unknown? {
      SameRows(a, a);
    } else {
      assert LinkedIntent(a.intents[a.orders[o].intent]);
      PairUpdate(a, ResolveUnknown(a, o, venueId, seen, day).value, o);
    }
  }

  lemma TransitionOrderLinks(a: Journal, o: nat, next: OrderState)
    requires Linked(a) && TransitionOrder(a, o, next).Ok? && (next.CancelPending? || next.Terminal())
    ensures var b := TransitionOrder(a, o, next).value;
            Linked(b) && Evolves(a, b) && Undisturbed(a, b) && SubmittedStay(a, b)
  {
    assert LinkedIntent(a.intents[a.orders[o].intent]);
    PairUpdate(a, TransitionOrder(a, o, next).value, o);
  }

  lemma CancelPreparedLinks(a: Journal, o: nat)
    requires Linked(a) && CancelPreparedOrder(a, o).Ok?
    ensures var b := CancelPreparedOrder(a, o).value;
            Linked(b) && Evolves(a, b) && Undisturbed(a, b) && SubmittedStay(a, b)
  {
    assert LinkedIntent(a.intents[a.orders[o].intent]);
    PairUpdate(a, CancelPreparedOrder(a, o).value, o);
  }

  /** Only orders of submitted intents are projected: an observation never names a local-only state. */
  lemma ProjectionLinks(a: Journal, o: nat, seen: Observation, day: int)
    requires Linked(a) && o < |a.orders| && !seen.state.Unknown? && ReconcileProjection(a, o, seen, day).Ok?
    requires a.intents[a.orders[o].intent].state.Submitted?
    ensures var b := ReconcileProjection(a, o, seen, day).value;
            Linked(b) && Evolves(a, b) && Undisturbed(a, b) && SubmittedStay(a, b)
  {
    assert LinkedIntent(a.intents[a.orders[o].intent]);
    PairUpdate(a, ReconcileProjection(a, o, seen, day).value, o);
  }

  lemma PaperFillLinks(a: Journal, o: nat, state: OrderState, remaining: real, fill: real,
                       price: real, tradeId: string, day: int)
    requires Linked(a) && o < |a.orders| && (state.PartiallyFilled? || state.Filled?)
    ensures var b := ProjectPaperFill(a, o, state, remaining, fill, price, tradeId, day);
            Linked(b) && Evolves(a, b) && Undisturbed(a, b) && SubmittedStay(a, b)
  {
    assert LinkedIntent(a.intents[a.orders[o].intent]);
    assert Pairs(a.intents[a.orders[o].intent], a.orders[o].state);
    PairUpdate(a, ProjectPaperFill(a, o, state, remaining, fill, price, tradeId, day), o);
  }

  /** In a linked journal an interrupted order is SUBMITTING, and so is its intent. */
  lemma InterruptedMeansSubmitting(a: Journal, o: nat)
    requires Linked(a) && o < |a.orders|
    ensures Interrupted(a, o) <==> a.orders[o].state.Submitting?
    ensures Interrupted(a, o) <==> a.intents[a.orders[o].intent].state.Submitting?
  {
    assert Pairs(a.intents[a.orders[o].intent], a.orders[o].state);
  }

  function RecoveredSubmission(row: Intent): Intent {
    if row.state.Submitting? then MoveAttempt(row, AttemptSubmitting, AttemptUnknown).(state := IntentState.Unknown) else row
  }

  ghost predicate RecoveredFrom(a: Journal, b: Journal) {
    && |a.orders| == |b.orders| && |a.intents| == |b.intents|
    && (forall i | 0 <= i < |a.intents| :: b.intents[i] == RecoveredSubmission(a.intents[i]))
    && (forall o | 0 <= o < |a.orders| ::
          && b.orders[o].intent == a.orders[o].intent
          && b.orders[o].state == if a.orders[o].state.Submitting? then OrderState.Unknown else a.orders[o].state)
  }

  /** What recovery writes to each row of a linked journal. */
  lemma RecoveredRows(a: Journal)
    requires Linked(a)
    ensures RecoveredFrom(a, RecoverInterrupted(a))
  {
    forall i | 0 <= i < |a.intents| ensures InterruptedIntent(a, i) <==> a.intents[i].state.Submitting? {
      SubmittingIntentIsInterrupted(a, i);
    }
    forall o | 0 <= o < |a.orders| ensures Interrupted(a, o) <==> a.orders[o].state.Submitting? {
      InterruptedMeansSubmitting(a, o);
    }
  }

  lemma RecoverInterruptedLinks(a: Journal)
    requires Linked(a)
    ensures Linked(RecoverInterrupted(a)) && Evolves(a, RecoverInterrupted(a)) && SubmittedStay(a, RecoverInterrupted(a))
  {
    var b := RecoverInterrupted(a);
    RecoveredRows(a);
    forall i | 0 <= i < |b.intents|
      ensures LinkedIntent(b.intents[i]) && IntentEvolves(a.intents[i], b.intents[i])
    {
      assert LinkedIntent(a.intents[i]);
    }
    RecoveredOrders(a, b);
  }

  lemma RecoveredOrders(a: Journal, b: Journal)
    requires Linked(a) && RecoveredFrom(a, b)
    ensures forall i | 0 <= i < |b.intents| && b.intents[i].prepared.Some? :: HasOrder(b, i)
    ensures forall o | 0 <= o < |b.orders| ::
      b.orders[o].intent < |b.intents| && Pairs(b.intents[b.orders[o].intent], b.orders[o].state)
    ensures forall o, p | 0 <= o < p < |b.orders| :: b.orders[o].intent != b.orders[p].intent
  {
    forall i | 0 <= i < |b.intents| && b.intents[i].prepared.Some? ensures HasOrder(b, i) {
      assert HasOrder(a, i);
      var o :| 0 <= o < |a.orders| && a.orders[o].intent == i;
      assert b.orders[o].intent == i;
    }
    forall o | 0 <= o < |b.orders|
      ensures b.orders[o].intent < |b.intents| && Pairs(b.intents[b.orders[o].intent], b.orders[o].state)
    {
      assert Pairs(a.intents[a.orders[o].intent], a.orders[o].state);
    }
    forall o, p | 0 <= o < p < |b.orders| ensures b.orders[o].intent != b.orders[p].intent {
      assert a.orders[o].intent != a.orders[p].intent;
    }
  }

  lemma SubmittingIntentIsInterrupted(a: Journal, i: nat)
    requires Linked(a) && i < |a.intents|
    ensures InterruptedIntent(a, i) <==> a.intents[i].state.Submitting?
  {
    if a.intents[i].state.Submitting? {
      assert LinkedIntent(a.intents[i]);
      var o :| 0 <= o < |a.orders| && a.orders[o].intent == i;
      InterruptedMeansSubmitting(a, o);
    }
    if InterruptedIntent(a, i) {
      var o :| 0 <= o < |a.orders| && a.orders[o].intent == i && Interrupted(a, o);
      InterruptedMeansSubmitting(a, o);
    }
  }

  lemma RecoverPreSubmissionLinks(a: Journal)
    requires Linked(a) && RecoverPreSubmission(a).Ok?
    ensures var b := RecoverPreSubmission(a).value;
            Linked(b) && Evolves(a, b) && Undisturbed(a, b) && SubmittedStay(a, b)
  {
    var b := RecoverPreSubmission(a).value;
    forall i | 0 <= i < |b.intents|
      ensures LinkedIntent(b.intents[i]) && (b.intents[i].prepared.Some? ==> HasOrder(b, i))
      ensures IntentEvolves(a.intents[i], b.intents[i])
    {
      assert LinkedIntent(a.intents[i]);
      if b.intents[i].prepared.Some? {
        assert HasOrder(a, i);
        var o :| 0 <= o < |a.orders| && a.orders[o].intent == i;
        assert b.orders[o].intent == i;
      }
    }
    forall o | 0 <= o < |b.orders| ensures Pairs(b.intents[b.orders[o].intent], b.orders[o].state) {
      assert Pairs(a.intents[a.orders[o].intent], a.orders[o].state);
    }
  }

  lemma {:induction false} PreparedCountFrom(orders: seq<Order>, i: nat, o: nat)
    requires o < |orders| && orders[o].intent == i && orders[o].state.Prepared?
    requires forall p | 0 <= p < |orders| && p != o :: orders[p].intent != i
    ensures PreparedCount(orders, i) == 1
  {
    var last := |orders| - 1;
    if o == last {
      PreparedCountNone(orders[..last], i);
    } else {
      PreparedCountFrom(orders[..last], i, o);
    }
  }

  lemma {:induction false} PreparedCountNone(orders: seq<Order>, i: nat)
    requires forall p | 0 <= p < |orders| :: orders[p].intent != i
    ensures PreparedCount(orders, i) == 0
  {
    if orders != [] {
      PreparedCountNone(orders[..|orders| - 1], i);
    }
  }

  /** Startup's consistency check on prepared work cannot fail on a linked journal. */
  lemma LinkedIsRecoverable(j: Journal)
    requires Linked(j)
    ensures RecoverPreSubmission(j).Ok?
  {
    forall i | 0 <= i < |j.intents| ensures Recoverable(j, i) {
      if j.intents[i].state.Prepared? {
        assert LinkedIntent(j.intents[i]);
        var o :| 0 <= o < |j.orders| && j.orders[o].intent == i;
        assert Pairs(j.intents[i], j.orders[o].state);
        forall p | 0 <= p < |j.orders| && p != o ensures j.orders[p].intent != i {
          if p < o {
            assert j.orders[p].intent != j.orders[o].intent;
          } else {
            assert j.orders[o].intent != j.orders[p].intent;
          }
        }
        PreparedCountFrom(j.orders, i, o);
      }
    }
  }
}
