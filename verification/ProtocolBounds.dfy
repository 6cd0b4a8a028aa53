/** Quantities and limits over whole runs of the coordinator. */
module ProtocolBounds {
  import opened Wrappers
  import opened Domain
  import opened Sums
  import opened Risk
  import opened Journal
  import opened OrderBounds
  import opened RiskEnvelope
  import opened Reopening
  import opened JournalLinks
  import opened Protocol
  import opened ProtocolInvariant

  /** Remaining quantities only fall, and recorded trades never grow by more than that fall. */
  ghost predicate Descends(a: Journal, b: Journal) {
    && |a.orders| <= |b.orders|
    && forall o | 0 <= o < |a.orders| ::
         && SameTerms(a.orders[o], b.orders[o])
         && 0.0 <= Traded(b, o) - Traded(a, o) <= a.orders[o].remaining - b.orders[o].remaining
  }

  lemma DescendsTransitive(a: Journal, b: Journal, c: Journal)
    requires Descends(a, b) && Descends(b, c)
    ensures Descends(a, c)
  {
    forall o | 0 <= o < |a.orders|
      ensures SameTerms(a.orders[o], c.orders[o])
      ensures 0.0 <= Traded(c, o) - Traded(a, o) <= a.orders[o].remaining - c.orders[o].remaining
    {
      assert SameTerms(a.orders[o], b.orders[o]) && SameTerms(b.orders[o], c.orders[o]);
    }
  }

  /** A commit that is sound and descending, and keeps any limits that held before it with the listed orders counted. */
  ghost predicate Bounded(a: Journal, b: Journal, listed: set<nat>, policy: RiskPolicy) {
    && Sound(b) && Descends(a, b)
    && (WithinLimits(Reopen(a, listed), policy) ==> WithinLimits(Reopen(b, listed), policy))
  }

  lemma MovesDescend(a: Journal, b: Journal, o: nat, applied: real)
    requires Sound(a) && Moves(a, b, o, applied) && Drops(a, b, o, applied) && SoundOrder(b.orders[o])
    ensures Sound(b) && Descends(a, b)
  {
    MovesKeepSound(a, b, o, applied);
  }

  lemma MovesAreBounded(a: Journal, b: Journal, o: nat, applied: real, listed: set<nat>, policy: RiskPolicy)
    requires Sound(a) && Moves(a, b, o, applied) && Drops(a, b, o, applied) && SoundOrder(b.orders[o])
    requires o in listed || a.orders[o].state.Active() || (applied == 0.0 && !b.orders[o].state.Active())
    ensures Bounded(a, b, listed, policy)
  {
    MovesDescend(a, b, o, applied);
    if WithinLimits(Reopen(a, listed), policy) {
      ReopenedMovesKeepLimits(a, b, o, applied, listed, policy);
    }
  }

  lemma UnchangedIsBounded(a: Journal, b: Journal, listed: set<nat>, policy: RiskPolicy)
    requires Sound(a) && a == b.(control := a.control)
    ensures Bounded(a, b, listed, policy)
  {
    forall o | 0 <= o < |b.orders| ensures Traded(b, o) == Traded(a, o) {
    }
    if WithinLimits(Reopen(a, listed), policy) {
      RestatedKeepsLimits(a, b, listed, policy);
    }
  }

  lemma IntentRowIsBounded(a: Journal, i: nat, row: Intent, listed: set<nat>, policy: RiskPolicy)
    requires i < |a.intents| && Sound(a)
    requires row.reservation == a.intents[i].reservation || !Reserving(row)
    ensures Bounded(a, SetIntent(a, i, row), listed, policy)
  {
    assert SoundReservation(a.intents[i]);
    RestateIntentKeepsSound(a, i, row);
    forall o | 0 <= o < |a.orders| ensures Traded(SetIntent(a, i, row), o) == Traded(a, o) {
    }
    if WithinLimits(Reopen(a, listed), policy) {
      ReopenSound(a, listed);
      ReopenIntents(a, listed, a.intents[i := row]);
      RestateIntentKeepsLimits(Reopen(a, listed), i, row, policy);
    }
  }

  lemma AdmitIsBounded(a: Journal, request: Request, listed: set<nat>, policy: RiskPolicy)
    requires Sound(a) && AdmitIntent(a, request).Ok?
    ensures Bounded(a, AdmitIntent(a, request).value, listed, policy)
  {
    var b := AdmitIntent(a, request).value;
    forall o | 0 <= o < |a.orders| ensures Traded(b, o) == Traded(a, o) {
    }
    forall i | 0 <= i < |b.intents| ensures SoundReservation(b.intents[i]) {
      if i < |a.intents| {
        assert b.intents[i] == a.intents[i];
      }
    }
    AdmissionAddsNoExposure(Reopen(a, listed), request);
    ReopenIntents(a, listed, b.intents);
    if WithinLimits(Reopen(a, listed), policy) {
      AppendKeepsLimits(Reopen(a, listed), Reopen(b, listed), policy);
    }
  }

  lemma AdmissionAddsNoExposure(a: Journal, request: Request)
    ensures forall weight: Exposure -> real ::
      Exposed(a, weight) == Exposed(a.(intents := a.intents + [Intent(request, IntentState.Received, None, None)]), weight)
  {
    var row := Intent(request, IntentState.Received, None, None);
    forall weight: Exposure -> real
      ensures Exposed(a, weight) == Exposed(a.(intents := a.intents + [row]), weight)
    {
      TotalAppend(a.intents, row, OfReservations(weight));
      WeightOfReservation(row, weight);
    }
  }

  /** Limits depend only on positions and exposure. */
  lemma AppendKeepsLimits(a: Journal, b: Journal, policy: RiskPolicy)
    requires WithinLimits(a, policy) && a.positions == b.positions
    requires forall weight: Exposure -> real :: Exposed(a, weight) == Exposed(b, weight)
    ensures WithinLimits(b, policy)
  {
    OpenCountIsExposed(a);
    OpenCountIsExposed(b);
    assert Exposed(a, Each()) == Exposed(b, Each());
    forall t ensures LongCase(b, t) <= policy.maxNetPositionPerToken && -policy.maxNetPositionPerToken <= ShortCase(b, t) {
      assert LongCase(a, t) <= policy.maxNetPositionPerToken;
      assert Exposed(a, Pending(t, Buy)) == Exposed(b, Pending(t, Buy));
      assert Exposed(a, Pending(t, Sell)) == Exposed(b, Pending(t, Sell));
    }
    forall c ensures Exposed(b, MarketNotional(c)) <= policy.maxOpenNotionalPerMarket {
      assert Exposed(a, MarketNotional(c)) == Exposed(b, MarketNotional(c));
    }
  }

  /** The risk transaction, while no reconciliation is open. */
  lemma EvaluationIsBounded(a: Journal, i: nat, policy: RiskPolicy, market: MarketRules, book: OrderBook, today: int)
    requires i < |a.intents| && Sound(a) && EvaluateAndReserve(a, i, policy, market, book, today).Ok?
    ensures Bounded(a, EvaluateAndReserve(a, i, policy, market, book, today).value.0, {}, policy)
  {
    var (b, decision) := EvaluateAndReserve(a, i, policy, market, book, today).value;
    if decision.Refuse? {
      IntentRowIsBounded(a, i, a.intents[i].(state := IntentState.Rejected), {}, policy);
    } else {
      var reservation := ApprovalShape(a, i, policy, market, book, today);
      var row := a.intents[i].(state := IntentState.Approved, reservation := Some(reservation));
      RestateIntentKeepsSound(a, i, row);
      forall o | 0 <= o < |a.orders| ensures Traded(b, o) == Traded(a, o) {
      }
      ReopenNothing(a);
      ReopenNothing(b);
      if WithinLimits(a, policy) {
        EvaluationKeepsLimits(a, i, policy, market, book, today);
      }
    }
  }

  lemma {:induction false} NothingTraded(trades: seq<Trade>, o: nat)
    requires forall k | 0 <= k < |trades| :: trades[k].order < o
    ensures Total(trades, SizeFor(o)) == 0.0
  {
    if trades != [] {
      NothingTraded(trades[..|trades| - 1], o);
    }
  }

  lemma CreateIsBounded(a: Journal, i: nat, payload: string, orderKey: string, feeRate: real, listed: set<nat>,
            policy: RiskPolicy)
    requires Sound(a) && Linked(a) && FeeCarried(a, i, feeRate)
    requires CreatePreparedOrder(a, i, payload, orderKey, feeRate).Ok?
    ensures Bounded(a, CreatePreparedOrder(a, i, payload, orderKey, feeRate).value, listed, policy)
  {
    var b := CreatePreparedOrder(a, i, payload, orderKey, feeRate).value;
    assert LinkedIntent(a.intents[i]) && SoundReservation(a.intents[i]);
    NothingTraded(a.trades, |a.orders|);
    forall o | 0 <= o < |b.orders| ensures Traded(b, o) <= b.orders[o].original - b.orders[o].remaining {
      if o < |a.orders| {
        assert b.orders[o] == a.orders[o] && Traded(b, o) == Traded(a, o);
      }
    }
    if WithinLimits(Reopen(a, listed), policy) {
      CreateReopens(a, i, payload, orderKey, feeRate, listed);
      CreateConservesExposure(Reopen(a, listed), i, payload, orderKey, feeRate);
      SameExposureKeepsLimits(Reopen(a, listed), Reopen(b, listed), policy);
    }
  }

  /** A new order is open, so reopening the listed ones and creating it commute. */
  lemma CreateReopens(a: Journal, i: nat, payload: string, orderKey: string, feeRate: real, listed: set<nat>)
    requires i < |a.intents| && CreatePreparedOrder(a, i, payload, orderKey, feeRate).Ok?
    ensures CreatePreparedOrder(Reopen(a, listed), i, payload, orderKey, feeRate)
         == Ok(Reopen(CreatePreparedOrder(a, i, payload, orderKey, feeRate).value, listed))
  {
    var b := CreatePreparedOrder(a, i, payload, orderKey, feeRate).value;
    assert Reopen(b, listed).orders == Reopen(a, listed).orders + [b.orders[|a.orders|]];
  }

  lemma RecoveredOrderIsSound(a: Journal, o: nat)
    requires Sound(a) && Linked(a) && o < |a.orders|
    ensures Interrupted(a, o) ==> a.orders[o].state.Submitting?
    ensures SoundOrder(UnknownOrder(a, o)) && SameTerms(a.orders[o], UnknownOrder(a, o))
    ensures UnknownOrder(a, o).remaining == a.orders[o].remaining
  {
    InterruptedMeansSubmitting(a, o);
    assert SoundOrder(a.orders[o]);
  }

  lemma RestatedKeepsLimits(a: Journal, b: Journal, listed: set<nat>, policy: RiskPolicy)
    requires |a.orders| == |b.orders| && SameReservations(a.intents, b.intents)
    requires a.positions == b.positions && a.trades == b.trades
    requires forall o | 0 <= o < |a.orders| ::
      && OrderExposure(a.orders[o]) == OrderExposure(b.orders[o])
      && (a.orders[o].state.Active() <==> b.orders[o].state.Active())
    requires WithinLimits(Reopen(a, listed), policy)
    ensures WithinLimits(Reopen(b, listed), policy)
  {
    ReopenRestates(a, b, listed);
    SameExposureKeepsLimits(Reopen(a, listed), Reopen(b, listed), policy);
  }

  lemma RecoverInterruptedIsBounded(a: Journal, listed: set<nat>, policy: RiskPolicy)
    requires Sound(a) && Linked(a)
    ensures Bounded(a, RecoverInterrupted(a), listed, policy)
  {
    var b := RecoverInterrupted(a);
    forall o | 0 <= o < |a.orders|
      ensures Interrupted(a, o) ==> a.orders[o].state.Active()
      ensures SoundOrder(b.orders[o]) && SameTerms(a.orders[o], b.orders[o])
      ensures b.orders[o].remaining == a.orders[o].remaining && Traded(b, o) == Traded(a, o)
    {
      RecoveredOrderIsSound(a, o);
    }
    forall i | 0 <= i < |b.intents| ensures SoundReservation(b.intents[i]) {
      assert SoundReservation(a.intents[i]);
    }
    if WithinLimits(Reopen(a, listed), policy) {
      RestatedKeepsLimits(a, b, listed, policy);
    }
  }

  lemma RecoverLocalIsBounded(a: Journal, listed: set<nat>, policy: RiskPolicy)
    requires Sound(a) && RecoverPreSubmission(a).Ok?
    ensures Bounded(a, RecoverPreSubmission(a).value, listed, policy)
  {
    var b := RecoverPreSubmission(a).value;
    forall i | 0 <= i < |b.intents| ensures SoundReservation(b.intents[i]) {
      assert SoundReservation(a.intents[i]);
    }
    forall o | 0 <= o < |a.orders| ensures Traded(b, o) == Traded(a, o) {
    }
    if WithinLimits(Reopen(a, listed), policy) {
      ReopenSound(a, listed);
      ReopenIntents(a, listed, b.intents);
      ShrunkReservationsKeepLimits(Reopen(a, listed), Reopen(b, listed), policy);
    }
  }

  // ---------------------------------------------------------------------------------------------
  // Steps
  // ---------------------------------------------------------------------------------------------

  /** The limits hold of the journal with every order counted that an open reconciliation may bring back. */
  ghost predicate Covered(s: System) {
    WithinLimits(Reopen(s.journal, s.listed), s.policy)
  }

  ghost predicate BoundedStep(s: System, t: System) {
    && Sound(t.journal) && Descends(s.journal, t.journal) && t.policy == s.policy
    && (Covered(s) ==> Covered(t))
  }

  /** A bounded commit that leaves the listed orders listed. */
  lemma CommitIsBounded(s: System, t: System)
    requires Bounded(s.journal, t.journal, s.listed, s.policy) && t.listed == s.listed && t.policy == s.policy
    ensures BoundedStep(s, t)
  {
  }

  /** Listing, and ending or forgetting a listing. */
  lemma ListingIsBounded(s: System, t: System)
    requires Sound(s.journal) && t.journal == s.journal && t.policy == s.policy
    requires t.listed <= s.listed || t.listed == s.listed + OpenOrders(s.journal)
    ensures BoundedStep(s, t)
  {
    UnchangedIsBounded(s.journal, s.journal, s.listed, s.policy);
    ReopenOpen(s.journal, s.listed, OpenOrders(s.journal));
    if Covered(s) && t.listed <= s.listed {
      EndingShrinks(s.journal, s.listed, t.listed, s.policy);
    }
  }

  lemma OutsideIsBounded(s: System, step: Step)
    requires Sound(s.journal) && FireOutside(s, step).Some?
    ensures BoundedStep(s, FireOutside(s, step).value)
  {
    var a, b := s.journal, FireOutside(s, step).value.journal;
    if step.ListOpenOrders? || step.EndCycle? {
      ListingIsBounded(s, FireOutside(s, step).value);
    } else {
      if a.intents == b.intents && a.orders == b.orders && a.trades == b.trades && a.positions == b.positions {
        UnchangedIsBounded(a, b, s.listed, s.policy);
      } else if step.Admit? {
        AdmitIsBounded(a, step.request, s.listed, s.policy);
      } else {
        OutsideOrderIsBounded(s, step);
      }
      CommitIsBounded(s, FireOutside(s, step).value);
    }
  }

  lemma OutsideOrderIsBounded(s: System, step: Step)
    requires Sound(s.journal) && FireOutside(s, step).Some?
    requires step.Project? || step.Resolve? || step.Transition? || step.CancelPrepared? || step.PaperFill?
    requires FireOutside(s, step).value.journal != s.journal
    ensures Bounded(s.journal, FireOutside(s, step).value.journal, s.listed, s.policy)
  {
    var a, b := s.journal, FireOutside(s, step).value.journal;
    match step
    case Project(o, seen, day) =>
      var applied := ReconcileMoves(a, o, seen, day);
      MovesAreBounded(a, b, o, applied, s.listed, s.policy);
    case Resolve(o, venueId, seen, day) =>
      var applied := ResolveMoves(a, o, venueId, seen, day);
      MovesAreBounded(a, b, o, applied, s.listed, s.policy);
    case Transition(o, next) =>
      TransitionMoves(a, o, next);
      MovesAreBounded(a, b, o, 0.0, s.listed, s.policy);
    case CancelPrepared(o) =>
      CancelPreparedMoves(a, o);
      MovesAreBounded(a, b, o, 0.0, s.listed, s.policy);
    case PaperFill(o, state, remaining, fill, price, tradeId, day) =>
      var applied := PaperFillMoves(a, o, state, remaining, fill, price, tradeId, day);
      MovesAreBounded(a, b, o, applied, s.listed, s.policy);
  }

  lemma StartupIsBounded(s: System, step: Step)
    requires Sound(s.journal) && Linked(s.journal) && FireStartup(s, step).Some?
    ensures BoundedStep(s, FireStartup(s, step).value)
  {
    var a, b := s.journal, FireStartup(s, step).value.journal;
    if step.RecoverSubmissions? {
      RecoverInterruptedIsBounded(a, s.listed, s.policy);
    } else if step.RecoverLocalWork? && RecoverPreSubmission(a).Ok? {
      RecoverLocalIsBounded(a, s.listed, s.policy);
    } else {
      UnchangedIsBounded(a, b, s.listed, s.policy);
    }
  }

  lemma ReconciliationIsBounded(s: System, step: Step)
    requires Sound(s.journal) && FireReconciliation(s, step).Some?
    ensures BoundedStep(s, FireReconciliation(s, step).value)
  {
    var a, b := s.journal, FireReconciliation(s, step).value.journal;
    if step.Settle? && ResolveUnknown(a, step.order, step.venueId, step.seen, step.day).Ok? {
      var applied := ResolveMoves(a, step.order, step.venueId, step.seen, step.day);
      MovesAreBounded(a, b, step.order, applied, s.listed, s.policy);
    } else {
      UnchangedIsBounded(a, b, s.listed, s.policy);
    }
  }

  lemma AdmissionIsBounded(s: System, step: Step)
    requires Sound(s.journal) && FireAdmission(s, step).Some?
    ensures BoundedStep(s, FireAdmission(s, step).value)
  {
    var a, b := s.journal, FireAdmission(s, step).value.journal;
    if a == b {
      UnchangedIsBounded(a, b, s.listed, s.policy);
    } else if step.EvaluateRisk? {
      EvaluationIsBounded(a, s.holder.intent, s.policy, step.market, step.book, step.today);
    } else {
      IntentRowIsBounded(a, s.holder.intent, b.intents[s.holder.intent], s.listed, s.policy);
    }
  }

  lemma FinishIsBounded(s: System, response: Response, day: int)
    requires Sound(s.journal) && s.holder.Called? && FireSubmission(s, Finish(response, day)).Some?
    requires FireSubmission(s, Finish(response, day)).value.journal != s.journal
    ensures Bounded(s.journal, FireSubmission(s, Finish(response, day)).value.journal, s.listed, s.policy)
  {
    var a, b := s.journal, FireSubmission(s, Finish(response, day)).value.journal;
    var (i, o) := (s.holder.intent, s.holder.order);
    var applied;
    match response
    case Accepted(state, venueId, filled, price, tradeIds) =>
      applied := FinishMoves(a, i, o, false, state, Some(venueId), filled, price, tradeIds, day);
      MovesAreBounded(a, b, o, applied, s.listed, s.policy);
    case DefiniteRejection =>
      applied := FinishMoves(a, i, o, false, OrderState.Rejected, None, 0.0, None, [], day);
      MovesAreBounded(a, b, o, applied, s.listed, s.policy);
    case Ambiguous =>
      applied := FinishMoves(a, i, o, true, OrderState.Unknown, Some(a.intents[i].prepared.value.orderKey), 0.0, None, [], day);
      MovesAreBounded(a, b, o, applied, s.listed, s.policy);
  }

  lemma PreparationIsBounded(s: System, step: Step)
    requires Sound(s.journal) && Linked(s.journal) && HolderSound(s) && FireSubmission(s, step).Some?
    requires s.holder.AtApproved? || s.holder.AtPreparing?
    requires FireSubmission(s, step).value.journal != s.journal
    ensures Bounded(s.journal, FireSubmission(s, step).value.journal, s.listed, s.policy)
  {
    var a, b := s.journal, FireSubmission(s, step).value.journal;
    var i := s.holder.intent;
    if step.Prepare? {
      CreateIsBounded(a, i, step.payload, step.orderKey, s.holder.feeRate, s.listed, s.policy);
    } else {
      IntentRowIsBounded(a, i, b.intents[i], s.listed, s.policy);
    }
  }

  lemma BeginIsBounded(s: System)
    requires Sound(s.journal) && s.holder.MaySubmit? && FireSubmission(s, Begin).Some?
    requires FireSubmission(s, Begin).value.journal != s.journal
    ensures Bounded(s.journal, FireSubmission(s, Begin).value.journal, s.listed, s.policy)
  {
    BeginMoves(s.journal, s.holder.intent, s.holder.order);
    MovesAreBounded(s.journal, FireSubmission(s, Begin).value.journal, s.holder.order, 0.0, s.listed, s.policy);
  }

  /** The worker's submission half leaves listing and policy alone, and halts only in one place. */
  lemma SubmissionFrame(s: System, step: Step)
    requires FireSubmission(s, step).Some?
    ensures var t := FireSubmission(s, step).value; t.listed == s.listed && t.policy == s.policy
    ensures step.HaltAfterAmbiguity? ==> FireSubmission(s, step).value.journal == Halt(s.journal)
    ensures FireSubmission(s, step).value.journal != s.journal ==>
      || step.HaltAfterAmbiguity? || (step.Finish? && s.holder.Called?) || (step.Begin? && s.holder.MaySubmit?)
      || s.holder.AtApproved? || s.holder.AtPreparing?
  {
  }

  lemma SubmissionIsBounded(s: System, step: Step)
    requires Sound(s.journal) && Linked(s.journal) && HolderSound(s) && FireSubmission(s, step).Some?
    ensures BoundedStep(s, FireSubmission(s, step).value)
  {
    var a, b := s.journal, FireSubmission(s, step).value.journal;
    SubmissionFrame(s, step);
    if a == b || step.HaltAfterAmbiguity? {
      UnchangedIsBounded(a, b, s.listed, s.policy);
    } else if step.Finish? {
      FinishIsBounded(s, step.response, step.day);
    } else if step.Begin? {
      BeginIsBounded(s);
    } else {
      PreparationIsBounded(s, step);
    }
    CommitIsBounded(s, FireSubmission(s, step).value);
  }

  lemma WorkerIsBounded(s: System, step: Step)
    requires Sound(s.journal) && Linked(s.journal) && HolderSound(s)
    requires FireAdmission(s, step).Some? || FireSubmission(s, step).Some? || FireDrop(s, step).Some?
    ensures FireAdmission(s, step).Some? ==> BoundedStep(s, FireAdmission(s, step).value)
    ensures FireSubmission(s, step).Some? ==> BoundedStep(s, FireSubmission(s, step).value)
    ensures FireDrop(s, step).Some? ==> BoundedStep(s, FireDrop(s, step).value)
  {
    if FireAdmission(s, step).Some? {
      AdmissionIsBounded(s, step);
    }
    if FireSubmission(s, step).Some? {
      SubmissionIsBounded(s, step);
    }
    UnchangedIsBounded(s.journal, s.journal, s.listed, s.policy);
  }

  lemma ControlIsBounded(s: System, step: Step)
    requires Sound(s.journal)
    ensures FireProcess(s, step).Some? ==> BoundedStep(s, FireProcess(s, step).value)
    ensures FireResume(s, step).Some? ==> BoundedStep(s, FireResume(s, step).value)
  {
    if FireProcess(s, step).Some? {
      ListingIsBounded(s, FireProcess(s, step).value);
    }
    if FireResume(s, step).Some? {
      UnchangedIsBounded(s.journal, FireResume(s, step).value.journal, s.listed, s.policy);
    }
  }

  lemma FireIsBounded(s: System, step: Step)
    requires Sound(s.journal) && Linked(s.journal) && HolderSound(s) && Fire(s, step).Some?
    ensures BoundedStep(s, Fire(s, step).value)
  {
    ControlIsBounded(s, step);
    if FireOutside(s, step).Some? {
      OutsideIsBounded(s, step);
    }
    if FireStartup(s, step).Some? {
      StartupIsBounded(s, step);
    }
    if FireReconciliation(s, step).Some? {
      ReconciliationIsBounded(s, step);
    }
    if FireAdmission(s, step).Some? || FireSubmission(s, step).Some? || FireDrop(s, step).Some? {
      WorkerIsBounded(s, step);
    }
  }
}
