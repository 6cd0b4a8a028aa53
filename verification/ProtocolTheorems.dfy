/** The guarantees of the coordinator over every run, and the runs on which stronger readings fail. */
module ProtocolTheorems {
  import opened Wrappers
  import opened Domain
  import opened Sums
  import opened Risk
  import opened Journal
  import opened OrderBounds
  import opened RiskEnvelope
  import opened Reopening
  import opened JournalLinks
  import opened Protocol
  import opened ProtocolInvariant
  import opened ProtocolBounds

  lemma StepIsKept(states: seq<System>, steps: seq<Step>, k: nat)
    requires Run(states, steps) && k < |steps|
    ensures Inv(states[k]) && Fire(states[k], steps[k]) == Some(states[k + 1]) && Kept(states[k], states[k + 1])
  {
    RunKeepsInv(states, steps, k);
    assert Fire(states[k], steps[k]) == Some(states[k + 1]);
    FireKeepsInv(states[k], steps[k]);
  }

  /** A run with its steps forgotten: each state keeps what the one before it had. */
  ghost predicate Chain(states: seq<System>) {
    forall k | 0 <= k < |states| - 1 :: KeptAt(states, k)
  }

  ghost predicate KeptAt(states: seq<System>, k: nat)
    requires k < |states| - 1
  {
    Kept(states[k], states[k + 1])
  }

  lemma RunIsChain(states: seq<System>, steps: seq<Step>)
    requires Run(states, steps)
    ensures Chain(states)
  {
    forall k | 0 <= k < |states| - 1 ensures KeptAt(states, k) {
      StepIsKept(states, steps, k);
    }
  }

  /** Between any two states of a run: rows evolve, the call log grows, the revision never falls. */
  lemma {:induction false} ChainEvolves(states: seq<System>, k: nat, l: nat)
    requires Chain(states) && k <= l < |states|
    ensures Evolves(states[k].journal, states[l].journal)
    ensures states[k].calls <= states[l].calls
    ensures states[k].journal.control.revision <= states[l].journal.control.revision
  {
    if k < l {
      ChainEvolves(states, k, l - 1);
      assert KeptAt(states, l - 1);
      EvolvesTransitive(states[k].journal, states[l - 1].journal, states[l].journal);
    }
  }

  // ---------------------------------------------------------------------------------------------
  // One submission, with the persisted payload
  // ---------------------------------------------------------------------------------------------

  /**
   However the run crashes, restarts, or takes the same intent again, two venue calls are never for
   the same intent.
   */
  lemma VenueIsCalledAtMostOncePerIntent(states: seq<System>, steps: seq<Step>, k: nat, l: nat)
    requires Run(states, steps) && k < l < |steps|
    requires steps[k].CallVenue? && steps[l].CallVenue?
    ensures states[k].holder.Begun? && states[l].holder.Begun?
    ensures states[k].holder.intent != states[l].holder.intent
  {
    StepIsCall(states, steps, k);
    StepIsCall(states, steps, l);
    RunIsChain(states, steps);
    ChainCallsDiffer(states, k, l);
  }

  lemma ChainCallsDiffer(states: seq<System>, k: nat, l: nat)
    requires Chain(states) && k < l < |states| && Inv(states[l]) && states[k].holder.Begun? && states[l].holder.Begun?
    requires states[k + 1].calls == states[k].calls + [Call(states[k].holder.intent, states[k].holder.payload)]
    ensures states[k].holder.intent != states[l].holder.intent
  {
    ChainEvolves(states, k + 1, l);
    var n := |states[k].calls|;
    assert states[l].calls[n] == states[k + 1].calls[n];
    assert HolderSound(states[l]);
  }

  lemma StepIsCall(states: seq<System>, steps: seq<Step>, k: nat)
    requires Run(states, steps) && k < |steps| && steps[k].CallVenue?
    ensures Inv(states[k]) && states[k].holder.Begun?
    ensures states[k + 1].calls == states[k].calls + [Call(states[k].holder.intent, states[k].holder.payload)]
  {
    StepIsKept(states, steps, k);
    CallNeedsBegun(states[k]);
  }

  lemma CallNeedsBegun(s: System)
    requires Fire(s, CallVenue).Some?
    ensures s.holder.Begun?
    ensures Fire(s, CallVenue).value == s.(calls := s.calls + [Call(s.holder.intent, s.holder.payload)],
                                           holder := Called(s.holder.intent, s.holder.order))
  {
    assert FireSubmission(s, CallVenue).Some?;
  }

  /** At the call the intent is SUBMITTING, and what is sent is the payload stored for it, then and ever after. */
  lemma VenueReceivesThePersistedPayload(states: seq<System>, steps: seq<Step>, k: nat, l: nat)
    requires Run(states, steps) && k < l < |states| && steps[k].CallVenue?
    ensures states[k].holder.Begun?
    ensures var i := states[k].holder.intent;
      && i < |states[k].journal.intents| && i < |states[l].journal.intents|
      && states[k].journal.intents[i].state.Submitting?
      && Launched(states[l].journal.intents[i].state)
      && states[l].journal.intents[i].prepared.Some?
      && states[l].journal.intents[i].prepared.value.payload == states[k].holder.payload
  {
    StepIsKept(states, steps, k);
    CallNeedsBegun(states[k]);
    RunIsChain(states, steps);
    ChainEvolves(states, k, l);
    var i := states[k].holder.intent;
    assert IntentEvolves(states[k].journal.intents[i], states[l].journal.intents[i]);
  }

  // ---------------------------------------------------------------------------------------------
  // No submission while an outcome is unknown
  // ---------------------------------------------------------------------------------------------

  /** Whenever `begin_submission` commits, no order in the journal is UNKNOWN. */
  lemma NoUnknownWhenSubmissionBegins(states: seq<System>, steps: seq<Step>, k: nat)
    requires Run(states, steps) && k < |steps| && steps[k].Begin? && states[k + 1].holder.Begun?
    ensures NoUnknown(states[k].journal) && NoUnknown(states[k + 1].journal)
  {
    StepIsKept(states, steps, k);
    BeginNeedsReady(states[k]);
    BeginLinks(states[k].journal, states[k].holder.intent, states[k].holder.order);
  }

  lemma BeginNeedsReady(s: System)
    requires Fire(s, Begin).Some? && Fire(s, Begin).value.holder.Begun?
    ensures s.holder.MaySubmit? && BeginSubmission(s.journal, s.holder.intent, s.holder.order).Ok?
    ensures Fire(s, Begin).value.journal == BeginSubmission(s.journal, s.holder.intent, s.holder.order).value
  {
    assert FireSubmission(s, Begin).Some?;
  }

  // ---------------------------------------------------------------------------------------------
  // Quantities and limits
  // ---------------------------------------------------------------------------------------------

  ghost predicate BoundedChain(states: seq<System>) {
    && (forall k | 0 <= k < |states| :: Sound(states[k].journal) && states[k].policy == states[0].policy)
    && (forall k | 0 <= k < |states| - 1 :: BoundedAt(states, k))
  }

  ghost predicate BoundedAt(states: seq<System>, k: nat)
    requires k < |states| - 1
  {
    BoundedStep(states[k], states[k + 1])
  }

  lemma {:induction false} RunIsSound(states: seq<System>, steps: seq<Step>, k: nat)
    requires Run(states, steps) && k < |states|
    ensures Sound(states[k].journal) && states[k].policy == states[0].policy
  {
    if k > 0 {
      RunIsSound(states, steps, k - 1);
      RunStepIsBounded(states, steps, k - 1);
    }
  }

  lemma RunStepIsBounded(states: seq<System>, steps: seq<Step>, k: nat)
    requires Run(states, steps) && k < |steps| && Sound(states[k].journal)
    ensures BoundedStep(states[k], states[k + 1])
  {
    StepIsKept(states, steps, k);
    FireIsBounded(states[k], steps[k]);
  }

  lemma RunIsBoundedChain(states: seq<System>, steps: seq<Step>)
    requires Run(states, steps)
    ensures BoundedChain(states)
  {
    forall k | 0 <= k < |states| ensures Sound(states[k].journal) && states[k].policy == states[0].policy {
      RunIsSound(states, steps, k);
    }
    forall k | 0 <= k < |states| - 1 ensures BoundedAt(states, k) {
      RunStepIsBounded(states, steps, k);
    }
  }

  lemma {:induction false} ChainDescends(states: seq<System>, k: nat, l: nat)
    requires BoundedChain(states) && k <= l < |states|
    ensures Descends(states[k].journal, states[l].journal)
  {
    if k < l {
      ChainDescends(states, k, l - 1);
      assert BoundedAt(states, l - 1);
      DescendsTransitive(states[k].journal, states[l - 1].journal, states[l].journal);
    }
  }

  /**
   In every reachable state each order has 0 <= remaining <= original and trades within what it has
   lost; from any state to any later one, its remaining quantity never grows and its trades grow by
   no more than that fall.
   */
  lemma QuantitiesOnlyDescend(states: seq<System>, steps: seq<Step>, k: nat, l: nat)
    requires Run(states, steps) && k <= l < |states|
    ensures Descends(states[k].journal, states[l].journal)
    ensures forall o | 0 <= o < |states[l].journal.orders| ::
      var order := states[l].journal.orders[o];
      0.0 <= order.remaining <= order.original && Traded(states[l].journal, o) <= order.original - order.remaining
  {
    RunIsBoundedChain(states, steps);
    ChainDescends(states, k, l);
    forall o | 0 <= o < |states[l].journal.orders|
      ensures 0.0 <= states[l].journal.orders[o].remaining <= states[l].journal.orders[o].original
    {
      assert SoundOrder(states[l].journal.orders[o]);
    }
  }

  lemma {:induction false} ChainStaysCovered(states: seq<System>, k: nat)
    requires BoundedChain(states) && k < |states| && Covered(states[0])
    ensures Covered(states[k])
  {
    if k > 0 {
      ChainStaysCovered(states, k - 1);
      assert BoundedAt(states, k - 1);
    }
  }

  /**
   The limits checked at admission bound every reachable state, whatever stale reports are projected: each
   token's worst-case position, the number of open orders and reservations, and each market's open
   notional. They do so even with every order counted that an open reconciliation could still bring back.
   */
  lemma LimitsHoldInEveryState(states: seq<System>, steps: seq<Step>, k: nat)
    requires Run(states, steps) && k < |states| && WithinLimits(states[0].journal, states[0].policy)
    ensures WithinLimits(states[k].journal, states[0].policy)
    ensures WithinLimits(Reopen(states[k].journal, states[k].listed), states[0].policy)
  {
    RunIsBoundedChain(states, steps);
    ReopenNothing(states[0].journal);
    ChainStaysCovered(states, k);
    ReopenedMeansWithin(states[k].journal, states[k].listed, states[0].policy);
  }

  predicate PositionWithin(j: Journal, t: string, limit: real) {
    Abs(SharesOf(j.positions, t)) <= limit
  }

  /** A start without orders is within the limits exactly when every position is. */
  lemma StartWithinLimitsIff(s: System)
    requires Initial(s) && s.policy.maxOpenNotionalPerMarket >= 0.0
    ensures WithinLimits(s.journal, s.policy)
       <==> forall t :: PositionWithin(s.journal, t, s.policy.maxNetPositionPerToken)
  {
    var j, limit := s.journal, s.policy.maxNetPositionPerToken;
    forall t ensures LongCase(j, t) == SharesOf(j.positions, t) && ShortCase(j, t) == SharesOf(j.positions, t) {
    }
    forall c ensures Exposed(j, MarketNotional(c)) == 0.0 {
    }
    if WithinLimits(j, s.policy) {
      forall t ensures PositionWithin(j, t, limit) {
        assert LongCase(j, t) <= limit && -limit <= ShortCase(j, t);
      }
    }
    if forall t :: PositionWithin(j, t, limit) {
      forall t ensures LongCase(j, t) <= limit && -limit <= ShortCase(j, t) {
        assert PositionWithin(j, t, limit);
      }
    }
  }

  // ---------------------------------------------------------------------------------------------
  // Handover
  // ---------------------------------------------------------------------------------------------

  /** The steps that hand a worst case from one row or state to the next. */
  predicate HandsOver(step: Step) {
    step.Prepare? || step.Begin? || step.RecoverSubmissions? || (step.Finish? && step.response.Ambiguous?)
  }

  lemma HandoverStep(s: System, step: Step)
    requires Fire(s, step).Some? && HandsOver(step)
    ensures step.RecoverSubmissions? ==> FireStartup(s, step) == Fire(s, step)
    ensures !step.RecoverSubmissions? ==> FireSubmission(s, step) == Fire(s, step)
  {
  }

  lemma RecoveryHandsOver(s: System)
    requires Inv(s) && Sound(s.journal) && FireStartup(s, RecoverSubmissions).Some?
    ensures SameExposure(s.journal, FireStartup(s, RecoverSubmissions).value.journal)
  {
    forall o | 0 <= o < |s.journal.orders| && Interrupted(s.journal, o) ensures s.journal.orders[o].state.Active() {
      RecoveredOrderIsSound(s.journal, o);
    }
    RecoverInterruptedConservesExposure(s.journal);
  }

  lemma SubmissionHandsOver(s: System, step: Step)
    requires Inv(s) && Sound(s.journal) && HandsOver(step) && FireSubmission(s, step).Some?
    ensures SameExposure(s.journal, FireSubmission(s, step).value.journal)
  {
    var a, b := s.journal, FireSubmission(s, step).value.journal;
    var i := s.holder.intent;
    if a == b {
      assert SameExposure(a, b);
    } else if step.Prepare? {
      assert LinkedIntent(a.intents[i]);
      CreateConservesExposure(a, i, step.payload, step.orderKey, s.holder.feeRate);
    } else if step.Begin? {
      BeginConservesExposure(a, i, s.holder.order);
    } else {
      AmbiguousFinishConservesExposure(a, i, s.holder.order, Some(a.intents[i].prepared.value.orderKey), [], step.day);
    }
  }

  /** Through preparation, begin, ambiguity and crash recovery, every risk snapshot stays what it was. */
  lemma HandoverKeepsEverySnapshot(states: seq<System>, steps: seq<Step>, k: nat, conditionId: string,
            tokenId: string, today: int)
    requires Run(states, steps) && k < |steps| && HandsOver(steps[k])
    ensures SnapshotOf(states[k + 1].journal, conditionId, tokenId, today)
         == SnapshotOf(states[k].journal, conditionId, tokenId, today)
  {
    StepIsKept(states, steps, k);
    RunIsSound(states, steps, k);
    HandoverStep(states[k], steps[k]);
    if steps[k].RecoverSubmissions? {
      RecoveryHandsOver(states[k]);
    } else {
      SubmissionHandsOver(states[k], steps[k]);
    }
    SameExposureSameSnapshot(states[k].journal, states[k + 1].journal, conditionId, tokenId, today);
  }

  // ---------------------------------------------------------------------------------------------
  // Resume and halt
  // ---------------------------------------------------------------------------------------------

  /** The revision a resume in progress holds. */
  function HeldRevision(holder: Holder): Option<nat> {
    match holder
    case ResumeReconciling(revision, _) => Some(revision)
    case ResumeChecked(revision) => Some(revision)
    case _ => None
  }

  /** A step keeps the held revision, drops it, or is the read that takes it. */
  ghost predicate RevisionTaken(s: System, step: Step, t: System) {
    HeldRevision(t.holder).Some? ==>
      || HeldRevision(s.holder) == HeldRevision(t.holder)
      || (step.ReadRevision? && t.journal == s.journal && s.journal.control.state.Halted?
          && HeldRevision(t.holder) == Some(s.journal.control.revision))
  }

  lemma ResumeStep(s: System, step: Step)
    requires Fire(s, step).Some?
    ensures RevisionTaken(s, step, Fire(s, step).value)
  {
    WorkerHoldsNoRevision(s, step);
    OutsideHoldsRevision(s, step);
    ReconciliationHoldsRevision(s, step);
  }

  lemma OutsideHoldsRevision(s: System, step: Step)
    ensures FireOutside(s, step).Some? ==> FireOutside(s, step).value.holder == s.holder
    ensures FireStartup(s, step).Some? ==> HeldRevision(FireStartup(s, step).value.holder).None?
  {
  }

  lemma ReconciliationHoldsRevision(s: System, step: Step)
    ensures FireReconciliation(s, step).Some? ==> RevisionTaken(s, step, FireReconciliation(s, step).value)
  {
  }

  lemma WorkerHoldsNoRevision(s: System, step: Step)
    ensures FireAdmission(s, step).Some? ==> HeldRevision(FireAdmission(s, step).value.holder).None?
    ensures FireSubmission(s, step).Some? ==> HeldRevision(FireSubmission(s, step).value.holder).None?
  {
  }

  ghost predicate TakenAt(states: seq<System>, steps: seq<Step>, k: nat)
    requires |states| == |steps| + 1 && k < |steps|
  {
    RevisionTaken(states[k], steps[k], states[k + 1])
  }

  /** Where the resume that is under way in state `l` read the control state. */
  lemma {:induction false} ResumeBegan(states: seq<System>, steps: seq<Step>, l: nat) returns (k: nat)
    requires |states| == |steps| + 1 && HeldRevision(states[0].holder).None?
    requires forall n | 0 <= n < |steps| :: TakenAt(states, steps, n)
    requires l < |states| && HeldRevision(states[l].holder).Some?
    ensures k < l && steps[k].ReadRevision? && states[k].journal.control.state.Halted?
    ensures HeldRevision(states[l].holder) == Some(states[k].journal.control.revision)
    ensures states[k + 1].journal == states[k].journal
    ensures forall m | k < m <= l :: HeldRevision(states[m].holder) == HeldRevision(states[l].holder)
  {
    assert TakenAt(states, steps, l - 1);
    if HeldRevision(states[l - 1].holder) == HeldRevision(states[l].holder) {
      k := ResumeBegan(states, steps, l - 1);
    } else {
      k := l - 1;
    }
  }

  lemma RunTakesRevisions(states: seq<System>, steps: seq<Step>)
    requires Run(states, steps)
    ensures forall n | 0 <= n < |steps| :: TakenAt(states, steps, n)
  {
    forall n | 0 <= n < |steps| ensures TakenAt(states, steps, n) {
      assert Fire(states[n], steps[n]) == Some(states[n + 1]);
      ResumeStep(states[n], steps[n]);
    }
  }

  /**
   A resume commits READY exactly when no control write, by any halter or by its own reconciliation,
   has been committed since it read HALTED.
   */
  lemma ResumeCommitsIffControlUntouched(states: seq<System>, steps: seq<Step>, l: nat) returns (k: nat)
    requires Run(states, steps) && l < |steps| && steps[l].CommitResume?
    ensures k < l && steps[k].ReadRevision? && states[k].journal.control.state.Halted?
    ensures states[l + 1].journal.control.state.Ready?
       <==> forall m | k <= m <= l :: states[m].journal.control == states[k].journal.control
    ensures !states[l + 1].journal.control.state.Ready? ==> states[l + 1].journal == states[l].journal
  {
    StepIsKept(states, steps, l);
    CommitResumeStep(states[l]);
    RunTakesRevisions(states, steps);
    k := ResumeBegan(states, steps, l);
    RunIsChain(states, steps);
    if states[l].journal.control.revision == states[k].journal.control.revision {
      forall m | k <= m <= l ensures states[m].journal.control == states[k].journal.control {
        SameRevisionSameControl(states, k, m, l);
      }
    }
  }

  lemma CommitResumeStep(s: System)
    requires Inv(s) && Fire(s, CommitResume).Some?
    ensures s.holder.ResumeChecked? && !s.journal.control.state.Ready?
    ensures var t := Fire(s, CommitResume).value;
      && (t.journal.control.state.Ready? <==> s.journal.control.state.Halted? && s.journal.control.revision == s.holder.revision)
      && (!t.journal.control.state.Ready? ==> t.journal == s.journal)
  {
    assert FireResume(s, CommitResume).Some?;
  }

  lemma {:induction false} SameRevisionSameControl(states: seq<System>, k: nat, m: nat, l: nat)
    requires Chain(states) && k <= m <= l < |states|
    requires states[k].journal.control.revision == states[l].journal.control.revision
    ensures states[m].journal.control == states[k].journal.control
  {
    if k < m {
      ChainEvolves(states, k, m - 1);
      ChainEvolves(states, m, l);
      assert KeptAt(states, m - 1);
      SameRevisionSameControl(states, k, m - 1, l);
    }
  }

  lemma FinishKeepsControl(s: System, response: Response, day: int)
    requires s.holder.Called? && FireSubmission(s, Finish(response, day)).Some?
    ensures FireSubmission(s, Finish(response, day)).value.journal.control == s.journal.control
  {
  }

  // ---------------------------------------------------------------------------------------------
  // Recovery
  // ---------------------------------------------------------------------------------------------

  /** Startup's check that every PREPARED intent has exactly one prepared order and attempt never refuses. */
  lemma PreparedWorkIsAlwaysRecoverable(states: seq<System>, steps: seq<Step>, k: nat)
    requires Run(states, steps) && k < |steps| && steps[k].RecoverLocalWork?
    ensures states[k + 1].holder.StartupReconciling?
    ensures forall i | 0 <= i < |states[k].journal.intents| && states[k].journal.intents[i].state.Prepared? ::
      states[k + 1].journal.intents[i] == states[k].journal.intents[i]
  {
    StepIsKept(states, steps, k);
    LinkedIsRecoverable(states[k].journal);
    assert FireStartup(states[k], RecoverLocalWork).Some?;
  }

  /**
   An approved decision for a VALIDATING intent can be committed exactly when the intent has no
   reservation row; a row released by recovery is still there.
   */
  lemma ApprovalCommitsIffUnreserved(j: Journal, i: nat, policy: RiskPolicy, market: MarketRules, book: OrderBook,
            today: int)
    requires i < |j.intents| && j.intents[i].state.Validating?
    requires var request := j.intents[i].request;
      && SnapshotOf(j, request.conditionId, request.tokenId, today).Ok?
      && Evaluate(policy, request, market, book, SnapshotOf(j, request.conditionId, request.tokenId, today).value).Approve?
    ensures EvaluateAndReserve(j, i, policy, market, book, today).Ok? <==> j.intents[i].reservation.None?
  {
    var request := j.intents[i].request;
    ApprovedMeans(policy, request, market, book, SnapshotOf(j, request.conditionId, request.tokenId, today).value);
  }

  /**
   So an intent whose reservation recovery (or a failed preparation) has released is never sent to
   the venue, in any continuation: it can be validated again but no longer approved.
   */
  lemma ReleasedIntentIsNeverSubmitted(states: seq<System>, steps: seq<Step>, k: nat, l: nat, i: nat)
    requires Run(states, steps) && k <= l < |states| && i < |states[k].journal.intents|
    requires var r := states[k].journal.intents[i].reservation; r.Some? && r.value.state.Released?
    ensures i < |states[l].journal.intents|
    ensures states[l].journal.intents[i].prepared.None? && !Launched(states[l].journal.intents[i].state)
    ensures forall n | 0 <= n < |states[l].calls| :: states[l].calls[n].intent != i
  {
    RunKeepsInv(states, steps, l);
    RunIsChain(states, steps);
    ChainEvolves(states, k, l);
    assert IntentEvolves(states[k].journal.intents[i], states[l].journal.intents[i]);
    assert LinkedIntent(states[l].journal.intents[i]);
  }

  // ---------------------------------------------------------------------------------------------
  // The venue's answer
  // ---------------------------------------------------------------------------------------------

  lemma FinishCondition(j: Journal, i: nat, o: nat, unknown: bool, state: OrderState, venueId: Option<string>,
                        filled: real, price: Option<real>, tradeIds: seq<string>, day: int)
    requires Linked(j) && i < |j.intents| && o < |j.orders| && j.orders[o].intent == i && j.intents[i].state.Submitting?
    ensures FinishSubmission(j, i, o, unknown, state, venueId, filled, price, tradeIds, day).Ok?
       <==> ValidEvidence(j.orders[o].original, state, FinishRemaining(j.orders[o].original, state, filled), filled, price)
  {
    assert Pairs(j.intents[i], j.orders[o].state);
  }

  lemma FinishStep(s: System, response: Response, day: int)
    requires Fire(s, Finish(response, day)).Some?
    ensures s.holder.Called? && FireSubmission(s, Finish(response, day)) == Fire(s, Finish(response, day))
  {
  }

  lemma AmbiguousFinish(s: System, day: int)
    requires Inv(s) && Sound(s.journal) && s.holder.Called? && FireSubmission(s, Finish(Ambiguous, day)).Some?
    ensures var t := FireSubmission(s, Finish(Ambiguous, day)).value;
      && t.holder.MustHalt? && s.holder.order < |t.journal.orders| && t.journal.orders[s.holder.order].state.Unknown?
  {
    var (i, o) := (s.holder.intent, s.holder.order);
    assert SoundOrder(s.journal.orders[o]);
    FinishCondition(s.journal, i, o, true, OrderState.Unknown, Some(s.journal.intents[i].prepared.value.orderKey), 0.0, None, [], day);
    assert Pairs(s.journal.intents[i], s.journal.orders[o].state);
  }

  /** An ambiguous outcome is always recorded as UNKNOWN, and the gate holder is left having to halt. */
  lemma AmbiguityIsAlwaysRecorded(states: seq<System>, steps: seq<Step>, k: nat)
    requires Run(states, steps) && k < |steps| && steps[k].Finish? && steps[k].response.Ambiguous?
    ensures states[k].holder.Called? && states[k + 1].holder.MustHalt?
    ensures states[k].holder.order < |states[k + 1].journal.orders|
    ensures states[k + 1].journal.orders[states[k].holder.order].state.Unknown?
  {
    StepIsKept(states, steps, k);
    RunIsSound(states, steps, k);
    FinishStep(states[k], steps[k].response, steps[k].day);
    AmbiguousFinish(states[k], steps[k].day);
  }

  /**
   An accepted answer is recorded exactly when its quantities are plausible. One that is not leaves
   the order SUBMITTING and the service as it was: READY stays READY, without a halt.
   */
  lemma AcceptanceIsRecordedIffPlausible(states: seq<System>, steps: seq<Step>, k: nat)
    requires Run(states, steps) && k < |steps| && steps[k].Finish? && steps[k].response.Accepted?
    ensures states[k].holder.Called? && states[k + 1].holder.Free?
    ensures states[k].holder.order < |states[k].journal.orders| == |states[k + 1].journal.orders|
    ensures var (o, answer) := (states[k].holder.order, steps[k].response);
      var original := states[k].journal.orders[o].original;
      var plausible := ValidEvidence(original, answer.state, FinishRemaining(original, answer.state, answer.filled), answer.filled, answer.price);
      && (plausible <==> !states[k + 1].journal.orders[o].state.Submitting?)
      && (!plausible ==> states[k + 1].journal == states[k].journal)
  {
    StepIsKept(states, steps, k);
    FinishStep(states[k], steps[k].response, steps[k].day);
    AcceptedFinish(states[k], steps[k].response, steps[k].day);
  }

  lemma AcceptedFinish(s: System, answer: Response, day: int)
    requires Inv(s) && s.holder.Called? && answer.Accepted? && FireSubmission(s, Finish(answer, day)).Some?
    ensures var t := FireSubmission(s, Finish(answer, day)).value;
      var o := s.holder.order;
      && t.holder.Free? && o < |s.journal.orders| == |t.journal.orders|
      && (ValidEvidence(s.journal.orders[o].original, answer.state,
                        FinishRemaining(s.journal.orders[o].original, answer.state, answer.filled), answer.filled, answer.price)
          <==> !t.journal.orders[o].state.Submitting?)
      && (t.journal.orders[o].state.Submitting? ==> t.journal == s.journal)
  {
    FinishCondition(s.journal, s.holder.intent, s.holder.order, false, answer.state, Some(answer.venueId),
                    answer.filled, answer.price, answer.tradeIds, day);
    assert Pairs(s.journal.intents[s.holder.intent], s.journal.orders[s.holder.order].state);
  }
}
