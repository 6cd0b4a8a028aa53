/**
 The coordinator's own routines (src/execution.rs): sequences of journal transactions under the safety
 gate, with loops over orders, a deferred list and a queue.

 What the venue answers is passed in. Each routine also yields the protocol steps it has taken and is
 proved to be a path of module Protocol, so every theorem about runs covers it.
 */
module Coordinator {
  import opened Wrappers
  import opened Domain
  import opened Risk
  import opened Journal
  import opened Store
  import opened Cancellations
  import opened Protocol
  import opened CoordinatorPaths
  import opened Reconcile
  import Recovery
  import opened Worker

  class Gate {
    const store: JournalStore
    const policy: RiskPolicy
    var calls: seq<Call>
    var deferred: seq<nat>
    var queue: seq<nat>
    ghost var listed: set<nat>

    constructor (store: JournalStore, policy: RiskPolicy)
      ensures this.store == store && this.policy == policy
      ensures calls == [] && deferred == [] && queue == [] && listed == {}
    {
      this.store, this.policy := store, policy;
      calls, deferred, queue, listed := [], [], [], {};
    }

    /** The protocol state with the gate holder at `holder`. */
    ghost function At(holder: Holder): System
      reads this, store
    {
      System(store.View(), holder, listed, calls, policy)
    }

    method Defer(i: nat)
      modifies this`deferred
      ensures deferred == Keeping(old(deferred), i)
    {
      if i !in deferred {
        deferred := deferred + [i];
      }
    }

    method WriteHalted()
      modifies store`control
      ensures store.View() == Halt(old(store.View()))
    {
      var _ := store.SetServiceState(Halted, None);
    }

    // -------------------------------------------------------------------------------------------
    // The worker
    // -------------------------------------------------------------------------------------------

    /** The transaction the kind of answer calls for. */
    method CommitAnswer(i: nat, o: nat, answer: VenueAnswer) returns (refusal: Option<Refusal>)
      requires i < |store.intents| && store.intents[i].prepared.Some?
      modifies store
      ensures Outcome(old(store.View()), Finishing(old(store.View()), i, o, answer.response, answer.day), store.View(), refusal)
    {
      match answer.response {
        case Accepted(state, venueId, filled, price, tradeIds) =>
          refusal := store.FinishSubmission(i, o, false, state, Some(venueId), filled, price, tradeIds, answer.day);
        case Ambiguous =>
          var key := store.intents[i].prepared.value.orderKey;
          refusal := store.FinishSubmission(i, o, true, OrderState.Unknown, Some(key), 0.0, None, [], answer.day);
        case DefiniteRejection =>
          refusal := store.FinishSubmission(i, o, false, OrderState.Rejected, None, 0.0, None, [], answer.day);
      }
    }

    /** The halt that follows an ambiguous answer and some rejections. */
    method HaltAfterAnswer(answer: VenueAnswer, ghost start: System, ghost before: seq<Step>) returns (ghost steps: seq<Step>)
      requires Path(start, before, At(if answer.response.Ambiguous? then MustHalt else Free))
      modifies store`control
      ensures before <= steps && Path(start, steps, At(Free))
      ensures store.View() == HaltedIf(old(store.View()), HaltsAfter(answer))
    {
      steps := before;
      if answer.response.Ambiguous? {
        HaltAfterAmbiguityPath(start, steps, At(MustHalt));
        steps := steps + [HaltAfterAmbiguity];
        WriteHalted();
      } else if answer.response.DefiniteRejection? && answer.haltRequired {
        WriteHaltPath(start, steps, At(Free));
        steps := steps + [WriteHalt];
        WriteHalted();
      }
    }

    /** The match over the venue's answer that ends `submit_prepared`. */
    method RecordAnswer(i: nat, o: nat, answer: VenueAnswer, ghost start: System, ghost before: seq<Step>)
      returns (ending: Ending, ghost steps: seq<Step>)
      requires KnownAnswer(answer.response) && i < |store.intents| && store.intents[i].prepared.Some?
      requires Path(start, before, At(Called(i, o)))
      modifies store
      ensures before <= steps && Path(start, steps, At(Free)) && !ending.Deferred?
      ensures ending.Done? <==> Finishing(old(store.View()), i, o, answer.response, answer.day).Ok?
      ensures ending.Done? ==> Answered(store.View(), o, answer)
      ensures store.View() == if ending.Done? then HaltedIf(Finishing(old(store.View()), i, o, answer.response, answer.day).value, HaltsAfter(answer))
                              else old(store.View())
    {
      AnswerIsRecorded(store.View(), i, o, answer);
      FinishPath(start, before, At(Called(i, o)), i, o, answer.response, answer.day);
      steps := before + [Finish(answer.response, answer.day)];
      var refusal := CommitAnswer(i, o, answer);
      if refusal.Some? {
        return Failed, steps;
      }
      steps := HaltAfterAnswer(answer, start, steps);
      ending := Done;
    }

    /** The readiness check and `begin_submission`; work refused for the service state is deferred. */
    method BeginPrepared(i: nat, o: nat, payload: string, ghost start: System, ghost before: seq<Step>)
      returns (ending: Ending, ghost steps: seq<Step>)
      requires Path(start, before, At(HasPrepared(i, o, payload)))
      modifies this`deferred, store
      ensures before <= steps && Path(start, steps, At(if ending.Done? then Begun(i, o, payload) else Free))
      ensures ending.Done? <==> BeginSubmission(old(store.View()), i, o).Ok?
      ensures ending.Deferred? <==> !old(store.control.state).Ready?
      ensures store.View() == if ending.Done? then BeginSubmission(old(store.View()), i, o).value else old(store.View())
      ensures deferred == if ending.Deferred? then Keeping(old(deferred), i) else old(deferred)
    {
      ReadBeforeSubmitPath(start, before, At(HasPrepared(i, o, payload)), i, o, payload);
      steps := before + [ReadBeforeSubmit];
      if !store.control.state.Ready? {
        Defer(i);
        return Deferred, steps;
      }
      BeginPath(start, steps, At(MaySubmit(i, o, payload)), i, o, payload);
      steps := steps + [Begin];
      var refusal := store.BeginSubmission(i, o);
      if refusal.None? {
        return Done, steps;
      }
      if refusal.value.NewRiskDisabled? {
        Defer(i);
        return Deferred, steps;
      }
      ending := Failed;
    }

    /** `submit_prepared`: begin, one venue call, and the record of its outcome. */
    method SubmitPrepared(i: nat, o: nat, payload: string, answer: VenueAnswer, ghost start: System,
              ghost before: seq<Step>)
      returns (ending: Ending, ghost steps: seq<Step>)
      requires KnownAnswer(answer.response) && i < |store.intents| && store.intents[i].prepared.Some?
      requires Path(start, before, At(HasPrepared(i, o, payload)))
      modifies this`calls, this`deferred, store
      ensures before <= steps && Path(start, steps, At(Free))
      ensures Took(Submission(old(store.View()), i, o, payload, answer), i, old(calls), old(deferred),
                   store.View(), calls, deferred, ending)
    {
      ending, steps := BeginPrepared(i, o, payload, start, before);
      if ending.Done? {
        CallPath(start, steps, At(Begun(i, o, payload)), i, o, payload);
        steps := steps + [CallVenue];
        calls := calls + [Call(i, payload)];
        ending, steps := RecordAnswer(i, o, answer, start, steps);
      }
    }

    /** `prepared_submission`: the order and attempt still PREPARED for this intent. */
    method FindPrepared(i: nat) returns (found: Option<nat>)
      ensures found == FirstPrepared(store.View(), i, |store.orders|)
      ensures found.Some? ==> PreparedPair(store.View(), i, found.value)
    {
      FirstPreparedFinds(store.View(), i, |store.orders|);
      for o := 0 to |store.orders|
        invariant FirstPrepared(store.View(), i, o).None?
      {
        if i < |store.intents| && store.orders[o].intent == i && store.orders[o].state.Prepared?
           && HasAttempt(store.intents[i], AttemptPrepared) {
          FirstPreparedStays(store.View(), i, o + 1, |store.orders|);
          return Some(o);
        }
      }
      found := None;
    }

    /** A rejection before anything was reserved; some venue errors also halt. */
    method RejectValidating(i: nat, halt: bool, ghost start: System, ghost before: seq<Step>)
      returns (ending: Ending, ghost steps: seq<Step>)
      requires Path(start, before, At(AtValidating(i)))
      modifies store
      ensures before <= steps && Path(start, steps, At(Free))
      ensures Took(Rejection(old(store.View()), i, IntentState.Validating, halt), i, calls, deferred, store.View(), calls, deferred, ending)
    {
      RefuseValidatingPath(start, before, At(AtValidating(i)), i);
      steps := before + [RefuseValidating];
      var refusal := store.TransitionIntent(i, IntentState.Validating, IntentState.Rejected);
      if refusal.Some? {
        return Failed, steps;
      }
      if halt {
        WriteHaltPath(start, steps, At(Free));
        steps := steps + [WriteHalt];
        WriteHalted();
      }
      ending := Done;
    }

    /** A venue that cannot prepare the order: the reservation is released; some venue errors also halt. */
    method RejectPreparing(i: nat, fee: real, halt: bool, ghost start: System, ghost before: seq<Step>)
      returns (ending: Ending, ghost steps: seq<Step>)
      requires i < |store.intents| && Path(start, before, At(AtPreparing(i, fee)))
      modifies store
      ensures before <= steps && Path(start, steps, At(Free))
      ensures Took(Unprepared(old(store.View()), i, halt), i, calls, deferred, store.View(), calls, deferred, ending)
    {
      RefusePreparationPath(start, before, At(AtPreparing(i, fee)), i, fee);
      steps := before + [RefusePreparation];
      var refusal := store.RejectPreparation(i);
      if refusal.Some? {
        return Failed, steps;
      }
      if halt {
        WriteHaltPath(start, steps, At(Free));
        steps := steps + [WriteHalt];
        WriteHalted();
      }
      ending := Done;
    }

    /** The signed order is persisted before anything is sent. */
    method PersistAndSubmit(i: nat, fee: real, prepared: (string, string), answer: VenueAnswer, ghost start: System,
              ghost before: seq<Step>)
      returns (ending: Ending, ghost steps: seq<Step>)
      requires KnownAnswer(answer.response) && i < |store.intents|
      requires Path(start, before, At(AtPreparing(i, fee)))
      modifies this`calls, this`deferred, store
      ensures before <= steps && Path(start, steps, At(Free))
      ensures Took(Persisting(old(store.View()), i, fee, prepared, answer), i, old(calls), old(deferred),
                   store.View(), calls, deferred, ending)
    {
      var (payload, orderKey) := prepared;
      var o := |store.orders|;
      PreparePath(start, before, At(AtPreparing(i, fee)), i, fee, payload, orderKey);
      steps := before + [Prepare(payload, orderKey)];
      var refusal := store.CreatePreparedOrder(i, payload, orderKey, fee);
      if refusal.Some? {
        return Failed, steps;
      }
      ending, steps := SubmitPrepared(i, o, payload, answer, start, steps);
    }

    /** From an approved reservation to the venue and back. */
    method PrepareAndSubmit(i: nat, fee: real, inputs: WorkerInputs, ghost start: System, ghost before: seq<Step>)
      returns (ending: Ending, ghost steps: seq<Step>)
      requires KnownAnswer(inputs.answer.response) && i < |store.intents|
      requires Path(start, before, At(AtApproved(i, fee)))
      modifies this`calls, this`deferred, store
      ensures before <= steps && Path(start, steps, At(Free))
      ensures Took(Preparation(old(store.View()), i, fee, inputs), i, old(calls), old(deferred),
                   store.View(), calls, deferred, ending)
    {
      MarkPreparingPath(start, before, At(AtApproved(i, fee)), i, fee);
      steps := before + [MarkPreparing];
      var refusal := store.TransitionIntent(i, IntentState.Approved, IntentState.Preparing);
      if refusal.Some? {
        return Failed, steps;
      }
      if inputs.prepared.None? {
        ending, steps := RejectPreparing(i, fee, inputs.haltRequired, start, steps);
        return;
      }
      ending, steps := PersistAndSubmit(i, fee, inputs.prepared.value, inputs.answer, start, steps);
    }

    /** `process_intent_inner` on one queued intent. */
    method ProcessIntent(i: nat, inputs: WorkerInputs) returns (ending: Ending, ghost steps: seq<Step>)
      requires KnownAnswer(inputs.answer.response) && i < |store.intents| && listed == {}
      requires inputs.tradable && inputs.market.Some? ==> ValidRules(inputs.market.value)
      modifies this`calls, this`deferred, store
      ensures Path(old(At(Free)), steps, At(Free))
      ensures Took(Processed(old(store.View()), policy, i, inputs), i, old(calls), old(deferred),
                   store.View(), calls, deferred, ending)
    {
      ghost var start := At(Free);
      EmptyPath(start);
      TakePath(start, [], start, i);
      steps := [] + [Take(i)];
      if !inputs.healthy {
        WriteHaltPath(start, steps, At(Taken(i)));
        steps := steps + [WriteHalt];
        WriteHalted();
      }
      if !inputs.healthy || !store.control.state.Ready? {
        RefuseReceivedPath(start, steps, At(Taken(i)), i);
        steps := steps + [RefuseReceived];
        var refusal := store.TransitionIntent(i, IntentState.Received, IntentState.Rejected);
        return if refusal.Some? then Failed else Done, steps;
      }
      ProceedPath(start, steps, At(Taken(i)), i);
      ending, steps := ProcessReady(i, inputs, start, steps + [ReadServiceState]);
    }

    /** The part of `process_intent_inner` that runs while the service is READY. */
    method ProcessReady(i: nat, inputs: WorkerInputs, ghost start: System, ghost before: seq<Step>)
      returns (ending: Ending, ghost steps: seq<Step>)
      requires KnownAnswer(inputs.answer.response) && i < |store.intents| && listed == {}
      requires inputs.tradable && inputs.market.Some? ==> ValidRules(inputs.market.value)
      requires Path(start, before, At(MayProceed(i)))
      modifies this`calls, this`deferred, store
      ensures before <= steps && Path(start, steps, At(Free))
      ensures Took(Processing(old(store.View()), policy, i, inputs), i, old(calls), old(deferred),
                   store.View(), calls, deferred, ending)
    {
      if store.intents[i].state.Prepared? {
        ending, steps := SubmitFound(i, inputs, start, before);
        return;
      }
      if !store.intents[i].state.Received? {
        DropPath(start, before, At(MayProceed(i)));
        return Failed, before + [Drop];
      }
      ValidatePath(start, before, At(MayProceed(i)), i);
      steps := before + [Validate];
      var refusal := store.TransitionIntent(i, IntentState.Received, IntentState.Validating);
      if refusal.Some? {
        return Failed, steps;
      }
      ending, steps := ValidateAndSubmit(i, inputs, start, steps);
    }

    /** A PREPARED intent: its persisted order is looked up and sent. */
    method SubmitFound(i: nat, inputs: WorkerInputs, ghost start: System, ghost before: seq<Step>)
      returns (ending: Ending, ghost steps: seq<Step>)
      requires KnownAnswer(inputs.answer.response) && i < |store.intents| && store.intents[i].state.Prepared?
      requires Path(start, before, At(MayProceed(i)))
      modifies this`calls, this`deferred, store
      ensures before <= steps && Path(start, steps, At(Free))
      ensures Took(Processing(old(store.View()), policy, i, inputs), i, old(calls), old(deferred),
                   store.View(), calls, deferred, ending)
    {
      var found := FindPrepared(i);
      if found.None? {
        DropPath(start, before, At(MayProceed(i)));
        return Failed, before + [Drop];
      }
      PickPreparedPath(start, before, At(MayProceed(i)), i, found.value);
      var payload := store.intents[i].prepared.value.payload;
      ending, steps := SubmitPrepared(i, found.value, payload, inputs.answer, start, before + [PickPrepared(found.value)]);
    }

    /** The validated part: market data, the risk transaction, then preparation. */
    method ValidateAndSubmit(i: nat, inputs: WorkerInputs, ghost start: System, ghost before: seq<Step>)
      returns (ending: Ending, ghost steps: seq<Step>)
      requires KnownAnswer(inputs.answer.response) && i < |store.intents| && listed == {}
      requires inputs.tradable && inputs.market.Some? ==> ValidRules(inputs.market.value)
      requires Path(start, before, At(AtValidating(i)))
      modifies this`calls, this`deferred, store
      ensures before <= steps && Path(start, steps, At(Free))
      ensures Took(Validation(old(store.View()), policy, i, inputs), i, old(calls), old(deferred),
                   store.View(), calls, deferred, ending)
    {
      if !inputs.valid {
        ending, steps := RejectValidating(i, false, start, before);
        return;
      }
      if inputs.market.None? || inputs.book.None? {
        ending, steps := RejectValidating(i, inputs.haltRequired, start, before);
        return;
      }
      if !inputs.tradable {
        ending, steps := RejectValidating(i, false, start, before);
        return;
      }
      ending, steps := EvaluateAndSubmit(i, inputs, start, before);
    }

    /** The risk transaction, then preparation. */
    method EvaluateAndSubmit(i: nat, inputs: WorkerInputs, ghost start: System, ghost before: seq<Step>)
      returns (ending: Ending, ghost steps: seq<Step>)
      requires KnownAnswer(inputs.answer.response) && i < |store.intents| && listed == {}
      requires inputs.valid && inputs.tradable && inputs.market.Some? && inputs.book.Some? && ValidRules(inputs.market.value)
      requires Path(start, before, At(AtValidating(i)))
      modifies this`calls, this`deferred, store
      ensures before <= steps && Path(start, steps, At(Free))
      ensures Took(Validation(old(store.View()), policy, i, inputs), i, old(calls), old(deferred),
                   store.View(), calls, deferred, ending)
    {
      var market := inputs.market.value;
      EvaluatePath(start, before, At(AtValidating(i)), i, market, inputs.book.value, inputs.today);
      steps := before + [EvaluateRisk(market, inputs.book.value, inputs.today)];
      var decision := store.EvaluateAndReserve(i, policy, market, inputs.book.value, inputs.today);
      if decision.Err? {
        return Failed, steps;
      }
      if decision.value.Refuse? {
        return Done, steps;
      }
      ending, steps := PrepareAndSubmit(i, market.LargerFee(), inputs, start, steps);
    }

    // -------------------------------------------------------------------------------------------
    // Reconciliation
    // -------------------------------------------------------------------------------------------

    /** The safety halt of a failed reconciliation: written unless the service is HALTED already. */
    method EnsureServiceHalted()
      modifies store`control
      ensures store.View() == EnsureHalted(old(store.View()))
    {
      if !store.control.state.Halted? {
        WriteHalted();
      }
    }

    /** One order of the list: what the venue shows of it is projected, and its absence reported. */
    method ProjectOne(open: seq<Order>, o: nat, report: VenueReport, ghost holder: Holder, ghost start: System,
              ghost before: seq<Step>)
      returns (failed: bool, missing: bool, ghost steps: seq<Step>)
      requires Path(start, before, At(holder)) && !holder.Down? && o < |open|
      requires open[o].venueId.Some? && open[o].state.Open() ==> o in listed
      modifies store
      ensures before <= steps && Path(start, steps, At(holder))
      ensures missing <==> Missing(open, o, report)
      ensures failed <==> ProjectedOne(open, old(store.View()), o, report).Err?
      ensures if failed then store.View() == old(store.View()) else ProjectedOne(open, old(store.View()), o, report) == Ok(store.View())
    {
      failed, missing, steps := false, false, before;
      if open[o].venueId.Some? && open[o].state.Open() {
        if o !in report.open || report.open[o].state.Unknown? {
          missing := true;
          return;
        }
        ProjectPath(start, before, At(holder), o, report.open[o], report.day);
        steps := before + [Project(o, report.open[o], report.day)];
        var refusal := store.ReconcileProjection(o, report.open[o], report.day);
        failed := refusal.Some?;
      }
    }

    /** Projects what the venue shows of each locally open order; a missing one is a finding. */
    method ProjectOpen(report: VenueReport, ghost holder: Holder, ghost start: System, ghost before: seq<Step>)
      returns (failed: bool, findings: bool, ghost steps: seq<Step>)
      requires Path(start, before, At(holder)) && !holder.Down?
      modifies this`listed, store
      ensures before <= steps && Path(start, steps, At(holder))
      ensures failed <==> Projected(old(store.View()), report, |old(store.orders)|).Err?
      ensures !failed ==> Projected(old(store.View()), report, |old(store.orders)|) == Ok(store.View())
      ensures !failed ==> (findings <==> AnyMissing(old(store.orders), |old(store.orders)|, report))
      ensures store.control == old(store.control) && store.intents == old(store.intents)
      ensures listed == {}
    {
      ListOpenPath(start, before, At(holder));
      steps := before + [ListOpenOrders];
      listed := listed + OpenOrders(store.View());
      failed, findings, steps := ProjectListed(report, holder, start, steps);
      EndCyclePath(start, steps, At(holder), listed);
      steps := steps + [EndCycle(listed)];
      listed := {};
    }

    /** The loop over the listed orders, which a refused projection ends. */
    method ProjectListed(report: VenueReport, ghost holder: Holder, ghost start: System, ghost before: seq<Step>)
      returns (failed: bool, findings: bool, ghost steps: seq<Step>)
      requires Path(start, before, At(holder)) && !holder.Down? && OpenOrders(store.View()) <= listed
      modifies store
      ensures before <= steps && Path(start, steps, At(holder))
      ensures failed <==> Projected(old(store.View()), report, |old(store.orders)|).Err?
      ensures !failed ==> Projected(old(store.View()), report, |old(store.orders)|) == Ok(store.View())
      ensures !failed ==> (findings <==> AnyMissing(old(store.orders), |old(store.orders)|, report))
      ensures store.control == old(store.control) && store.intents == old(store.intents)
    {
      var open := store.orders;
      ghost var was := store.View();
      steps, failed, findings := before, false, false;
      for o := 0 to |open|
        invariant before <= steps && Path(start, steps, At(holder))
        invariant Projected(was, report, o) == Ok(store.View())
        invariant findings <==> AnyMissing(open, o, report)
      {
        NextOpen(was, store.View(), o, report);
        assert open[o].venueId.Some? && open[o].state.Open() ==> o in OpenOrders(was);
        var missing;
        failed, missing, steps := ProjectOne(open, o, report, holder, start, steps);
        if failed {
          return;
        }
        findings := findings || missing;
      }
      SameIntentsAndControl(was, report);
      failed := false;
    }

    /** One UNKNOWN order: resolved from what the venue shows, or reported. */
    method SettleOne(o: nat, report: VenueReport, ghost unsettled: set<nat>, findings: bool, ghost holder: Holder,
                     ghost start: System, ghost before: seq<Step>)
      returns (failed: bool, found: bool, ghost steps: seq<Step>)
      requires Inside(holder, Started) && o in unsettled
      requires Path(start, before, At(WithProgress(holder, Listed(unsettled, findings))))
      modifies store
      ensures failed ==> Path(start, steps, At(AfterFailure(holder))) && store.control.state.Halted?
      ensures !failed ==> Path(start, steps, At(WithProgress(holder, Listed(unsettled - {o}, found))))
      ensures before <= steps && (!failed ==> store.control == old(store.control))
      ensures !failed ==> (found <==> findings || o !in report.unknown || report.unknown[o].seen.state.Unknown?)
      ensures failed <==> SettledOne(old(store.View()), o, report).Err?
      ensures !failed ==> SettledOne(old(store.View()), o, report) == Ok(store.View())
    {
      ghost var mid := At(WithProgress(holder, Listed(unsettled, findings)));
      if o in report.unknown && !report.unknown[o].seen.state.Unknown? {
        var sighting := report.unknown[o];
        SettlePath(start, before, mid, unsettled, findings, o, sighting.venueId, sighting.seen, report.day);
        steps := before + [Settle(o, sighting.venueId, sighting.seen, report.day)];
        var refusal := store.ResolveUnknown(o, sighting.venueId, sighting.seen, report.day);
        failed, found := refusal.Some?, findings;
        if failed {
          EnsureServiceHalted();
        }
      } else {
        UnsettledPath(start, before, mid, unsettled, findings, o);
        steps := before + [ReportUnsettled(o)];
        failed, found := false, true;
      }
    }

    /** Settles each UNKNOWN order the venue can account for; every other one is a finding. */
    method SettleUnknown(report: VenueReport, priorFindings: bool, ghost holder: Holder, ghost start: System,
              ghost before: seq<Step>)
      returns (failed: bool, findings: bool, ghost steps: seq<Step>)
      requires Path(start, before, At(holder)) && Inside(holder, Started)
      modifies store
      ensures failed ==> Path(start, steps, At(AfterFailure(holder))) && store.control.state.Halted?
      ensures !failed ==> Path(start, steps, At(WithProgress(holder, Listed({}, findings))))
      ensures before <= steps && (!failed ==> store.control == old(store.control))
      ensures !failed ==> (findings <==> priorFindings || AnyUnresolved(old(store.orders), |old(store.orders)|, report))
      ensures failed <==> Settled(old(store.View()), report, |old(store.orders)|).Err?
      ensures !failed ==> Settled(old(store.View()), report, |old(store.orders)|) == Ok(store.View())
    {
      steps := ListedPath(start, before, At(holder), priorFindings);
      failed, findings, steps := SettleListed(report, priorFindings, holder, start, steps);
    }

    /** The loop over the listed orders, which a refused settlement ends. */
    method SettleListed(report: VenueReport, priorFindings: bool, ghost holder: Holder, ghost start: System,
              ghost before: seq<Step>)
      returns (failed: bool, findings: bool, ghost steps: seq<Step>)
      requires Inside(holder, Started)
      requires Path(start, before, At(WithProgress(holder, Listed(UnknownOrders(store.View()), priorFindings))))
      modifies store
      ensures failed ==> Path(start, steps, At(AfterFailure(holder))) && store.control.state.Halted?
      ensures !failed ==> Path(start, steps, At(WithProgress(holder, Listed({}, findings))))
      ensures before <= steps && (!failed ==> store.control == old(store.control))
      ensures !failed ==> (findings <==> priorFindings || AnyUnresolved(old(store.orders), |old(store.orders)|, report))
      ensures failed <==> Settled(old(store.View()), report, |old(store.orders)|).Err?
      ensures !failed ==> Settled(old(store.View()), report, |old(store.orders)|) == Ok(store.View())
    {
      var seenAt := store.View();
      steps, failed, findings := before, false, priorFindings;
      UnknownFromStart(seenAt);
      for o := 0 to |seenAt.orders|
        invariant Path(start, steps, At(WithProgress(holder, Listed(UnknownFrom(seenAt, o), findings))))
        invariant before <= steps && store.control == seenAt.control
        invariant Settled(seenAt, report, o) == Ok(store.View())
        invariant findings <==> priorFindings || AnyUnresolved(seenAt.orders, o, report)
      {
        UnknownFromNext(seenAt, o);
        NextUnknown(seenAt, store.View(), o, report);
        if seenAt.orders[o].state.Unknown? {
          failed, findings, steps := SettleOne(o, report, UnknownFrom(seenAt, o), findings, holder, start, steps);
          if failed {
            return;
          }
        }
      }
      assert UnknownFrom(seenAt, |seenAt.orders|) == {};
      failed := false;
    }

    /** `reconcile_started` for startup or resume: any failure or finding ends with the service HALTED. */
    method ReconcileStarted(report: VenueReport, ghost holder: Holder, ghost start: System, ghost before: seq<Step>)
      returns (ok: bool, ghost steps: seq<Step>)
      requires Path(start, before, At(holder)) && Inside(holder, Started)
      modifies this`listed, store
      ensures Path(start, steps, At(if ok then AfterReconciliation(holder) else AfterFailure(holder)))
      ensures before <= steps && (old(listed) == {} ==> listed == {})
      ensures ok <==> report.available && Consistent(old(store.orders), |old(store.intents)|, report)
      ensures ok ==> Reconciled(old(store.View()), report).Ok?
      ensures ok ==> store.View() == HaltedIf(Reconciled(old(store.View()), report).value, Findings(old(store.orders), report))
      ensures !ok ==> store.control.state.Halted?
    {
      steps := before;
      ReconciliationGoesThroughIff(store.View(), report);
      if !report.available {
        WriteHaltPath(start, steps, At(holder));
        steps := steps + [WriteHalt];
        WriteHalted();
        steps := FailStarted(holder, start, steps);
        return false, steps;
      }
      ok, steps := TakeReport(report, holder, start, steps);
    }

    /** A failed reconciliation leaves the service HALTED. */
    method FailStarted(ghost holder: Holder, ghost start: System, ghost before: seq<Step>) returns (ghost steps: seq<Step>)
      requires Path(start, before, At(holder)) && Inside(holder, Started)
      modifies store`control
      ensures before <= steps && Path(start, steps, At(AfterFailure(holder)))
      ensures store.View() == EnsureHalted(old(store.View()))
    {
      FailReconciliationPath(start, before, At(holder));
      steps := before + [FailReconciliation];
      EnsureServiceHalted();
    }

    /** The venue's report, taken over: open orders first, then UNKNOWN ones. */
    method TakeReport(report: VenueReport, ghost holder: Holder, ghost start: System, ghost before: seq<Step>)
      returns (ok: bool, ghost steps: seq<Step>)
      requires Path(start, before, At(holder)) && Inside(holder, Started)
      modifies this`listed, store
      ensures Path(start, steps, At(if ok then AfterReconciliation(holder) else AfterFailure(holder)))
      ensures before <= steps && listed == {}
      ensures ok <==> Reconciled(old(store.View()), report).Ok?
      ensures ok ==> store.View() == HaltedIf(Reconciled(old(store.View()), report).value, Findings(old(store.orders), report))
      ensures !ok ==> store.control.state.Halted?
    {
      ghost var was := store.View();
      var failed, findings;
      failed, findings, steps := ProjectOpen(report, holder, start, before);
      if failed {
        steps := FailStarted(holder, start, steps);
        return false, steps;
      }
      ProjectedSightings(was, report);
      failed, findings, steps := SettleUnknown(report, findings || report.otherFindings, holder, start, steps);
      if failed {
        return false, steps;
      }
      steps := CloseStarted(findings, holder, start, steps);
      ok := true;
    }

    /** The end of a reconciliation in which nothing failed: findings halt the service. */
    method CloseStarted(findings: bool, ghost holder: Holder, ghost start: System, ghost before: seq<Step>)
      returns (ghost steps: seq<Step>)
      requires Inside(holder, Started) && Path(start, before, At(WithProgress(holder, Listed({}, findings))))
      modifies store`control
      ensures before <= steps && Path(start, steps, At(AfterReconciliation(holder)))
      ensures store.View() == HaltedIf(old(store.View()), findings)
    {
      FinishReconciliationPath(start, before, At(WithProgress(holder, Listed({}, findings))), findings);
      steps := before + [FinishReconciliation];
      CloseReconciliationPath(start, steps, At(WithProgress(holder, Finished(findings))), findings);
      steps := steps + [CloseReconciliation];
      if findings {
        WriteHalted();
      }
    }

    // -------------------------------------------------------------------------------------------
    // Cancellation
    // -------------------------------------------------------------------------------------------

    /** An order the venue may know: marked CANCEL_PENDING unless UNKNOWN, then moved to what the venue reports. */
    method CancelAtVenue(o: nat, answer: Option<OrderState>, ghost holder: Holder, ghost start: System,
              ghost before: seq<Step>)
      returns (refused: bool, unconfirmed: bool, ghost steps: seq<Step>)
      requires Path(start, before, At(holder)) && !holder.Down? && (answer.Some? ==> answer.value.Terminal())
      requires o < |store.orders| && !store.orders[o].state.Terminal() && !CancelledHere(store.orders[o])
      modifies store`orders, store`intents
      ensures before <= steps && Path(start, steps, At(holder))
      ensures CancelledInto(old(store.View()), store.View())
      ensures refused <==> Refuses(old(store.orders), |old(store.intents)|, o, answer)
      ensures !refused ==> store.orders == old(store.orders)[o := CancelledRow(old(store.orders)[o], answer)]
      ensures !refused ==> (unconfirmed <==> Unconfirmed(old(store.orders)[o], answer))
    {
      ghost var was := store.View();
      var order := store.orders[o];
      steps, refused, unconfirmed := before, false, false;
      NothingCancelled(was);
      if !order.state.Unknown? {
        refused, steps := Move(o, OrderState.CancelPending, holder, start, steps);
        if refused {
          return;
        }
      }
      if order.venueId.None? || answer.None? {
        return false, true, steps;
      }
      ghost var mid := store.View();
      refused, steps := Move(o, answer.value, holder, start, steps);
      CancelledIntoJoins(was, mid, store.View());
    }

    /** One order state write of a cancellation. */
    method Move(o: nat, next: OrderState, ghost holder: Holder, ghost start: System, ghost before: seq<Step>)
      returns (refused: bool, ghost steps: seq<Step>)
      requires Path(start, before, At(holder)) && !holder.Down? && (next.CancelPending? || next.Terminal())
      requires o < |store.orders| && !store.orders[o].state.Terminal() && !CancelledHere(store.orders[o])
      modifies store`orders, store`intents
      ensures before <= steps && Path(start, steps, At(holder))
      ensures CancelledInto(old(store.View()), store.View())
      ensures refused <==>
        || store.orders[o].intent >= |store.intents|
        || !ValidTransition(old(store.orders)[o].state, next)
      ensures store.orders == if refused then old(store.orders) else old(store.orders)[o := old(store.orders)[o].(state := next)]
    {
      NothingCancelled(store.View());
      if TransitionOrder(store.View(), o, next).Ok? {
        TransitionFollows(store.View(), o, next);
      }
      TransitionPath(start, before, At(holder), o, next);
      steps := before + [Transition(o, next)];
      var refusal := store.TransitionOrder(o, next);
      refused := refusal.Some?;
    }

    /** One target of a cancellation; `answer` is the terminal state the venue reports, None for an error. */
    method CancelOne(o: nat, answer: Option<OrderState>, ghost holder: Holder, ghost start: System,
              ghost before: seq<Step>)
      returns (refused: bool, unconfirmed: bool, ghost steps: seq<Step>)
      requires Path(start, before, At(holder)) && !holder.Down? && (answer.Some? ==> answer.value.Terminal())
      modifies store`orders, store`intents
      ensures before <= steps && Path(start, steps, At(holder))
      ensures CancelledInto(old(store.View()), store.View())
      ensures refused <==> Refuses(old(store.orders), |old(store.intents)|, o, answer)
      ensures !refused ==> store.orders == old(store.orders)[o := CancelledRow(old(store.orders)[o], answer)]
      ensures !refused ==> (unconfirmed <==> Unconfirmed(old(store.orders)[o], answer))
    {
      steps, refused, unconfirmed := before, false, false;
      NothingCancelled(store.View());
      if o >= |store.orders| {
        return true, false, steps;
      }
      var order := store.orders[o];
      if order.state.Terminal() {
        return;
      }
      if order.state.Prepared? && order.venueId.None? {
        if CancelPreparedOrder(store.View(), o).Ok? {
          CancelPreparedFollows(store.View(), o);
        }
        CancelPreparedPath(start, steps, At(holder), o);
        steps := steps + [CancelPrepared(o)];
        var refusal := store.CancelPreparedOrder(o);
        return refusal.Some?, false, steps;
      }
      refused, unconfirmed, steps := CancelAtVenue(o, answer, holder, start, steps);
    }

    /** `execute_cancellation`: unless a write is refused, each target has ended or is reported as failed. */
    method ExecuteCancellation(request: Cancellation, ghost holder: Holder, ghost start: System, ghost before: seq<Step>)
      returns (refused: bool, failedIds: seq<nat>, ghost steps: seq<Step>)
      requires Path(start, before, At(holder)) && !holder.Down? && Conclusive(request.answers)
      modifies store`orders, store`intents
      ensures before <= steps && Path(start, steps, At(holder))
      ensures CancelledInto(old(store.View()), store.View())
      ensures refused <==> Refused(old(store.orders), |old(store.intents)|, request)
      ensures !refused ==> store.orders == AfterRequest(old(store.orders), request)
      ensures !refused ==> forall o: nat :: o in failedIds <==> Unfinished(old(store.orders), request, o)
    {
      steps, refused, failedIds := before, false, [];
      ghost var was := store.View();
      NothingCancelled(was);
      var targets := request.targets;
      for k := 0 to |targets|
        invariant before <= steps && Path(start, steps, At(holder)) && !refused
        invariant CancelledInto(was, store.View())
        invariant !Refused(was.orders, |was.intents|, request.Upto(k))
        invariant store.orders == AfterRequest(was.orders, request.Upto(k))
        invariant forall o: nat :: o in failedIds <==> Unfinished(was.orders, request.Upto(k), o)
      {
        ghost var mid := store.View();
        var o := targets[k];
        NextTarget(was.orders, |was.intents|, request, k);
        OneMoreUnfinished(was.orders, |was.intents|, request, k, mid.orders);
        var unconfirmed;
        refused, unconfirmed, steps := CancelOne(o, request.Answer(o), holder, start, steps);
        CancelledIntoJoins(was, mid, store.View());
        if refused {
          return;
        }
        if unconfirmed {
          failedIds := failedIds + [o];
        }
      }
      assert request.Upto(|targets|) == request;
    }

    // -------------------------------------------------------------------------------------------
    // Startup and resume
    // -------------------------------------------------------------------------------------------

    /** `enqueue_recovered` for each recovered intent that is still to be worked on. */
    method Enqueue(ids: seq<nat>)
      modifies this`queue
      ensures queue == old(queue) + StillDue(store.intents, ids)
    {
      assert ids[..0] == [];
      for k := 0 to |ids|
        invariant queue == old(queue) + StillDue(store.intents, ids[..k])
      {
        assert ids[..k + 1][..k] == ids[..k];
        if ids[k] < |store.intents| && Recovered(store.intents[ids[k]].state) {
          queue := queue + [ids[k]];
        }
      }
      assert ids[..|ids|] == ids;
    }

    /** The first two commits of startup, up to the latched halt for interrupted submissions. */
    method EnterAndRecover(ghost start: System) returns (latched: bool, ghost steps: seq<Step>)
      requires start == At(StartupBegun)
      modifies store
      ensures Path(start, steps, At(StartupLatched))
      ensures latched <==> old(store.control.state).Halted? || old(store.control.state).ShuttingDown?
      ensures store.View() == RecoverInterrupted(old(store.View())).(control := store.control)
      ensures if latched || AnyInterrupted(old(store.View())) then store.control.state.Halted? else store.control.state.Reconciling?
    {
      EmptyPath(start);
      var prior := store.control.state;
      ReadPriorPath(start, [], start);
      EnterPath(start, [] + [ReadPriorState], At(StartupRead(prior)), prior);
      steps := [] + [ReadPriorState] + [EnterStartup];
      latched := prior.Halted? || prior.ShuttingDown?;
      if prior.ShuttingDown? {
        WriteHalted();
      } else if !prior.Halted? {
        var _ := store.SetServiceState(ServiceState.Reconciling, None);
      }
      ControlDoesNotInterrupt(old(store.View()), store.control);
      steps := RecoverAndLatch(start, steps);
    }

    /** The recovery of interrupted submissions, which halts if there were any. */
    method RecoverAndLatch(ghost start: System, ghost before: seq<Step>) returns (ghost steps: seq<Step>)
      requires Path(start, before, At(StartupEntered))
      modifies store
      ensures Path(start, steps, At(StartupLatched))
      ensures store.View() == RecoverInterrupted(old(store.View())).(control := store.control)
      ensures if AnyInterrupted(old(store.View())) then store.control.state.Halted? else store.control == old(store.control)
    {
      RecoverSubmissionsPath(start, before, At(StartupEntered));
      steps := before + [RecoverSubmissions];
      var interrupted := store.RecoverInterrupted();
      LatchPath(start, steps, At(StartupRecovered(interrupted > 0)), interrupted > 0);
      steps := steps + [LatchInterrupted];
      if interrupted > 0 {
        WriteHalted();
      }
    }

    /** The cancellations an earlier process left PENDING, in order. */
    method ResumeCancellations(pending: seq<Cancellation>, ghost holder: Holder, ghost start: System, ghost before: seq<Step>)
      returns (refused: bool, ghost steps: seq<Step>)
      requires Path(start, before, At(holder)) && !holder.Down? && forall c | c in pending :: Conclusive(c.answers)
      modifies store`orders, store`intents
      ensures before <= steps && Path(start, steps, At(holder))
      ensures CancelledInto(old(store.View()), store.View())
      ensures refused <==> AnyRefused(old(store.orders), |old(store.intents)|, pending)
      ensures !refused ==> store.orders == AfterRequests(old(store.orders), pending)
    {
      steps, refused := before, false;
      ghost var was := store.View();
      NothingCancelled(was);
      for k := 0 to |pending|
        invariant before <= steps && Path(start, steps, At(holder)) && !refused
        invariant CancelledInto(was, store.View())
        invariant !AnyRefused(was.orders, |was.intents|, pending[..k])
        invariant store.orders == AfterRequests(was.orders, pending[..k])
      {
        ghost var mid := store.View();
        assert pending[..k + 1][..k] == pending[..k];
        var failedIds;
        refused, failedIds, steps := ExecuteCancellation(pending[k], holder, start, steps);
        CancelledIntoJoins(was, mid, store.View());
        if refused {
          RefusedStays(was.orders, |was.intents|, pending, k + 1);
          return;
        }
      }
      assert pending[..|pending|] == pending;
    }

    /** The orders a request for all open orders is written with. */
    method OpenTargets() returns (targets: seq<nat>)
      ensures targets == OpenIds(store.orders)
    {
      targets := [];
      for o := 0 to |store.orders|
        invariant targets == OpenIds(store.orders[..o])
      {
        assert store.orders[..o + 1][..o] == store.orders[..o];
        if !store.orders[o].state.Terminal() {
          targets := targets + [o];
        }
      }
      assert store.orders[..|store.orders|] == store.orders;
    }

    /**
     What startup cancels before it reconciles: the requests left PENDING and, if the service was latched
     and the policy asks for it (`sweep`), every order that has not ended.
     */
    method CancelBeforeReconciling(pending: seq<Cancellation>, latched: bool, sweep: Option<map<nat, OrderState>>,
              ghost holder: Holder, ghost start: System, ghost before: seq<Step>)
      returns (refused: bool, ghost steps: seq<Step>)
      requires Path(start, before, At(holder)) && !holder.Down?
      requires (forall c | c in pending :: Conclusive(c.answers)) && (sweep.Some? ==> Conclusive(sweep.value))
      modifies store`orders, store`intents
      ensures before <= steps && Path(start, steps, At(holder))
      ensures CancelledInto(old(store.View()), store.View())
      ensures refused <==> AnyRefused(old(store.orders), |old(store.intents)|, AllRequests(old(store.orders), pending, latched, sweep))
      ensures !refused ==> store.orders == AfterRequests(old(store.orders), AllRequests(old(store.orders), pending, latched, sweep))
    {
      ghost var was := store.View();
      refused, steps := ResumeCancellations(pending, holder, start, before);
      LastRequest(was.orders, |was.intents|, pending, latched, sweep);
      if refused || !latched || sweep.None? {
        return;
      }
      ghost var mid := store.View();
      var targets := OpenTargets();
      var failedIds;
      refused, failedIds, steps := ExecuteCancellation(Cancellation(targets, sweep.value), holder, start, steps);
      CancelledIntoJoins(was, mid, store.View());
    }

    /**
     `startup`. It comes up exactly if the local work can be recovered, no cancellation is refused and the
     venue's report can be taken over. The service is then READY exactly when it was neither HALTED nor
     SHUTTING_DOWN, no submission had been interrupted, the heartbeat works and the reconciliation finds
     nothing; otherwise it is HALTED. Work that had not reached the venue is queued, or kept for a resume.
     */
    method Startup(pending: seq<Cancellation>, sweep: Option<map<nat, OrderState>>, report: VenueReport, heartbeatFailed: bool)
      returns (ok: bool, ghost steps: seq<Step>)
      requires (forall c | c in pending :: Conclusive(c.answers)) && (sweep.Some? ==> Conclusive(sweep.value))
      modifies this`listed, this`deferred, this`queue, store
      ensures Path(old(At(StartupBegun)), steps, At(if ok then Free else Down)) && (old(listed) == {} ==> listed == {})
      ensures ok <==>
        && RecoverPreSubmission(RecoverInterrupted(old(store.View()))).Ok?
        && !AnyRefused(RecoverInterrupted(old(store.View())).orders, |old(store.intents)|, old(StartupRequests(store.View(), pending, sweep)))
        && report.available && Consistent(old(Checked(store.View(), pending, sweep)), |old(store.intents)|, report)
      ensures ok ==> |store.orders| == |old(Checked(store.View(), pending, sweep))|
      ensures ok ==> forall o | 0 <= o < |store.orders| :: store.orders[o] == Reported(old(Checked(store.View(), pending, sweep)), o, report)
      ensures ok ==> store.control.state.Halted? || store.control.state.Ready?
      ensures ok ==> (store.control.state.Halted? <==>
        || old(store.control.state).Halted? || old(store.control.state).ShuttingDown? || AnyInterrupted(old(store.View()))
        || heartbeatFailed || Findings(old(Checked(store.View(), pending, sweep)), report))
      ensures ok && store.control.state.Halted? ==>
        queue == old(queue) && forall i: nat :: i in deferred <==> LocalWork(RecoverInterrupted(old(store.View())), i)
      ensures ok && store.control.state.Ready? ==>
        && deferred == old(deferred) && old(queue) <= queue
        && forall i: nat :: i in queue[|old(queue)|..] <==>
             && LocalWork(RecoverInterrupted(old(store.View())), i)
             && !CancelledUnsent(RecoverInterrupted(old(store.View())), old(Checked(store.View(), pending, sweep)), i)
    {
      ghost var start := At(StartupBegun);
      ghost var was := store.View();
      var latched;
      latched, steps := EnterAndRecover(start);
      ghost var entered := store.View();
      RecoverLocalPath(start, steps, At(StartupLatched));
      steps := steps + [RecoverLocalWork];
      ControlDoesNotRecover(RecoverInterrupted(was), store.control);
      var recovered := store.RecoverPreSubmission();
      if recovered.Err? {
        return false, steps;
      }
      var refused;
      refused, steps := CancelBeforeReconciling(pending, latched, sweep, StartupReconciling(Started), start, steps);
      if refused {
        CrashPath(start, steps, At(StartupReconciling(Started)));
        listed := {};
        return false, steps + [Crash];
      }
      DueAfterCancelling(entered, store.View(), recovered.value);
      ok, steps := CheckAndOpen(recovered.value, report, heartbeatFailed, start, steps);
    }

    /** The rest of startup: reconcile, check the heartbeat, and open for work unless something halted. */
    method CheckAndOpen(recovered: seq<nat>, report: VenueReport, heartbeatFailed: bool, ghost start: System,
              ghost before: seq<Step>)
      returns (ok: bool, ghost steps: seq<Step>)
      requires Path(start, before, At(StartupReconciling(Started)))
      requires store.control.state.Halted? || store.control.state.Reconciling?
      modifies this`listed, this`deferred, this`queue, store
      ensures before <= steps && Path(start, steps, At(if ok then Free else Down)) && (old(listed) == {} ==> listed == {})
      ensures ok <==> report.available && Consistent(old(store.orders), |old(store.intents)|, report)
      ensures ok ==> |store.orders| == |old(store.orders)|
      ensures ok ==> forall o | 0 <= o < |store.orders| :: store.orders[o] == Reported(old(store.orders), o, report)
      ensures ok ==> store.control.state.Halted? || store.control.state.Ready?
      ensures ok ==> (store.control.state.Halted? <==>
        old(store.control.state).Halted? || heartbeatFailed || Findings(old(store.orders), report))
      ensures ok && store.control.state.Halted? ==> deferred == recovered && queue == old(queue)
      ensures ok && store.control.state.Ready? ==> deferred == old(deferred) && queue == old(queue) + StillDue(old(store.intents), recovered)
    {
      ghost var was := store.View();
      ok, steps := ReconcileStarted(report, StartupReconciling(Started), start, before);
      if !ok {
        return;
      }
      ReconciliationKeepsDue(was, report);
      if heartbeatFailed {
        WriteHaltPath(start, steps, At(StartupChecked));
        steps := steps + [WriteHalt];
        WriteHalted();
      }
      steps := OpenForWork(recovered, start, steps);
      SameStillDue(was.intents, store.intents, recovered);
    }

    /** The last write of startup, unless the service is HALTED; recovered work is queued, or kept for a resume. */
    method OpenForWork(recovered: seq<nat>, ghost start: System, ghost before: seq<Step>) returns (ghost steps: seq<Step>)
      requires Path(start, before, At(StartupChecked))
      modifies this`deferred, this`queue, store`control
      ensures before <= steps && Path(start, steps, At(Free))
      ensures store.control == if old(store.control.state).Halted? then old(store.control) else Control(Ready, old(store.control.revision) + 1)
      ensures deferred == if old(store.control.state).Halted? then recovered else old(deferred)
      ensures queue == old(queue) + if old(store.control.state).Halted? then [] else StillDue(store.intents, recovered)
    {
      ReadFinalPath(start, before, At(StartupChecked));
      steps := before + [ReadFinalState];
      if store.control.state.Halted? {
        deferred := recovered;
      } else {
        WriteReadyPath(start, steps, At(StartupCleared));
        steps := steps + [WriteReady];
        var _ := store.SetServiceState(Ready, None);
        Enqueue(recovered);
      }
    }

    /** `resume`: READY only if nothing has written the control state since it was read HALTED. */
    method Resume(report: VenueReport, heartbeatFailed: bool, unresolvedFindings: bool)
      returns (ok: bool, ghost steps: seq<Step>)
      modifies this`listed, this`deferred, this`queue, store
      ensures Path(old(At(Free)), steps, At(Free)) && (old(listed) == {} ==> listed == {})
      ensures ok <==>
        && old(store.control.state).Halted? && !heartbeatFailed && !unresolvedFindings
        && report.available && Consistent(old(store.orders), |old(store.intents)|, report) && !Findings(old(store.orders), report)
      ensures ok ==> Reconciled(old(store.View()), report).Ok?
      ensures ok ==> store.View() == Reconciled(old(store.View()), report).value.(control := Control(Ready, old(store.control.revision) + 1))
      ensures ok ==> deferred == [] && queue == old(queue) + StillDue(store.intents, old(deferred))
      ensures !ok ==> deferred == old(deferred) && queue == old(queue)
      ensures !ok ==> if old(store.control.state).Halted? then store.control.state.Halted? else store.View() == old(store.View())
    {
      ghost var start := At(Free);
      EmptyPath(start);
      ReadRevisionPath(start, [], start);
      steps := [] + [ReadRevision];
      var revision := store.control.revision;
      if !store.control.state.Halted? {
        return false, steps;
      }
      ReconciliationGoesThroughIff(store.View(), report);
      ok, steps := ReconcileStarted(report, ResumeReconciling(revision, Started), start, steps);
      if !ok {
        return;
      }
      if heartbeatFailed || unresolvedFindings {
        AbandonPath(start, steps, At(ResumeChecked(revision)));
        return false, steps + [AbandonResume];
      }
      ok, steps := CommitReady(revision, start, steps);
    }

    /** The conditional write that ends a resume, and the work it lets go on. */
    method CommitReady(revision: nat, ghost start: System, ghost before: seq<Step>) returns (ok: bool, ghost steps: seq<Step>)
      requires Path(start, before, At(ResumeChecked(revision)))
      modifies this`deferred, this`queue, store`control
      ensures Path(start, steps, At(Free))
      ensures ok <==> old(store.control) == Control(Halted, revision)
      ensures store.control == if ok then Control(Ready, revision + 1) else old(store.control)
      ensures deferred == if ok then [] else old(deferred)
      ensures queue == old(queue) + if ok then StillDue(store.intents, old(deferred)) else []
    {
      CommitResumePath(start, before, At(ResumeChecked(revision)), revision);
      steps := before + [CommitResume];
      var refusal := store.SetServiceState(Ready, Some(revision));
      ok := refusal.None?;
      if ok {
        var recoverable := deferred;
        deferred := [];
        Enqueue(recoverable);
      }
    }
  }

  lemma ControlDoesNotInterrupt(j: Journal, control: Control)
    ensures AnyInterrupted(j.(control := control)) <==> AnyInterrupted(j)
    ensures RecoverInterrupted(j.(control := control)) == RecoverInterrupted(j).(control := control)
  {
    var k := j.(control := control);
    assert forall o | 0 <= o < |j.orders| :: Interrupted(k, o) <==> Interrupted(j, o);
    assert RecoverInterrupted(k).orders == RecoverInterrupted(j).orders;
    assert RecoverInterrupted(k).intents == RecoverInterrupted(j).intents;
  }

  lemma ControlDoesNotRecover(j: Journal, control: Control)
    ensures RecoverPreSubmission(j.(control := control)).Ok? <==> RecoverPreSubmission(j).Ok?
    ensures RecoverPreSubmission(j).Ok? ==>
      RecoverPreSubmission(j.(control := control)).value == RecoverPreSubmission(j).value.(control := control)
  {
    assert forall i | 0 <= i < |j.intents| :: Recoverable(j.(control := control), i) <==> Recoverable(j, i);
  }

  /** The requests startup executes: those left PENDING, and one for all open orders if it sweeps. */
  function AllRequests(orders: seq<Order>, pending: seq<Cancellation>, latched: bool, sweep: Option<map<nat, OrderState>>)
    : seq<Cancellation>
  {
    if latched && sweep.Some? then pending + [Cancellation(OpenIds(AfterRequests(orders, pending)), sweep.value)] else pending
  }

  function StartupRequests(j: Journal, pending: seq<Cancellation>, sweep: Option<map<nat, OrderState>>): seq<Cancellation> {
    AllRequests(RecoverInterrupted(j).orders, pending, j.control.state.Halted? || j.control.state.ShuttingDown?, sweep)
  }

  /** The orders a startup reconciles. */
  function Checked(j: Journal, pending: seq<Cancellation>, sweep: Option<map<nat, OrderState>>): seq<Order> {
    AfterRequests(RecoverInterrupted(j).orders, StartupRequests(j, pending, sweep))
  }

  /** An intent no venue request of which had begun. */
  predicate LocalWork(j: Journal, i: nat) {
    i < |j.intents| && Recovery.Local(j.intents[i].state)
  }

  /** A PREPARED intent whose order has been cancelled before it was ever sent. */
  predicate CancelledUnsent(j: Journal, after: seq<Order>, i: nat) {
    i < |j.intents| && j.intents[i].state.Prepared? && OrderEnds(j.orders, after, i, OrderState.Prepared)
  }

  /** A latched startup that sweeps ends every order or reports it; otherwise only the pending requests are executed. */
  lemma StartupEndsOrReports(j: Journal, pending: seq<Cancellation>, sweep: Option<map<nat, OrderState>>, o: nat)
    requires (forall c | c in pending :: Conclusive(c.answers)) && (sweep.Some? ==> Conclusive(sweep.value))
    requires !AnyRefused(RecoverInterrupted(j).orders, |j.intents|, StartupRequests(j, pending, sweep)) && o < |j.orders|
    ensures pending <= StartupRequests(j, pending, sweep)
    ensures |Checked(j, pending, sweep)| == |j.orders|
    ensures var latched := j.control.state.Halted? || j.control.state.ShuttingDown?;
      if latched && sweep.Some? then
        Checked(j, pending, sweep)[o].state.Terminal() || AnyUnfinished(RecoverInterrupted(j).orders, StartupRequests(j, pending, sweep), o)
      else StartupRequests(j, pending, sweep) == pending
  {
    var orders, requests := RecoverInterrupted(j).orders, StartupRequests(j, pending, sweep);
    EndedStayEnded(orders, requests);
    if (j.control.state.Halted? || j.control.state.ShuttingDown?) && sweep.Some? {
      var mid := AfterRequests(orders, pending);
      assert requests[..|pending|] == pending;
      EndedStayEnded(orders, pending);
      OpenIdsAreOpen(mid);
      if !mid[o].state.Terminal() {
        AllTargetsEndOrAreReported(orders, |j.intents|, requests, |pending|, o);
      }
    }
  }

  lemma LastRequest(orders: seq<Order>, intents: nat, pending: seq<Cancellation>, latched: bool, sweep: Option<map<nat, OrderState>>)
    ensures latched && sweep.Some? ==>
      var last := Cancellation(OpenIds(AfterRequests(orders, pending)), sweep.value);
      var all := AllRequests(orders, pending, latched, sweep);
      && AfterRequests(orders, all) == AfterRequest(AfterRequests(orders, pending), last)
      && (AnyRefused(orders, intents, all) <==>
            AnyRefused(orders, intents, pending) || Refused(AfterRequests(orders, pending), intents, last))
  {
    if latched && sweep.Some? {
      var all := AllRequests(orders, pending, latched, sweep);
      assert all[..|all| - 1] == pending;
    }
  }

  /** Exactly a cancelled order takes recovered work out of what is still due. */
  lemma DueAfterCancelling(entered: Journal, now: Journal, ids: seq<nat>)
    requires RecoverPreSubmission(entered).Ok? && CancelledInto(RecoverPreSubmission(entered).value, now)
    requires forall i: nat :: i in ids <==> LocalWork(entered, i)
    ensures forall i: nat :: i in StillDue(now.intents, ids) <==> LocalWork(entered, i) && !CancelledUnsent(entered, now.orders, i)
  {
    var local := RecoverPreSubmission(entered).value;
    forall i: nat ensures i in StillDue(now.intents, ids) <==> LocalWork(entered, i) && !CancelledUnsent(entered, now.orders, i)
    {
      StillDueIff(now.intents, ids, i);
      if LocalWork(entered, i) {
        assert Follows(local, now, i);
      }
    }
  }

  lemma {:induction false} SameStillDue(before: seq<Intent>, after: seq<Intent>, ids: seq<nat>)
    requires |before| == |after| && forall i | 0 <= i < |after| :: Recovered(after[i].state) <==> Recovered(before[i].state)
    ensures StillDue(before, ids) == StillDue(after, ids)
  {
    if ids != [] {
      SameStillDue(before, after, ids[..|ids| - 1]);
    }
  }

  /** What the settlement loop does with one UNKNOWN order. */
  function SettledOne(j: Journal, o: nat, report: VenueReport): Result<Journal, Refusal> {
    if o !in report.unknown || report.unknown[o].seen.state.Unknown? then Ok(j)
    else ResolveUnknown(j, o, report.unknown[o].venueId, report.unknown[o].seen, report.day)
  }

  /** After the projections the same orders are sighted and unresolved. */
  lemma ProjectedSightings(j: Journal, report: VenueReport)
    requires Projected(j, report, |j.orders|).Ok?
    ensures var next := Projected(j, report, |j.orders|).value;
      && |next.orders| == |j.orders|
      && (AnyUnresolved(next.orders, |next.orders|, report) <==> AnyUnresolved(j.orders, |j.orders|, report))
  {
    ProjectionGoesThroughIff(j, report, |j.orders|);
    SameSighted(j, Projected(j, report, |j.orders|).value, report);
  }

  /** A reconciliation changes nothing about which intents are due for submission. */
  lemma ReconciliationKeepsDue(j: Journal, report: VenueReport)
    requires Reconciled(j, report).Ok?
    ensures var after := Reconciled(j, report).value;
      && after.control == j.control && |after.intents| == |j.intents| && |after.orders| == |j.orders|
      && (forall o | 0 <= o < |j.orders| :: after.orders[o] == Reported(j.orders, o, report))
      && forall i | 0 <= i < |j.intents| :: Recovered(after.intents[i].state) <==> Recovered(j.intents[i].state)
  {
    ReconciliationGoesThroughIff(j, report);
  }

  /** What the projection loop does with one order of its list. */
  function ProjectedOne(open: seq<Order>, j: Journal, o: nat, report: VenueReport): Result<Journal, Refusal> {
    if Observed(open, o, report) then ReconcileProjection(j, o, report.open[o], report.day) else Ok(j)
  }

  lemma NextOpen(was: Journal, now: Journal, o: nat, report: VenueReport)
    requires o < |was.orders| && Projected(was, report, o) == Ok(now)
    ensures Projected(was, report, o + 1) == ProjectedOne(was.orders, now, o, report)
    ensures Projected(was, report, o + 1).Err? ==> Projected(was, report, |was.orders|).Err?
    ensures AnyMissing(was.orders, o + 1, report) <==> AnyMissing(was.orders, o, report) || Missing(was.orders, o, report)
    ensures now.intents == was.intents && now.control == was.control
  {
    ProjectionGoesThroughIff(was, report, o);
    RefusalEndsIt(was, report, o + 1, |was.orders|);
  }

  lemma SameIntentsAndControl(was: Journal, report: VenueReport)
    ensures Projected(was, report, |was.orders|).Ok? ==>
      var now := Projected(was, report, |was.orders|).value;
      now.intents == was.intents && now.control == was.control
  {
    ProjectionGoesThroughIff(was, report, |was.orders|);
  }

  lemma NextUnknown(was: Journal, now: Journal, o: nat, report: VenueReport)
    requires o < |was.orders| && Settled(was, report, o) == Ok(now)
    ensures Settled(was, report, o + 1) == if was.orders[o].state.Unknown? then SettledOne(now, o, report) else Ok(now)
    ensures Settled(was, report, o + 1).Err? ==> Settled(was, report, |was.orders|).Err?
    ensures AnyUnresolved(was.orders, o + 1, report) <==>
      || AnyUnresolved(was.orders, o, report)
      || (was.orders[o].state.Unknown? && (o !in report.unknown || report.unknown[o].seen.state.Unknown?))
  {
    RefusalEndsIt(was, report, o + 1, |was.orders|);
    assert AnyUnresolved(was.orders, o + 1, report) <==> AnyUnresolved(was.orders, o, report) || Unresolved(was.orders, o, report);
  }

  /** A reconciliation lists the UNKNOWN orders, and remembers a finding it already has. */
  lemma ListedPath(s: System, before: seq<Step>, mid: System, findings: bool) returns (steps: seq<Step>)
    requires Path(s, before, mid) && Inside(mid.holder, Started)
    ensures before <= steps
    ensures Path(s, steps, mid.(holder := WithProgress(mid.holder, Listed(UnknownOrders(mid.journal), findings))))
  {
    ListUnknownPath(s, before, mid);
    steps := before + [ListUnknown];
    if findings {
      FindingPath(s, steps, mid.(holder := WithProgress(mid.holder, Listed(UnknownOrders(mid.journal), false))),
                  UnknownOrders(mid.journal), false);
      steps := steps + [ReportFinding];
    }
  }

  lemma AnswerIsRecorded(j: Journal, i: nat, o: nat, answer: VenueAnswer)
    requires i < |j.intents| && j.intents[i].prepared.Some?
    ensures Finishing(j, i, o, answer.response, answer.day).Ok? ==>
      var next := Finishing(j, i, o, answer.response, answer.day).value;
      next.control == j.control && (!HaltsAfter(answer) ==> Answered(next, o, answer)) && Answered(Halt(next), o, answer)
  {
  }

  /** The ids whose intents are still to be worked on. */
  function StillDue(intents: seq<Intent>, ids: seq<nat>): seq<nat> {
    if ids == [] then []
    else
      var last := ids[|ids| - 1];
      StillDue(intents, ids[..|ids| - 1]) + if last < |intents| && Recovered(intents[last].state) then [last] else []
  }

  /** Ids are queued one by one, each exactly if it is still due, in the order they come. */
  lemma {:induction false} StillDueInOrder(intents: seq<Intent>, ids: seq<nat>, more: seq<nat>, i: nat)
    ensures StillDue(intents, []) == []
    ensures StillDue(intents, [i]) == if i < |intents| && (intents[i].state.Received? || intents[i].state.Prepared?) then [i] else []
    ensures StillDue(intents, ids + more) == StillDue(intents, ids) + StillDue(intents, more)
  {
    assert [i][..0] == [];
    if more == [] {
      assert ids + more == ids;
    } else {
      var n := |more| - 1;
      StillDueInOrder(intents, ids, more[..n], i);
      assert (ids + more)[..|ids + more| - 1] == ids + more[..n];
    }
  }

  lemma {:induction false} StillDueIff(intents: seq<Intent>, ids: seq<nat>, i: nat)
    ensures i in StillDue(intents, ids) <==> i in ids && i < |intents| && (intents[i].state.Received? || intents[i].state.Prepared?)
  {
    if ids != [] {
      StillDueIff(intents, ids[..|ids| - 1], i);
    }
  }

  /** The UNKNOWN orders a loop over the rows has still to visit. */
  ghost function UnknownFrom(j: Journal, n: nat): set<nat> {
    set o: nat | n <= o < |j.orders| && j.orders[o].state.Unknown?
  }

  lemma UnknownFromStart(j: Journal)
    ensures UnknownFrom(j, 0) == UnknownOrders(j)
  {
  }

  lemma UnknownFromNext(j: Journal, n: nat)
    requires n < |j.orders|
    ensures UnknownFrom(j, n + 1) == UnknownFrom(j, n) - {n}
    ensures n in UnknownFrom(j, n) <==> j.orders[n].state.Unknown?
    ensures !j.orders[n].state.Unknown? ==> UnknownFrom(j, n + 1) == UnknownFrom(j, n)
  {
  }
}
