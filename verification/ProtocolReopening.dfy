/** Orders that the journal has closed: which step opens one again, and which never come back. */
module ProtocolReopening {
  import opened Wrappers
  import opened Domain
  import opened Risk
  import opened Journal
  import opened OrderBounds
  import opened JournalLinks
  import opened Protocol
  import opened ProtocolInvariant
  import opened ProtocolBounds
  import opened ProtocolTheorems

  /** The two checks of `reconcile_order_projection`; neither is about the order's present state. */
  predicate Accepts(o: Order, seen: Observation) {
    && ValidEvidence(o.original, seen.state, seen.remaining, seen.filled, seen.price)
    && LocalFilled(o) <= seen.filled
  }

  predicate Closed(j: Journal, o: nat) {
    o < |j.orders| && j.orders[o].state.Terminal()
  }

  predicate Reopens(j: Journal, o: nat, step: Step)
    requires o < |j.orders|
  {
    step.Project? && step.order == o && !step.seen.state.Terminal() && Accepts(j.orders[o], step.seen)
  }

  lemma ProjectionReopensIff(j: Journal, p: nat, seen: Observation, day: int, o: nat)
    requires Closed(j, o) && !seen.state.Unknown?
    ensures var next := match ReconcileProjection(j, p, seen, day) case Ok(next) => next case Err(_) => j;
      o < |next.orders| && (!Closed(next, o) <==> p == o && !seen.state.Terminal() && Accepts(j.orders[o], seen))
  {
  }

  lemma OutsideReopensIff(s: System, step: Step, o: nat)
    requires Closed(s.journal, o) && FireOutside(s, step).Some?
    ensures var next := FireOutside(s, step).value.journal;
      o < |next.orders| && (!Closed(next, o) <==> Reopens(s.journal, o, step))
  {
    if step.Project? {
      ProjectionReopensIff(s.journal, step.order, step.seen, step.day, o);
    } else if step.Transition? && TransitionOrder(s.journal, step.order, step.next).Ok? {
      TransitionKeepsClosed(s.journal, step.order, step.next, o);
    }
  }

  lemma TransitionKeepsClosed(j: Journal, p: nat, next: OrderState, o: nat)
    requires Closed(j, o) && TransitionOrder(j, p, next).Ok?
    ensures Closed(TransitionOrder(j, p, next).value, o)
  {
  }

  /** Nobody who holds the gate opens a closed order: what the holder writes to is not closed. */
  lemma StartupKeepsClosed(s: System, step: Step, o: nat)
    requires Linked(s.journal) && Closed(s.journal, o) && FireStartup(s, step).Some?
    ensures Closed(FireStartup(s, step).value.journal, o)
  {
    if step.RecoverSubmissions? {
      InterruptedMeansSubmitting(s.journal, o);
      assert RecoverInterrupted(s.journal).orders[o] == UnknownOrder(s.journal, o);
    }
  }

  lemma ReconciliationKeepsClosed(s: System, step: Step, o: nat)
    requires Closed(s.journal, o) && FireReconciliation(s, step).Some?
    ensures Closed(FireReconciliation(s, step).value.journal, o)
  {
    if step.Settle? && ResolveUnknown(s.journal, step.order, step.venueId, step.seen, step.day).Ok? {
      ResolutionKeepsClosed(s.journal, step.order, step.venueId, step.seen, step.day, o);
    }
  }

  lemma ResolutionKeepsClosed(j: Journal, p: nat, venueId: string, seen: Observation, day: int, o: nat)
    requires Closed(j, o) && ResolveUnknown(j, p, venueId, seen, day).Ok?
    ensures Closed(ResolveUnknown(j, p, venueId, seen, day).value, o)
  {
  }

  lemma OthersKeepOrders(s: System, step: Step)
    ensures FireProcess(s, step).Some? ==> FireProcess(s, step).value.journal == s.journal
    ensures FireDrop(s, step).Some? ==> FireDrop(s, step).value.journal == s.journal
    ensures FireResume(s, step).Some? ==> FireResume(s, step).value.journal.orders == s.journal.orders
    ensures FireAdmission(s, step).Some? ==> FireAdmission(s, step).value.journal.orders == s.journal.orders
  {
  }

  lemma SubmissionKeepsClosed(s: System, step: Step, o: nat)
    requires Closed(s.journal, o) && FireSubmission(s, step).Some?
    ensures Closed(FireSubmission(s, step).value.journal, o)
  {
  }

  lemma FireReopensIff(s: System, step: Step, o: nat)
    requires Linked(s.journal) && Closed(s.journal, o) && Fire(s, step).Some?
    ensures var next := Fire(s, step).value.journal;
      o < |next.orders| && (!Closed(next, o) <==> Reopens(s.journal, o, step))
  {
    OthersKeepOrders(s, step);
    if FireOutside(s, step).Some? {
      OutsideReopensIff(s, step, o);
    }
    if FireStartup(s, step).Some? {
      StartupKeepsClosed(s, step, o);
    }
    if FireReconciliation(s, step).Some? {
      ReconciliationKeepsClosed(s, step, o);
    }
    if FireSubmission(s, step).Some? {
      SubmissionKeepsClosed(s, step, o);
    }
    if step.Project? {
      ProjectIsOutside(s, step);
    }
  }

  lemma ProjectIsOutside(s: System, step: Step)
    requires step.Project? && Fire(s, step).Some?
    ensures FireOutside(s, step).Some?
  {
  }

  /**
   A closed order is opened again by exactly one kind of step: a projection onto it of an observation that
   is not terminal and passes the evidence and regression checks.
   */
  lemma ClosedOrderReopensIff(states: seq<System>, steps: seq<Step>, k: nat, o: nat)
    requires Run(states, steps) && k < |steps| && Closed(states[k].journal, o)
    ensures o < |states[k + 1].journal.orders|
    ensures !states[k + 1].journal.orders[o].state.Terminal() <==> Reopens(states[k].journal, o, steps[k])
  {
    StepIsKept(states, steps, k);
    FireReopensIff(states[k], steps[k], o);
  }

  /** Evidence of an order with something left cannot pass once nothing is. */
  lemma NothingLeftToReopen(o: Order, seen: Observation)
    requires o.remaining == 0.0 && Accepts(o, seen) && !seen.state.Unknown?
    ensures seen.state.Terminal()
  {
  }

  /** An order that is closed with nothing remaining stays so: closing evidence is final, a cancellation alone is not. */
  lemma {:induction false} EmptiedOrderStaysClosed(states: seq<System>, steps: seq<Step>, k: nat, l: nat, o: nat)
    requires Run(states, steps) && k <= l < |states| && Closed(states[k].journal, o)
    requires states[k].journal.orders[o].remaining == 0.0
    ensures Closed(states[l].journal, o) && states[l].journal.orders[o].remaining == 0.0
  {
    if k < l {
      EmptiedOrderStaysClosed(states, steps, k, l - 1, o);
      EmptiedStep(states, steps, l - 1, o);
    }
  }

  lemma EmptiedStep(states: seq<System>, steps: seq<Step>, k: nat, o: nat)
    requires Run(states, steps) && k < |steps| && Closed(states[k].journal, o)
    requires states[k].journal.orders[o].remaining == 0.0
    ensures Closed(states[k + 1].journal, o) && states[k + 1].journal.orders[o].remaining == 0.0
  {
    ClosedOrderReopensIff(states, steps, k, o);
    StepIsKept(states, steps, k);
    NothingReopensIt(states[k], steps[k], o);
    RunIsSound(states, steps, k);
    RunStepIsBounded(states, steps, k);
    EmptiedStays(states[k].journal, states[k + 1].journal, o);
  }

  lemma EmptiedStays(a: Journal, b: Journal, o: nat)
    requires Descends(a, b) && Sound(b) && o < |a.orders| && a.orders[o].remaining == 0.0
    ensures o < |b.orders| && b.orders[o].remaining == 0.0
  {
    assert SoundOrder(b.orders[o]);
  }

  lemma NothingReopensIt(s: System, step: Step, o: nat)
    requires Fire(s, step).Some? && o < |s.journal.orders| && s.journal.orders[o].remaining == 0.0
    ensures !Reopens(s.journal, o, step)
  {
    if step.Project? && step.order == o && Accepts(s.journal.orders[o], step.seen) {
      ProjectionIsKnown(s, step);
      NothingLeftToReopen(s.journal.orders[o], step.seen);
    }
  }

  lemma ProjectionIsKnown(s: System, step: Step)
    requires step.Project? && Fire(s, step).Some?
    ensures !step.seen.state.Unknown? && step.order in s.listed
  {
    ProjectIsOutside(s, step);
  }

  lemma StepLists(states: seq<System>, steps: seq<Step>, k: nat, o: nat)
    requires Run(states, steps) && k < |steps| && o in states[k + 1].listed && o !in states[k].listed
    ensures steps[k].ListOpenOrders? && o in OpenOrders(states[k].journal)
  {
    assert Fire(states[k], steps[k]) == Some(states[k + 1]);
    FireLists(states[k], steps[k]);
  }

  lemma FireLists(s: System, step: Step)
    requires Fire(s, step).Some?
    ensures Fire(s, step).value.listed <= s.listed || step.ListOpenOrders?
    ensures step.ListOpenOrders? ==> Fire(s, step).value.listed == s.listed + OpenOrders(s.journal)
  {
    FireListsOutside(s, step);
    FireListsStartup(s, step);
    FireListsWorker(s, step);
  }

  lemma FireListsOutside(s: System, step: Step)
    ensures FireOutside(s, step).Some? ==> FireOutside(s, step).value.listed <= s.listed || step.ListOpenOrders?
    ensures FireOutside(s, step).Some? && step.ListOpenOrders? ==> FireOutside(s, step).value.listed == s.listed + OpenOrders(s.journal)
    ensures step.ListOpenOrders? && FireOutside(s, step).None? ==> s.holder.Down?
  {
  }

  lemma FireListsStartup(s: System, step: Step)
    ensures FireStartup(s, step).Some? ==> FireStartup(s, step).value.listed == s.listed
    ensures FireReconciliation(s, step).Some? ==> FireReconciliation(s, step).value.listed == s.listed
  {
  }

  lemma FireListsWorker(s: System, step: Step)
    ensures FireResume(s, step).Some? ==> FireResume(s, step).value.listed == s.listed
    ensures FireAdmission(s, step).Some? ==> FireAdmission(s, step).value.listed == s.listed
    ensures FireSubmission(s, step).Some? ==> FireSubmission(s, step).value.listed == s.listed
  {
  }

  /** Where the reconciliation read the order as open that still lists it in state `k`. */
  lemma {:induction false} ListedSince(states: seq<System>, steps: seq<Step>, k: nat, o: nat) returns (m: nat)
    requires Run(states, steps) && k < |states| && o in states[k].listed
    ensures m < k && steps[m].ListOpenOrders? && o in OpenOrders(states[m].journal)
    ensures forall n | m < n <= k :: o in states[n].listed
  {
    if o in states[k - 1].listed {
      m := ListedSince(states, steps, k - 1, o);
    } else {
      StepLists(states, steps, k - 1, o);
      m := k - 1;
    }
  }

  /**
   An order is reopened only within the reconciliation that read it as open: from that read to the
   projection it stayed listed, and no approval was decided in between.
   */
  lemma NoApprovalBeforeReopening(states: seq<System>, steps: seq<Step>, k: nat, o: nat) returns (m: nat)
    requires Run(states, steps) && k < |steps| && Closed(states[k].journal, o)
    requires o < |states[k + 1].journal.orders| && !states[k + 1].journal.orders[o].state.Terminal()
    ensures m < k && steps[m].ListOpenOrders? && o in OpenOrders(states[m].journal)
    ensures forall n | m <= n <= k :: !steps[n].EvaluateRisk?
  {
    ClosedOrderReopensIff(states, steps, k, o);
    RunProjection(states, steps, k);
    m := ListedSince(states, steps, k, o);
    forall n | m <= n <= k ensures !steps[n].EvaluateRisk? {
      if n > m {
        RunEvaluation(states, steps, n);
      }
    }
  }

  lemma RunProjection(states: seq<System>, steps: seq<Step>, n: nat)
    requires Run(states, steps) && n < |steps|
    ensures steps[n].Project? ==> steps[n].order in states[n].listed
  {
    assert Fire(states[n], steps[n]) == Some(states[n + 1]);
    if steps[n].Project? {
      ProjectionIsKnown(states[n], steps[n]);
    }
  }

  lemma RunEvaluation(states: seq<System>, steps: seq<Step>, n: nat)
    requires Run(states, steps) && n < |steps|
    ensures steps[n].EvaluateRisk? ==> states[n].listed == {}
  {
    assert Fire(states[n], steps[n]) == Some(states[n + 1]);
    EvaluationNeedsNoListing(states[n], steps[n]);
  }

  lemma EvaluationNeedsNoListing(s: System, step: Step)
    requires Fire(s, step).Some?
    ensures step.EvaluateRisk? ==> s.listed == {}
  {
    if step.EvaluateRisk? {
      assert FireAdmission(s, step).Some?;
    }
  }
}
