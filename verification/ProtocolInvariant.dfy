/** The inductive invariant of the coordinator: links, calls, the gate holder, and UNKNOWN orders. */
module ProtocolInvariant {
  import opened Wrappers
  import opened Domain
  import opened Risk
  import opened Journal
  import opened JournalLinks
  import opened Protocol

  /** Every request that left is of a launched intent, with its persisted payload, and only once. */
  ghost predicate CallsSound(j: Journal, calls: seq<Call>) {
    && (forall k | 0 <= k < |calls| ::
          && calls[k].intent < |j.intents|
          && Launched(j.intents[calls[k].intent].state)
          && j.intents[calls[k].intent].prepared.Some?
          && j.intents[calls[k].intent].prepared.value.payload == calls[k].payload)
    && (forall k, l | 0 <= k < l < |calls| :: calls[k].intent != calls[l].intent)
  }

  ghost predicate ListedSound(j: Journal, listed: set<nat>) {
    forall o | o in listed :: o < |j.orders| && j.orders[o].intent < |j.intents| && j.intents[j.orders[o].intent].state.Submitted?
  }

  predicate FeeCarried(j: Journal, i: nat, fee: real) {
    i < |j.intents| && j.intents[i].reservation.Some? && j.intents[i].reservation.value.feeRate == fee
  }

  /** What the gate holder carries in memory agrees with the journal. */
  ghost predicate HolderSound(s: System) {
    match s.holder
    case AtApproved(i, fee) => FeeCarried(s.journal, i, fee)
    case AtPreparing(i, fee) => FeeCarried(s.journal, i, fee)
    case HasPrepared(i, o, payload) => CarriesPayload(s.journal, i, o, payload)
    case MaySubmit(i, o, payload) => CarriesPayload(s.journal, i, o, payload)
    case Begun(i, o, payload) =>
      && CarriesPayload(s.journal, i, o, payload) && s.journal.intents[i].state.Submitting?
      && (forall k | 0 <= k < |s.calls| :: s.calls[k].intent != i)
    case Called(i, o) =>
      && i < |s.journal.intents| && o < |s.journal.orders| && s.journal.orders[o].intent == i
      && s.journal.intents[i].state.Submitting?
    case _ => true
  }

  predicate NoUnknown(j: Journal) {
    forall o | 0 <= o < |j.orders| :: !j.orders[o].state.Unknown?
  }

  /** A reconciliation so far accounts for every UNKNOWN order. */
  predicate Accounts(j: Journal, progress: Reconciliation) {
    match progress
    case Started => true
    case Listed(unsettled, findings) => findings || UnknownOrders(j) <= unsettled
    case Finished(findings) => findings || NoUnknown(j)
  }

  /** READY and an UNKNOWN order meet only while the process is down, starting, or about to halt. */
  predicate HolderClean(j: Journal, holder: Holder) {
    match holder
    case Down => true
    case StartupBegun => true
    case MustHalt => true
    case StartupRead(prior) => prior.Halted? ==> !j.control.state.Ready?
    case StartupEntered => !j.control.state.Ready?
    case StartupRecovered(_) => !j.control.state.Ready?
    case StartupLatched => !j.control.state.Ready?
    case StartupReconciling(progress) => !j.control.state.Ready? && Accounts(j, progress)
    case StartupChecked => !j.control.state.Ready? && (j.control.state.Halted? || NoUnknown(j))
    case StartupCleared => NoUnknown(j)
    case ResumeReconciling(revision, progress) =>
      !j.control.state.Ready? && revision <= j.control.revision && Accounts(j, progress)
    case ResumeChecked(revision) =>
      !j.control.state.Ready? && revision <= j.control.revision && (j.control.revision == revision ==> NoUnknown(j))
    case _ => j.control.state.Ready? ==> NoUnknown(j)
  }

  ghost predicate Inv(s: System) {
    && Linked(s.journal)
    && CallsSound(s.journal, s.calls)
    && ListedSound(s.journal, s.listed)
    && HolderSound(s)
    && HolderClean(s.journal, s.holder)
  }

  /** What one step leaves true: the invariant, the evolution of rows, the call log and the revision. */
  ghost predicate Kept(s: System, t: System) {
    && Inv(t) && Evolves(s.journal, t.journal) && s.calls <= t.calls
    && s.journal.control.revision <= t.journal.control.revision
    && (s.journal.control.revision == t.journal.control.revision ==> s.journal.control == t.journal.control)
  }

  // ---------------------------------------------------------------------------------------------
  // Frames
  // ---------------------------------------------------------------------------------------------

  lemma CallsFrame(a: Journal, b: Journal, calls: seq<Call>)
    requires CallsSound(a, calls) && Evolves(a, b)
    ensures CallsSound(b, calls)
  {
    forall k | 0 <= k < |calls| ensures calls[k].intent < |b.intents| && IntentEvolves(a.intents[calls[k].intent], b.intents[calls[k].intent]) {
      assert calls[k].intent < |a.intents|;
    }
  }

  lemma ListedFrame(a: Journal, b: Journal, listed: set<nat>)
    requires ListedSound(a, listed) && Evolves(a, b) && SubmittedStay(a, b)
    ensures ListedSound(b, listed)
  {
  }

  /** Control writes of outsiders never make the service READY and never leave the revision in place. */
  predicate ControlKept(a: Control, b: Control) {
    && a.revision <= b.revision && (b.state.Ready? ==> a.state.Ready?)
    && (a.revision == b.revision ==> a == b)
  }

  ghost predicate Outsider(a: Journal, b: Journal) {
    && Evolves(a, b) && Undisturbed(a, b) && SubmittedStay(a, b) && ControlKept(a.control, b.control)
    && (a.control.state.Halted? ==> b.control.state.Halted? || b.control.revision != a.control.revision)
  }

  lemma OutsiderKeepsNoUnknown(a: Journal, b: Journal)
    requires Undisturbed(a, b)
    ensures NoUnknown(a) ==> NoUnknown(b)
    ensures UnknownOrders(b) <= UnknownOrders(a)
  {
    forall o | o in UnknownOrders(b) ensures o in UnknownOrders(a) {
      assert b.orders[o].state.Unknown?;
    }
  }

  /** An outside step keeps the whole invariant, whatever the gate holder is doing. */
  lemma OutsiderKeepsInv(s: System, t: System)
    requires Inv(s) && t == s.(journal := t.journal)
    requires Linked(t.journal) && Outsider(s.journal, t.journal)
    requires s.holder.StartupChecked? && s.journal.control.state.Halted? ==> t.journal.control.state.Halted?
    ensures Kept(s, t)
  {
    CallsFrame(s.journal, t.journal, s.calls);
    ListedFrame(s.journal, t.journal, s.listed);
    HolderFrame(s, t);
    CleanFrame(s.journal, t.journal, s.holder);
  }

  lemma CleanFrame(a: Journal, b: Journal, holder: Holder)
    requires HolderClean(a, holder) && Outsider(a, b)
    requires holder.StartupChecked? && a.control.state.Halted? ==> b.control.state.Halted?
    ensures HolderClean(b, holder)
  {
    OutsiderKeepsNoUnknown(a, b);
  }

  lemma HolderFrame(s: System, t: System)
    requires HolderSound(s) && t == s.(journal := t.journal)
    requires Evolves(s.journal, t.journal) && Undisturbed(s.journal, t.journal)
    ensures HolderSound(t)
  {
    match s.holder
    case AtApproved(i, fee) => assert IntentEvolves(s.journal.intents[i], t.journal.intents[i]);
    case AtPreparing(i, fee) => assert IntentEvolves(s.journal.intents[i], t.journal.intents[i]);
    case HasPrepared(i, o, payload) => assert IntentEvolves(s.journal.intents[i], t.journal.intents[i]);
    case MaySubmit(i, o, payload) => assert IntentEvolves(s.journal.intents[i], t.journal.intents[i]);
    case Begun(i, o, payload) => assert IntentEvolves(s.journal.intents[i], t.journal.intents[i]);
    case Called(i, o) => assert IntentEvolves(s.journal.intents[i], t.journal.intents[i]);
    case _ =>
  }

  // ---------------------------------------------------------------------------------------------
  // Steps, group by group
  // ---------------------------------------------------------------------------------------------

  lemma ProcessKeepsInv(s: System, step: Step)
    requires Inv(s) && FireProcess(s, step).Some?
    ensures Kept(s, FireProcess(s, step).value)
  {
  }

  lemma OutsideKeepsInv(s: System, step: Step)
    requires Inv(s) && FireOutside(s, step).Some?
    ensures Kept(s, FireOutside(s, step).value)
  {
    var t := FireOutside(s, step).value;
    if step.ListOpenOrders? {
      ListingKeepsInv(s);
    } else if step.EndCycle? {
      SameRows(s.journal, s.journal);
    } else if t.journal == s.journal {
      assert t == s;
      SameRows(s.journal, s.journal);
    } else {
      OutsideJournal(s, step);
      OutsiderKeepsInv(s, t);
    }
  }

  lemma ListingKeepsInv(s: System)
    requires Inv(s)
    ensures Kept(s, s.(listed := s.listed + OpenOrders(s.journal)))
  {
    forall o | o in OpenOrders(s.journal)
      ensures o < |s.journal.orders| && s.journal.orders[o].intent < |s.journal.intents|
              && s.journal.intents[s.journal.orders[o].intent].state.Submitted?
    {
      assert Pairs(s.journal.intents[s.journal.orders[o].intent], s.journal.orders[o].state);
    }
  }

  /** The journal half of every outside step that commits. */
  lemma OutsideJournal(s: System, step: Step)
    requires Inv(s) && FireOutside(s, step).Some? && !step.ListOpenOrders? && !step.EndCycle?
    requires FireOutside(s, step).value.journal != s.journal
    ensures var t := FireOutside(s, step).value;
      && t == s.(journal := t.journal) && Linked(t.journal) && Outsider(s.journal, t.journal)
      && (s.holder.StartupChecked? && s.journal.control.state.Halted? ==> t.journal.control.state.Halted?)
  {
    if step.Admit? || step.WriteHalt? || step.WriteShutdown? {
      OutsideControl(s, step);
    } else {
      OutsideOrder(s, step);
    }
  }

  lemma OutsideControl(s: System, step: Step)
    requires Linked(s.journal) && FireOutside(s, step).Some? && (step.Admit? || step.WriteHalt? || step.WriteShutdown?)
    requires FireOutside(s, step).value.journal != s.journal
    ensures var t := FireOutside(s, step).value;
      && t == s.(journal := t.journal) && Linked(t.journal) && Outsider(s.journal, t.journal)
      && (s.holder.StartupChecked? && s.journal.control.state.Halted? ==> t.journal.control.state.Halted?)
  {
    var j := s.journal;
    match step
    case Admit(request) => AdmitLinks(j, request);
    case WriteHalt => SameRows(j, Halt(j));
    case WriteShutdown => SameRows(j, SetServiceState(j, ShuttingDown, None).value);
  }

  lemma OutsideOrder(s: System, step: Step)
    requires Linked(s.journal) && ListedSound(s.journal, s.listed) && FireOutside(s, step).Some?
    requires step.Project? || step.Resolve? || step.Transition? || step.CancelPrepared? || step.PaperFill?
    requires FireOutside(s, step).value.journal != s.journal
    ensures var t := FireOutside(s, step).value;
      && t == s.(journal := t.journal) && t.journal.control == s.journal.control
      && Linked(t.journal) && Evolves(s.journal, t.journal)
      && Undisturbed(s.journal, t.journal) && SubmittedStay(s.journal, t.journal)
  {
    var j := s.journal;
    match step
    case Project(o, seen, day) => ProjectionLinks(j, o, seen, day);
    case Resolve(o, venueId, seen, day) => ResolveLinks(j, o, venueId, seen, day);
    case Transition(o, next) => TransitionOrderLinks(j, o, next);
    case CancelPrepared(o) => CancelPreparedLinks(j, o);
    case PaperFill(o, state, remaining, fill, price, tradeId, day) =>
      PaperFillLinks(j, o, state, remaining, fill, price, tradeId, day);
  }

  lemma StartupKeepsInv(s: System, step: Step)
    requires Inv(s) && FireStartup(s, step).Some?
    ensures Kept(s, FireStartup(s, step).value)
  {
    var t := FireStartup(s, step).value;
    if step.RecoverSubmissions? {
      RecoverInterruptedLinks(s.journal);
    } else if step.RecoverLocalWork? {
      LinkedIsRecoverable(s.journal);
      RecoverPreSubmissionLinks(s.journal);
    } else {
      SameRows(s.journal, t.journal);
    }
    CallsFrame(s.journal, t.journal, s.calls);
    ListedFrame(s.journal, t.journal, s.listed);
  }

  /** Settling one order takes it off the list and out of UNKNOWN, or fails the reconciliation. */
  lemma SettleKeepsInv(s: System, step: Step)
    requires Inv(s) && step.Settle? && FireReconciliation(s, step).Some?
    ensures Kept(s, FireReconciliation(s, step).value)
  {
    var t := FireReconciliation(s, step).value;
    var j := s.journal;
    if ResolveUnknown(j, step.order, step.venueId, step.seen, step.day).Ok? {
      ResolveLinks(j, step.order, step.venueId, step.seen, step.day);
      OutsiderKeepsNoUnknown(j, t.journal);
      assert step.order !in UnknownOrders(t.journal);
      CallsFrame(j, t.journal, s.calls);
      ListedFrame(j, t.journal, s.listed);
    } else {
      HaltingKeepsInv(s, t);
    }
  }

  /** The gate is given back, or the process ends, with the service halted. */
  lemma HaltingKeepsInv(s: System, t: System)
    requires Inv(s) && t == s.(journal := EnsureHalted(s.journal), holder := t.holder)
    requires t.holder.Down? || t.holder.Free?
    ensures Kept(s, t)
  {
    SameRows(s.journal, t.journal);
    CallsFrame(s.journal, t.journal, s.calls);
    ListedFrame(s.journal, t.journal, s.listed);
  }

  lemma ReconciliationKeepsInv(s: System, step: Step)
    requires Inv(s) && FireReconciliation(s, step).Some?
    ensures Kept(s, FireReconciliation(s, step).value)
  {
    var t := FireReconciliation(s, step).value;
    if step.Settle? {
      SettleKeepsInv(s, step);
    } else if step.FailReconciliation? {
      HaltingKeepsInv(s, t);
    } else if step.CloseReconciliation? {
      SameRows(s.journal, t.journal);
      CallsFrame(s.journal, t.journal, s.calls);
      ListedFrame(s.journal, t.journal, s.listed);
    } else {
      NoneUnsettled(s.journal);
      assert t.journal == s.journal;
    }
  }

  lemma NoneUnsettled(j: Journal)
    ensures UnknownOrders(j) <= {} ==> NoUnknown(j)
  {
    if !NoUnknown(j) {
      var o :| 0 <= o < |j.orders| && j.orders[o].state.Unknown?;
      assert o in UnknownOrders(j);
    }
  }

  lemma ResumeKeepsInv(s: System, step: Step)
    requires Inv(s) && FireResume(s, step).Some?
    ensures Kept(s, FireResume(s, step).value)
  {
    var t := FireResume(s, step).value;
    SameRows(s.journal, t.journal);
    CallsFrame(s.journal, t.journal, s.calls);
    ListedFrame(s.journal, t.journal, s.listed);
  }

  /** Before the reservation the worker only rewrites its own intent row. */
  lemma AdmissionJournal(s: System, step: Step)
    requires Linked(s.journal) && FireAdmission(s, step).Some?
    ensures var t := FireAdmission(s, step).value;
      && t.calls == s.calls && t.listed == s.listed && t.journal.control == s.journal.control
      && Linked(t.journal) && Evolves(s.journal, t.journal)
      && Undisturbed(s.journal, t.journal) && SubmittedStay(s.journal, t.journal)
      && (t.holder.AtApproved? ==> FeeCarried(t.journal, t.holder.intent, t.holder.feeRate))
      && (t.holder.HasPrepared? ==> CarriesPayload(t.journal, t.holder.intent, t.holder.order, t.holder.payload))
      && (t.holder.Free? || t.holder.Taken? || t.holder.MayProceed? || t.holder.HasPrepared?
          || t.holder.AtValidating? || t.holder.AtApproved?)
  {
    var j := s.journal;
    SameRows(j, j);
    match (s.holder, step)
    case (Taken(i), ReadServiceState) =>
      if TransitionIntent(j, i, IntentState.Received, IntentState.Rejected).Ok? {
        TransitionIntentLinks(j, i, IntentState.Received, IntentState.Rejected);
      }
    case (Taken(i), RefuseReceived) =>
      if TransitionIntent(j, i, IntentState.Received, IntentState.Rejected).Ok? {
        TransitionIntentLinks(j, i, IntentState.Received, IntentState.Rejected);
      }
    case (MayProceed(i), Validate) =>
      if TransitionIntent(j, i, IntentState.Received, IntentState.Validating).Ok? {
        TransitionIntentLinks(j, i, IntentState.Received, IntentState.Validating);
      }
    case (AtValidating(i), RefuseValidating) =>
      if TransitionIntent(j, i, IntentState.Validating, IntentState.Rejected).Ok? {
        TransitionIntentLinks(j, i, IntentState.Validating, IntentState.Rejected);
      }
    case (AtValidating(i), EvaluateRisk(market, book, today)) =>
      if EvaluateAndReserve(j, i, s.policy, market, book, today).Ok? {
        EvaluateLinks(j, i, s.policy, market, book, today);
        EvaluationKeepsControl(j, i, s.policy, market, book, today);
      }
    case _ =>
  }

  lemma EvaluationKeepsControl(j: Journal, i: nat, policy: RiskPolicy, market: MarketRules, book: OrderBook, today: int)
    requires i < |j.intents| && EvaluateAndReserve(j, i, policy, market, book, today).Ok?
    ensures var b := EvaluateAndReserve(j, i, policy, market, book, today).value.0;
            b.control == j.control && |b.intents| == |j.intents|
  {
  }

  lemma AdmissionKeepsInv(s: System, step: Step)
    requires Inv(s) && FireAdmission(s, step).Some?
    ensures Kept(s, FireAdmission(s, step).value)
  {
    AdmissionJournal(s, step);
    AdmissionFrame(s, FireAdmission(s, step).value);
  }

  lemma AdmissionFrame(s: System, t: System)
    requires Inv(s) && !s.holder.Down? && HolderClean(s.journal, Free)
    requires t.calls == s.calls && t.listed == s.listed && t.journal.control == s.journal.control && Linked(t.journal)
    requires Evolves(s.journal, t.journal) && Undisturbed(s.journal, t.journal) && SubmittedStay(s.journal, t.journal)
    requires t.holder.AtApproved? ==> FeeCarried(t.journal, t.holder.intent, t.holder.feeRate)
    requires t.holder.HasPrepared? ==> CarriesPayload(t.journal, t.holder.intent, t.holder.order, t.holder.payload)
    requires t.holder.Free? || t.holder.Taken? || t.holder.MayProceed? || t.holder.HasPrepared?
      || t.holder.AtValidating? || t.holder.AtApproved?
    ensures Kept(s, t)
  {
    OutsiderKeepsNoUnknown(s.journal, t.journal);
    CallsFrame(s.journal, t.journal, s.calls);
    ListedFrame(s.journal, t.journal, s.listed);
  }

  /** From the reservation to the persisted payload. */
  lemma PreparationJournal(s: System, step: Step)
    requires Linked(s.journal) && HolderSound(s) && FireSubmission(s, step).Some?
    requires s.holder.AtApproved? || s.holder.AtPreparing? || s.holder.HasPrepared?
    ensures var t := FireSubmission(s, step).value;
      && t.calls == s.calls && t.listed == s.listed && t.journal.control == s.journal.control
      && Linked(t.journal) && Evolves(s.journal, t.journal) && SubmittedStay(s.journal, t.journal)
      && (NoUnknown(s.journal) ==> NoUnknown(t.journal))
      && (t.holder.HasPrepared? || t.holder.MaySubmit? ==>
            CarriesPayload(t.journal, t.holder.intent, t.holder.order, t.holder.payload))
      && (t.holder.Free? || t.holder.AtPreparing? || t.holder.HasPrepared? || t.holder.MaySubmit?)
      && (t.holder.AtPreparing? ==> s.holder.AtApproved? && t.holder.intent == s.holder.intent && t.holder.feeRate == s.holder.feeRate)
  {
    var j := s.journal;
    SameRows(j, j);
    match (s.holder, step)
    case (AtApproved(i, fee), MarkPreparing) =>
      if TransitionIntent(j, i, IntentState.Approved, IntentState.Preparing).Ok? {
        TransitionIntentLinks(j, i, IntentState.Approved, IntentState.Preparing);
      }
    case (AtPreparing(i, _), RefusePreparation) =>
      if RejectPreparation(j, i).Ok? {
        RejectPreparationLinks(j, i);
      }
    case (AtPreparing(i, fee), Prepare(payload, orderKey)) =>
      if CreatePreparedOrder(j, i, payload, orderKey, fee).Ok? {
        CreateLinks(j, i, payload, orderKey, fee);
      }
    case _ =>
  }

  lemma PreparationKeepsInv(s: System, step: Step)
    requires Inv(s) && FireSubmission(s, step).Some? && (s.holder.AtApproved? || s.holder.AtPreparing? || s.holder.HasPrepared?)
    ensures Kept(s, FireSubmission(s, step).value)
  {
    var t := FireSubmission(s, step).value;
    PreparationJournal(s, step);
    if t.holder.AtPreparing? {
      assert IntentEvolves(s.journal.intents[t.holder.intent], t.journal.intents[t.holder.intent]);
    }
    CallsFrame(s.journal, t.journal, s.calls);
    ListedFrame(s.journal, t.journal, s.listed);
  }

  lemma BeginKeepsInv(s: System)
    requires Inv(s) && s.holder.MaySubmit?
    ensures Kept(s, FireSubmission(s, Begin).value)
  {
    var (i, o) := (s.holder.intent, s.holder.order);
    BeginIs(s);
    if BeginSubmission(s.journal, i, o).Ok? {
      BegunKeepsInv(s, BeginSubmission(s.journal, i, o).value);
    } else {
      ReleaseKeepsInv(s);
    }
  }

  lemma BeginIs(s: System)
    requires s.holder.MaySubmit?
    ensures FireSubmission(s, Begin)
         == Some(Commit(s, BeginSubmission(s.journal, s.holder.intent, s.holder.order),
                        Begun(s.holder.intent, s.holder.order, s.holder.payload), Free))
  {
  }

  lemma ReleaseKeepsInv(s: System)
    requires Inv(s) && s.holder.MaySubmit?
    ensures Kept(s, s.(holder := Free))
  {
    SameRows(s.journal, s.journal);
  }

  lemma BegunKeepsInv(s: System, next: Journal)
    requires Inv(s) && s.holder.MaySubmit? && BeginSubmission(s.journal, s.holder.intent, s.holder.order) == Ok(next)
    ensures Kept(s, s.(journal := next, holder := Begun(s.holder.intent, s.holder.order, s.holder.payload)))
  {
    var (i, o) := (s.holder.intent, s.holder.order);
    BeginLinks(s.journal, i, o);
    BegunIsSound(s.journal, next, s.calls, i, o, s.holder.payload);
    CallsFrame(s.journal, next, s.calls);
    ListedFrame(s.journal, next, s.listed);
  }

  lemma BegunIsSound(a: Journal, b: Journal, calls: seq<Call>, i: nat, o: nat, payload: string)
    requires CallsSound(a, calls) && Evolves(a, b) && CarriesPayload(a, i, o, payload)
    requires a.intents[i].state.Prepared? && b.intents[i].state.Submitting?
    ensures CarriesPayload(b, i, o, payload)
    ensures forall k | 0 <= k < |calls| :: calls[k].intent != i
  {
    assert IntentEvolves(a.intents[i], b.intents[i]);
    forall k | 0 <= k < |calls| ensures calls[k].intent != i {
      assert Launched(a.intents[calls[k].intent].state);
    }
  }

  lemma CallKeepsInv(s: System)
    requires Inv(s) && s.holder.Begun?
    ensures Kept(s, FireSubmission(s, CallVenue).value)
  {
  }

  /** Only an ambiguous answer writes UNKNOWN, and then the holder must halt next. */
  lemma FinishJournal(s: System, response: Response, day: int)
    requires Linked(s.journal) && s.holder.Called? && FireSubmission(s, Finish(response, day)).Some?
    ensures var t := FireSubmission(s, Finish(response, day)).value;
      && t.calls == s.calls && t.listed == s.listed
      && Linked(t.journal) && Evolves(s.journal, t.journal) && SubmittedStay(s.journal, t.journal)
      && (t.holder.MustHalt? || (t.holder.Free? && t.journal.control == s.journal.control
                                 && (NoUnknown(s.journal) ==> NoUnknown(t.journal))))
  {
    var j := s.journal;
    var (i, o) := (s.holder.intent, s.holder.order);
    SameRows(j, j);
    if FireSubmission(s, Finish(response, day)).value.journal != j {
      match response
      case Accepted(state, venueId, filled, price, tradeIds) =>
        FinishLinks(j, i, o, false, state, Some(venueId), filled, price, tradeIds, day);
      case DefiniteRejection => FinishLinks(j, i, o, false, OrderState.Rejected, None, 0.0, None, [], day);
      case Ambiguous =>
        FinishLinks(j, i, o, true, OrderState.Unknown, Some(j.intents[i].prepared.value.orderKey), 0.0, None, [], day);
    }
  }

  lemma FinishKeepsInv(s: System, response: Response, day: int)
    requires Inv(s) && s.holder.Called? && FireSubmission(s, Finish(response, day)).Some?
    ensures Kept(s, FireSubmission(s, Finish(response, day)).value)
  {
    var t := FireSubmission(s, Finish(response, day)).value;
    FinishJournal(s, response, day);
    CallsFrame(s.journal, t.journal, s.calls);
    ListedFrame(s.journal, t.journal, s.listed);
  }

  lemma SubmissionKeepsInv(s: System, step: Step)
    requires Inv(s) && FireSubmission(s, step).Some?
    ensures Kept(s, FireSubmission(s, step).value)
  {
    if s.holder.MaySubmit? {
      BeginKeepsInv(s);
    } else if s.holder.Begun? {
      CallKeepsInv(s);
    } else if s.holder.Called? {
      FinishKeepsInv(s, step.response, step.day);
    } else if s.holder.MustHalt? {
      SameRows(s.journal, Halt(s.journal));
      CallsFrame(s.journal, Halt(s.journal), s.calls);
      ListedFrame(s.journal, Halt(s.journal), s.listed);
    } else {
      PreparationKeepsInv(s, step);
    }
  }

  lemma InitialInv(s: System)
    requires Initial(s)
    ensures Inv(s)
  {
  }

  /** Every step of the coordinator and of everyone around it keeps the invariant. */
  lemma FireKeepsInv(s: System, step: Step)
    requires Inv(s) && Fire(s, step).Some?
    ensures Kept(s, Fire(s, step).value)
  {
    if FireProcess(s, step).Some? {
      ProcessKeepsInv(s, step);
    } else if FireOutside(s, step).Some? {
      OutsideKeepsInv(s, step);
    } else if FireStartup(s, step).Some? {
      StartupKeepsInv(s, step);
    } else if FireReconciliation(s, step).Some? {
      ReconciliationKeepsInv(s, step);
    } else if FireResume(s, step).Some? {
      ResumeKeepsInv(s, step);
    } else if FireAdmission(s, step).Some? {
      AdmissionKeepsInv(s, step);
    } else if FireSubmission(s, step).Some? {
      SubmissionKeepsInv(s, step);
    }
  }

  lemma {:induction false} RunKeepsInv(states: seq<System>, steps: seq<Step>, k: nat)
    requires Run(states, steps) && k < |states|
    ensures Inv(states[k])
  {
    if k == 0 {
      InitialInv(states[0]);
    } else {
      RunKeepsInv(states, steps, k - 1);
      assert Fire(states[k - 1], steps[k - 1]) == Some(states[k]);
      FireKeepsInv(states[k - 1], steps[k - 1]);
    }
  }
}
