/**
 The execution coordinator (src/execution.rs) as a state machine over its durable commits.

 One step is one committed transaction, one read that later code relies on, or one venue call. The
 safety gate admits one holder at a time; how far that holder has got is `holder`. Halts, shutdown
 marks, cancellations and reconciliations of others may happen between any two of its steps, but for one
 thing: no reconciliation is open when the worker evaluates risk. A crash may fall anywhere: it empties
 everything but the journal.
 */
module Protocol {
  import opened Wrappers
  import opened Domain
  import opened Risk
  import opened Journal

  /** One request that left for the venue. */
  datatype Call = Call(intent: nat, payload: string)

  /** A reconciliation run by startup or resume: which UNKNOWN orders it still has to settle. */
  datatype Reconciliation = Started | Listed(unsettled: set<nat>, findings: bool) | Finished(findings: bool)

  datatype Holder =
    | Down
    | Free
    // startup
    | StartupBegun
    | StartupRead(prior: ServiceState)
    | StartupEntered
    | StartupRecovered(interrupted: bool)
    | StartupLatched
    | StartupReconciling(progress: Reconciliation)
    | StartupChecked
    | StartupCleared
    // resume
    | ResumeReconciling(revision: nat, progress: Reconciliation)
    | ResumeChecked(revision: nat)
    // the worker, on one intent
    | Taken(intent: nat)
    | MayProceed(intent: nat)
    | AtValidating(intent: nat)
    | AtApproved(intent: nat, feeRate: real)
    | AtPreparing(intent: nat, feeRate: real)
    | HasPrepared(intent: nat, order: nat, payload: string)
    | MaySubmit(intent: nat, order: nat, payload: string)
    | Begun(intent: nat, order: nat, payload: string)
    | Called(intent: nat, order: nat)
    | MustHalt

  /** `listed` are the orders that open reconciliations have read as open and may still project. */
  datatype System = System(
    journal: Journal,
    holder: Holder,
    listed: set<nat>,
    calls: seq<Call>,
    policy: RiskPolicy)

  /** The venue's answer. An accepted order is never UNKNOWN: adapters call that ambiguous. */
  datatype Response =
    | Accepted(state: OrderState, venueId: string, filled: real, price: Option<real>, tradeIds: seq<string>)
    | Ambiguous
    | DefiniteRejection

  datatype Step =
    | Crash
    | Start
    | Admit(request: Request)
    | WriteHalt
    | WriteShutdown
    | ListOpenOrders
    | EndCycle(done: set<nat>)
    | Project(order: nat, seen: Observation, day: int)
    | Resolve(order: nat, venueId: string, seen: Observation, day: int)
    | Transition(order: nat, next: OrderState)
    | CancelPrepared(order: nat)
    | PaperFill(order: nat, state: OrderState, remaining: real, fill: real, price: real, tradeId: string, day: int)
    // startup
    | ReadPriorState
    | EnterStartup
    | RecoverSubmissions
    | LatchInterrupted
    | RecoverLocalWork
    | ReadFinalState
    | WriteReady
    // the reconciliation of startup or resume
    | ListUnknown
    | Settle(order: nat, venueId: string, seen: Observation, day: int)
    | ReportUnsettled(order: nat)
    | ReportFinding
    | FinishReconciliation
    | CloseReconciliation
    | FailReconciliation
    // resume
    | ReadRevision
    | AbandonResume
    | CommitResume
    // worker
    | Take(intent: nat)
    | ReadServiceState
    | RefuseReceived
    | PickPrepared(order: nat)
    | Validate
    | RefuseValidating
    | EvaluateRisk(market: MarketRules, book: OrderBook, today: int)
    | MarkPreparing
    | RefusePreparation
    | Prepare(payload: string, orderKey: string)
    | ReadBeforeSubmit
    | Begin
    | CallVenue
    | Finish(response: Response, day: int)
    | HaltAfterAmbiguity
    | Drop

  /** The market checks of `validate_freshness_and_increments` that concern stored numbers. */
  predicate ValidRules(market: MarketRules) {
    && 0.0 < market.tickSize < 1.0
    && 0.0 <= market.makerFeeRate <= 1.0 && 0.0 <= market.takerFeeRate <= 1.0
  }

  /** The commit of a transaction by the gate holder, who goes one way or the other. */
  function Commit(s: System, result: Result<Journal, Refusal>, committed: Holder, refused: Holder): System {
    match result
    case Ok(next) => s.(journal := next, holder := committed)
    case Err(_) => s.(holder := refused)
  }

  /** A transaction by anyone else: a refused one changes nothing. */
  function Outside(s: System, result: Result<Journal, Refusal>): System {
    Commit(s, result, s.holder, s.holder)
  }

  function Halt(j: Journal): Journal {
    SetServiceState(j, Halted, None).value
  }

  /** A failed reconciliation writes HALTED unless the service already is. */
  function EnsureHalted(j: Journal): Journal {
    if j.control.state.Halted? then j else Halt(j)
  }

  /** Startup's first write: HALTED is kept, an unfinished shutdown becomes HALTED, all else RECONCILING. */
  function Entered(j: Journal, prior: ServiceState): Journal {
    match prior
    case Halted => j
    case ShuttingDown => Halt(j)
    case _ => SetServiceState(j, ServiceState.Reconciling, None).value
  }

  function OpenOrders(j: Journal): set<nat> {
    set o: nat | o < |j.orders| && j.orders[o].venueId.Some? && j.orders[o].state.Open()
  }

  function UnknownOrders(j: Journal): set<nat> {
    set o: nat | o < |j.orders| && j.orders[o].state.Unknown?
  }

  function FireProcess(s: System, step: Step): Option<System> {
    if step.Crash? then Some(s.(holder := Down, listed := {}))
    else if step.Start? && s.holder.Down? then Some(s.(holder := StartupBegun))
    else None
  }

  /** Shutdown is only asked for once startup has returned (src/main.rs:251, 271-273). */
  predicate InStartup(holder: Holder) {
    || holder.StartupBegun? || holder.StartupRead? || holder.StartupEntered? || holder.StartupRecovered?
    || holder.StartupLatched? || holder.StartupReconciling? || holder.StartupChecked? || holder.StartupCleared?
  }

  /** What a fill of `apply_paper_trade_through` may write to a core order (see module PaperCore). */
  predicate PaperFillFits(j: Journal, o: nat, state: OrderState, remaining: real, fill: real) {
    && o < |j.orders| && (state.PartiallyFilled? || state.Filled?)
    && 0.0 <= remaining && 0.0 < fill && remaining + fill <= j.orders[o].remaining
  }

  /** Steps anyone may take while the process runs; None when the step cannot happen. */
  function FireOutside(s: System, step: Step): Option<System> {
    if s.holder.Down? then None
    else
      match step
      case Admit(request) => Some(Outside(s, AdmitIntent(s.journal, request)))
      case WriteHalt => Some(s.(journal := Halt(s.journal)))
      case WriteShutdown =>
        if InStartup(s.holder) then None else Some(Outside(s, SetServiceState(s.journal, ShuttingDown, None)))
      case ListOpenOrders => Some(s.(listed := s.listed + OpenOrders(s.journal)))
      // Two reconciliations may overlap, one under each gate, so one that ends may leave orders of the other.
      case EndCycle(done) => Some(s.(listed := s.listed - done))
      case Project(o, seen, day) =>
        if o in s.listed && !seen.state.Unknown? then Some(Outside(s, ReconcileProjection(s.journal, o, seen, day))) else None
      case Resolve(o, venueId, seen, day) => Some(Outside(s, ResolveUnknown(s.journal, o, venueId, seen, day)))
      case Transition(o, next) =>
        if next.CancelPending? || next.Terminal() then Some(Outside(s, TransitionOrder(s.journal, o, next))) else None
      case CancelPrepared(o) => Some(Outside(s, CancelPreparedOrder(s.journal, o)))
      case PaperFill(o, state, remaining, fill, price, tradeId, day) =>
        if PaperFillFits(s.journal, o, state, remaining, fill)
        then Some(s.(journal := ProjectPaperFill(s.journal, o, state, remaining, fill, price, tradeId, day)))
        else None
      case _ => None
  }

  function FireStartup(s: System, step: Step): Option<System> {
    match (s.holder, step)
    case (StartupBegun, ReadPriorState) => Some(s.(holder := StartupRead(s.journal.control.state)))
    case (StartupRead(prior), EnterStartup) =>
      Some(s.(journal := Entered(s.journal, prior), holder := StartupEntered))
    case (StartupEntered, RecoverSubmissions) =>
      Some(s.(journal := RecoverInterrupted(s.journal), holder := StartupRecovered(AnyInterrupted(s.journal))))
    case (StartupRecovered(interrupted), LatchInterrupted) =>
      Some(s.(journal := if interrupted then Halt(s.journal) else s.journal, holder := StartupLatched))
    case (StartupLatched, RecoverLocalWork) =>
      Some(Commit(s, RecoverPreSubmission(s.journal), StartupReconciling(Started), Down))
    case (StartupChecked, ReadFinalState) =>
      Some(s.(holder := if s.journal.control.state.Halted? then Free else StartupCleared))
    case (StartupCleared, WriteReady) =>
      Some(Commit(s, SetServiceState(s.journal, Ready, None), Free, Down))
    case _ => None
  }

  /** Where a reconciliation of startup or resume stands, if one is running. */
  function Progress(holder: Holder): Option<Reconciliation> {
    match holder
    case StartupReconciling(progress) => Some(progress)
    case ResumeReconciling(_, progress) => Some(progress)
    case _ => None
  }

  function WithProgress(holder: Holder, progress: Reconciliation): Holder
    requires Progress(holder).Some?
  {
    match holder
    case StartupReconciling(_) => StartupReconciling(progress)
    case ResumeReconciling(revision, _) => ResumeReconciling(revision, progress)
  }

  /** A failed startup ends the process; a failed resume only gives the gate back. */
  function AfterFailure(holder: Holder): Holder {
    if holder.StartupReconciling? then Down else Free
  }

  function AfterReconciliation(holder: Holder): Holder {
    match holder
    case ResumeReconciling(revision, _) => ResumeChecked(revision)
    case _ => StartupChecked
  }

  /** The reconciliation both startup and resume run while holding the gate. */
  function FireReconciliation(s: System, step: Step): Option<System> {
    if Progress(s.holder).None? then None
    else
      match (Progress(s.holder).value, step)
      case (Started, ListUnknown) =>
        Some(s.(holder := WithProgress(s.holder, Listed(UnknownOrders(s.journal), false))))
      case (Listed(unsettled, findings), Settle(o, venueId, seen, day)) =>
        if o !in unsettled || seen.state.Unknown? then None
        else
          Some(match ResolveUnknown(s.journal, o, venueId, seen, day)
               case Ok(next) => s.(journal := next, holder := WithProgress(s.holder, Listed(unsettled - {o}, findings)))
               case Err(_) => s.(journal := EnsureHalted(s.journal), holder := AfterFailure(s.holder)))
      case (Listed(unsettled, _), ReportUnsettled(o)) =>
        if o in unsettled then Some(s.(holder := WithProgress(s.holder, Listed(unsettled - {o}, true)))) else None
      case (Listed(unsettled, _), ReportFinding) => Some(s.(holder := WithProgress(s.holder, Listed(unsettled, true))))
      case (Listed(unsettled, findings), FinishReconciliation) =>
        if unsettled == {} then Some(s.(holder := WithProgress(s.holder, Finished(findings)))) else None
      case (Finished(findings), CloseReconciliation) =>
        Some(s.(journal := if findings then Halt(s.journal) else s.journal, holder := AfterReconciliation(s.holder)))
      case (_, FailReconciliation) => Some(s.(journal := EnsureHalted(s.journal), holder := AfterFailure(s.holder)))
      case _ => None
  }

  function FireResume(s: System, step: Step): Option<System> {
    match (s.holder, step)
    case (Free, ReadRevision) =>
      if s.journal.control.state.Halted? then Some(s.(holder := ResumeReconciling(s.journal.control.revision, Started))) else Some(s)
    case (ResumeChecked(_), AbandonResume) => Some(s.(holder := Free))
    case (ResumeChecked(revision), CommitResume) =>
      Some(Commit(s, SetServiceState(s.journal, Ready, Some(revision)), Free, Free))
    case _ => None
  }

  /** The order `prepared_submission` finds for a prepared intent. */
  predicate PreparedPair(j: Journal, i: nat, o: nat) {
    && i < |j.intents| && o < |j.orders| && j.orders[o].intent == i
    && j.orders[o].state.Prepared? && HasAttempt(j.intents[i], AttemptPrepared)
  }

  /**
   The worker up to the durable reservation. Any admitted intent may be taken, any number of times.

   The worker holds the safety gate and the order lifecycle gate, and every reconciliation runs under one
   of them, so at the risk transaction none is open: the worker's own have ended.
   */
  function FireAdmission(s: System, step: Step): Option<System> {
    match (s.holder, step)
    case (Free, Take(i)) => if i < |s.journal.intents| then Some(s.(holder := Taken(i))) else None
    case (Taken(i), ReadServiceState) =>
      if s.journal.control.state.Ready? then Some(s.(holder := MayProceed(i)))
      else Some(Commit(s, TransitionIntent(s.journal, i, IntentState.Received, IntentState.Rejected), Free, Free))
    case (Taken(i), RefuseReceived) =>
      Some(Commit(s, TransitionIntent(s.journal, i, IntentState.Received, IntentState.Rejected), Free, Free))
    case (MayProceed(i), PickPrepared(o)) =>
      if PreparedPair(s.journal, i, o) && s.journal.intents[i].state.Prepared?
      then Some(s.(holder := HasPrepared(i, o, s.journal.intents[i].prepared.value.payload))) else None
    case (MayProceed(i), Validate) =>
      Some(Commit(s, TransitionIntent(s.journal, i, IntentState.Received, IntentState.Validating), AtValidating(i), Free))
    case (AtValidating(i), RefuseValidating) =>
      Some(Commit(s, TransitionIntent(s.journal, i, IntentState.Validating, IntentState.Rejected), Free, Free))
    case (AtValidating(i), EvaluateRisk(market, book, today)) =>
      if i < |s.journal.intents| && ValidRules(market) && s.listed == {} then
        Some(match EvaluateAndReserve(s.journal, i, s.policy, market, book, today)
             case Err(_) => s.(holder := Free)
             case Ok((next, decision)) =>
               s.(journal := next, holder := if decision.Approve? then AtApproved(i, market.LargerFee()) else Free))
      else None
    case _ => None
  }

  /** The worker from the reservation to the venue and back. */
  function FireSubmission(s: System, step: Step): Option<System> {
    match (s.holder, step)
    case (AtApproved(i, fee), MarkPreparing) =>
      Some(Commit(s, TransitionIntent(s.journal, i, IntentState.Approved, IntentState.Preparing), AtPreparing(i, fee), Free))
    case (AtPreparing(i, _), RefusePreparation) =>
      if i < |s.journal.intents| then Some(Commit(s, RejectPreparation(s.journal, i), Free, Free)) else None
    case (AtPreparing(i, fee), Prepare(payload, orderKey)) =>
      if i < |s.journal.intents| then
        Some(Commit(s, CreatePreparedOrder(s.journal, i, payload, orderKey, fee),
                    HasPrepared(i, |s.journal.orders|, payload), Free))
      else None
    case (HasPrepared(i, o, payload), ReadBeforeSubmit) =>
      Some(s.(holder := if s.journal.control.state.Ready? then MaySubmit(i, o, payload) else Free))
    case (MaySubmit(i, o, payload), Begin) =>
      Some(Commit(s, BeginSubmission(s.journal, i, o), Begun(i, o, payload), Free))
    case (Begun(i, o, payload), CallVenue) =>
      Some(s.(calls := s.calls + [Call(i, payload)], holder := Called(i, o)))
    case (Called(i, o), Finish(response, day)) =>
      (match response
       case Accepted(state, venueId, filled, price, tradeIds) =>
         if state.Unknown? then None
         else Some(Commit(s, FinishSubmission(s.journal, i, o, false, state, Some(venueId), filled, price, tradeIds, day), Free, Free))
       case DefiniteRejection =>
         Some(Commit(s, FinishSubmission(s.journal, i, o, false, OrderState.Rejected, None, 0.0, None, [], day), Free, Free))
       case Ambiguous =>
         if i < |s.journal.intents| && s.journal.intents[i].prepared.Some? then
           Some(Commit(s, FinishSubmission(s.journal, i, o, true, OrderState.Unknown,
                                           Some(s.journal.intents[i].prepared.value.orderKey), 0.0, None, [], day), MustHalt, Free))
         else None)
    case (MustHalt, HaltAfterAmbiguity) => Some(s.(journal := Halt(s.journal), holder := Free))
    case _ => None
  }

  /** The worker gives an intent up before any venue request has begun. */
  function FireDrop(s: System, step: Step): Option<System> {
    if step.Drop? && (s.holder.Taken? || s.holder.MayProceed? || s.holder.AtValidating? || s.holder.AtApproved?
                      || s.holder.AtPreparing? || s.holder.HasPrepared?)
    then Some(s.(holder := Free)) else None
  }

  function OrElse(a: Option<System>, b: Option<System>): Option<System> {
    if a.Some? then a else b
  }

  /** Each step belongs to at most one group, so the order of the alternatives does not matter. */
  function Fire(s: System, step: Step): Option<System> {
    OrElse(FireProcess(s, step),
    OrElse(FireOutside(s, step),
    OrElse(FireStartup(s, step),
    OrElse(FireReconciliation(s, step),
    OrElse(FireResume(s, step),
    OrElse(FireAdmission(s, step),
    OrElse(FireSubmission(s, step), FireDrop(s, step))))))))
  }

  predicate Initial(s: System) {
    && s.journal == Journal([], [], [], s.journal.positions, Control(Starting, 0))
    && s.holder.Down? && s.listed == {} && s.calls == []
  }

  /** A run: states and the steps between them. */
  ghost predicate Run(states: seq<System>, steps: seq<Step>) {
    && |states| == |steps| + 1 && Initial(states[0])
    && forall k {:trigger steps[k]} | 0 <= k < |steps| :: Fire(states[k], steps[k]) == Some(states[k + 1])
  }
}
