/** Paths of the protocol, extended one step of the coordinator at a time. */
module CoordinatorPaths {
  import opened Wrappers
  import opened Domain
  import opened Risk
  import opened Journal
  import opened Protocol

  ghost predicate Walk(states: seq<System>, steps: seq<Step>) {
    && |states| == |steps| + 1
    && forall k {:trigger steps[k]} | 0 <= k < |steps| :: Fire(states[k], steps[k]) == Some(states[k + 1])
  }

  /** The steps lead from `s` to `t`. */
  ghost predicate Path(s: System, steps: seq<Step>, t: System) {
    exists states: seq<System> :: Walk(states, steps) && states[0] == s && states[|steps|] == t
  }

  lemma EmptyPath(s: System)
    ensures Path(s, [], s)
  {
    assert Walk([s], []);
  }

  lemma PathStep(s: System, steps: seq<Step>, mid: System, step: Step, t: System)
    requires Path(s, steps, mid) && Fire(mid, step) == Some(t)
    ensures Path(s, steps + [step], t)
  {
    var states: seq<System> :| Walk(states, steps) && states[0] == s && states[|steps|] == mid;
    WalkNext(states, steps, step, t);
    assert (states + [t])[|steps + [step]|] == t;
  }

  lemma WalkNext(states: seq<System>, steps: seq<Step>, step: Step, t: System)
    requires Walk(states, steps) && Fire(states[|steps|], step) == Some(t)
    ensures Walk(states + [t], steps + [step])
  {
    var all := steps + [step];
    forall k | 0 <= k < |all| ensures Fire((states + [t])[k], all[k]) == Some((states + [t])[k + 1]) {
      if k < |steps| {
        assert all[k] == steps[k];
      }
    }
  }

  lemma WalkConcat(states: seq<System>, steps: seq<Step>, others: seq<System>, more: seq<Step>)
    requires Walk(states, steps) && Walk(others, more) && others[0] == states[|steps|]
    ensures Walk(states + others[1..], steps + more)
  {
    var all, joined := steps + more, states + others[1..];
    forall k | 0 <= k < |all| ensures Fire(joined[k], all[k]) == Some(joined[k + 1]) {
      if k < |steps| {
        assert all[k] == steps[k];
      } else {
        assert all[k] == more[k - |steps|];
      }
    }
  }

  lemma PathJoin(s: System, steps: seq<Step>, mid: System, more: seq<Step>, t: System)
    requires Path(s, steps, mid) && Path(mid, more, t)
    ensures Path(s, steps + more, t)
  {
    var states: seq<System> :| Walk(states, steps) && states[0] == s && states[|steps|] == mid;
    var others: seq<System> :| Walk(others, more) && others[0] == mid && others[|more|] == t;
    WalkConcat(states, steps, others, more);
    assert (states + others[1..])[|steps + more|] == t;
  }

  /** A path from the last state of a run extends the run, so the theorems about runs hold along it. */
  lemma PathExtendsRun(states: seq<System>, steps: seq<Step>, more: seq<Step>, t: System)
    returns (extended: seq<System>)
    requires Run(states, steps) && Path(states[|steps|], more, t)
    ensures Run(extended, steps + more) && states <= extended && extended[|steps + more|] == t
  {
    assert Walk(states, steps);
    var others: seq<System> :| Walk(others, more) && others[0] == states[|steps|] && others[|more|] == t;
    WalkConcat(states, steps, others, more);
    extended := states + others[1..];
  }

  // ---------------------------------------------------------------------------------------------
  // The worker's steps
  // ---------------------------------------------------------------------------------------------

  lemma TakePath(s: System, steps: seq<Step>, mid: System, i: nat)
    requires Path(s, steps, mid) && mid.holder.Free? && i < |mid.journal.intents|
    ensures Path(s, steps + [Take(i)], mid.(holder := Taken(i)))
  {
    assert FireAdmission(mid, Take(i)) == Some(mid.(holder := Taken(i)));
    PathStep(s, steps, mid, Take(i), mid.(holder := Taken(i)));
  }

  lemma AdmissionPath(s: System, steps: seq<Step>, mid: System, step: Step, t: System)
    requires Path(s, steps, mid) && FireAdmission(mid, step) == Some(t)
    ensures Path(s, steps + [step], t)
  {
    PathStep(s, steps, mid, step, t);
  }

  lemma RefuseReceivedPath(s: System, steps: seq<Step>, mid: System, i: nat)
    requires Path(s, steps, mid) && mid.holder == Taken(i)
    ensures Path(s, steps + [RefuseReceived],
                 Commit(mid, TransitionIntent(mid.journal, i, IntentState.Received, IntentState.Rejected), Free, Free))
  {
    AdmissionPath(s, steps, mid, RefuseReceived,
                  Commit(mid, TransitionIntent(mid.journal, i, IntentState.Received, IntentState.Rejected), Free, Free));
  }

  lemma ProceedPath(s: System, steps: seq<Step>, mid: System, i: nat)
    requires Path(s, steps, mid) && mid.holder == Taken(i) && mid.journal.control.state.Ready?
    ensures Path(s, steps + [ReadServiceState], mid.(holder := MayProceed(i)))
  {
    AdmissionPath(s, steps, mid, ReadServiceState, mid.(holder := MayProceed(i)));
  }

  lemma PickPreparedPath(s: System, steps: seq<Step>, mid: System, i: nat, o: nat)
    requires Path(s, steps, mid) && mid.holder == MayProceed(i)
    requires PreparedPair(mid.journal, i, o) && mid.journal.intents[i].state.Prepared?
    ensures Path(s, steps + [PickPrepared(o)], mid.(holder := HasPrepared(i, o, mid.journal.intents[i].prepared.value.payload)))
  {
    AdmissionPath(s, steps, mid, PickPrepared(o), mid.(holder := HasPrepared(i, o, mid.journal.intents[i].prepared.value.payload)));
  }

  lemma ValidatePath(s: System, steps: seq<Step>, mid: System, i: nat)
    requires Path(s, steps, mid) && mid.holder == MayProceed(i)
    ensures Path(s, steps + [Validate],
                 Commit(mid, TransitionIntent(mid.journal, i, IntentState.Received, IntentState.Validating), AtValidating(i), Free))
  {
    AdmissionPath(s, steps, mid, Validate,
                  Commit(mid, TransitionIntent(mid.journal, i, IntentState.Received, IntentState.Validating), AtValidating(i), Free));
  }

  lemma RefuseValidatingPath(s: System, steps: seq<Step>, mid: System, i: nat)
    requires Path(s, steps, mid) && mid.holder == AtValidating(i)
    ensures Path(s, steps + [RefuseValidating],
                 Commit(mid, TransitionIntent(mid.journal, i, IntentState.Validating, IntentState.Rejected), Free, Free))
  {
    AdmissionPath(s, steps, mid, RefuseValidating,
                  Commit(mid, TransitionIntent(mid.journal, i, IntentState.Validating, IntentState.Rejected), Free, Free));
  }

  /** The state after the risk transaction. */
  function Evaluated(mid: System, i: nat, market: MarketRules, book: OrderBook, today: int): System
    requires i < |mid.journal.intents|
  {
    match EvaluateAndReserve(mid.journal, i, mid.policy, market, book, today)
    case Err(_) => mid.(holder := Free)
    case Ok((next, decision)) =>
      mid.(journal := next, holder := if decision.Approve? then AtApproved(i, market.LargerFee()) else Free)
  }

  lemma EvaluatePath(s: System, steps: seq<Step>, mid: System, i: nat, market: MarketRules, book: OrderBook, today: int)
    requires Path(s, steps, mid) && mid.holder == AtValidating(i) && i < |mid.journal.intents| && ValidRules(market)
    requires mid.listed == {}
    ensures Path(s, steps + [EvaluateRisk(market, book, today)], Evaluated(mid, i, market, book, today))
  {
    AdmissionPath(s, steps, mid, EvaluateRisk(market, book, today), Evaluated(mid, i, market, book, today));
  }

  lemma DropPath(s: System, steps: seq<Step>, mid: System)
    requires Path(s, steps, mid) && (mid.holder.MayProceed? || mid.holder.HasPrepared?)
    ensures Path(s, steps + [Drop], mid.(holder := Free))
  {
    assert FireDrop(mid, Drop) == Some(mid.(holder := Free));
    PathStep(s, steps, mid, Drop, mid.(holder := Free));
  }

  lemma SubmissionPath(s: System, steps: seq<Step>, mid: System, step: Step, t: System)
    requires Path(s, steps, mid) && FireSubmission(mid, step) == Some(t)
    ensures Path(s, steps + [step], t)
  {
    PathStep(s, steps, mid, step, t);
  }

  lemma MarkPreparingPath(s: System, steps: seq<Step>, mid: System, i: nat, fee: real)
    requires Path(s, steps, mid) && mid.holder == AtApproved(i, fee)
    ensures Path(s, steps + [MarkPreparing],
                 Commit(mid, TransitionIntent(mid.journal, i, IntentState.Approved, IntentState.Preparing), AtPreparing(i, fee), Free))
  {
    SubmissionPath(s, steps, mid, MarkPreparing,
                   Commit(mid, TransitionIntent(mid.journal, i, IntentState.Approved, IntentState.Preparing), AtPreparing(i, fee), Free));
  }

  lemma RefusePreparationPath(s: System, steps: seq<Step>, mid: System, i: nat, fee: real)
    requires Path(s, steps, mid) && mid.holder == AtPreparing(i, fee) && i < |mid.journal.intents|
    ensures Path(s, steps + [RefusePreparation], Commit(mid, RejectPreparation(mid.journal, i), Free, Free))
  {
    SubmissionPath(s, steps, mid, RefusePreparation, Commit(mid, RejectPreparation(mid.journal, i), Free, Free));
  }

  lemma PreparePath(s: System, steps: seq<Step>, mid: System, i: nat, fee: real, payload: string, orderKey: string)
    requires Path(s, steps, mid) && mid.holder == AtPreparing(i, fee) && i < |mid.journal.intents|
    ensures Path(s, steps + [Prepare(payload, orderKey)],
                 Commit(mid, CreatePreparedOrder(mid.journal, i, payload, orderKey, fee),
                        HasPrepared(i, |mid.journal.orders|, payload), Free))
  {
    SubmissionPath(s, steps, mid, Prepare(payload, orderKey),
                   Commit(mid, CreatePreparedOrder(mid.journal, i, payload, orderKey, fee),
                          HasPrepared(i, |mid.journal.orders|, payload), Free));
  }

  lemma ReadBeforeSubmitPath(s: System, steps: seq<Step>, mid: System, i: nat, o: nat, payload: string)
    requires Path(s, steps, mid) && mid.holder == HasPrepared(i, o, payload)
    ensures Path(s, steps + [ReadBeforeSubmit],
                 mid.(holder := if mid.journal.control.state.Ready? then MaySubmit(i, o, payload) else Free))
  {
    SubmissionPath(s, steps, mid, ReadBeforeSubmit,
                   mid.(holder := if mid.journal.control.state.Ready? then MaySubmit(i, o, payload) else Free));
  }

  lemma BeginPath(s: System, steps: seq<Step>, mid: System, i: nat, o: nat, payload: string)
    requires Path(s, steps, mid) && mid.holder == MaySubmit(i, o, payload)
    ensures Path(s, steps + [Begin], Commit(mid, BeginSubmission(mid.journal, i, o), Begun(i, o, payload), Free))
  {
    SubmissionPath(s, steps, mid, Begin, Commit(mid, BeginSubmission(mid.journal, i, o), Begun(i, o, payload), Free));
  }

  lemma CallPath(s: System, steps: seq<Step>, mid: System, i: nat, o: nat, payload: string)
    requires Path(s, steps, mid) && mid.holder == Begun(i, o, payload)
    ensures Path(s, steps + [CallVenue], mid.(calls := mid.calls + [Call(i, payload)], holder := Called(i, o)))
  {
    SubmissionPath(s, steps, mid, CallVenue, mid.(calls := mid.calls + [Call(i, payload)], holder := Called(i, o)));
  }

  /** The transaction that records an answer. */
  function Finishing(j: Journal, i: nat, o: nat, response: Response, day: int): Result<Journal, Refusal>
    requires i < |j.intents| && j.intents[i].prepared.Some?
  {
    match response
    case Accepted(state, venueId, filled, price, tradeIds) =>
      FinishSubmission(j, i, o, false, state, Some(venueId), filled, price, tradeIds, day)
    case DefiniteRejection => FinishSubmission(j, i, o, false, OrderState.Rejected, None, 0.0, None, [], day)
    case Ambiguous =>
      FinishSubmission(j, i, o, true, OrderState.Unknown, Some(j.intents[i].prepared.value.orderKey), 0.0, None, [], day)
  }

  lemma FinishPath(s: System, steps: seq<Step>, mid: System, i: nat, o: nat, response: Response, day: int)
    requires Path(s, steps, mid) && mid.holder == Called(i, o)
    requires i < |mid.journal.intents| && mid.journal.intents[i].prepared.Some?
    requires response.Accepted? ==> !response.state.Unknown?
    ensures Path(s, steps + [Finish(response, day)],
                 Commit(mid, Finishing(mid.journal, i, o, response, day), if response.Ambiguous? then MustHalt else Free, Free))
  {
    SubmissionPath(s, steps, mid, Finish(response, day),
                   Commit(mid, Finishing(mid.journal, i, o, response, day), if response.Ambiguous? then MustHalt else Free, Free));
  }

  lemma HaltAfterAmbiguityPath(s: System, steps: seq<Step>, mid: System)
    requires Path(s, steps, mid) && mid.holder.MustHalt?
    ensures Path(s, steps + [HaltAfterAmbiguity], mid.(journal := Halt(mid.journal), holder := Free))
  {
    SubmissionPath(s, steps, mid, HaltAfterAmbiguity, mid.(journal := Halt(mid.journal), holder := Free));
  }

  // ---------------------------------------------------------------------------------------------
  // Steps that need no gate
  // ---------------------------------------------------------------------------------------------

  lemma OutsidePath(s: System, steps: seq<Step>, mid: System, step: Step, t: System)
    requires Path(s, steps, mid) && FireOutside(mid, step) == Some(t)
    ensures Path(s, steps + [step], t)
  {
    PathStep(s, steps, mid, step, t);
  }

  /** The process ends: what it had listed is forgotten. */
  lemma CrashPath(s: System, steps: seq<Step>, mid: System)
    requires Path(s, steps, mid)
    ensures Path(s, steps + [Crash], mid.(holder := Down, listed := {}))
  {
    assert FireProcess(mid, Crash) == Some(mid.(holder := Down, listed := {}));
    PathStep(s, steps, mid, Crash, mid.(holder := Down, listed := {}));
  }

  lemma WriteHaltPath(s: System, steps: seq<Step>, mid: System)
    requires Path(s, steps, mid) && !mid.holder.Down?
    ensures Path(s, steps + [WriteHalt], mid.(journal := Halt(mid.journal)))
  {
    OutsidePath(s, steps, mid, WriteHalt, mid.(journal := Halt(mid.journal)));
  }

  lemma ListOpenPath(s: System, steps: seq<Step>, mid: System)
    requires Path(s, steps, mid) && !mid.holder.Down?
    ensures Path(s, steps + [ListOpenOrders], mid.(listed := mid.listed + OpenOrders(mid.journal)))
  {
    OutsidePath(s, steps, mid, ListOpenOrders, mid.(listed := mid.listed + OpenOrders(mid.journal)));
  }

  lemma EndCyclePath(s: System, steps: seq<Step>, mid: System, done: set<nat>)
    requires Path(s, steps, mid) && !mid.holder.Down?
    ensures Path(s, steps + [EndCycle(done)], mid.(listed := mid.listed - done))
  {
    OutsidePath(s, steps, mid, EndCycle(done), mid.(listed := mid.listed - done));
  }

  lemma ProjectPath(s: System, steps: seq<Step>, mid: System, o: nat, seen: Observation, day: int)
    requires Path(s, steps, mid) && !mid.holder.Down? && o in mid.listed && !seen.state.Unknown?
    ensures Path(s, steps + [Project(o, seen, day)], Outside(mid, ReconcileProjection(mid.journal, o, seen, day)))
  {
    OutsidePath(s, steps, mid, Project(o, seen, day), Outside(mid, ReconcileProjection(mid.journal, o, seen, day)));
  }

  lemma TransitionPath(s: System, steps: seq<Step>, mid: System, o: nat, next: OrderState)
    requires Path(s, steps, mid) && !mid.holder.Down? && (next.CancelPending? || next.Terminal())
    ensures Path(s, steps + [Transition(o, next)], Outside(mid, TransitionOrder(mid.journal, o, next)))
  {
    OutsidePath(s, steps, mid, Transition(o, next), Outside(mid, TransitionOrder(mid.journal, o, next)));
  }

  lemma CancelPreparedPath(s: System, steps: seq<Step>, mid: System, o: nat)
    requires Path(s, steps, mid) && !mid.holder.Down?
    ensures Path(s, steps + [CancelPrepared(o)], Outside(mid, CancelPreparedOrder(mid.journal, o)))
  {
    OutsidePath(s, steps, mid, CancelPrepared(o), Outside(mid, CancelPreparedOrder(mid.journal, o)));
  }

  // ---------------------------------------------------------------------------------------------
  // Startup, reconciliation, resume
  // ---------------------------------------------------------------------------------------------

  lemma StartupPath(s: System, steps: seq<Step>, mid: System, step: Step, t: System)
    requires Path(s, steps, mid) && FireStartup(mid, step) == Some(t)
    ensures Path(s, steps + [step], t)
  {
    PathStep(s, steps, mid, step, t);
  }

  lemma ReadPriorPath(s: System, steps: seq<Step>, mid: System)
    requires Path(s, steps, mid) && mid.holder.StartupBegun?
    ensures Path(s, steps + [ReadPriorState], mid.(holder := StartupRead(mid.journal.control.state)))
  {
    StartupPath(s, steps, mid, ReadPriorState, mid.(holder := StartupRead(mid.journal.control.state)));
  }

  lemma EnterPath(s: System, steps: seq<Step>, mid: System, prior: ServiceState)
    requires Path(s, steps, mid) && mid.holder == StartupRead(prior)
    ensures Path(s, steps + [EnterStartup], mid.(journal := Entered(mid.journal, prior), holder := StartupEntered))
  {
    StartupPath(s, steps, mid, EnterStartup, mid.(journal := Entered(mid.journal, prior), holder := StartupEntered));
  }

  lemma RecoverSubmissionsPath(s: System, steps: seq<Step>, mid: System)
    requires Path(s, steps, mid) && mid.holder.StartupEntered?
    ensures Path(s, steps + [RecoverSubmissions],
                 mid.(journal := RecoverInterrupted(mid.journal), holder := StartupRecovered(AnyInterrupted(mid.journal))))
  {
    StartupPath(s, steps, mid, RecoverSubmissions,
                mid.(journal := RecoverInterrupted(mid.journal), holder := StartupRecovered(AnyInterrupted(mid.journal))));
  }

  lemma LatchPath(s: System, steps: seq<Step>, mid: System, interrupted: bool)
    requires Path(s, steps, mid) && mid.holder == StartupRecovered(interrupted)
    ensures Path(s, steps + [LatchInterrupted],
                 mid.(journal := if interrupted then Halt(mid.journal) else mid.journal, holder := StartupLatched))
  {
    StartupPath(s, steps, mid, LatchInterrupted,
                mid.(journal := if interrupted then Halt(mid.journal) else mid.journal, holder := StartupLatched));
  }

  lemma RecoverLocalPath(s: System, steps: seq<Step>, mid: System)
    requires Path(s, steps, mid) && mid.holder.StartupLatched?
    ensures Path(s, steps + [RecoverLocalWork],
                 Commit(mid, RecoverPreSubmission(mid.journal), StartupReconciling(Started), Down))
  {
    StartupPath(s, steps, mid, RecoverLocalWork,
                Commit(mid, RecoverPreSubmission(mid.journal), StartupReconciling(Started), Down));
  }

  lemma ReadFinalPath(s: System, steps: seq<Step>, mid: System)
    requires Path(s, steps, mid) && mid.holder.StartupChecked?
    ensures Path(s, steps + [ReadFinalState],
                 mid.(holder := if mid.journal.control.state.Halted? then Free else StartupCleared))
  {
    StartupPath(s, steps, mid, ReadFinalState,
                mid.(holder := if mid.journal.control.state.Halted? then Free else StartupCleared));
  }

  lemma WriteReadyPath(s: System, steps: seq<Step>, mid: System)
    requires Path(s, steps, mid) && mid.holder.StartupCleared?
    ensures Path(s, steps + [WriteReady], Commit(mid, SetServiceState(mid.journal, Ready, None), Free, Down))
  {
    StartupPath(s, steps, mid, WriteReady, Commit(mid, SetServiceState(mid.journal, Ready, None), Free, Down));
  }

  lemma ReconciliationPath(s: System, steps: seq<Step>, mid: System, step: Step, t: System)
    requires Path(s, steps, mid) && FireReconciliation(mid, step) == Some(t)
    ensures Path(s, steps + [step], t)
  {
    PathStep(s, steps, mid, step, t);
  }

  /** The gate holder inside a reconciliation it runs for `outer`. */
  predicate Inside(holder: Holder, progress: Reconciliation) {
    Progress(holder) == Some(progress)
  }

  lemma ListUnknownPath(s: System, steps: seq<Step>, mid: System)
    requires Path(s, steps, mid) && Inside(mid.holder, Started)
    ensures Path(s, steps + [ListUnknown], mid.(holder := WithProgress(mid.holder, Listed(UnknownOrders(mid.journal), false))))
  {
    ReconciliationPath(s, steps, mid, ListUnknown, mid.(holder := WithProgress(mid.holder, Listed(UnknownOrders(mid.journal), false))));
  }

  lemma SettlePath(s: System, steps: seq<Step>, mid: System, unsettled: set<nat>, findings: bool,
                   o: nat, venueId: string, seen: Observation, day: int)
    requires Path(s, steps, mid) && Inside(mid.holder, Listed(unsettled, findings)) && o in unsettled && !seen.state.Unknown?
    ensures Path(s, steps + [Settle(o, venueId, seen, day)],
                 match ResolveUnknown(mid.journal, o, venueId, seen, day)
                 case Ok(next) => mid.(journal := next, holder := WithProgress(mid.holder, Listed(unsettled - {o}, findings)))
                 case Err(_) => mid.(journal := EnsureHalted(mid.journal), holder := AfterFailure(mid.holder)))
  {
    PathStep(s, steps, mid, Settle(o, venueId, seen, day), FireReconciliation(mid, Settle(o, venueId, seen, day)).value);
  }

  lemma UnsettledPath(s: System, steps: seq<Step>, mid: System, unsettled: set<nat>, findings: bool, o: nat)
    requires Path(s, steps, mid) && Inside(mid.holder, Listed(unsettled, findings)) && o in unsettled
    ensures Path(s, steps + [ReportUnsettled(o)], mid.(holder := WithProgress(mid.holder, Listed(unsettled - {o}, true))))
  {
    ReconciliationPath(s, steps, mid, ReportUnsettled(o), mid.(holder := WithProgress(mid.holder, Listed(unsettled - {o}, true))));
  }

  lemma FindingPath(s: System, steps: seq<Step>, mid: System, unsettled: set<nat>, findings: bool)
    requires Path(s, steps, mid) && Inside(mid.holder, Listed(unsettled, findings))
    ensures Path(s, steps + [ReportFinding], mid.(holder := WithProgress(mid.holder, Listed(unsettled, true))))
  {
    ReconciliationPath(s, steps, mid, ReportFinding, mid.(holder := WithProgress(mid.holder, Listed(unsettled, true))));
  }

  lemma FinishReconciliationPath(s: System, steps: seq<Step>, mid: System, findings: bool)
    requires Path(s, steps, mid) && Inside(mid.holder, Listed({}, findings))
    ensures Path(s, steps + [FinishReconciliation], mid.(holder := WithProgress(mid.holder, Finished(findings))))
  {
    ReconciliationPath(s, steps, mid, FinishReconciliation, mid.(holder := WithProgress(mid.holder, Finished(findings))));
  }

  lemma CloseReconciliationPath(s: System, steps: seq<Step>, mid: System, findings: bool)
    requires Path(s, steps, mid) && Inside(mid.holder, Finished(findings))
    ensures Path(s, steps + [CloseReconciliation],
                 mid.(journal := if findings then Halt(mid.journal) else mid.journal, holder := AfterReconciliation(mid.holder)))
  {
    ReconciliationPath(s, steps, mid, CloseReconciliation,
                       mid.(journal := if findings then Halt(mid.journal) else mid.journal, holder := AfterReconciliation(mid.holder)));
  }

  lemma FailReconciliationPath(s: System, steps: seq<Step>, mid: System)
    requires Path(s, steps, mid) && Progress(mid.holder).Some?
    ensures Path(s, steps + [FailReconciliation], mid.(journal := EnsureHalted(mid.journal), holder := AfterFailure(mid.holder)))
  {
    ReconciliationPath(s, steps, mid, FailReconciliation,
                       mid.(journal := EnsureHalted(mid.journal), holder := AfterFailure(mid.holder)));
  }

  lemma ResumePath(s: System, steps: seq<Step>, mid: System, step: Step, t: System)
    requires Path(s, steps, mid) && FireResume(mid, step) == Some(t)
    ensures Path(s, steps + [step], t)
  {
    PathStep(s, steps, mid, step, t);
  }

  lemma ReadRevisionPath(s: System, steps: seq<Step>, mid: System)
    requires Path(s, steps, mid) && mid.holder.Free?
    ensures Path(s, steps + [ReadRevision],
                 if mid.journal.control.state.Halted? then mid.(holder := ResumeReconciling(mid.journal.control.revision, Started)) else mid)
  {
    ResumePath(s, steps, mid, ReadRevision,
               if mid.journal.control.state.Halted? then mid.(holder := ResumeReconciling(mid.journal.control.revision, Started)) else mid);
  }

  lemma AbandonPath(s: System, steps: seq<Step>, mid: System)
    requires Path(s, steps, mid) && mid.holder.ResumeChecked?
    ensures Path(s, steps + [AbandonResume], mid.(holder := Free))
  {
    ResumePath(s, steps, mid, AbandonResume, mid.(holder := Free));
  }

  lemma CommitResumePath(s: System, steps: seq<Step>, mid: System, revision: nat)
    requires Path(s, steps, mid) && mid.holder == ResumeChecked(revision)
    ensures Path(s, steps + [CommitResume], Commit(mid, SetServiceState(mid.journal, Ready, Some(revision)), Free, Free))
  {
    ResumePath(s, steps, mid, CommitResume, Commit(mid, SetServiceState(mid.journal, Ready, Some(revision)), Free, Free));
  }
}
