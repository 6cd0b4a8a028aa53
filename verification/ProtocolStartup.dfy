/** When a startup ends READY, and the only ways in which a halt is ever lost. */
module ProtocolStartup {
  import opened Wrappers
  import opened Domain
  import opened Journal
  import opened Protocol
  import opened ProtocolInvariant
  import opened ProtocolTheorems

  /** The service is halted, or will be at its next startup. */
  predicate Latched(control: Control) {
    control.state.Halted? || control.state.ShuttingDown?
  }

  predicate PastEntry(holder: Holder) {
    || holder.StartupEntered? || holder.StartupRecovered? || holder.StartupLatched?
    || holder.StartupReconciling? || holder.StartupChecked? || holder.StartupCleared?
  }

  /** Startup already knows a reason to halt and has not written it yet. */
  predicate Doomed(holder: Holder) {
    match holder
    case StartupRecovered(interrupted) => interrupted
    case StartupReconciling(Listed(_, findings)) => findings
    case StartupReconciling(Finished(findings)) => findings
    case _ => false
  }

  /** What makes a startup come up halted: a halt, interrupted work, an unsettled order or a finding. */
  predicate Cause(s: System, step: Step) {
    || step.WriteHalt?
    || (step.RecoverSubmissions? && AnyInterrupted(s.journal))
    || step.ReportUnsettled? || step.ReportFinding?
  }

  // ---------------------------------------------------------------------------------------------
  // What one step does to the holder and the control row, as far as startup is concerned
  // ---------------------------------------------------------------------------------------------

  predicate SameOrHalted(s: System, step: Step, t: System) {
    t.journal.control == s.journal.control || (step.WriteHalt? && t.journal.control.state.Halted?)
  }

  predicate FollowsRead(s: System, step: Step, t: System) {
    && (t.holder.StartupBegun? ==> s.holder.StartupBegun? || s.holder.Down?)
    && (step.ReadPriorState? ==>
          s.holder.StartupBegun? && t.holder == StartupRead(s.journal.control.state) && t.journal.control == s.journal.control)
    && (t.holder.StartupRead? ==> step.ReadPriorState? || (t.holder == s.holder && SameOrHalted(s, step, t)))
    && (step.EnterStartup? ==>
          && s.holder.StartupRead? && t.holder.StartupEntered?
          && t.journal.control.state == EnteredState(s.journal.control.state, s.holder.prior))
  }

  function EnteredState(current: ServiceState, prior: ServiceState): ServiceState {
    if prior.Halted? then current else if prior.ShuttingDown? then Halted else ServiceState.Reconciling
  }

  predicate FollowsEntry(s: System, step: Step, t: System) {
    && (PastEntry(t.holder) ==> step.EnterStartup? || PastEntry(s.holder))
    && (PastEntry(s.holder) && InStartup(t.holder) ==>
          && PastEntry(t.holder) && !step.EnterStartup?
          && (t.journal.control.state.Halted? || t.journal.control.state == s.journal.control.state)
          && (t.journal.control.state.Halted? || Doomed(t.holder)
              <==> s.journal.control.state.Halted? || Doomed(s.holder) || Cause(s, step)))
  }

  predicate FollowsFinal(s: System, step: Step, t: System) {
    && (step.ReadFinalState? ==>
          && s.holder.StartupChecked? && t.journal.control == s.journal.control
          && t.holder == if s.journal.control.state.Halted? then Free else StartupCleared)
    && (t.holder.StartupCleared? ==> step.ReadFinalState? || (s.holder.StartupCleared? && SameOrHalted(s, step, t)))
    && (s.holder.StartupCleared? && InStartup(t.holder) ==> t.holder.StartupCleared?)
    && (step.WriteReady? ==> s.holder.StartupCleared? && t.journal.control.state.Ready?)
    && (InStartup(s.holder) && t.holder.Free? ==> step.WriteReady? || step.ReadFinalState?)
  }

  /** The steps that can turn a latched control row into one that is not. */
  predicate FollowsLatch(s: System, step: Step, t: System) {
    Latched(s.journal.control) && !Latched(t.journal.control) ==>
      || (step.CommitResume? && t.journal.control.state.Ready?)
      || (step.EnterStartup? && s.holder.StartupRead? && !s.holder.prior.Halted? && !s.holder.prior.ShuttingDown?)
      || (step.WriteReady? && s.holder.StartupCleared?)
  }

  predicate Follows(s: System, step: Step, t: System) {
    FollowsRead(s, step, t) && FollowsEntry(s, step, t) && FollowsFinal(s, step, t) && FollowsLatch(s, step, t)
  }

  lemma ProcessFollows(s: System, step: Step)
    ensures FireProcess(s, step).Some? ==> Follows(s, step, FireProcess(s, step).value)
    ensures FireDrop(s, step).Some? ==> Follows(s, step, FireDrop(s, step).value)
  {
  }

  lemma OutsideFollows(s: System, step: Step)
    requires FireOutside(s, step).Some?
    ensures Follows(s, step, FireOutside(s, step).value)
  {
    OutsideControlIs(s, step);
  }

  lemma OutsideControlIs(s: System, step: Step)
    requires FireOutside(s, step).Some?
    ensures var t := FireOutside(s, step).value;
      && t.holder == s.holder
      && t.journal.control.state == (if step.WriteHalt? then Halted
                                     else if step.WriteShutdown? then ShuttingDown else s.journal.control.state)
      && (!step.WriteHalt? && !step.WriteShutdown? ==> t.journal.control == s.journal.control)
      && (step.WriteShutdown? ==> !InStartup(s.holder))
      && !step.RecoverSubmissions? && !step.ReportUnsettled? && !step.ReportFinding?
      && !step.ReadPriorState? && !step.EnterStartup? && !step.ReadFinalState? && !step.WriteReady?
  {
  }

  lemma StartupFollows(s: System, step: Step)
    requires FireStartup(s, step).Some?
    ensures Follows(s, step, FireStartup(s, step).value)
  {
  }

  lemma ReconciliationFollows(s: System, step: Step)
    requires FireReconciliation(s, step).Some?
    ensures Follows(s, step, FireReconciliation(s, step).value)
  {
    if step.Settle? && ResolveUnknown(s.journal, step.order, step.venueId, step.seen, step.day).Ok? {
      SettleKeepsControl(s.journal, step.order, step.venueId, step.seen, step.day);
    }
  }

  lemma SettleKeepsControl(j: Journal, o: nat, venueId: string, seen: Observation, day: int)
    requires ResolveUnknown(j, o, venueId, seen, day).Ok?
    ensures ResolveUnknown(j, o, venueId, seen, day).value.control == j.control
  {
  }

  lemma ResumeFollows(s: System, step: Step)
    requires FireResume(s, step).Some?
    ensures Follows(s, step, FireResume(s, step).value)
  {
  }

  /** Away from startup nothing above is at stake but the latch. */
  lemma AwayFollows(s: System, step: Step, t: System)
    requires !InStartup(s.holder) && !InStartup(t.holder)
    requires t.journal.control.state.Halted? || t.journal.control.state == s.journal.control.state
    requires !step.ReadPriorState? && !step.EnterStartup? && !step.ReadFinalState? && !step.WriteReady?
    ensures Follows(s, step, t)
  {
  }

  lemma AdmissionFollows(s: System, step: Step)
    requires Inv(s) && FireAdmission(s, step).Some?
    ensures Follows(s, step, FireAdmission(s, step).value)
  {
    AdmissionJournal(s, step);
    AdmissionIsAway(s, step);
    AwayFollows(s, step, FireAdmission(s, step).value);
  }

  lemma AdmissionIsAway(s: System, step: Step)
    ensures FireAdmission(s, step).Some? ==>
      !InStartup(s.holder) && !step.ReadPriorState? && !step.EnterStartup? && !step.ReadFinalState? && !step.WriteReady?
  {
  }

  lemma SubmissionFollows(s: System, step: Step)
    requires Inv(s) && FireSubmission(s, step).Some?
    ensures Follows(s, step, FireSubmission(s, step).value)
  {
    SubmissionControl(s, step);
    SubmissionIsAway(s, step);
    AwayFollows(s, step, FireSubmission(s, step).value);
  }

  lemma SubmissionIsAway(s: System, step: Step)
    ensures FireSubmission(s, step).Some? ==>
      && !InStartup(s.holder) && !InStartup(FireSubmission(s, step).value.holder)
      && !step.ReadPriorState? && !step.EnterStartup? && !step.ReadFinalState? && !step.WriteReady?
  {
  }

  lemma SubmissionControl(s: System, step: Step)
    requires Inv(s) && FireSubmission(s, step).Some?
    ensures var t := FireSubmission(s, step).value;
      t.journal.control.state.Halted? || t.journal.control.state == s.journal.control.state
  {
    if s.holder.AtApproved? || s.holder.AtPreparing? || s.holder.HasPrepared? {
      PreparationJournal(s, step);
    } else if s.holder.Called? {
      FinishKeepsControl(s, step.response, step.day);
    }
  }

  lemma FireFollows(s: System, step: Step)
    requires Inv(s) && Fire(s, step).Some?
    ensures Follows(s, step, Fire(s, step).value)
  {
    ProcessFollows(s, step);
    if FireOutside(s, step).Some? {
      OutsideFollows(s, step);
    }
    if FireStartup(s, step).Some? {
      StartupFollows(s, step);
    }
    if FireReconciliation(s, step).Some? {
      ReconciliationFollows(s, step);
    }
    if FireResume(s, step).Some? {
      ResumeFollows(s, step);
    }
    if FireAdmission(s, step).Some? {
      AdmissionFollows(s, step);
    }
    if FireSubmission(s, step).Some? {
      SubmissionFollows(s, step);
    }
  }

  // ---------------------------------------------------------------------------------------------
  // Whole startups
  // ---------------------------------------------------------------------------------------------

  ghost predicate Trace(states: seq<System>, steps: seq<Step>) {
    && |states| == |steps| + 1 && states[0].holder.Down?
    && forall n | 0 <= n < |steps| :: FollowsAt(states, steps, n)
  }

  predicate FollowsAt(states: seq<System>, steps: seq<Step>, n: nat)
    requires n < |steps| && |states| == |steps| + 1
  {
    Follows(states[n], steps[n], states[n + 1])
  }

  lemma RunIsTrace(states: seq<System>, steps: seq<Step>)
    requires Run(states, steps)
    ensures Trace(states, steps)
  {
    forall n | 0 <= n < |steps| ensures FollowsAt(states, steps, n) {
      StepFollows(states, steps, n);
    }
  }

  lemma StepFollows(states: seq<System>, steps: seq<Step>, n: nat)
    requires Run(states, steps) && n < |steps|
    ensures Follows(states[n], steps[n], states[n + 1])
  {
    StepIsKept(states, steps, n);
    FireFollows(states[n], steps[n]);
  }

  /** The holder is the same from after step `from` up to state `to`. */
  predicate Held(states: seq<System>, from: nat, to: nat, holder: Holder)
    requires to < |states|
  {
    forall n | from < n <= to :: states[n].holder == holder
  }

  /** Inside startup the control row is what was read, RECONCILING, or HALTED. */
  predicate ControlInStartup(s: System) {
    match s.holder
    case StartupRead(prior) => s.journal.control.state == prior || s.journal.control.state.Halted?
    case _ => PastEntry(s.holder) ==> s.journal.control.state.Halted? || s.journal.control.state.Reconciling?
  }

  lemma {:induction false} StartupControl(states: seq<System>, steps: seq<Step>, n: nat)
    requires Trace(states, steps) && n < |states|
    ensures ControlInStartup(states[n])
  {
    if n > 0 {
      StartupControl(states, steps, n - 1);
      assert FollowsAt(states, steps, n - 1);
    }
  }

  /** Where the startup that holds a prior state read it. */
  lemma {:induction false} ReadBegan(states: seq<System>, steps: seq<Step>, m: nat) returns (r: nat)
    requires Trace(states, steps) && m < |states| && states[m].holder.StartupRead?
    ensures r < m && steps[r].ReadPriorState? && Held(states, r, m, states[m].holder)
    ensures states[m].holder == StartupRead(states[r].journal.control.state)
    ensures states[r + 1].journal.control == states[r].journal.control
  {
    assert FollowsAt(states, steps, m - 1);
    if steps[m - 1].ReadPriorState? {
      r := m - 1;
    } else {
      r := ReadBegan(states, steps, m - 1);
    }
  }

  /** Where the startup that has found no halt read the control row for the last time. */
  lemma {:induction false} ClearedBegan(states: seq<System>, steps: seq<Step>, m: nat) returns (f: nat)
    requires Trace(states, steps) && m < |states| && states[m].holder.StartupCleared?
    ensures f < m && steps[f].ReadFinalState? && Held(states, f, m, StartupCleared)
    ensures states[f + 1].journal.control == states[f].journal.control && !states[f].journal.control.state.Halted?
    ensures states[f].holder.StartupChecked?
  {
    assert FollowsAt(states, steps, m - 1);
    if steps[m - 1].ReadFinalState? {
      f := m - 1;
    } else {
      f := ClearedBegan(states, steps, m - 1);
    }
  }

  /** While the holder waits between a read and a write, only a halt latches the control row. */
  lemma {:induction false} HaltBetween(states: seq<System>, steps: seq<Step>, from: nat, to: nat, holder: Holder) returns (h: nat)
    requires Trace(states, steps) && from < to < |states| && Held(states, from, to, holder)
    requires holder.StartupRead? || holder.StartupCleared?
    requires !Latched(states[from + 1].journal.control) && Latched(states[to].journal.control)
    ensures from < h < to && steps[h].WriteHalt?
  {
    assert FollowsAt(states, steps, to - 1);
    if to - 1 > from && Latched(states[to - 1].journal.control) {
      h := HaltBetween(states, steps, from, to - 1, holder);
    } else {
      h := to - 1;
    }
  }

  // ---------------------------------------------------------------------------------------------
  // How a halt is lost
  // ---------------------------------------------------------------------------------------------

  ghost predicate ResumeCommits(states: seq<System>, steps: seq<Step>, m: nat)
    requires m < |steps| && |states| == |steps| + 1
  {
    steps[m].CommitResume? && states[m + 1].journal.control.state.Ready?
  }

  /** A startup that read no halt writes RECONCILING over one committed since that read. */
  ghost predicate LostOnEntry(states: seq<System>, steps: seq<Step>, m: nat)
    requires m < |steps| && |states| == |steps| + 1
  {
    steps[m].EnterStartup?
    && exists r, h | 0 <= r < h < m :: steps[r].ReadPriorState? && steps[h].WriteHalt?
         && !Latched(states[r].journal.control) && Held(states, r, m, StartupRead(states[r].journal.control.state))
  }

  /** A startup that found no halt writes READY over one committed since it looked. */
  ghost predicate LostOnReady(states: seq<System>, steps: seq<Step>, m: nat)
    requires m < |steps| && |states| == |steps| + 1
  {
    steps[m].WriteReady?
    && exists f, h | 0 <= f < h < m :: steps[f].ReadFinalState? && steps[h].WriteHalt? && Held(states, f, m, StartupCleared)
  }

  lemma EntryLoses(states: seq<System>, steps: seq<Step>, m: nat)
    requires Trace(states, steps) && m < |steps| && steps[m].EnterStartup?
    requires Latched(states[m].journal.control) && !Latched(states[m + 1].journal.control)
    ensures LostOnEntry(states, steps, m)
  {
    assert FollowsAt(states, steps, m);
    var r := ReadBegan(states, steps, m);
    var h := HaltBetween(states, steps, r, m, states[m].holder);
    assert steps[r].ReadPriorState? && steps[h].WriteHalt?;
  }

  lemma ReadyLoses(states: seq<System>, steps: seq<Step>, m: nat)
    requires Trace(states, steps) && m < |steps| && steps[m].WriteReady? && Latched(states[m].journal.control)
    ensures LostOnReady(states, steps, m)
  {
    assert FollowsAt(states, steps, m);
    var f := ClearedBegan(states, steps, m);
    StartupControl(states, steps, f);
    var h := HaltBetween(states, steps, f, m, StartupCleared);
    assert steps[f].ReadFinalState? && steps[h].WriteHalt?;
  }

  /**
   A latched control row stops being latched in exactly three ways: a resume commits, or a startup
   overwrites a halt committed in one of its two windows between a read and the write that relies on it.
   */
  lemma HaltIsLostIff(states: seq<System>, steps: seq<Step>, m: nat)
    requires Run(states, steps) && m < |steps| && Latched(states[m].journal.control)
    ensures !Latched(states[m + 1].journal.control)
       <==> ResumeCommits(states, steps, m) || LostOnEntry(states, steps, m) || LostOnReady(states, steps, m)
  {
    RunIsTrace(states, steps);
    TraceLosesIff(states, steps, m);
  }

  lemma TraceLosesIff(states: seq<System>, steps: seq<Step>, m: nat)
    requires Trace(states, steps) && m < |steps| && Latched(states[m].journal.control)
    ensures !Latched(states[m + 1].journal.control)
       <==> ResumeCommits(states, steps, m) || LostOnEntry(states, steps, m) || LostOnReady(states, steps, m)
  {
    assert FollowsAt(states, steps, m);
    if !Latched(states[m + 1].journal.control) {
      if steps[m].EnterStartup? {
        EntryLoses(states, steps, m);
      } else if steps[m].WriteReady? {
        ReadyLoses(states, steps, m);
      }
    }
    if LostOnEntry(states, steps, m) {
      var r, h :| 0 <= r < h < m && steps[r].ReadPriorState? && steps[h].WriteHalt?
        && !Latched(states[r].journal.control) && Held(states, r, m, StartupRead(states[r].journal.control.state));
      assert states[m].holder == StartupRead(states[r].journal.control.state);
    }
  }

  /** Between a halt and any later state that is neither halted nor shutting down lies such a step. */
  lemma ReadyAfterHalt(states: seq<System>, steps: seq<Step>, k: nat, l: nat) returns (m: nat)
    requires Run(states, steps) && k < l < |states|
    requires Latched(states[k].journal.control) && !Latched(states[l].journal.control)
    ensures k <= m < l && Latched(states[m].journal.control)
    ensures ResumeCommits(states, steps, m) || LostOnEntry(states, steps, m) || LostOnReady(states, steps, m)
  {
    RunIsTrace(states, steps);
    m := LastLatched(states, steps, k, l);
    TraceLosesIff(states, steps, m);
  }

  lemma {:induction false} LastLatched(states: seq<System>, steps: seq<Step>, k: nat, l: nat) returns (m: nat)
    requires |states| == |steps| + 1 && k < l < |states|
    requires Latched(states[k].journal.control) && !Latched(states[l].journal.control)
    ensures k <= m < l && Latched(states[m].journal.control) && !Latched(states[m + 1].journal.control)
  {
    if Latched(states[l - 1].journal.control) {
      m := l - 1;
    } else {
      m := LastLatched(states, steps, k, l - 1);
    }
  }

  // ---------------------------------------------------------------------------------------------
  // When a startup ends READY
  // ---------------------------------------------------------------------------------------------

  /** One startup: it reads the prior state at `k`, enters at `e`, looks for a halt at `l`, and goes on to state `n`. */
  ghost predicate Startup(states: seq<System>, steps: seq<Step>, k: nat, e: nat, l: nat, n: nat)
    requires |states| == |steps| + 1
  {
    && k < e < l <= n < |states| && l < |steps|
    && steps[k].ReadPriorState? && steps[e].EnterStartup? && steps[l].ReadFinalState?
    && forall m | k < m <= n :: InStartup(states[m].holder)
  }

  ghost predicate Caused(states: seq<System>, steps: seq<Step>, e: nat, m: nat)
    requires |states| == |steps| + 1 && m < |states|
  {
    exists x | e < x < m :: Cause(states[x], steps[x])
  }

  lemma {:induction false} NotBegunAgain(states: seq<System>, steps: seq<Step>, k: nat, m: nat)
    requires Trace(states, steps) && k < m < |states| && steps[k].ReadPriorState?
    requires forall x | k < x <= m :: InStartup(states[x].holder)
    ensures !states[m].holder.StartupBegun?
  {
    assert FollowsAt(states, steps, m - 1);
    if m - 1 > k {
      NotBegunAgain(states, steps, k, m - 1);
    }
  }

  /** The prior state a startup acts on is the one it read. */
  lemma EntersWithWhatItRead(states: seq<System>, steps: seq<Step>, k: nat, e: nat)
    requires Trace(states, steps) && k < e < |steps| && steps[k].ReadPriorState? && steps[e].EnterStartup?
    requires forall x | k < x <= e :: InStartup(states[x].holder)
    ensures states[e].holder == StartupRead(states[k].journal.control.state)
  {
    assert FollowsAt(states, steps, e) && FollowsAt(states, steps, k);
    var r := ReadBegan(states, steps, e);
    assert FollowsAt(states, steps, r);
    if r > k {
      NotBegunAgain(states, steps, k, r);
    }
    if r < k {
      assert states[k].holder == states[e].holder;
    }
  }

  /** After entry the row is HALTED, or about to be, exactly when it was latched at the read or a cause has come up. */
  lemma {:induction false} EnteredIsDoomedIff(states: seq<System>, steps: seq<Step>, k: nat, e: nat, m: nat)
    requires Trace(states, steps) && k < e < m < |states| && steps[k].ReadPriorState? && steps[e].EnterStartup?
    requires forall x | k < x <= m :: InStartup(states[x].holder)
    ensures PastEntry(states[m].holder)
    ensures states[m].journal.control.state.Halted? || Doomed(states[m].holder)
       <==> Latched(states[k].journal.control) || Caused(states, steps, e, m)
  {
    assert FollowsAt(states, steps, m - 1);
    if m - 1 == e {
      EntersWithWhatItRead(states, steps, k, e);
      StartupControl(states, steps, e);
    } else {
      EnteredIsDoomedIff(states, steps, k, e, m - 1);
      CausedNext(states, steps, e, m);
    }
  }

  lemma CausedNext(states: seq<System>, steps: seq<Step>, e: nat, m: nat)
    requires |states| == |steps| + 1 && e + 1 < m < |states|
    ensures Caused(states, steps, e, m) <==> Caused(states, steps, e, m - 1) || Cause(states[m - 1], steps[m - 1])
  {
  }

  lemma {:induction false} StaysCleared(states: seq<System>, steps: seq<Step>, l: nat, n: nat)
    requires Trace(states, steps) && l < n < |states| && states[l + 1].holder.StartupCleared?
    requires forall x | l < x <= n :: InStartup(states[x].holder)
    ensures states[n].holder.StartupCleared?
  {
    if n > l + 1 {
      StaysCleared(states, steps, l, n - 1);
      assert FollowsAt(states, steps, n - 1);
    }
  }

  /**
   A startup that returns has left the service READY exactly when the state it read first was neither
   HALTED nor SHUTTING_DOWN and, between entering and looking for a halt, none was committed, no
   submission had been interrupted, and reconciliation reported nothing.
   */
  lemma StartupEndsReadyIff(states: seq<System>, steps: seq<Step>, k: nat, e: nat, l: nat, n: nat)
    requires Run(states, steps) && Startup(states, steps, k, e, l, n) && n < |steps| && states[n + 1].holder.Free?
    ensures states[n + 1].journal.control.state.Ready?
       <==> !Latched(states[k].journal.control) && !Caused(states, steps, e, l)
  {
    RunIsTrace(states, steps);
    TraceEndsReadyIff(states, steps, k, e, l, n);
  }

  lemma TraceEndsReadyIff(states: seq<System>, steps: seq<Step>, k: nat, e: nat, l: nat, n: nat)
    requires Trace(states, steps) && Startup(states, steps, k, e, l, n) && n < |steps| && states[n + 1].holder.Free?
    ensures states[n + 1].journal.control.state.Ready?
       <==> !Latched(states[k].journal.control) && !Caused(states, steps, e, l)
  {
    EnteredIsDoomedIff(states, steps, k, e, l);
    assert FollowsAt(states, steps, l) && FollowsAt(states, steps, n);
    StartupControl(states, steps, l);
    if l < n {
      assert InStartup(states[l + 1].holder);
      StaysCleared(states, steps, l, n);
    }
  }
}
