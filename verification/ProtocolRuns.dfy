/** Concrete runs from the empty journal on which the stronger readings of the guarantees fail. */
module ProtocolRuns {
  import opened Wrappers
  import opened Domain
  import opened Sums
  import opened Risk
  import opened Journal
  import opened Protocol
  import opened ProtocolTheorems
  import opened CoordinatorPaths

  /** A database with nothing in it, and a position limit of ten. */
  function Policy(): RiskPolicy {
    RiskPolicy({}, {}, {Buy}, {Gtc}, 1000.0, 1000.0, 100, 1000.0, 10.0, 1000.0, 1000.0, 1.0, 0.0)
  }

  function Empty(control: Control): Journal {
    Journal([], [], [], [], control)
  }

  function Boot(control: Control, holder: Holder): System {
    System(Empty(control), holder, {}, [], Policy())
  }

  lemma PathIsRun(s: System, steps: seq<Step>, t: System) returns (states: seq<System>)
    requires Initial(s) && Path(s, steps, t)
    ensures Run(states, steps) && states[0] == s && states[|steps|] == t
  {
    states :| Walk(states, steps) && states[0] == s && states[|steps|] == t;
  }

  // ---------------------------------------------------------------------------------------------
  // Startup over an empty journal
  // ---------------------------------------------------------------------------------------------

  lemma StartPath() returns (steps: seq<Step>)
    ensures Path(Boot(Control(Starting, 0), Down), steps, Boot(Control(Starting, 0), StartupRead(Starting)))
  {
    var s, begun := Boot(Control(Starting, 0), Down), Boot(Control(Starting, 0), StartupBegun);
    EmptyPath(s);
    assert Fire(s, Start) == Some(begun);
    PathStep(s, [], s, Start, begun);
    ReadPriorPath(s, [] + [Start], begun);
    steps := [] + [Start] + [ReadPriorState];
  }

  lemma EnterFrom(s: System, before: seq<Step>, control: Control) returns (steps: seq<Step>)
    requires Path(s, before, Boot(control, StartupRead(Starting)))
    ensures Path(s, steps, Boot(Control(ServiceState.Reconciling, control.revision + 1), StartupEntered))
    ensures before <= steps
  {
    EnterPath(s, before, Boot(control, StartupRead(Starting)), Starting);
    steps := before + [EnterStartup];
  }

  lemma EmptyTables(control: Control)
    ensures RecoverInterrupted(Empty(control)) == Empty(control) && !AnyInterrupted(Empty(control))
    ensures RecoverPreSubmission(Empty(control)) == Ok(Empty(control))
    ensures UnknownOrders(Empty(control)) == {}
  {
    assert RecoverInterrupted(Empty(control)).orders == [] && RecoverInterrupted(Empty(control)).intents == [];
    assert RecoverPreSubmission(Empty(control)).value.intents == [];
  }

  /** From entry to the last look at the control row. */
  lemma CheckFrom(s: System, before: seq<Step>, control: Control) returns (steps: seq<Step>)
    requires Path(s, before, Boot(control, StartupEntered)) && control.state.Reconciling?
    ensures Path(s, steps, Boot(control, StartupCleared)) && before <= steps
  {
    EmptyTables(control);
    RecoverSubmissionsPath(s, before, Boot(control, StartupEntered));
    var two := before + [RecoverSubmissions];
    LatchPath(s, two, Boot(control, StartupRecovered(false)), false);
    var three := two + [LatchInterrupted];
    RecoverLocalPath(s, three, Boot(control, StartupLatched));
    steps := ReconcileFrom(s, three + [RecoverLocalWork], control);
  }

  lemma ReconcileFrom(s: System, before: seq<Step>, control: Control) returns (steps: seq<Step>)
    requires Path(s, before, Boot(control, StartupReconciling(Started))) && control.state.Reconciling?
    ensures Path(s, steps, Boot(control, StartupCleared)) && before <= steps
  {
    EmptyTables(control);
    ListUnknownPath(s, before, Boot(control, StartupReconciling(Started)));
    var two := before + [ListUnknown];
    FinishReconciliationPath(s, two, Boot(control, StartupReconciling(Listed({}, false))), false);
    steps := CloseFrom(s, two + [FinishReconciliation], control);
  }

  lemma CloseFrom(s: System, before: seq<Step>, control: Control) returns (steps: seq<Step>)
    requires Path(s, before, Boot(control, StartupReconciling(Finished(false)))) && control.state.Reconciling?
    ensures Path(s, steps, Boot(control, StartupCleared)) && before <= steps
  {
    CloseReconciliationPath(s, before, Boot(control, StartupReconciling(Finished(false))), false);
    var two := before + [CloseReconciliation];
    ReadFinalPath(s, two, Boot(control, StartupChecked));
    steps := two + [ReadFinalState];
  }

  lemma FinishFrom(s: System, before: seq<Step>, control: Control) returns (steps: seq<Step>)
    requires Path(s, before, Boot(control, StartupCleared))
    ensures Path(s, steps, Boot(Control(Ready, control.revision + 1), Free)) && before <= steps
  {
    WriteReadyPath(s, before, Boot(control, StartupCleared));
    steps := before + [WriteReady];
  }

  /** Both windows of startup lose a halt: the service is HALTED in state `k` and READY at the end, with no resume. */
  lemma EitherWindowLosesAHalt(early: bool) returns (states: seq<System>, steps: seq<Step>, k: nat)
    ensures Run(states, steps) && k < |steps|
    ensures states[k].journal.control.state.Halted? && states[|steps|].journal.control.state.Ready?
    ensures states[k].holder == if early then StartupRead(Starting) else StartupCleared
  {
    var s := Boot(Control(Starting, 0), Down);
    var first := StartPath();
    var second: seq<Step>, halted, ready;
    if early {
      halted := Boot(Control(Halted, 1), StartupRead(Starting));
      WriteHaltPath(s, first, Boot(Control(Starting, 0), StartupRead(Starting)));
      EmptyPath(halted);
      second := EnterFrom(halted, [], Control(Halted, 1));
      second := CheckFrom(halted, second, Control(ServiceState.Reconciling, 2));
      second := FinishFrom(halted, second, Control(ServiceState.Reconciling, 2));
      ready := Boot(Control(Ready, 3), Free);
    } else {
      first := EnterFrom(s, first, Control(Starting, 0));
      first := CheckFrom(s, first, Control(ServiceState.Reconciling, 1));
      halted := Boot(Control(Halted, 2), StartupCleared);
      WriteHaltPath(s, first, Boot(Control(ServiceState.Reconciling, 1), StartupCleared));
      EmptyPath(halted);
      second := FinishFrom(halted, [], Control(Halted, 2));
      ready := Boot(Control(Ready, 3), Free);
    }
    first := first + [WriteHalt];
    var reached := PathIsRun(s, first, halted);
    states := PathExtendsRun(reached, first, second, ready);
    steps, k := first + second, |first|;
    assert states[k] == reached[k];
  }

  // ---------------------------------------------------------------------------------------------
  // A late report
  // ---------------------------------------------------------------------------------------------

  /** Every order of this run: a resting buy of ten shares at one half. */
  function Ask(): Request {
    Request("c", "t", Buy, Gtc, Some(10.0), Some(0.5))
  }

  function Rules(): MarketRules {
    MarketRules(true, false, true, 0.01, 0.0, 0.0)
  }

  function Reserved(state: ReservationState): Option<Reservation> {
    Some(Reservation("c", "t", Buy, 10.0, 5.0, 0.0, state))
  }

  function Plain(state: IntentState): Intent {
    Intent(Ask(), state, None, None)
  }

  function Held(state: IntentState): Intent {
    Intent(Ask(), state, Reserved(Active), None)
  }

  function Sent(state: IntentState, attempt: AttemptState): Intent {
    Intent(Ask(), state, Reserved(Consumed), Some(PreparedOrder("signed", "v", attempt)))
  }

  function Row(venueId: Option<string>, state: OrderState): Order {
    Order(0, venueId, "c", "t", Buy, 0.5, 0.0, 5.0, 10.0, 10.0, state)
  }

  function Tables(intents: seq<Intent>, orders: seq<Order>): Journal {
    Journal(intents, orders, [], [], Control(Ready, 2))
  }

  /** Nothing is counted by the risk queries and nothing was ever traded. */
  predicate Quiet(j: Journal) {
    && j.positions == [] && j.trades == []
    && (forall o | 0 <= o < |j.orders| :: !j.orders[o].state.Active())
    && (forall i | 0 <= i < |j.intents| :: !Reserving(j.intents[i]))
  }

  lemma {:induction false} NoRowCounts<T>(rows: seq<T>, counted: T -> bool)
    requires forall k | 0 <= k < |rows| :: !counted(rows[k])
    ensures CountRows(rows, counted) == 0
  {
    if rows != [] {
      NoRowCounts(rows[..|rows| - 1], counted);
    }
  }

  lemma QuietExposure(j: Journal, weight: Exposure -> real)
    requires Quiet(j)
    ensures Exposed(j, weight) == 0.0
  {
    TotalPrefix(j.orders, 0, OfOrders(weight));
    TotalPrefix(j.intents, 0, OfReservations(weight));
  }

  lemma QuietSnapshot(j: Journal)
    requires Quiet(j)
    ensures SnapshotOf(j, "c", "t", 0) == Ok(RiskSnapshot(0, 0.0, 0.0, 0.0, 0.0, 0.0, 0.0))
  {
    NoRowCounts(j.orders, IsActiveOrder);
    NoRowCounts(j.intents, Reserving);
    QuietExposure(j, MarketNotional("c"));
    QuietExposure(j, Pending("t", Buy));
    QuietExposure(j, Pending("t", Sell));
    QuietExposure(j, BuyGross());
  }

  lemma QuietApproves(j: Journal, i: nat)
    requires Quiet(j) && i < |j.intents| && j.intents[i] == Plain(Validating)
    ensures EvaluateAndReserve(j, i, Policy(), Rules(), OrderBook([], []), 0)
         == Ok((SetIntent(j, i, Held(IntentState.Approved)), Approve))
  {
    QuietSnapshot(j);
    assert ConservativeExposure(Ask(), Rules(), 10.0, 0.5) == Some((10.0, 5.0));
  }

  /** Admission and approval of one more buy while nothing is counted. */
  lemma ReserveFrom(s: System, before: seq<Step>, mid: System) returns (steps: seq<Step>)
    requires Path(s, before, mid) && mid.holder.Free? && mid.journal.control.state.Ready?
    requires mid.policy == Policy() && Quiet(mid.journal) && mid.listed == {}
    ensures Path(s, steps, mid.(journal := mid.journal.(intents := mid.journal.intents + [Held(IntentState.Approved)]),
                                holder := AtApproved(|mid.journal.intents|, 0.0)))
    ensures before <= steps
  {
    var rows, i := mid.journal.intents, |mid.journal.intents|;
    var admitted := mid.(journal := mid.journal.(intents := rows + [Plain(Received)]));
    OutsidePath(s, before, mid, Admit(Ask()), admitted);
    var two := before + [Admit(Ask())];
    TakePath(s, two, admitted, i);
    var three := two + [Take(i)];
    ProceedPath(s, three, admitted.(holder := Taken(i)), i);
    var four := three + [ReadServiceState];
    ValidatePath(s, four, admitted.(holder := MayProceed(i)), i);
    assert (rows + [Plain(Received)])[i := Plain(Validating)] == rows + [Plain(Validating)];
    var checked := mid.(journal := mid.journal.(intents := rows + [Plain(Validating)]), holder := AtValidating(i));
    steps := ApproveFrom(s, four + [Validate], checked, rows);
  }

  lemma ApproveFrom(s: System, before: seq<Step>, mid: System, rows: seq<Intent>) returns (steps: seq<Step>)
    requires Path(s, before, mid) && mid.holder == AtValidating(|rows|) && mid.policy == Policy() && mid.listed == {}
    requires mid.journal.intents == rows + [Plain(Validating)] && Quiet(mid.journal)
    ensures Path(s, steps, mid.(journal := mid.journal.(intents := rows + [Held(IntentState.Approved)]), holder := AtApproved(|rows|, 0.0)))
    ensures before <= steps
  {
    QuietApproves(mid.journal, |rows|);
    EvaluatePath(s, before, mid, |rows|, Rules(), OrderBook([], []), 0);
    assert (rows + [Plain(Validating)])[|rows| := Held(IntentState.Approved)] == rows + [Held(IntentState.Approved)];
    steps := before + [EvaluateRisk(Rules(), OrderBook([], []), 0)];
  }

  /** What preparation, submission and a live answer make of the first approved intent. */
  lemma HandsOver()
    ensures TransitionIntent(Tables([Held(IntentState.Approved)], []), 0, IntentState.Approved, Preparing)
         == Ok(Tables([Held(Preparing)], []))
    ensures CreatePreparedOrder(Tables([Held(Preparing)], []), 0, "signed", "v", 0.0)
         == Ok(Tables([Sent(IntentState.Prepared, AttemptPrepared)], [Row(None, OrderState.Prepared)]))
  {
    assert [Held(IntentState.Approved)][0 := Held(Preparing)] == [Held(Preparing)];
    assert [Held(Preparing)][0 := Sent(IntentState.Prepared, AttemptPrepared)] == [Sent(IntentState.Prepared, AttemptPrepared)];
    assert [] + [Row(None, OrderState.Prepared)] == [Row(None, OrderState.Prepared)];
  }

  lemma Begins()
    ensures BeginSubmission(Tables([Sent(IntentState.Prepared, AttemptPrepared)], [Row(None, OrderState.Prepared)]), 0, 0)
         == Ok(Tables([Sent(IntentState.Submitting, AttemptSubmitting)], [Row(None, OrderState.Submitting)]))
  {
    assert [Sent(IntentState.Prepared, AttemptPrepared)][0 := Sent(IntentState.Submitting, AttemptSubmitting)]
        == [Sent(IntentState.Submitting, AttemptSubmitting)];
    assert [Row(None, OrderState.Prepared)][0 := Row(None, OrderState.Submitting)] == [Row(None, OrderState.Submitting)];
  }

  lemma Rests()
    ensures FinishSubmission(Tables([Sent(IntentState.Submitting, AttemptSubmitting)], [Row(None, OrderState.Submitting)]),
                             0, 0, false, Live, Some("v"), 0.0, None, [], 0)
         == Ok(Tables([Sent(Submitted, AttemptAccepted)], [Row(Some("v"), Live)]))
  {
    assert [Sent(IntentState.Submitting, AttemptSubmitting)][0 := Sent(Submitted, AttemptAccepted)] == [Sent(Submitted, AttemptAccepted)];
    assert [Row(None, OrderState.Submitting)][0 := Row(Some("v"), Live)] == [Row(Some("v"), Live)];
  }

  lemma PrepareFrom(s: System, before: seq<Step>, mid: System) returns (steps: seq<Step>)
    requires Path(s, before, mid) && mid.holder == AtApproved(0, 0.0)
    requires mid.journal == Tables([Held(IntentState.Approved)], [])
    ensures Path(s, steps, mid.(journal := Tables([Sent(IntentState.Prepared, AttemptPrepared)], [Row(None, OrderState.Prepared)]),
                                holder := HasPrepared(0, 0, "signed")))
    ensures before <= steps
  {
    HandsOver();
    MarkPreparingPath(s, before, mid, 0, 0.0);
    var two := before + [MarkPreparing];
    PreparePath(s, two, mid.(journal := Tables([Held(Preparing)], []), holder := AtPreparing(0, 0.0)), 0, 0.0, "signed", "v");
    steps := two + [Prepare("signed", "v")];
  }

  /** The prepared order is submitted and rests at the venue. */
  lemma SubmitFrom(s: System, before: seq<Step>, mid: System) returns (steps: seq<Step>)
    requires Path(s, before, mid) && mid.holder == HasPrepared(0, 0, "signed")
    requires mid.journal == Tables([Sent(IntentState.Prepared, AttemptPrepared)], [Row(None, OrderState.Prepared)])
    ensures Path(s, steps, mid.(journal := Tables([Sent(Submitted, AttemptAccepted)], [Row(Some("v"), Live)]),
                                holder := Free, calls := mid.calls + [Call(0, "signed")]))
    ensures before <= steps
  {
    Begins();
    ReadBeforeSubmitPath(s, before, mid, 0, 0, "signed");
    var two := before + [ReadBeforeSubmit];
    BeginPath(s, two, mid.(holder := MaySubmit(0, 0, "signed")), 0, 0, "signed");
    var three := two + [Begin];
    var begun := mid.(journal := Tables([Sent(IntentState.Submitting, AttemptSubmitting)], [Row(None, OrderState.Submitting)]),
                      holder := Begun(0, 0, "signed"));
    CallPath(s, three, begun, 0, 0, "signed");
    steps := AnswerFrom(s, three + [CallVenue], begun.(holder := Called(0, 0), calls := mid.calls + [Call(0, "signed")]));
  }

  lemma AnswerFrom(s: System, before: seq<Step>, mid: System) returns (steps: seq<Step>)
    requires Path(s, before, mid) && mid.holder == Called(0, 0)
    requires mid.journal == Tables([Sent(IntentState.Submitting, AttemptSubmitting)], [Row(None, OrderState.Submitting)])
    ensures Path(s, steps, mid.(journal := Tables([Sent(Submitted, AttemptAccepted)], [Row(Some("v"), Live)]), holder := Free))
    ensures before <= steps
  {
    Rests();
    var answer := Accepted(Live, "v", 0.0, None, []);
    FinishPath(s, before, mid, 0, 0, answer, 0);
    steps := before + [Finish(answer, 0)];
  }

  /** A cycle reads which orders are open; then the order is cancelled. */
  lemma CancelFrom(s: System, before: seq<Step>, mid: System) returns (steps: seq<Step>)
    requires Path(s, before, mid) && mid.holder.Free?
    requires mid.journal == Tables([Sent(Submitted, AttemptAccepted)], [Row(Some("v"), Live)])
    ensures Path(s, steps, mid.(journal := Tables([Sent(Submitted, AttemptAccepted)], [Row(Some("v"), Cancelled)]),
                                listed := mid.listed + {0}))
    ensures before <= steps
  {
    ListOpenPath(s, before, mid);
    assert OpenOrders(mid.journal) == {0};
    var two, listed := before + [ListOpenOrders], mid.(listed := mid.listed + {0});
    TransitionPath(s, two, listed, 0, CancelPending);
    var three := two + [Transition(0, CancelPending)];
    var pending := listed.(journal := Tables([Sent(Submitted, AttemptAccepted)], [Row(Some("v"), CancelPending)]));
    assert Path(s, three, pending);
    TransitionPath(s, three, pending, 0, Cancelled);
    steps := three + [Transition(0, Cancelled)];
  }

  lemma ReadyFrom() returns (steps: seq<Step>)
    ensures Path(Boot(Control(Starting, 0), Down), steps, Boot(Control(Ready, 2), Free))
  {
    var s := Boot(Control(Starting, 0), Down);
    steps := StartPath();
    steps := EnterFrom(s, steps, Control(Starting, 0));
    steps := CheckFrom(s, steps, Control(ServiceState.Reconciling, 1));
    steps := FinishFrom(s, steps, Control(ServiceState.Reconciling, 1));
  }

  lemma RestingFrom(s: System, before: seq<Step>) returns (steps: seq<Step>)
    requires Path(s, before, Boot(Control(Ready, 2), Free))
    ensures Path(s, steps, System(Tables([Sent(Submitted, AttemptAccepted)], [Row(Some("v"), Live)]),
                                  Free, {}, [Call(0, "signed")], Policy()))
  {
    steps := ReserveFrom(s, before, Boot(Control(Ready, 2), Free));
    steps := PrepareFrom(s, steps, System(Tables([Held(IntentState.Approved)], []), AtApproved(0, 0.0), {}, [], Policy()));
    steps := SubmitFrom(s, steps, System(Tables([Sent(IntentState.Prepared, AttemptPrepared)], [Row(None, OrderState.Prepared)]),
                                         HasPrepared(0, 0, "signed"), {}, [], Policy()));
  }

  /** The report read before the cancellation makes the order live again. */
  lemma Reopens(j: Journal)
    requires j == Tables([Sent(Submitted, AttemptAccepted)], [Row(Some("v"), Cancelled)])
    ensures ReconcileProjection(j, 0, Observation(Live, 10.0, 0.0, None, []), 0) == Ok(j.(orders := [Row(Some("v"), Live)]))
  {
    assert [Row(Some("v"), Cancelled)][0 := Row(Some("v"), Live)] == [Row(Some("v"), Live)];
  }

  /** The buy rests, a reconciliation lists it, and it is cancelled. */
  function Cancelling(): System {
    System(Tables([Sent(Submitted, AttemptAccepted)], [Row(Some("v"), Cancelled)]), Free, {0}, [Call(0, "signed")], Policy())
  }

  lemma CancelledRun() returns (states: seq<System>, steps: seq<Step>)
    ensures Run(states, steps) && states[|steps|] == Cancelling()
  {
    var s := Boot(Control(Starting, 0), Down);
    steps := ReadyFrom();
    steps := RestingFrom(s, steps);
    steps := CancelFrom(s, steps, System(Tables([Sent(Submitted, AttemptAccepted)], [Row(Some("v"), Live)]),
                                         Free, {}, [Call(0, "signed")], Policy()));
    states := PathIsRun(s, steps, Cancelling());
  }

  /**
   A buy of ten rests, a reconciliation lists it, it is cancelled, and the reconciliation then writes what
   it had read of it: the order the journal had closed is live again.
   */
  lemma CancelledOrderReopens() returns (states: seq<System>, steps: seq<Step>, k: nat)
    ensures Run(states, steps) && k < |steps| && steps[k].Project?
    ensures |states[k].journal.orders| == 1 && states[k].journal.orders[0].state.Cancelled?
    ensures |states[k + 1].journal.orders| == 1 && states[k + 1].journal.orders[0].state.Live?
  {
    var others, before := CancelledRun();
    var closed, seen := Cancelling(), Observation(Live, 10.0, 0.0, None, []);
    var reopened := closed.(journal := closed.journal.(orders := [Row(Some("v"), Live)]));
    EmptyPath(closed);
    ProjectPath(closed, [], closed, 0, seen, 0);
    Reopens(closed.journal);
    k, steps := |before|, before + ([] + [Project(0, seen, 0)]);
    states := PathExtendsRun(others, before, [] + [Project(0, seen, 0)], reopened);
    assert states[k] == others[k];
  }
}
