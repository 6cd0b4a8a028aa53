/**
 What the worker makes of one intent (`process_intent_inner`), as a function of the tables it finds and of
 what it is told; and, case by case, what that comes to.
 */
module Worker {
  import opened Wrappers
  import opened Domain
  import opened Sums
  import opened Risk
  import opened Admission
  import opened Journal
  import opened OrderBounds
  import opened RiskEnvelope
  import opened Snapshots
  import opened Protocol
  import opened CoordinatorPaths

  /** The venue's side of one submission: its answer, and whether a rejection also asks for a halt. */
  datatype VenueAnswer = VenueAnswer(response: Response, haltRequired: bool, day: int)

  /** What the worker meets on one intent; None where a call fails or times out. */
  datatype WorkerInputs = WorkerInputs(
    healthy: bool, valid: bool, market: Option<MarketRules>, book: Option<OrderBook>, tradable: bool,
    prepared: Option<(string, string)>, haltRequired: bool, today: int, answer: VenueAnswer)

  datatype Ending = Done | Deferred | Failed

  predicate KnownAnswer(response: Response) {
    response.Accepted? ==> !response.state.Unknown?
  }

  predicate HaltsAfter(answer: VenueAnswer) {
    answer.response.Ambiguous? || (answer.response.DefiniteRejection? && answer.haltRequired)
  }

  /** The answer is in the journal: the order is in the state it implies, and the service HALTED if it calls for that. */
  predicate Answered(j: Journal, o: nat, answer: VenueAnswer) {
    && o < |j.orders|
    && j.orders[o].state == (match answer.response
                             case Accepted(state, _, _, _, _) => state
                             case Ambiguous => OrderState.Unknown
                             case DefiniteRejection => OrderState.Rejected)
    && (HaltsAfter(answer) ==> j.control.state.Halted?)
  }

  /** The tables afterwards, the venue calls made, and how it ended. */
  datatype Course = Course(journal: Journal, calls: seq<Call>, ending: Ending)

  function HaltedIf(j: Journal, halt: bool): Journal {
    if halt then Halt(j) else j
  }

  /** The first order of a prepared intent that `prepared_submission` finds among the first `n`. */
  function FirstPrepared(j: Journal, i: nat, n: nat): Option<nat> {
    if n == 0 then None
    else
      var before := FirstPrepared(j, i, n - 1);
      if before.Some? then before else if PreparedPair(j, i, n - 1) then Some(n - 1) else None
  }

  function Submission(j: Journal, i: nat, o: nat, payload: string, answer: VenueAnswer): Course
    requires i < |j.intents| && j.intents[i].prepared.Some?
  {
    if !j.control.state.Ready? then Course(j, [], Deferred)
    else
      match BeginSubmission(j, i, o)
      case Err(_) => Course(j, [], Failed)
      case Ok(begun) =>
        match Finishing(begun, i, o, answer.response, answer.day)
        case Err(_) => Course(begun, [Call(i, payload)], Failed)
        case Ok(done) => Course(HaltedIf(done, HaltsAfter(answer)), [Call(i, payload)], Done)
  }

  /** A state change of the intent that ends its processing. */
  function Rejection(j: Journal, i: nat, from: IntentState, halt: bool): Course {
    match TransitionIntent(j, i, from, IntentState.Rejected)
    case Err(_) => Course(j, [], Failed)
    case Ok(next) => Course(HaltedIf(next, halt), [], Done)
  }

  function Persisting(j: Journal, i: nat, fee: real, prepared: (string, string), answer: VenueAnswer): Course
    requires i < |j.intents|
  {
    match CreatePreparedOrder(j, i, prepared.0, prepared.1, fee)
    case Err(_) => Course(j, [], Failed)
    case Ok(next) => Submission(next, i, |j.orders|, prepared.0, answer)
  }

  function Unprepared(j: Journal, i: nat, halt: bool): Course
    requires i < |j.intents|
  {
    match RejectPreparation(j, i)
    case Err(_) => Course(j, [], Failed)
    case Ok(next) => Course(HaltedIf(next, halt), [], Done)
  }

  function Preparation(j: Journal, i: nat, fee: real, inputs: WorkerInputs): Course
    requires i < |j.intents|
  {
    match TransitionIntent(j, i, IntentState.Approved, IntentState.Preparing)
    case Err(_) => Course(j, [], Failed)
    case Ok(next) =>
      if inputs.prepared.None? then Unprepared(next, i, inputs.haltRequired)
      else Persisting(next, i, fee, inputs.prepared.value, inputs.answer)
  }

  function Validation(j: Journal, policy: RiskPolicy, i: nat, inputs: WorkerInputs): Course
    requires i < |j.intents|
  {
    if !inputs.valid then Rejection(j, i, IntentState.Validating, false)
    else if inputs.market.None? || inputs.book.None? then Rejection(j, i, IntentState.Validating, inputs.haltRequired)
    else if !inputs.tradable then Rejection(j, i, IntentState.Validating, false)
    else
      match EvaluateAndReserve(j, i, policy, inputs.market.value, inputs.book.value, inputs.today)
      case Err(_) => Course(j, [], Failed)
      case Ok((next, decision)) =>
        if decision.Refuse? then Course(next, [], Done)
        else Preparation(next, i, inputs.market.value.LargerFee(), inputs)
  }

  function Processing(j: Journal, policy: RiskPolicy, i: nat, inputs: WorkerInputs): Course
    requires i < |j.intents|
  {
    if j.intents[i].state.Prepared? then
      match FirstPrepared(j, i, |j.orders|)
      case None => Course(j, [], Failed)
      case Some(o) =>
        if j.intents[i].prepared.None? then Course(j, [], Failed)
        else Submission(j, i, o, j.intents[i].prepared.value.payload, inputs.answer)
    else
      match TransitionIntent(j, i, IntentState.Received, IntentState.Validating)
      case Err(_) => Course(j, [], Failed)
      case Ok(next) => Validation(next, policy, i, inputs)
  }

  function Processed(j: Journal, policy: RiskPolicy, i: nat, inputs: WorkerInputs): Course
    requires i < |j.intents|
  {
    if inputs.healthy && j.control.state.Ready? then Processing(j, policy, i, inputs)
    else
      var next := HaltedIf(j, !inputs.healthy);
      match TransitionIntent(next, i, IntentState.Received, IntentState.Rejected)
      case Err(_) => Course(next, [], Failed)
      case Ok(rejected) => Course(rejected, [], Done)
  }

  lemma {:induction false} FirstPreparedFinds(j: Journal, i: nat, n: nat)
    ensures FirstPrepared(j, i, n).Some? ==> FirstPrepared(j, i, n).value < n && PreparedPair(j, i, FirstPrepared(j, i, n).value)
    ensures FirstPrepared(j, i, n).None? ==> forall o: nat | o < n :: !PreparedPair(j, i, o)
  {
    if n > 0 {
      FirstPreparedFinds(j, i, n - 1);
    }
  }

  /** The deferred list with one more intent, once. */
  function Keeping(deferred: seq<nat>, i: nat): seq<nat> {
    if i in deferred then deferred else deferred + [i]
  }

  /** The worker ended like this, from `calls` and `deferred`: a deferred intent is kept for later, no other. */
  predicate Took(course: Course, i: nat, calls: seq<Call>, deferred: seq<nat>,
                 j: Journal, callsNow: seq<Call>, deferredNow: seq<nat>, ending: Ending)
  {
    && j == course.journal && callsNow == calls + course.calls && ending == course.ending
    && deferredNow == if ending.Deferred? then Keeping(deferred, i) else deferred
  }

  lemma {:induction false} FirstPreparedStays(j: Journal, i: nat, n: nat, m: nat)
    requires n <= m && FirstPrepared(j, i, n).Some?
    ensures FirstPrepared(j, i, m) == FirstPrepared(j, i, n)
  {
    if n < m {
      FirstPreparedStays(j, i, n, m - 1);
    }
  }

  // ---------------------------------------------------------------------------------------------
  // The venue's answer
  // ---------------------------------------------------------------------------------------------

  /** The journal's checks of an answer: an accepted one must fit the order's quantity. */
  predicate Plausible(original: real, response: Response) {
    response.Accepted? ==>
      && !response.state.Prepared? && !response.state.Submitting? && !response.state.CancelPending?
      && 0.0 <= response.filled <= original
      && (response.state.Live? || response.state.PartiallyFilled? ==> response.filled < original)
      && (response.state.PartiallyFilled? ==> response.filled > 0.0)
      && (response.state.Rejected? ==> response.filled == 0.0)
      && (response.filled > 0.0 ==> response.price.Some? && 0.0 < response.price.value < 1.0)
  }

  /** Only order `o` is rewritten, and it keeps its terms. */
  predicate OnlyOrder(a: Journal, b: Journal, o: nat) {
    && |b.orders| == |a.orders| && |b.intents| == |a.intents| && o < |a.orders|
    && SameTerms(a.orders[o], b.orders[o])
    && forall k | 0 <= k < |a.orders| && k != o :: b.orders[k] == a.orders[k]
  }

  lemma AnswerIsTakenIff(j: Journal, i: nat, o: nat, answer: VenueAnswer)
    requires i < |j.intents| && j.intents[i].state.Submitting? && j.intents[i].prepared.Some? && KnownAnswer(answer.response)
    requires o < |j.orders| && j.orders[o].intent == i && j.orders[o].state.Submitting? && j.orders[o].original > 0.0
    ensures var result := Finishing(j, i, o, answer.response, answer.day);
      && (result.Ok? <==> Plausible(j.orders[o].original, answer.response))
      && (result.Ok? ==>
            var next := HaltedIf(result.value, HaltsAfter(answer));
            && Answered(next, o, answer) && OnlyOrder(j, next, o)
            && (if answer.response.Ambiguous? then next.intents[i].state.Unknown? else next.intents[i].state.Submitted?)
            && next.control == if HaltsAfter(answer) then Control(Halted, j.control.revision + 1) else j.control)
  {
  }

  /** A prepared pair that is submitted while READY: one venue call, and an answer recorded exactly when it is plausible. */
  ghost predicate Sent(j: Journal, i: nat, o: nat, payload: string, answer: VenueAnswer, c: Course) {
    && c.calls == [Call(i, payload)] && OnlyOrder(j, c.journal, o) && i < |j.intents|
    && (if Plausible(j.orders[o].original, answer.response)
        then c.ending.Done? && Answered(c.journal, o, answer)
             && (if answer.response.Ambiguous? then c.journal.intents[i].state.Unknown? else c.journal.intents[i].state.Submitted?)
             && c.journal.control == if HaltsAfter(answer) then Control(Halted, j.control.revision + 1) else j.control
        else c.ending.Failed? && c.journal.orders[o].state.Submitting? && c.journal.intents[i].state.Submitting?
             && c.journal.control == j.control)
  }

  lemma PreparedPairIsSubmitted(j: Journal, i: nat, o: nat, payload: string, answer: VenueAnswer)
    requires j.control.state.Ready? && PreparedPair(j, i, o) && j.intents[i].state.Prepared?
    requires j.orders[o].original > 0.0 && KnownAnswer(answer.response)
    ensures Sent(j, i, o, payload, answer, Submission(j, i, o, payload, answer))
  {
    var begun := BeginSubmission(j, i, o).value;
    AnswerIsTakenIff(begun, i, o, answer);
  }

  /** A prepared order is put off exactly while the service is not READY; nothing is written or sent, and the intent is kept once. */
  lemma DeferredIsKept(j: Journal, i: nat, o: nat, payload: string, answer: VenueAnswer, deferred: seq<nat>)
    requires i < |j.intents| && j.intents[i].prepared.Some?
    ensures var c := Submission(j, i, o, payload, answer);
      && (c.ending.Deferred? <==> !j.control.state.Ready?)
      && (c.ending.Deferred? ==> c.journal == j && c.calls == [])
    ensures forall k :: k in Keeping(deferred, i) <==> k in deferred || k == i
    ensures deferred <= Keeping(deferred, i) && |Keeping(deferred, i)| <= |deferred| + 1
    ensures i in deferred ==> Keeping(deferred, i) == deferred
  {
  }

  // ---------------------------------------------------------------------------------------------
  // The risk decision
  // ---------------------------------------------------------------------------------------------

  /** The reservation an admitted request is given: its worst case, with the larger of the market's fees. */
  function Reserved(request: Request, market: MarketRules): Reservation
    requires request.quantity.Some? && request.price.Some?
    requires request.side.Buy? && request.Immediate() ==> market.tickSize > 0.0
  {
    Reservation(request.conditionId, request.tokenId, request.side, WorstShares(request, market), WorstQuote(request),
                if market.makerFeeRate >= market.takerFeeRate then market.makerFeeRate else market.takerFeeRate, Active)
  }

  ghost predicate Admitted(policy: RiskPolicy, request: Request, market: MarketRules, book: OrderBook, snapshot: RiskSnapshot) {
    && Tradable(policy, request, market)
    && Affordable(policy, request, market, snapshot)
    && (request.Immediate() ==> Visible(policy, request.side, request.price.value, book))
  }

  /** A decision on an intent being validated: rejected, approved with its reservation, or refused for a second reservation. */
  lemma DecisionOn(j: Journal, i: nat, policy: RiskPolicy, market: MarketRules, book: OrderBook, today: int)
    requires i < |j.intents| && j.intents[i].state.Validating?
    ensures var request := j.intents[i].request;
      var after := EvaluateAndReserve(j, i, policy, market, book, today);
      match SnapshotOf(j, request.conditionId, request.tokenId, today)
      case Err(error) => after == Err(error)
      case Ok(snapshot) =>
        if !Admitted(policy, request, market, book, snapshot) then
          after.Ok? && after.value.1.Refuse?
          && after.value.0 == j.(intents := j.intents[i := j.intents[i].(state := IntentState.Rejected)])
        else if j.intents[i].reservation.Some? then after == Err(UniqueViolation)
        else
          after.Ok? && after.value.1.Approve?
          && after.value.0 == j.(intents := j.intents[i := j.intents[i].(state := IntentState.Approved,
                                                                         reservation := Some(Reserved(request, market)))])
  {
    var request := j.intents[i].request;
    var snapshot := SnapshotOf(j, request.conditionId, request.tokenId, today);
    if snapshot.Ok? {
      ApprovedIff(policy, request, market, book, snapshot.value);
    }
  }

  /** Beginning to validate does not change what the policy will see. */
  lemma ValidatingKeepsSnapshot(j: Journal, i: nat, conditionId: string, tokenId: string, today: int)
    requires i < |j.intents| && j.intents[i].state.Received?
    ensures SnapshotOf(TransitionIntent(j, i, IntentState.Received, IntentState.Validating).value, conditionId, tokenId, today)
         == SnapshotOf(j, conditionId, tokenId, today)
  {
    var b := TransitionIntent(j, i, IntentState.Received, IntentState.Validating).value;
    RestateConservesExposure(j, b);
    SameExposureSameSnapshot(j, b, conditionId, tokenId, today);
  }

  // ---------------------------------------------------------------------------------------------
  // What it comes to
  // ---------------------------------------------------------------------------------------------

  /** Only the row of intent `i` changes, to `row`; nothing is sent. */
  predicate EndsWith(j: Journal, i: nat, row: Intent, halt: bool, ending: Ending, c: Course)
    requires i < |j.intents|
  {
    && c.calls == [] && c.ending == ending
    && c.journal == j.(intents := j.intents[i := row],
                       control := if halt then Control(Halted, j.control.revision + 1) else j.control)
  }

  /** While the service is not READY or not healthy no intent gets any further: a RECEIVED one is rejected. */
  lemma NotReadyIsRejected(j: Journal, policy: RiskPolicy, i: nat, inputs: WorkerInputs)
    requires i < |j.intents| && !(inputs.healthy && j.control.state.Ready?)
    ensures if j.intents[i].state.Received?
            then EndsWith(j, i, j.intents[i].(state := IntentState.Rejected), !inputs.healthy, Done, Processed(j, policy, i, inputs))
            else EndsWith(j, i, j.intents[i], !inputs.healthy, Failed, Processed(j, policy, i, inputs))
  {
    assert j.intents[i := j.intents[i]] == j.intents;
  }

  /** What the venue knows of the market is there and fits the request. */
  predicate Offered(inputs: WorkerInputs) {
    inputs.valid && inputs.market.Some? && inputs.book.Some? && inputs.tradable
  }

  /** A request that is invalid, or whose market data are missing or do not fit, is rejected; a venue error may also halt. */
  lemma UnofferedIsRejected(j: Journal, policy: RiskPolicy, i: nat, inputs: WorkerInputs)
    requires i < |j.intents| && inputs.healthy && j.control.state.Ready? && j.intents[i].state.Received? && !Offered(inputs)
    ensures EndsWith(j, i, j.intents[i].(state := IntentState.Rejected),
                     inputs.valid && (inputs.market.None? || inputs.book.None?) && inputs.haltRequired, Done,
                     Processed(j, policy, i, inputs))
  {
    Twice(j.intents, i, j.intents[i].(state := IntentState.Validating), j.intents[i].(state := IntentState.Rejected));
  }

  lemma Twice<T>(rows: seq<T>, k: nat, first: T, second: T)
    requires k < |rows|
    ensures rows[k := first][k := second] == rows[k := second]
  {
  }

  /** The risk policy sees the tables as the worker found them; an intent it does not admit is rejected. */
  lemma UnadmittedIsRejected(j: Journal, policy: RiskPolicy, i: nat, inputs: WorkerInputs)
    requires i < |j.intents| && inputs.healthy && j.control.state.Ready? && j.intents[i].state.Received? && Offered(inputs)
    requires var request := j.intents[i].request;
      && SnapshotOf(j, request.conditionId, request.tokenId, inputs.today).Ok?
      && !Admitted(policy, request, inputs.market.value, inputs.book.value,
                   SnapshotOf(j, request.conditionId, request.tokenId, inputs.today).value)
    ensures EndsWith(j, i, j.intents[i].(state := IntentState.Rejected), false, Done, Processed(j, policy, i, inputs))
  {
    var request := j.intents[i].request;
    var next := TransitionIntent(j, i, IntentState.Received, IntentState.Validating).value;
    ValidatingKeepsSnapshot(j, i, request.conditionId, request.tokenId, inputs.today);
    DecisionOn(next, i, policy, inputs.market.value, inputs.book.value, inputs.today);
    Twice(j.intents, i, j.intents[i].(state := IntentState.Validating), j.intents[i].(state := IntentState.Rejected));
  }

  /** An intent whose tables cannot be valued, or that has a reservation row already, is left being validated. */
  lemma UndecidedIsLeft(j: Journal, policy: RiskPolicy, i: nat, inputs: WorkerInputs)
    requires i < |j.intents| && inputs.healthy && j.control.state.Ready? && j.intents[i].state.Received? && Offered(inputs)
    requires var request := j.intents[i].request;
      var snapshot := SnapshotOf(j, request.conditionId, request.tokenId, inputs.today);
      snapshot.Ok? ==> Admitted(policy, request, inputs.market.value, inputs.book.value, snapshot.value)
                       && j.intents[i].reservation.Some?
    ensures EndsWith(j, i, j.intents[i].(state := IntentState.Validating), false, Failed, Processed(j, policy, i, inputs))
  {
    var request := j.intents[i].request;
    var next := TransitionIntent(j, i, IntentState.Received, IntentState.Validating).value;
    ValidatingKeepsSnapshot(j, i, request.conditionId, request.tokenId, inputs.today);
    DecisionOn(next, i, policy, inputs.market.value, inputs.book.value, inputs.today);
  }

  /** The worker gets as far as the venue's `prepare`: the request is admitted on the tables it finds. */
  ghost predicate Cleared(j: Journal, policy: RiskPolicy, i: nat, inputs: WorkerInputs)
    requires i < |j.intents|
  {
    var request := j.intents[i].request;
    var snapshot := SnapshotOf(j, request.conditionId, request.tokenId, inputs.today);
    && inputs.healthy && j.control.state.Ready? && j.intents[i].state.Received? && j.intents[i].reservation.None?
    && Offered(inputs)
    && snapshot.Ok? && Admitted(policy, request, inputs.market.value, inputs.book.value, snapshot.value)
  }

  lemma ClearedIsApproved(j: Journal, policy: RiskPolicy, i: nat, inputs: WorkerInputs)
    requires i < |j.intents| && Cleared(j, policy, i, inputs)
    ensures var request, market := j.intents[i].request, inputs.market.value;
      && Tradable(policy, request, market)
      && var row := j.intents[i].(state := IntentState.Approved, reservation := Some(Reserved(request, market)));
      Processed(j, policy, i, inputs) == Preparation(j.(intents := j.intents[i := row]), i, market.LargerFee(), inputs)
  {
    var request := j.intents[i].request;
    var next := TransitionIntent(j, i, IntentState.Received, IntentState.Validating).value;
    ValidatingKeepsSnapshot(j, i, request.conditionId, request.tokenId, inputs.today);
    DecisionOn(next, i, policy, inputs.market.value, inputs.book.value, inputs.today);
    var row := j.intents[i].(state := IntentState.Approved, reservation := Some(Reserved(request, inputs.market.value)));
    Twice(j.intents, i, j.intents[i].(state := IntentState.Validating), row);
  }

  /** If the venue cannot prepare it, an admitted intent is rejected, and what was reserved for it is released. */
  lemma UnpreparedIsReleased(j: Journal, policy: RiskPolicy, i: nat, inputs: WorkerInputs)
    requires i < |j.intents| && Cleared(j, policy, i, inputs) && inputs.prepared.None?
    ensures var request, market := j.intents[i].request, inputs.market.value;
      && Tradable(policy, request, market)
      && EndsWith(j, i, j.intents[i].(state := IntentState.Rejected,
                                      reservation := Some(Reserved(request, market).(state := Released))),
                  inputs.haltRequired, Done, Processed(j, policy, i, inputs))
  {
    ClearedIsApproved(j, policy, i, inputs);
    var approved := j.intents[i].(state := IntentState.Approved, reservation := Some(Reserved(j.intents[i].request, inputs.market.value)));
    var preparing := approved.(state := IntentState.Preparing);
    var rejected := preparing.(state := IntentState.Rejected, reservation := Some(approved.reservation.value.(state := Released)));
    Twice(j.intents, i, approved, preparing);
    Twice(j.intents, i, preparing, rejected);
  }

  /** The tables when the signed order of an admitted request is in them. */
  ghost function Persisted(j: Journal, i: nat, prepared: (string, string), market: MarketRules): Journal
    requires i < |j.intents|
    requires j.intents[i].request.quantity.Some? && j.intents[i].request.price.Some?
    requires j.intents[i].request.side.Buy? && j.intents[i].request.Immediate() ==> market.tickSize > 0.0
  {
    var request := j.intents[i].request;
    var r := Reserved(request, market);
    j.(intents := j.intents[i := j.intents[i].(
         state := IntentState.Prepared, reservation := Some(r.(state := Consumed)),
         prepared := Some(PreparedOrder(prepared.0, prepared.1, AttemptPrepared)))],
       orders := j.orders + [Order(i, None, request.conditionId, request.tokenId, request.side, request.price.value,
                                   r.feeRate, r.quoteExposure, r.quantity, r.quantity, OrderState.Prepared)])
  }

  lemma ClearedIsPersisted(j: Journal, policy: RiskPolicy, i: nat, inputs: WorkerInputs)
    requires i < |j.intents| && Cleared(j, policy, i, inputs) && inputs.prepared.Some?
    ensures Tradable(policy, j.intents[i].request, inputs.market.value)
    ensures Processed(j, policy, i, inputs)
         == Submission(Persisted(j, i, inputs.prepared.value, inputs.market.value), i, |j.orders|, inputs.prepared.value.0, inputs.answer)
  {
    ClearedIsApproved(j, policy, i, inputs);
    var request := j.intents[i].request;
    var approved := j.intents[i].(state := IntentState.Approved, reservation := Some(Reserved(request, inputs.market.value)));
    var preparing := approved.(state := IntentState.Preparing);
    var persisted := Persisted(j, i, inputs.prepared.value, inputs.market.value);
    Twice(j.intents, i, approved, preparing);
    Twice(j.intents, i, preparing, persisted.intents[i]);
  }

  /** An admitted intent that the venue prepares is persisted with its reservation consumed, and sent once. */
  lemma AdmittedIsSent(j: Journal, policy: RiskPolicy, i: nat, inputs: WorkerInputs)
    requires i < |j.intents| && Cleared(j, policy, i, inputs) && inputs.prepared.Some? && KnownAnswer(inputs.answer.response)
    ensures Tradable(policy, j.intents[i].request, inputs.market.value)
    ensures Sent(Persisted(j, i, inputs.prepared.value, inputs.market.value), i, |j.orders|, inputs.prepared.value.0, inputs.answer,
                 Processed(j, policy, i, inputs))
  {
    ClearedIsPersisted(j, policy, i, inputs);
    var persisted := Persisted(j, i, inputs.prepared.value, inputs.market.value);
    WorstIsPositive(policy, j.intents[i].request, inputs.market.value);
    PreparedPairIsSubmitted(persisted, i, |j.orders|, inputs.prepared.value.0, inputs.answer);
  }

  lemma WorstIsPositive(policy: RiskPolicy, request: Request, market: MarketRules)
    requires Tradable(policy, request, market)
    ensures WorstShares(request, market) > 0.0
  {
  }

  /** A PREPARED intent is sent with the payload stored for it, if its prepared order is still there. */
  lemma PreparedIsSent(j: Journal, policy: RiskPolicy, i: nat, inputs: WorkerInputs)
    requires i < |j.intents| && inputs.healthy && j.control.state.Ready? && j.intents[i].state.Prepared?
    requires KnownAnswer(inputs.answer.response) && forall o | 0 <= o < |j.orders| :: j.orders[o].original > 0.0
    ensures var c := Processed(j, policy, i, inputs);
      if exists o: nat :: PreparedPair(j, i, o)
      then exists o: nat :: PreparedPair(j, i, o) && Sent(j, i, o, j.intents[i].prepared.value.payload, inputs.answer, c)
      else EndsWith(j, i, j.intents[i], false, Failed, c)
  {
    FirstPreparedFinds(j, i, |j.orders|);
    match FirstPrepared(j, i, |j.orders|) {
      case Some(o) =>
        PreparedPairIsSubmitted(j, i, o, j.intents[i].prepared.value.payload, inputs.answer);
      case None =>
        assert j.intents[i := j.intents[i]] == j.intents;
    }
  }

  /** In any other state the intent is left alone. */
  lemma OthersAreLeft(j: Journal, policy: RiskPolicy, i: nat, inputs: WorkerInputs)
    requires i < |j.intents| && inputs.healthy && j.control.state.Ready?
    requires !j.intents[i].state.Received? && !j.intents[i].state.Prepared?
    ensures EndsWith(j, i, j.intents[i], false, Failed, Processed(j, policy, i, inputs))
  {
    assert j.intents[i := j.intents[i]] == j.intents;
  }

  /**
   The venue is called exactly for an intent admitted on the tables as found and then prepared, and for one
   found PREPARED with its order; always in READY and good health, and never more than once.
   */
  lemma IntentIsSentIff(j: Journal, policy: RiskPolicy, i: nat, inputs: WorkerInputs)
    requires i < |j.intents| && KnownAnswer(inputs.answer.response)
    requires forall o | 0 <= o < |j.orders| :: j.orders[o].original > 0.0
    ensures var c := Processed(j, policy, i, inputs);
      && |c.calls| <= 1
      && (c.calls != [] <==>
            || (Cleared(j, policy, i, inputs) && inputs.prepared.Some?)
            || (inputs.healthy && j.control.state.Ready? && j.intents[i].state.Prepared? && exists o: nat :: PreparedPair(j, i, o)))
  {
    var request := j.intents[i].request;
    if !(inputs.healthy && j.control.state.Ready?) {
      NotReadyIsRejected(j, policy, i, inputs);
    } else if j.intents[i].state.Prepared? {
      PreparedIsSent(j, policy, i, inputs);
    } else if !j.intents[i].state.Received? {
      OthersAreLeft(j, policy, i, inputs);
    } else if !Offered(inputs) {
      UnofferedIsRejected(j, policy, i, inputs);
    } else if Cleared(j, policy, i, inputs) {
      if inputs.prepared.Some? {
        AdmittedIsSent(j, policy, i, inputs);
      } else {
        UnpreparedIsReleased(j, policy, i, inputs);
      }
    } else if SnapshotOf(j, request.conditionId, request.tokenId, inputs.today).Ok?
           && !Admitted(policy, request, inputs.market.value, inputs.book.value,
                        SnapshotOf(j, request.conditionId, request.tokenId, inputs.today).value) {
      UnadmittedIsRejected(j, policy, i, inputs);
    } else {
      UndecidedIsLeft(j, policy, i, inputs);
    }
  }

  /**
   From the request to the venue: a request is taken exactly in READY, and if the policy admits it on the
   tables as they were before it came, the worker sends it.
   */
  lemma TakenRequestIsSent(j: Journal, request: Request, policy: RiskPolicy, inputs: WorkerInputs)
    ensures AdmitIntent(j, request).Ok? <==> j.control.state.Ready?
    ensures
      var snapshot := SnapshotOf(j, request.conditionId, request.tokenId, inputs.today);
      && j.control.state.Ready? && inputs.healthy && Offered(inputs) && inputs.prepared.Some? && KnownAnswer(inputs.answer.response)
      && snapshot.Ok? && Admitted(policy, request, inputs.market.value, inputs.book.value, snapshot.value)
      ==>
        var next := AdmitIntent(j, request).value;
        var i := |j.intents|;
        && |next.intents| == i + 1 && next.intents[..i] == j.intents && next.intents[i].request == request
        && next.orders == j.orders
        && Processed(next, policy, i, inputs).calls == [Call(i, inputs.prepared.value.0)]
        && |Processed(next, policy, i, inputs).journal.orders| == |j.orders| + 1
  {
    var snapshot := SnapshotOf(j, request.conditionId, request.tokenId, inputs.today);
    if j.control.state.Ready? && inputs.healthy && Offered(inputs) && inputs.prepared.Some? && KnownAnswer(inputs.answer.response)
       && snapshot.Ok? && Admitted(policy, request, inputs.market.value, inputs.book.value, snapshot.value) {
      var next := AdmitIntent(j, request).value;
      PlainIntentRaisesNothing(j, next.intents[|j.intents|], request.conditionId, request.tokenId, inputs.today);
      AdmittedIsSent(next, policy, |j.intents|, inputs);
    }
  }
}
