# The execution journal and the paper exchange, verified

This project models how oddsfox takes an order intent to a venue exactly once, how its risk limits
survive everything that can happen to an order afterwards, and how the paper exchange it can trade
against keeps its books. Three smaller concurrent pieces are included: the handoff of the event stream
from replay to live flow, the live book cache, and the admission rate limiter.

`dafny verify dfyconfig.toml` checks the whole project.

## How it is laid out

The durable journal is modelled twice. Module `Journal` has its tables as values and each transaction as
a function that returns the committed tables or a refusal; class `Store.JournalStore` has them as mutable
fields and each transaction as a method that updates rows step by step and rolls back on a failed check.
Every method is proved to do exactly what its function says, and everything else is proved about the
functions. The paper exchange is built the same way: `PaperLedger` and class `PaperExchange.PaperTables`.

| files | what they hold |
|---|---|
| Wrappers, Sums, Domain | options and results, sums over rows, the shared vocabulary |
| Risk, Admission | the admission policy, and what it admits without its chain of early returns |
| Journal, Store | the transactions, and the store that runs them |
| Fills, Recovery, Snapshots | what a transaction records of a fill, what crash recovery makes of each row, and what each row adds to a risk snapshot |
| OrderBounds, RiskEnvelope, Reopening, JournalLinks | what each transaction does to quantities, to exposure, to exposure with closed orders counted that may come back, and to the links between intents, reservations, orders and attempts |
| Protocol, ProtocolInvariant, ProtocolBounds, ProtocolTheorems | the coordinator as a state machine with crashes, its inductive invariant, and the guarantees over every run |
| ProtocolStartup | when a startup ends READY, and every way a halt is lost |
| ProtocolReopening | which step opens a closed order again, and which orders never come back |
| ProtocolRuns | concrete runs from the empty journal that lose a halt, and that reopen a cancelled order |
| Worker, Reconcile, Cancellations | what the worker, a reconciliation and a cancellation make of the tables, as functions of the tables and of what the venue says, and exactly when |
| CoordinatorPaths, Coordinator | the coordinator's own routines with their loops, each proved to be a path of the state machine and to end as those functions say |
| WalkBook | the immediate fill and its optimality |
| PaperLedger, PaperBalance, PaperRuns, PaperMatching, PaperOrders, PaperEffects, PaperExchange | the paper exchange: transactions, books, runs, matching, order histories, the rows a trade and a cancellation write, and the tables as a class |
| PaperCore | one order seen by the journal and by the paper exchange at once |
| PaperProtocol | the coordinator and the whole paper exchange in one run |
| EventStream, Idempotency, BookCache, TokenBucket | the pieces around them |

A step of the protocol is one commit, one read that later code relies on, or one venue call. One party
holds the safety gate; halts, shutdown marks, cancellations, fills and reconciliations of others may fall
between any two of its steps, and so may a crash, which forgets everything but the journal. Only at the
risk transaction no reconciliation is open, because the worker holds both gates one could run under. Any
admitted intent may be taken from the queue any number of times.

## Where the code is weaker than its documentation

These are results about the code as it is, each with its exact condition.

- `docs/architecture.md` says that work released before signing is evaluated again. The released
  reservation row stays in its table under its primary key. `ApprovalCommitsIffUnreserved` only states
  what that key decides for one commit; the result is `ReleasedIntentIsNeverSubmitted`, over every run. The
  worker leaves such an intent VALIDATING (`UndecidedIsLeft`), and the next startup takes it up again.
- `reconcile_order_projection` does not look at the order's present state, so an observation from before a
  cancellation opens the order again: `ProtocolRuns.CancelledOrderReopens`. Exactly such a projection
  reopens a closed order (`ClosedOrderReopensIff`), and only one that still has something remaining
  (`EmptiedOrderStaysClosed`). The limits survive it, because no approval falls between the listing and the
  projection (`NoApprovalBeforeReopening`, `LimitsHoldInEveryState`). The transaction by itself keeps them
  exactly when the order is still counted or fits again (`ProjectionKeepsLimitsIff`).
- Startup reads the control state twice and each time writes in a later commit, so a halt committed
  between the first read and RECONCILING, or between the second and READY, is overwritten:
  `ProtocolRuns.EitherWindowLosesAHalt`. Besides a resume these two windows are the only ways a halt is
  ever lost (`HaltIsLostIff`, `ReadyAfterHalt`), and `StartupEndsReadyIff` says when a startup ends READY.
- An accepted answer with implausible quantities is not recorded and leaves the service READY with the
  order still SUBMITTING: `AcceptanceIsRecordedIffPlausible`.
- An event stream opened at cursor zero is given no reset when history has been pruned:
  `CompleteIffCovered`.
- `finish_submission` numbers its trade event first and sends it last, so a client that reconnects in
  between loses it: `UnorderedSendIsLostOnReconnect`, with both of its streams. A reconnect loses nothing
  exactly when no event up to the client's last id was still on its way when it left
  (`ReconnectLosesNothingIff`), which sending in order ensures, and repeats nothing exactly when that id
  was the largest it held (`ReconnectRepeatsNothingIff`).
- Evidence that an order is over sets the remaining quantity to zero whatever was filled, so the journal
  then counts as filled what the exchange has not filled. `BehindIff` says of every reachable state whether
  it does, `BehindIsLostIff` which accepted answer, rejection or snapshot it starts with.
- A fee rate above one lets a resting paper sale overdraw an account without cash: for every such rate
  there is a run (`FeesAboveOneOverdraw`), for none up to one (`NeverOverdrawnIff`). The worker validates
  the rates it trades with, the paper venue's own second lookup is not validated.

## Assumptions

- Decimals and floats are exact reals. The division of rust_decimal rounds at 28 digits.
- Each SQLite transaction is one atomic step, and a store write that is attempted succeeds or is refused
  for the reasons in the code.
- Request hashes are injective.
- Row ids are positions in their tables. A reservation, the prepared order and its single attempt share
  the intent's primary key and are parts of its row. Ids of paper orders stand for the order in which the
  database sorts them.
- An adapter never reports an accepted order as UNKNOWN (src/venue/polymarket.rs:695-701), and shutdown is
  requested only after startup has returned (src/main.rs:251-273).
- Books given to `walk_book` have positive prices and non-negative sizes. Where the paper order is compared
  with the journal's, level prices lie in [tick, 1) and the tick size is the one the reservation used.
- No prune falls between the bounds query and the replay query of one event stream.
- The risk policy of a run stays the same across restarts; nothing is said about the limits of a policy
  file that is exchanged while orders are open.
- The protocol by itself takes any paper fill that fits the open order (`PaperFillFits`) and any evidence
  about an order. `PaperProtocol` runs it with the exchange, where every fill and all evidence are rows of
  its ledger, and needs neither assumption. Trade ids of the modelled paper rows name the market event
  alone; the journal's carry the order too.

## Model

| member | source | states |
|---|---|---|
| ProtocolTheorems.VenueIsCalledAtMostOncePerIntent | src/execution.rs:537-632 | over every run with crashes, restarts and repeated queue entries, two venue calls are never for the same intent |
| ProtocolTheorems.VenueReceivesThePersistedPayload | src/execution.rs:349-366 | at a venue call the intent is SUBMITTING, and the bytes sent are the payload stored for it then and in every later state |
| ProtocolTheorems.NoUnknownWhenSubmissionBegins | src/store.rs:1140-1162 | whenever begin_submission commits, no order in the journal is UNKNOWN, for every interleaving and crash point |
| ProtocolTheorems.AmbiguityIsAlwaysRecorded | src/execution.rs:588-607 | an ambiguous outcome is never refused by the journal: the order becomes UNKNOWN and the gate holder goes on to halt |
| ProtocolTheorems.AcceptanceIsRecordedIffPlausible | src/execution.rs:570-587 | an accepted answer is recorded if and only if its quantities pass the evidence check; otherwise nothing changes and no halt follows |
| ProtocolTheorems.QuantitiesOnlyDescend | src/store.rs:1259-1274 | in every reachable state 0 <= remaining <= original and the recorded trades of an order are at most what it has lost; between any two states remaining never grows and trades grow by no more than its fall |
| ProtocolTheorems.LimitsHoldInEveryState | src/store.rs:4078-4140 | in a run that starts within the limits every state is within them, whatever reports are projected late: each token's worst-case position both ways, the count of open orders and reservations, each market's open notional; even with every order counted that an open reconciliation could bring back |
| ProtocolTheorems.StartWithinLimitsIff | src/risk.rs:221-248 | a start without orders is within the limits if and only if every opening position is |
| ProtocolReopening.ClosedOrderReopensIff | src/store.rs:1952-2010 | a step of a run opens a closed order if and only if it projects onto it an observation that is not terminal and passes the evidence and regression checks |
| ProtocolReopening.EmptiedOrderStaysClosed | src/store.rs:1969-1984 | an order closed with nothing remaining is closed in every later state |
| ProtocolReopening.NoApprovalBeforeReopening | src/execution.rs:330-334 | an order is reopened only by the reconciliation that had read it as open, and no risk decision falls between that read and the projection |
| ProtocolRuns.CancelledOrderReopens | src/execution.rs:1080-1107 | a run from the empty journal in which an order is listed, cancelled, and made live again by the report of the listing reconciliation |
| ProtocolTheorems.HandoverKeepsEverySnapshot | src/store.rs:981-1025 | preparing, beginning, an ambiguous finish and crash recovery leave the risk snapshot of every market, token and day as it was |
| ProtocolTheorems.ResumeCommitsIffControlUntouched | src/execution.rs:1287-1308 | a resume commits READY if and only if no control write at all has been committed since it read HALTED, its own reconciliation included |
| ProtocolStartup.HaltIsLostIff | src/execution.rs:258-321 | a step turns a HALTED or SHUTTING_DOWN control row into one that is neither if and only if it commits a resume, or a startup overwrites a halt that fell between one of its two reads and the write relying on it |
| ProtocolStartup.ReadyAfterHalt | src/store.rs:2455-2490 | between a halt and any later state that is not halted lies such a step, in every run |
| ProtocolStartup.StartupEndsReadyIff | src/execution.rs:258-327 | a startup that returns has left the service READY if and only if the state it first read was neither HALTED nor SHUTTING_DOWN and, between entering and its last look, no halt was committed, no submission had been interrupted and nothing was found |
| ProtocolRuns.EitherWindowLosesAHalt | src/execution.rs:258-321 | for each of the two windows a run from the empty journal in which a halt falls and the service is READY afterwards without a resume |
| ProtocolTheorems.PreparedWorkIsAlwaysRecoverable | src/store.rs:1488-1505 | in no run is the recovery of local work refused, and it leaves every PREPARED intent, payload included, as it was |
| ProtocolTheorems.ApprovalCommitsIffUnreserved | migrations/0001_initial.sql:52-63 | an approving decision for a VALIDATING intent commits if and only if no reservation row exists for it, released or not |
| ProtocolTheorems.ReleasedIntentIsNeverSubmitted | src/store.rs:1506-1512 | an intent whose reservation has been released never reaches the venue in any later state |
| ProtocolInvariant.FireKeepsInv | src/execution.rs:258-327 | the invariant tying intents, orders, attempts, the call log, the gate holder and UNKNOWN orders together survives every step |
| ProtocolBounds.FireIsBounded | src/execution.rs:1026-1214 | each step keeps rows sound, lets quantities only descend, and keeps the limits with the orders counted that open reconciliations have listed |
| OrderBounds.FinishMoves | src/store.rs:1228-1310 | recording an answer rewrites one order and records exactly its fill, or nothing if the outcome is unknown or the trade is known; that is at most the drop in remaining quantity |
| OrderBounds.ResolveMoves | src/store.rs:1615-1700 | resolving an UNKNOWN order records exactly the fill shown, within its drop |
| OrderBounds.ReconcileMoves | src/store.rs:1952-2030 | so does projecting an observation, fresh or stale |
| OrderBounds.PaperFillMoves | src/store.rs:3137-3175 | a paper fill that fits the open order is recorded exactly, within its drop |
| OrderBounds.MatchFillMoves | src/store.rs:4240-4318 | a matched fill moves the position by exactly the trade it records, and a known trade key records nothing |
| Fills.MatchRecords | src/store.rs:4240-4331 | a fill with a new key adds one trade row of its size and price, raises the order's traded quantity by it and moves the token's shares by it, up for a buy and down for a sell; a known key or an empty fill adds nothing; one, several and no trade ids name the key |
| Fills.FinishRecords | src/store.rs:1228-1382 | a recorded answer writes the order's state, venue id and open quantity, its intent and its attempt, and records the fill it reports, priced as reported |
| Fills.UnknownFinishRecordsNothing | src/store.rs:1259-1382 | an answer that stays unknown keeps the whole order open and records no fill |
| Fills.ResolutionRecords | src/store.rs:1615-1738 | a settled order takes state, venue id and quantity from the venue, its intent and attempt are UNKNOWN no longer, and all of its fill is recorded |
| Fills.ProjectionRecords | src/store.rs:1952-2050 | a projected order takes state and quantity from the venue, but a pending cancellation that is shown resting stays pending; exactly what is shown filled beyond the local fill is recorded |
| Fills.PaperFillRecords | src/store.rs:3137-3175 | a paper fill of an open core order is recorded under the market trade's id, and a pending cancellation stays pending until the order is full |
| Recovery.LocalWorkStartsOver | src/store.rs:1474-1559 | after a recovery no intent is VALIDATING, APPROVED or PREPARING; each that was is RECEIVED with request and payload kept and an active reservation released; every other row is as it was |
| Recovery.RecoveryGoesThroughIff | src/store.rs:1494-1505 | it is refused exactly when a PREPARED intent lacks its attempt or does not own exactly one PREPARED order |
| Recovery.CutOffSubmissionsAreUnknown | src/store.rs:1384-1467 | an order that was being sent is UNKNOWN under the identifier it was prepared with, with its intent and attempt; no other row changes |
| Snapshots.TradeRaisesSnapshot | src/store.rs:4061-4133 | one more trade raises the day's amount by price times size exactly when it is not from before the day, and nothing else |
| Snapshots.OrderRaisesSnapshot | src/store.rs:4078-4119 | one more order raises count, market notional, pending shares and a buy's gross amount with its fee by its open part if it is active, nothing if not, and makes the snapshot an error if it has no quantity |
| Snapshots.ReservationRaisesSnapshot | src/store.rs:4078-4119 | so does one more reservation in full if it is active |
| Snapshots.PositionRaisesSnapshot | src/store.rs:4120-4127 | one more position counts for its token, and with its magnitude for the gross amount |
| Snapshots.TodaysTradesUseUpTheDay | src/risk.rs:263-271 | a trade of the day leaves a later request that much less, and one that no longer fits is not approved |
| Snapshots.FillUsesUpTheDay | src/store.rs:4061-4133 | every recorded fill takes its notional out of what its day still allows |
| Snapshots.UpsertMovesGross | src/store.rs:4286-4318 | a moved position counts with its new magnitude in place of its old one |
| RiskEnvelope.ProjectionKeepsEnvelopeIff | src/store.rs:1952-2030 | a projection pushes neither worst case of its token outwards if and only if the order was still counted, or the observation brings no fill to record and leaves the order uncounted |
| RiskEnvelope.ProjectionKeepsLimitIff | src/store.rs:1952-2030 | a position limit that held still holds after a projection if and only if the token had room for its growth |
| RiskEnvelope.ProjectionKeepsLimitsIff | src/store.rs:1952-2030 | all limits that held still hold after a projection if and only if the order was still counted or position, order count and market notional have room for it |
| RiskEnvelope.EvaluationKeepsLimits | src/store.rs:773-900 | after a decision commits, all limits hold of the new tables with the reservation included |
| Admission.ApprovedIff | src/risk.rs:102-318 | a request is approved if and only if it is listed and valid, every limit holds with its worst case included, and an immediate one meets a near enough best price and enough depth |
| Admission.BookPassesIffVisible | src/risk.rs:272-316 | the book checks pass if and only if some best level is near the price and the depth through it suffices |
| Admission.RefusedForFirstViolation | src/risk.rs:120-318 | a refusal names a reason if and only if that rule, limit or book check fails and none before it in the policy's order does |
| RiskEnvelope.CreateConservesExposure | src/store.rs:981-1025 | the reservation leaves its table as the order that takes it over enters the other: every weight over the exposure is unchanged |
| RiskEnvelope.RecoverInterruptedConservesExposure | src/store.rs:1384-1440 | crash recovery of submissions changes no weight over the exposure |
| RiskEnvelope.SameExposureSameSnapshot | src/store.rs:4078-4140 | equal exposure gives equal risk snapshots for every market, token and day |
| JournalLinks.LinkedIsRecoverable | src/store.rs:1474-1512 | linked tables pass the recovery check for prepared work |
| JournalLinks.RecoverInterruptedLinks | src/store.rs:1384-1450 | recovery keeps intents, orders and attempts linked and lets rows only evolve |
| JournalLinks.FinishLinks | src/store.rs:1228-1382 | recording an answer keeps the links between intent, order and attempt |
| JournalLinks.CreateLinks | src/store.rs:924-1045 | creating a prepared order keeps them |
| Store.JournalStore.constructor | migrations/0001_initial.sql:272-273 | an empty journal with its opening positions, STARTING at revision 0 |
| JournalLinks.AdmitLinks | src/store.rs:368-469 | admission keeps intents, orders and attempts linked, and leaves every stored payload, launch and released reservation as it was |
| JournalLinks.TransitionIntentLinks | src/store.rs:628-672 | so does each change of a local state the worker makes |
| Store.SumExposure | src/store.rs:4093-4119 | the loop over the exposure rows computes the four sums, or nothing if some row has no positive original quantity |
| Store.SumPositions | src/store.rs:4120-4127 | the loop finds the token's position and the sum of absolute positions |
| Store.SumMatched | src/store.rs:4128-4133 | the loop sums what TradeRaisesSnapshot says each trade adds to the day |
| Store.JournalStore.BuildRiskSnapshot | src/store.rs:4078-4140 | the loops over the rows compute the snapshot that the Snapshots lemmas fix row by row |
| Store.JournalStore.EvaluateAndReserve | src/store.rs:773-922 | decision, reservation and state in one commit, or the tables as before |
| Store.JournalStore.CreatePreparedOrder | src/store.rs:924-1045 | prepared order, order, consumed reservation and PREPARED in one commit, or a full rollback |
| Store.JournalStore.RejectPreparation | src/store.rs:1068-1110 | releases the reservation and rejects, or rolls back |
| Store.JournalStore.UpdateAttempt | src/store.rs:1180-1196 | the conditional attempt update and its affected rows |
| Store.JournalStore.BeginSubmission | src/store.rs:1140-1225 | the READY check and three conditional updates, all or none |
| Store.JournalStore.ApplyMatchedFill | src/store.rs:4240-4338 | one trade per key, position moved with it |
| Store.JournalStore.FinishSubmission | src/store.rs:1228-1382 | evidence check, intent, order, fill and attempt, all or none; FinishRecords says what a commit records |
| Store.JournalStore.ResolveUnknown | src/store.rs:1615-1738 | an UNKNOWN order takes the observed state, its intent and attempt follow, its fill is matched |
| Store.JournalStore.TransitionOrder | src/store.rs:1740-1830 | valid transitions only; a cancel mark on a finished order changes nothing |
| Store.JournalStore.CancelPreparedOrder | src/store.rs:1832-1905 | a PREPARED order is cancelled with its intent and attempt |
| Store.JournalStore.ReconcileProjection | src/store.rs:1952-2050 | evidence and regression checks, then state, quantity and the fill difference |
| Store.JournalStore.RecoverInterrupted | src/store.rs:1384-1467 | the loop makes every interrupted order, intent and attempt UNKNOWN; the count is positive exactly if there was one |
| Store.JournalStore.RecoverPreSubmission | src/store.rs:1474-1559 | the loop resets local work and releases reservations, or rolls everything back; it returns exactly the intents that were RECEIVED, VALIDATING, APPROVED, PREPARING or PREPARED, oldest first |
| Store.RowsAreExposure | src/store.rs:4086-4092 | the rows of the two risk queries carry every weight the tables carry |
| Worker.IntentIsSentIff | src/execution.rs:337-535 | the venue is called if and only if the intent is RECEIVED without a reservation, valid, its market data there and fitting, its request admitted on the tables as found and then prepared, or PREPARED with its order; always READY and healthy, never twice |
| Worker.AdmittedIsSent | src/execution.rs:467-535 | such an intent is persisted with its reservation consumed by one new order of its worst case, and sent once; a plausible answer is recorded, any other leaves it SUBMITTING |
| Worker.PreparedIsSent | src/execution.rs:360-374 | a PREPARED intent is sent once with the payload stored for it, or fails untouched if its prepared order is gone |
| Worker.NotReadyIsRejected | src/execution.rs:343-358 | while the service is unhealthy or not READY a RECEIVED intent is rejected without a call, others are left, and ill health halts |
| Worker.UnofferedIsRejected | src/execution.rs:391-466 | an invalid request, and one without fitting market data, is rejected without a call; a venue error halts if it asks for it |
| Worker.UnadmittedIsRejected | src/execution.rs:467-480 | an intent the policy does not admit on the tables as found is rejected, and nothing else changes |
| Worker.UndecidedIsLeft | src/store.rs:773-900 | an intent whose tables cannot be valued, or that has a reservation row already, fails and is left VALIDATING |
| Worker.UnpreparedIsReleased | src/execution.rs:488-516 | an admitted intent the venue cannot prepare is rejected with its reservation released |
| Worker.OthersAreLeft | src/execution.rs:376-381 | an intent in any other state fails untouched |
| Worker.DecisionOn | src/store.rs:773-922 | the risk transaction approves exactly the admitted requests, reserving the worst case with the larger fee; a second reservation is refused |
| Worker.PreparedPairIsSubmitted | src/execution.rs:537-632 | a prepared pair submitted while READY calls the venue once and is done exactly when the answer is plausible |
| Worker.DeferredIsKept | src/execution.rs:544-560 | it is deferred exactly while the service is not READY, with nothing written or sent, and kept once |
| Worker.TakenRequestIsSent | src/execution.rs:337-535 | a request is taken exactly in READY; one the policy admits on the tables before it came, prepared in good health, is sent |
| Reconcile.ReconciliationGoesThroughIff | src/execution.rs:1080-1140 | a report is taken over if and only if every observation used is believable and takes no fill back; then each order is as shown, or as it was, each settled intent is UNKNOWN no longer, and every fill shown is in the trades |
| Reconcile.ProjectionGoesThroughIff | src/execution.rs:1080-1114 | the same for the projections of the first n orders |
| Reconcile.SettlementGoesThroughIff | src/execution.rs:1115-1140 | and for the settlements |
| Reconcile.NothingFoundIff | src/execution.rs:1080-1140 | there are no findings if and only if the venue shows something of every order that rests and accounts for every UNKNOWN one |
| Cancellations.TargetByState | src/execution.rs:861-925 | state by state, when a target is refused, what its row becomes and whether it is unconfirmed |
| Cancellations.TargetsEndOrAreReported | src/execution.rs:855-935 | a target of a request that is not refused has ended if and only if the request does not report it |
| Cancellations.AllTargetsEndOrAreReported | src/execution.rs:293-296 | after all pending requests every target of each has ended or been reported |
| Coordinator.Gate.SubmitPrepared | src/execution.rs:537-605 | a path of the protocol that ends exactly as Worker.Submission says: while READY a prepared pair is sent once and is done if and only if the answer is plausible (PreparedPairIsSubmitted); otherwise nothing is written or sent and the intent is deferred |
| Coordinator.Gate.BeginPrepared | src/execution.rs:544-560 | done if and only if begin_submission commits, deferred if and only if the service is not READY; the tables are untouched unless it is done |
| Coordinator.Gate.RecordAnswer | src/execution.rs:570-605 | done exactly when the evidence is accepted: the order is then in the answered state (UNKNOWN if ambiguous, REJECTED if rejected) and the service HALTED after ambiguity and after a rejection that asks for it; otherwise nothing has changed. The cancellations and the reconciliation that follow such a halt come after this and may settle the order |
| Coordinator.Gate.FindPrepared | src/store.rs:1561-1592 | finds the first prepared order of an intent, or none if there is none |
| Coordinator.Gate.ProcessIntent | src/execution.rs:337-535 | a path of the protocol from the free gate to the free gate that leaves the tables, the call list and the deferred list exactly as Worker.Processed says; what that comes to in each case is IntentIsSentIff and the other Worker rows |
| Coordinator.Gate.ProcessReady | src/execution.rs:356-390 | the part after the readiness check, along a protocol path and as Worker.Processing says |
| Coordinator.Gate.ValidateAndSubmit | src/execution.rs:391-480 | validation, market data and the risk transaction, along a protocol path and as Worker.Validation says |
| Coordinator.Gate.PrepareAndSubmit | src/execution.rs:481-535 | from approval to the venue, along a protocol path and as Worker.Preparation says |
| Coordinator.Gate.RejectPreparing | src/execution.rs:490-516 | an order the venue cannot prepare releases its reservation and halts if asked to, as UnpreparedIsReleased says |
| Coordinator.Gate.PersistAndSubmit | src/execution.rs:517-535 | the payload is persisted first; the call carries that payload |
| Coordinator.Gate.RejectValidating | src/execution.rs:759-795 | a rejection before anything is reserved, along a protocol path; HALTED exactly when it is done and asks for it |
| Coordinator.Gate.ProjectOpen | src/execution.rs:1069-1108 | the loop fails if and only if some projection is refused, and else leaves the tables of Reconcile.Projected; there is a finding if and only if some order open at its start is missing from the report or shown as UNKNOWN |
| Coordinator.Gate.ProjectOne | src/execution.rs:1090-1107 | one order of the list: projected as the transaction says, left alone if it is not open, or reported missing |
| Coordinator.Gate.SettleOne | src/execution.rs:1109-1134 | one UNKNOWN order is settled as the transaction says, or fails the reconciliation with the service HALTED; it is a finding if and only if the venue does not know its state |
| Coordinator.Gate.SettleUnknown | src/execution.rs:1109-1134 | the loop fails if and only if some settlement is refused, and else leaves the tables of Reconcile.Settled; there are findings if and only if there were or the venue does not know the state of an UNKNOWN order |
| Coordinator.Gate.ReconcileStarted | src/execution.rs:987-1197 | succeeds if and only if the venue answers and every observation it brings is believable and takes no fill back; the tables are then as reported, and HALTED is written exactly once if the orders it began with have findings. A failure ends HALTED |
| Coordinator.Gate.CloseStarted | src/execution.rs:1188-1197 | findings halt the service at the end of a reconciliation |
| Coordinator.Gate.CancelOne | src/execution.rs:861-917 | refused exactly in the cases of Cancellations.TargetByState; otherwise the row becomes what that says and other orders are untouched, and it is unconfirmed exactly when the venue was not asked or did not answer |
| Coordinator.Gate.CancelAtVenue | src/execution.rs:885-915 | the cancel mark and the venue's terminal state, the same for an order the venue may know |
| Coordinator.Gate.ExecuteCancellation | src/execution.rs:855-925 | refused if and only if one of its targets is; otherwise every target has its new row, and the failed ids are exactly the unconfirmed targets. The reconciliation that a failed target triggers is not part of the routine |
| Coordinator.Gate.ResumeCancellations | src/execution.rs:293-296 | the same over all requests left PENDING, in order: refused if and only if one is when its turn comes |
| Coordinator.Gate.CancelBeforeReconciling | src/execution.rs:293-306 | and, if the service was latched and the policy asks for it, a request for every order that has not ended |
| Coordinator.Gate.Enqueue | src/execution.rs:240-249 | queues exactly the recovered intents still to be worked on, in order (StillDueInOrder) |
| Coordinator.Gate.EnterAndRecover | src/execution.rs:258-291 | after the first commits of startup every interrupted submission is UNKNOWN and the service is HALTED if it was, if it was shutting down or if there was one, else RECONCILING |
| Coordinator.Gate.Startup | src/execution.rs:258-327 | a path of the protocol that comes up if and only if local work can be recovered, no cancellation is refused and the report can be taken over; HALTED then if and only if it was latched, something was interrupted, the heartbeat failed or the reconciliation had findings, else READY; the orders are as reported, and exactly the intents that had not reached the venue are queued, less those a cancellation ended, or all kept for a resume. True of the code when no startup cancellation fails: the reconciliation a failed one triggers may halt as well |
| Coordinator.StartupEndsOrReports | src/execution.rs:293-306 | a startup executes the pending requests; one that was latched and sweeps ends every order or reports it |
| Coordinator.DueAfterCancelling | src/execution.rs:240-249 | recovered work is still due exactly if its prepared order was not cancelled on the way |
| Coordinator.StillDueInOrder | src/execution.rs:240-249 | ids are queued one by one, each exactly if its intent is RECEIVED or PREPARED |
| Coordinator.Gate.CheckAndOpen | src/execution.rs:307-326 | the part after the cancellations: comes up if and only if the report can be taken over, READY exactly when nothing had halted and nothing was found |
| Coordinator.Gate.Resume | src/execution.rs:1287-1314 | a path of the protocol that succeeds if and only if the service was HALTED, the heartbeat works, no finding is unresolved, the report can be taken over and brings no finding; READY is then written at the next revision and the deferred work queued, otherwise the service stays HALTED with the work deferred |
| CoordinatorPaths.PathExtendsRun | src/execution.rs:258-327 | a path from the end of a run extends the run, so every theorem about runs holds along it |
| WalkBook.WalkBook | src/venue/paper.rs:214-271 | the fill is some allocation of eligible levels; no allocation costing as little buys more shares, none selling as little brings more; spending is within the request; complete means at most 0.000001 is left, incomplete that every eligible level is exhausted |
| WalkBook.WalkAsks | src/venue/paper.rs:231-252 | the same for the loop over asks |
| WalkBook.WalkBids | src/venue/paper.rs:253-269 | the same for the loop over bids |
| WalkBook.CertificateIsOptimal | src/venue/paper.rs:214-271 | a fill that reaches the book's whole edge over some positive price is optimal |
| WalkBook.SortedLevels | src/venue/paper.rs:221-228 | sorting orders the levels and neither loses nor adds one |
| WalkBook.ImmediateBuyWithinReservation | src/risk.rs:320-333 | an immediate buy fills at most the reserved shares and spends, fee included, at most the reserved quote |
| PaperBalance.SubmittedIsSound | src/venue/paper.rs:403-509 | whatever the venue builds from a valid book and rates in [0, 1] has consistent quantities and exactly the reserve it needs |
| PaperBalance.FillOrKill | src/venue/paper.rs:425-464 | a fill-or-kill order is filled to within the tolerance or not at all, and killed only when the whole eligible depth would not complete it |
| PaperBalance.RowWithinReserve | src/store.rs:3331-3365 | an order's reserve never exceeds the account's, so the clamps at zero are not reached |
| PaperBalance.FilledIsSound | src/store.rs:3049-3096 | a crossing fill keeps an order sound and releases exactly the filled part of its reserve |
| PaperRuns.CommitKeepsBalance | src/store.rs:2848-2870 | a commit keeps reserves equal to their sums over orders, balances above reserves, and cash and shares accounted for |
| PaperRuns.CommitIffAffordable | src/store.rs:2848-2870 | a new order is refused if and only if every ledger with its effect in the books would be insolvent |
| PaperRuns.CancelKeepsBalance | src/store.rs:3331-3378 | so does a cancellation |
| PaperRuns.MatchRowKeepsBalance | src/store.rs:3063-3105 | so does each fill, which never overdraws |
| PaperRuns.TradeThroughKeepsBalance | src/store.rs:2952-3220 | so does a market trade, which is refused only for its own invalid fields |
| PaperRuns.LedgerIsAlwaysBalanced | src/store.rs:2805-3395 | in every reachable ledger reserves are sums over orders and within the balances, cash and shares are the opening ones moved by exactly the recorded fills, and the overdraw error is never met |
| PaperMatching.OpenRowsAreTheMatchable | src/store.rs:3017-3031 | the selection holds exactly the open orders of the token, each once, oldest first |
| PaperMatching.MatchRowsIsWaterfall | src/store.rs:3032-3190 | after the loop each row has its share of the waterfall and no other row has changed |
| PaperMatching.TradeFillsFairly | src/store.rs:3032-3220 | each order gets what it still wants, limited by what the crossing orders with time priority leave; all other rows stay |
| PaperMatching.TradeFillsInTotal | src/store.rs:3032-3220 | together the orders gain exactly min(trade size, total crossing open quantity) |
| PaperMatching.TradeRespectsTimePriority | src/store.rs:3017-3060 | no order is reached while an older crossing one still wants shares |
| PaperMatching.RepeatedTradeChangesNothing | src/store.rs:2979-2995 | an event id is spent once: applying it again leaves the ledger as it is |
| PaperEffects.TradeWritesFills | src/store.rs:3049-3190 | each order a market trade reaches is written the fill it is due at the trade's price: quote and fee on top, the rest open, ended when nothing is left |
| PaperEffects.CancellationFrees | src/store.rs:3310-3395 | a cancelled order ends CANCELLED with what it had filled, and the account gets its whole reserve back |
| PaperEffects.RestingOrderWaits | src/venue/paper.rs:466-509 | an order that may rest is live with its whole quantity and its reserve |
| PaperEffects.ImmediateOrderTakesItsWalk | src/venue/paper.rs:425-474 | an immediate order takes its walk and ends: FILLED if the walk is complete, CANCELLED if not |
| PaperOrders.RunEvolves | src/store.rs:2952-3395 | over any run an order keeps its terms, only gains fills, never regains open quantity, and is final once finished |
| PaperOrders.RestingBuyWithinReserve | src/store.rs:3063-3080 | whatever fills come, a resting buy's total cost stays within the reserve it rested with |
| PaperOrders.FeesAboveOneOverdraw | src/store.rs:3097-3105 | for every fee rate above one a run, from an opened account through one submission, whose market trade overdraws |
| PaperOrders.NeverOverdrawnIff | src/store.rs:3097-3105 | in a market with a given fee rate no run of the ledger overdraws if and only if the rate is at most one |
| PaperExchange.PaperTables.constructor | src/store.rs:2706-2786 | the opened account is balanced |
| PaperExchange.PaperTables.Submit | src/venue/paper.rs:403-509 | walks the book, sets the reserves and commits; an invalid request changes nothing |
| PaperExchange.PaperTables.CommitOrder | src/store.rs:2805-2949 | commits or refuses exactly as the ledger function, returning the stored row |
| PaperExchange.PaperTables.ApplyTradeThrough | src/store.rs:2952-3254 | matches as the ledger function; the result counts the trade ids recorded |
| PaperExchange.PaperTables.CancelOrder | src/store.rs:3310-3395 | releases the order's reserves and ends it |
| PaperExchange.MatchAll | src/store.rs:3032-3220 | the loop with its early stop equals matching every selected row |
| PaperExchange.MatchOne | src/store.rs:3036-3190 | one turn of the loop: row, account and inventory together |
| PaperCore.CoreNeverRunsAhead | src/store.rs:3137-3162 | in every reachable state the journal counts no more of an active order as filled than the exchange has filled, whatever fills come between the venue's commit and the record of its answer |
| PaperCore.CurrentRowIsAccepted | src/store.rs:1969-1984 | the exchange's current row always passes the evidence and regression checks, and so does the answer however late |
| PaperCore.EveryFillFits | src/store.rs:3137-3162 | every fill of the exchange fits the open core order it is projected onto |
| PaperCore.BehindIff | src/store.rs:1259-1274 | in every reachable state, closed orders included, the journal counts no more as filled than the exchange has filled if and only if something remains or everything was filled |
| PaperCore.BehindIsLostIff | src/store.rs:1990-2015 | a step loses that comparison if and only if it brings terminal evidence for an order not filled completely and the journal takes it: an answer or a rejection while SUBMITTING, a resolution while UNKNOWN, a snapshot that shows no less than is known |
| PaperCore.SubmittedIsPlausible | src/venue/paper.rs:403-474 | a submitted paper order passes the evidence check |
| PaperProtocol.WorldIsReached | src/store.rs:2952-3254 | in every run of coordinator and exchange together the coordinator is in a state that a run of the protocol ends in: market trades, late answers and snapshots are steps of it and need no check |
| PaperProtocol.LoopIsPath | src/store.rs:3032-3190 | the journal half of the matching loop is a path of protocol fills, row by row, and afterwards no order counts more than its row has filled |
| PaperProtocol.WorldLedgers | src/store.rs:2805-3395 | and the exchange is in a ledger that a run of the ledger ends in |
| PaperProtocol.LimitsHoldOverPaper | src/store.rs:4078-4140 | the risk limits hold in every state of such a run, whatever the exchange fills |
| PaperProtocol.QuantitiesDescendOverPaper | src/store.rs:3137-3175 | between any two of its states remaining quantities only fall and trades grow by no more than that |
| PaperProtocol.JournalNeverAheadOfExchange | src/store.rs:3137-3162 | in every state the books balance, each row belongs to one order, and the journal counts no more of an open order as filled than its row |
| PaperProtocol.TradeAlwaysGoesThrough | src/store.rs:2952-3254 | a market trade with valid fields is refused in no state |
| EventStream.EveryEventExactlyOnce | src/api.rs:812-884 | without a reset a client has, at every moment, every retained event above its cursor exactly once, except those still on their way |
| EventStream.CompleteIffCovered | src/api.rs:886-892 | nothing above the cursor is missing if and only if the cursor is positive or nothing was pruned |
| EventStream.CaughtUpClientHasEverything | src/api.rs:812-884 | when nothing is on its way the client holds precisely the events above its cursor, each once |
| EventStream.OrderedSendsMakeResumingSafe | src/api.rs:818-835 | if events are sent in sequence order, a client that leaves after any event holds everything before it |
| EventStream.HoldsAllUpToIff | src/api.rs:812-884 | a client that leaves holds every retained event up to its cursor if and only if none of those is still on its way |
| EventStream.ReconnectLosesNothingIff | src/api.rs:812-892 | across a reconnect every retained event is in the first stream, in the second or on its way to it, if and only if no event up to the last id was on its way when the client left, whatever happens before and after |
| EventStream.ReconnectRepeatsNothingIff | src/api.rs:812-892 | nothing is given twice if and only if the client left with the largest id it held |
| EventStream.UnorderedSendIsLostOnReconnect | src/store.rs:1297-1382 | a run and the run after the reconnect: an event sent late is in neither stream though it has been sent and read |
| EventStream.ResumedStreamStartsLater | src/api.rs:818-835 | a stream resumed after an event carries nothing up to it |
| Idempotency.KeyMakesOneResource | src/store.rs:4608-4642 | over every interleaving a key makes at most one resource, across all operations |
| Idempotency.SuccessesAgree | src/store.rs:497-530 | two successes with one key answered the same request with the same response |
| Idempotency.DifferentRequestIsRefused | src/store.rs:377-400 | once a call has succeeded, another request with its key cannot succeed |
| Idempotency.RepeatIsAnswered | src/store.rs:368-530 | a repeat of a request that has succeeded gets the recorded response, whichever of its two steps finds it, and changes no table |
| Idempotency.FirstRequestIsAnsweredIff | src/store.rs:401-469 | a first request is answered if and only if it is an operation or the service is READY, and it makes one resource and one record |
| Idempotency.RefusalsLeaveNothing | src/store.rs:4630-4642 | a refused request has made nothing and the refusing step changed no table |
| Idempotency.IdempotentStore.AdmitIntent | src/store.rs:368-469 | replay, conflict, readiness, or both rows; a failed second insert removes the first |
| Idempotency.IdempotentStore.Operate | src/store.rs:2507-2531 | an operation's effect and its idempotency record, both or neither |
| Idempotency.IdempotentStore.FindIntent | src/store.rs:380-388 | the intent with this actor and key |
| BookCache.CachedBooksAreFaithful | src/venue/polymarket.rs:252-366 | for any messages a cached book is absent, or consistent and equal, price by price, to the last snapshot with all later changes |
| BookCache.OnlySnapshotsRestore | src/venue/polymarket.rs:318-330 | a removed book stays absent until a new snapshot of its asset |
| BookCache.SnapshotIsCachedIff | src/venue/polymarket.rs:277-294 | a snapshot is cached if and only if it is consistent and not older than what it replaces; otherwise its book is gone |
| BookCache.ChangeIsCachedIff | src/venue/polymarket.rs:318-357 | a change is applied if and only if what results is sane; otherwise its book is gone |
| BookCache.BookIsConsistent | src/venue/polymarket.rs:65-86 | true exactly for valid unique levels, every bid below every ask, and a hash that is not blank |
| BookCache.LevelsAreValid | src/venue/polymarket.rs:66-74 | the loop with its price set decides validity and uniqueness |
| BookCache.BestPrice | src/venue/polymarket.rs:78-82 | the best price of a side, if it has one |
| BookCache.Cache.ApplySnapshot | src/venue/polymarket.rs:277-294 | inserts a consistent snapshot that does not go back in time, else removes the book |
| BookCache.Cache.ApplyChanges | src/venue/polymarket.rs:318-357 | the loop over entries; the gap counter moves exactly when a book was removed |
| TokenBuckets.WindowIsBounded | src/api.rs:1008-1030 | the calls of any window admit at most the capacity and what flows in over its length, whatever was called before |
| TokenBuckets.LevelStaysInRange | src/api.rs:1017-1020 | the level never leaves [0, capacity], whatever the call times |
| TokenBuckets.WaitingEarnsAToken | src/api.rs:1017-1025 | a caller is admitted once time for one token has passed |

## Left out

- HTTP routing, parsing, authentication, metrics, configuration and the command line: plumbing around the modelled calls.
- SQLite itself: locks, write-ahead logging, file permissions and backup files. The Polymarket SDK, signing and key files: the venue is an environment that answers accepted, rejected or ambiguous.
- Decision, transition, attempt-evidence, operator-action and cancellation-request rows: they are written beside the modelled ones and read by nothing modelled here.
- `reconcile_venue_positions`: it overwrites positions from outside and is not a step of the protocol.
- Gross exposure and daily matched notional beyond admission: the code does not keep them, so only the admission check is modelled.
- Progress of large recoveries: startup and resume fill a bounded queue while holding the gate the worker needs, so no progress is claimed. `Coordinator.Gate` queues without a bound.
- The gates as locks: one holder of the safety gate is modelled, cancellations and reconciliations of others may happen at any time, and of the order lifecycle gate only what the worker's hold on both excludes, an open reconciliation at the risk transaction. All this allows more runs than the code has. The run of `CancelledOrderReopens` respects the locks: its reconciliation holds the safety gate, its cancellation the other two.
- Trade finality, pagination and event pruning itself.
- Coordinator.Gate.RecordAnswer: the cancel-on-halt and the reconciliation after an ambiguous or halting answer (src/execution.rs:607, 627, 792, 1411) are not part of the routines; their steps are among those the protocol allows at any time.
- Coordinator.Gate.ProcessIntent: nor is the reconciliation that a pending user-stream event triggers before an intent (src/execution.rs:338-342).
- Coordinator.Gate.ExecuteCancellation: nor is the reconciliation a failed target triggers (src/execution.rs:930, 939).
- Coordinator.Gate.BeginPrepared: the check that an intent is still PREPARED before it is deferred (src/execution.rs:546) is left out; under the gates the worker holds it is.
- Freshness ages, minimum sizes and tick increments of `validate_freshness_and_increments`: one flag of the worker's inputs; of the market rules only tick size and fee rates are kept.
- Coordinator.Gate.Startup: a halt by such a nested reconciliation is not in its condition for HALTED. The order in which the database returns pending requests is an input, and writing and closing a request row is left out with those rows.
- Coordinator.Gate.ReconcileStarted: a lookup that fails after some projections is not an input of the routine, so its condition for success, and those of Startup and Resume, are for a report whose lookups all answered; the protocol allows that failure at any point. Unexpected orders, trades and positions in the report are one flag.
- Idempotency.RefusalsLeaveNothing: a resume commits its own reconciliation before it can be refused; that reconciliation is not the operation's resource and is not covered.
- Store.JournalStore.TransitionOrder: the venue id argument is left out, every caller passes none.
- EventStream.EveryEventExactlyOnce: a client the broadcast channel has overrun is sent a reset and is excluded, as is one whose opening was a reset.
