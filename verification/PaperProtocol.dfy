/**
 The coordinator and the paper exchange together: one run over the journal and the exchange's ledger.

 The protocol takes any fill that fits an open order, and any evidence about an order. Here each fill is
 the projection of a fill the exchange has just made, and all evidence is a row the exchange has held. That
 is a run of the protocol, so its guarantees hold, and a run of the ledger.
 */
module PaperProtocol {
  import opened Wrappers
  import opened Domain
  import opened Risk
  import opened Journal
  import OrderBounds
  import opened WalkBook
  import opened PaperLedger
  import opened PaperBalance
  import opened PaperRuns
  import opened PaperOrders
  import opened PaperCore
  import opened Protocol
  import opened ProtocolInvariant
  import opened ProtocolBounds
  import opened ProtocolTheorems
  import opened ProtocolReopening
  import opened CoordinatorPaths
  import opened JournalLinks
  import opened RiskEnvelope

  /**
   `owners[r]` is the journal's order of ledger row `r`. `answer` is the reply to the call in progress;
   `seen` are the rows read, each with its place in the ledger, and not yet used.
   */
  datatype World = World(
    system: System, ledger: Ledger, owners: seq<nat>,
    answer: Option<PaperOrder>, seen: set<(nat, PaperOrder)>)

  datatype WorldStep =
    | Core(step: Step)
    | CommitPaper(request: Request, market: MarketRules, book: OrderBook, walk: PaperFill, id: nat, now: int)
    | RecordAnswer(day: int)
    | MarketTrade(eventId: string, tokenId: string, price: real, size: real, observedAt: int, day: int)
    | CancelRow(id: nat)
    | ObserveRow(row: nat)
    | ProjectRow(row: nat, snapshot: PaperOrder, day: int)
    | ResolveRow(row: nat, snapshot: PaperOrder, venueId: string, day: int)
    | SettleRow(row: nat, snapshot: PaperOrder, venueId: string, day: int)

  /** Steps that bring no evidence about an order: these may come from anywhere. */
  predicate WithoutEvidence(step: Step) {
    && !step.PaperFill? && !step.Project? && !step.Resolve? && !step.Settle?
    && !(step.Finish? && step.response.Accepted?)
  }

  /** The trade id a fill is journaled under (`paper:` event `:` venue order). */
  function TradeLabel(eventId: string, venueId: Option<string>): string {
    "paper:" + eventId + ":" + if venueId.Some? then venueId.value else ""
  }

  /** The core half of one turn of the matching loop, on row `r` of order `o`. */
  function CoreTurn(j: Journal, o: nat, m: Matching, r: nat, price: real, eventId: string, day: int): Journal
    requires r < |m.orders|
  {
    var fill := FillOf(m.orders[r], price, m.left);
    if fill <= 0.0 || o >= |j.orders| then j
    else CoreFill(j, o, FilledRow(m.orders[r], price, fill, eventId), fill, price, TradeLabel(eventId, j.orders[o].venueId), day)
  }

  /** The core half of the whole loop. */
  function CoreHalf(j: Journal, owners: seq<nat>, m: Matching, rows: seq<nat>, price: real, eventId: string, day: int): Journal
    requires forall k | 0 <= k < |rows| :: rows[k] < |m.orders| && rows[k] < |owners|
    decreases |rows|
  {
    if rows == [] then j
    else
      var init, last := rows[..|rows| - 1], rows[|rows| - 1];
      var before := CoreHalf(j, owners, m, init, price, eventId, day);
      match MatchRows(m, init, price, eventId)
      case Err(_) => before
      case Ok(mid) => CoreTurn(before, owners[last], mid, last, price, eventId, day)
  }

  function Projected(w: World, eventId: string, tokenId: string, price: real, size: real, observedAt: int, day: int): Journal
    requires |w.owners| == |w.ledger.orders|
  {
    if eventId in w.ledger.events then w.system.journal
    else CoreHalf(w.system.journal, w.owners, StartMatching(w.ledger, tokenId, size),
                  OpenRows(w.ledger.orders, |w.ledger.orders|, tokenId, observedAt), price, eventId, day)
  }

  /** Evidence reaches the journal only as a step of the protocol on the row's own order. */
  function Report(w: World, r: nat, snapshot: PaperOrder, step: Step): Option<World>
  {
    if r < |w.owners| && (r, snapshot) in w.seen && Fire(w.system, step).Some?
    then Some(w.(system := Fire(w.system, step).value)) else None
  }

  ghost function Next(w: World, step: WorldStep): Option<World>
    requires |w.owners| == |w.ledger.orders|
  {
    match step
    case Core(step) =>
      if WithoutEvidence(step) && Fire(w.system, step).Some? then
        var t := Fire(w.system, step).value;
        Some(w.(system := t,
                answer := if w.system.holder.Called? && t.holder.Called? then w.answer else None,
                seen := if step.Crash? then {} else w.seen))
      else None
    case CommitPaper(request, market, book, walk, id, now) =>
      var s := w.system;
      if s.holder.Called? && s.holder.order < |s.journal.orders| && s.holder.order !in w.owners
         && Find(w.ledger.orders, id) == |w.ledger.orders|
         && SubmitFits(s.journal.orders[s.holder.order], PairStep.Submit(request, market, book, walk, id, now)) then
        var row := SubmittedOrder(request, market, walk, id, now);
        if CommitOrder(w.ledger, row).Ok?
        then Some(w.(ledger := CommitOrder(w.ledger, row).value, owners := w.owners + [s.holder.order], answer := Some(row)))
        else None
      else None
    case RecordAnswer(day) =>
      if w.answer.None? then None
      else
        var p := w.answer.value;
        var finish := Finish(Accepted(p.state, "paper", p.filled, p.AveragePrice(), p.tradeIds), day);
        if Fire(w.system, finish).Some? then Some(w.(system := Fire(w.system, finish).value, answer := None)) else None
    case MarketTrade(eventId, tokenId, price, size, observedAt, day) =>
      var result := ApplyTradeThrough(w.ledger, eventId, tokenId, price, size, observedAt);
      if w.system.holder.Down? || result.Err? then None
      else Some(w.(ledger := result.value,
                   system := w.system.(journal := Projected(w, eventId, tokenId, price, size, observedAt, day))))
    case CancelRow(id) =>
      if CancelOrder(w.ledger, id).Ok? then Some(w.(ledger := CancelOrder(w.ledger, id).value)) else None
    case ObserveRow(r) =>
      if r < |w.ledger.orders| then Some(w.(seen := w.seen + {(r, w.ledger.orders[r])})) else None
    case ProjectRow(r, p, day) =>
      if r >= |w.owners| then None else Report(w, r, p, Project(w.owners[r], ObservationOf(p), day))
    case ResolveRow(r, p, venueId, day) =>
      if r >= |w.owners| then None else Report(w, r, p, Step.Resolve(w.owners[r], venueId, ObservationOf(p), day))
    case SettleRow(r, p, venueId, day) =>
      if r >= |w.owners| then None else Report(w, r, p, Settle(w.owners[r], venueId, ObservationOf(p), day))
  }

  // ---------------------------------------------------------------------------------------------
  // The invariant
  // ---------------------------------------------------------------------------------------------

  /** Ledger row `p` is the exchange's side of order `o`, and the journal counts no fill it does not have. */
  predicate Follows(j: Journal, o: nat, p: PaperOrder) {
    o < |j.orders| && Plausible(p) && p.original == j.orders[o].original && CoreBehind(j.orders[o], p.filled)
  }

  predicate AllFollow(j: Journal, owners: seq<nat>, orders: seq<PaperOrder>) {
    |owners| == |orders| && forall r | 0 <= r < |owners| :: Follows(j, owners[r], orders[r])
  }

  predicate DistinctOwners(owners: seq<nat>) {
    forall q, r | 0 <= q < r < |owners| :: owners[q] != owners[r]
  }

  /** Orders the exchange has no row of have lost nothing. */
  predicate OthersUntouched(j: Journal, owners: seq<nat>) {
    forall o | 0 <= o < |j.orders| && o !in owners :: CoreBehind(j.orders[o], 0.0)
  }

  /** What is on its way was a row of the ledger, and the row has only moved on since. */
  ghost predicate Remembered(w: World)
    requires |w.owners| == |w.ledger.orders|
  {
    && (w.answer.Some? ==>
          && w.system.holder.Called?
          && forall r | 0 <= r < |w.owners| && w.owners[r] == w.system.holder.order :: Snapshot(w.answer.value, w.ledger.orders[r]))
    && (w.answer.Some? ==> w.system.holder.order in w.owners)
    && forall seen | seen in w.seen :: seen.0 < |w.owners| && Snapshot(seen.1, w.ledger.orders[seen.0])
  }

  ghost predicate WorldInv(w: World) {
    && AllFollow(w.system.journal, w.owners, w.ledger.orders)
    && DistinctOwners(w.owners) && OthersUntouched(w.system.journal, w.owners)
    && Remembered(w)
  }

  /** A step after which no row has changed in the ledger and no open order in what it has lost. */
  ghost predicate Still(a: Order, b: Order) {
    && b.original == a.original && b.remaining == a.remaining
    && (b.state.Active() ==> a.state.Active())
  }

  ghost predicate AllStill(a: Journal, b: Journal) {
    && |a.orders| <= |b.orders|
    && (forall o | 0 <= o < |a.orders| :: Still(a.orders[o], b.orders[o]))
    && (forall o | |a.orders| <= o < |b.orders| :: b.orders[o].remaining == b.orders[o].original >= 0.0)
  }

  lemma StillFollows(a: Journal, b: Journal, owners: seq<nat>, orders: seq<PaperOrder>)
    requires AllFollow(a, owners, orders) && OthersUntouched(a, owners) && AllStill(a, b)
    ensures AllFollow(b, owners, orders) && OthersUntouched(b, owners)
  {
    forall r | 0 <= r < |owners| ensures Follows(b, owners[r], orders[r]) {
      assert Follows(a, owners[r], orders[r]) && Still(a.orders[owners[r]], b.orders[owners[r]]);
    }
    forall o | 0 <= o < |b.orders| && o !in owners ensures CoreBehind(b.orders[o], 0.0) {
      if o < |a.orders| {
        assert CoreBehind(a.orders[o], 0.0) && Still(a.orders[o], b.orders[o]);
      }
    }
  }

  // ---------------------------------------------------------------------------------------------
  // Steps without evidence
  // ---------------------------------------------------------------------------------------------

  lemma SameOrdersStill(a: Journal, b: Journal)
    requires b.orders == a.orders
    ensures AllStill(a, b)
  {
  }

  lemma OutsideIsStill(s: System, step: Step)
    requires WithoutEvidence(step) && FireOutside(s, step).Some?
    ensures AllStill(s.journal, FireOutside(s, step).value.journal)
  {
  }

  lemma StartupIsStill(s: System, step: Step)
    requires Linked(s.journal) && FireStartup(s, step).Some?
    ensures AllStill(s.journal, FireStartup(s, step).value.journal)
  {
    if step.RecoverSubmissions? {
      RecoveryIsStill(s.journal);
    }
  }

  lemma RecoveryIsStill(j: Journal)
    requires Linked(j)
    ensures AllStill(j, RecoverInterrupted(j))
  {
    forall o | 0 <= o < |j.orders| ensures Still(j.orders[o], RecoverInterrupted(j).orders[o]) {
      InterruptedMeansSubmitting(j, o);
      assert RecoverInterrupted(j).orders[o] == UnknownOrder(j, o);
    }
  }

  lemma ReconciliationIsStill(s: System, step: Step)
    requires WithoutEvidence(step) && FireReconciliation(s, step).Some?
    ensures FireReconciliation(s, step).value.journal.orders == s.journal.orders
  {
  }

  lemma SubmissionIsStill(s: System, step: Step)
    requires OrderBounds.Sound(s.journal) && FireSubmission(s, step).Some? && !step.Finish?
    ensures AllStill(s.journal, FireSubmission(s, step).value.journal)
  {
    if s.holder.AtPreparing? && step.Prepare? {
      assert OrderBounds.SoundReservation(s.journal.intents[s.holder.intent]);
    }
  }

  lemma FireIsStill(s: System, step: Step)
    requires Linked(s.journal) && OrderBounds.Sound(s.journal)
    requires WithoutEvidence(step) && !step.Finish? && Fire(s, step).Some?
    ensures AllStill(s.journal, Fire(s, step).value.journal)
  {
    OthersKeepOrders(s, step);
    if FireOutside(s, step).Some? {
      OutsideIsStill(s, step);
    } else if FireStartup(s, step).Some? {
      StartupIsStill(s, step);
    } else if FireReconciliation(s, step).Some? {
      ReconciliationIsStill(s, step);
    } else if FireSubmission(s, step).Some? {
      SubmissionIsStill(s, step);
    }
    SameOrdersStill(s.journal, s.journal);
  }

  // ---------------------------------------------------------------------------------------------
  // Steps with evidence
  // ---------------------------------------------------------------------------------------------

  /** Order `o` alone is rewritten, and its row, if it has one, knows of at least what the journal now counts. */
  lemma RewriteFollows(a: Journal, b: Journal, o: nat, owners: seq<nat>, orders: seq<PaperOrder>)
    requires AllFollow(a, owners, orders) && OthersUntouched(a, owners)
    requires o < |a.orders| == |b.orders| && b.orders[o].original == a.orders[o].original
    requires forall k | 0 <= k < |a.orders| && k != o :: b.orders[k] == a.orders[k]
    requires forall r | 0 <= r < |owners| && owners[r] == o :: CoreBehind(b.orders[o], orders[r].filled)
    requires o !in owners ==> CoreBehind(b.orders[o], 0.0)
    ensures AllFollow(b, owners, orders) && OthersUntouched(b, owners)
  {
    forall r | 0 <= r < |owners| ensures Follows(b, owners[r], orders[r]) {
      assert Follows(a, owners[r], orders[r]);
    }
  }

  lemma FinishedFollows(j: Journal, i: nat, o: nat, unknown: bool, state: OrderState, venueId: Option<string>,
            filled: real, price: Option<real>, tradeIds: seq<string>, day: int, owners: seq<nat>, orders: seq<PaperOrder>)
    requires AllFollow(j, owners, orders) && OthersUntouched(j, owners)
    requires forall r | 0 <= r < |owners| && owners[r] == o :: filled <= orders[r].filled
    requires o !in owners ==> filled <= 0.0
    requires FinishSubmission(j, i, o, unknown, state, venueId, filled, price, tradeIds, day).Ok?
    ensures var next := FinishSubmission(j, i, o, unknown, state, venueId, filled, price, tradeIds, day).value;
            AllFollow(next, owners, orders) && OthersUntouched(next, owners)
  {
    var next := FinishSubmission(j, i, o, unknown, state, venueId, filled, price, tradeIds, day).value;
    FinishStaysBehind(j, i, o, unknown, state, venueId, filled, price, tradeIds, day, if o in owners then filled else 0.0);
    FinishRewrites(j, i, o, unknown, state, venueId, filled, price, tradeIds, day);
    forall r | 0 <= r < |owners| && owners[r] == o ensures CoreBehind(next.orders[o], orders[r].filled) {
      FinishStaysBehind(j, i, o, unknown, state, venueId, filled, price, tradeIds, day, orders[r].filled);
    }
    RewriteFollows(j, next, o, owners, orders);
  }

  lemma FinishRewrites(j: Journal, i: nat, o: nat, unknown: bool, state: OrderState, venueId: Option<string>,
            filled: real, price: Option<real>, tradeIds: seq<string>, day: int)
    requires FinishSubmission(j, i, o, unknown, state, venueId, filled, price, tradeIds, day).Ok?
    ensures o < |j.orders|
    ensures var next := FinishSubmission(j, i, o, unknown, state, venueId, filled, price, tradeIds, day).value;
            forall k | 0 <= k < |j.orders| && k != o :: next.orders[k] == j.orders[k]
  {
  }

  /** What the worker records of an answer: the row it was given, a rejection, or nothing known. */
  lemma FinishFollows(s: System, response: Response, day: int, owners: seq<nat>, orders: seq<PaperOrder>)
    requires AllFollow(s.journal, owners, orders) && OthersUntouched(s.journal, owners)
    requires FireSubmission(s, Finish(response, day)).Some?
    requires response.Accepted? ==>
      && s.holder.Called? && s.holder.order in owners
      && forall r | 0 <= r < |owners| && owners[r] == s.holder.order :: response.filled <= orders[r].filled
    ensures var t := FireSubmission(s, Finish(response, day)).value;
      AllFollow(t.journal, owners, orders) && OthersUntouched(t.journal, owners) && !t.holder.Called?
  {
    var j, t := s.journal, FireSubmission(s, Finish(response, day)).value;
    var (i, o) := (s.holder.intent, s.holder.order);
    forall r | 0 <= r < |owners| ensures 0.0 <= orders[r].filled {
      assert Follows(j, owners[r], orders[r]);
    }
    if t.journal != j {
      match response {
        case Accepted(state, venueId, filled, price, tradeIds) =>
          FinishedFollows(j, i, o, false, state, Some(venueId), filled, price, tradeIds, day, owners, orders);
        case DefiniteRejection =>
          FinishedFollows(j, i, o, false, OrderState.Rejected, None, 0.0, None, [], day, owners, orders);
        case Ambiguous =>
          FinishedFollows(j, i, o, true, OrderState.Unknown, Some(j.intents[i].prepared.value.orderKey), 0.0, None, [], day, owners, orders);
      }
    }
  }

  /** A row read earlier is projected, or settles an UNKNOWN order. */
  lemma ProjectionFollows(j: Journal, r: nat, p: PaperOrder, day: int, owners: seq<nat>, orders: seq<PaperOrder>)
    requires AllFollow(j, owners, orders) && OthersUntouched(j, owners) && DistinctOwners(owners)
    requires r < |owners| && Snapshot(p, orders[r]) && ReconcileProjection(j, owners[r], ObservationOf(p), day).Ok?
    ensures var next := ReconcileProjection(j, owners[r], ObservationOf(p), day).value;
            AllFollow(next, owners, orders) && OthersUntouched(next, owners)
  {
    assert Follows(j, owners[r], orders[r]);
    ProjectionStaysBehind(j, owners[r], p, orders[r], day);
    RewriteFollows(j, ReconcileProjection(j, owners[r], ObservationOf(p), day).value, owners[r], owners, orders);
  }

  lemma ResolutionFollows(j: Journal, r: nat, p: PaperOrder, venueId: string, day: int, owners: seq<nat>,
            orders: seq<PaperOrder>)
    requires AllFollow(j, owners, orders) && OthersUntouched(j, owners) && DistinctOwners(owners)
    requires r < |owners| && Snapshot(p, orders[r]) && ResolveUnknown(j, owners[r], venueId, ObservationOf(p), day).Ok?
    ensures var next := ResolveUnknown(j, owners[r], venueId, ObservationOf(p), day).value;
            AllFollow(next, owners, orders) && OthersUntouched(next, owners)
  {
    assert Follows(j, owners[r], orders[r]);
    ResolutionStaysBehind(j, owners[r], p, orders[r], venueId, day);
    ResolutionRewrites(j, owners[r], venueId, ObservationOf(p), day);
    RewriteFollows(j, ResolveUnknown(j, owners[r], venueId, ObservationOf(p), day).value, owners[r], owners, orders);
  }

  lemma ResolutionRewrites(j: Journal, o: nat, venueId: string, seen: Observation, day: int)
    requires ResolveUnknown(j, o, venueId, seen, day).Ok?
    ensures var next := ResolveUnknown(j, o, venueId, seen, day).value;
            |next.orders| == |j.orders| && forall k | 0 <= k < |j.orders| && k != o :: next.orders[k] == j.orders[k]
  {
  }

  // ---------------------------------------------------------------------------------------------
  // Fills
  // ---------------------------------------------------------------------------------------------

  predicate AllEvolve(a: seq<PaperOrder>, b: seq<PaperOrder>) {
    |a| == |b| && forall r | 0 <= r < |a| :: RowEvolves(a[r], b[r])
  }

  lemma AllEvolveTransitive(a: seq<PaperOrder>, b: seq<PaperOrder>, c: seq<PaperOrder>)
    requires AllEvolve(a, b) && AllEvolve(b, c)
    ensures AllEvolve(a, c)
  {
    forall r | 0 <= r < |a| ensures RowEvolves(a[r], c[r]) {
      assert RowEvolves(a[r], b[r]) && RowEvolves(b[r], c[r]);
    }
  }

  /** One turn of the matching loop fills row `r` and nothing else. */
  lemma TurnFills(m: Matching, r: nat, price: real, eventId: string)
    requires r < |m.orders| && MatchRow(m, r, price, eventId).Ok?
    ensures var fill := FillOf(m.orders[r], price, m.left);
            MatchRow(m, r, price, eventId).value.orders
            == if fill <= 0.0 then m.orders else m.orders[r := FilledRow(m.orders[r], price, fill, eventId)]
  {
  }

  /** The journal takes the fill as a step of the protocol, without any check of its own that could fail. */
  lemma TurnIsStep(s: System, o: nat, m: Matching, r: nat, price: real, eventId: string, day: int) returns (steps: seq<Step>)
    requires !s.holder.Down? && r < |m.orders| && Follows(s.journal, o, m.orders[r]) && 0.0 < price < 1.0
    requires FillOf(m.orders[r], price, m.left) > 0.0
    ensures Path(s, steps, s.(journal := CoreTurn(s.journal, o, m, r, price, eventId, day)))
  {
    var p, fill := m.orders[r], FillOf(m.orders[r], price, m.left);
    var row, key := FilledRow(p, price, fill, eventId), TradeLabel(eventId, s.journal.orders[o].venueId);
    CoreFillStaysBehind(s.journal, o, p, price, m.left, eventId, key, day);
    EmptyPath(s);
    steps := [];
    if s.journal.orders[o].venueId.Some? && s.journal.orders[o].state.Open() {
      var step := Step.PaperFill(o, row.state, row.remaining, fill, price, key, day);
      OutsidePath(s, [], s, step, s.(journal := ProjectPaperFill(s.journal, o, row.state, row.remaining, fill, price, key, day)));
      steps := [] + [step];
    }
  }

  lemma TurnFollows(j: Journal, owners: seq<nat>, m: Matching, r: nat, price: real, eventId: string, day: int)
    requires AllFollow(j, owners, m.orders) && OthersUntouched(j, owners) && DistinctOwners(owners)
    requires r < |owners| && 0.0 < price < 1.0 && MatchRow(m, r, price, eventId).Ok?
    ensures var next := MatchRow(m, r, price, eventId).value.orders;
      && AllFollow(CoreTurn(j, owners[r], m, r, price, eventId, day), owners, next)
      && OthersUntouched(CoreTurn(j, owners[r], m, r, price, eventId, day), owners)
      && AllEvolve(m.orders, next)
  {
    var p, fill := m.orders[r], FillOf(m.orders[r], price, m.left);
    assert Follows(j, owners[r], p);
    TurnFills(m, r, price, eventId);
    if fill > 0.0 {
      var next := m.orders[r := FilledRow(p, price, fill, eventId)];
      FilledIsPlausible(p, price, m.left, eventId);
      CoreFillStaysBehind(j, owners[r], p, price, m.left, eventId, TradeLabel(eventId, j.orders[owners[r]].venueId), day);
      CoreTurnRewrites(j, owners[r], m, r, price, eventId, day);
      forall q | 0 <= q < |owners| ensures Follows(CoreTurn(j, owners[r], m, r, price, eventId, day), owners[q], next[q]) {
        assert Follows(j, owners[q], m.orders[q]);
      }
    }
  }

  lemma CoreTurnRewrites(j: Journal, o: nat, m: Matching, r: nat, price: real, eventId: string, day: int)
    requires r < |m.orders|
    ensures var next := CoreTurn(j, o, m, r, price, eventId, day);
            |next.orders| == |j.orders| && forall k | 0 <= k < |j.orders| && k != o :: next.orders[k] == j.orders[k]
  {
  }

  /** The whole loop: its core half is a path of the protocol, turn by turn. */
  lemma {:induction false} LoopIsPath(s: System, owners: seq<nat>, m: Matching, rows: seq<nat>, price: real, eventId: string,
            day: int) returns (steps: seq<Step>)
    requires !s.holder.Down? && 0.0 < price < 1.0
    requires AllFollow(s.journal, owners, m.orders) && OthersUntouched(s.journal, owners) && DistinctOwners(owners)
    requires forall k | 0 <= k < |rows| :: rows[k] < |m.orders|
    requires MatchRows(m, rows, price, eventId).Ok?
    ensures var j, next := CoreHalf(s.journal, owners, m, rows, price, eventId, day), MatchRows(m, rows, price, eventId).value.orders;
      && Path(s, steps, s.(journal := j))
      && AllFollow(j, owners, next) && OthersUntouched(j, owners) && AllEvolve(m.orders, next)
    decreases |rows|
  {
    if rows == [] {
      EmptyPath(s);
      steps := [];
    } else {
      var init, last := rows[..|rows| - 1], rows[|rows| - 1];
      steps := LoopIsPath(s, owners, m, init, price, eventId, day);
      var mid, j := MatchRows(m, init, price, eventId).value, CoreHalf(s.journal, owners, m, init, price, eventId, day);
      var more := TurnPath(s.(journal := j), owners, mid, last, price, eventId, day);
      PathJoin(s, steps, s.(journal := j), more, s.(journal := CoreTurn(j, owners[last], mid, last, price, eventId, day)));
      steps := steps + more;
      TurnFollows(j, owners, mid, last, price, eventId, day);
      AllEvolveTransitive(m.orders, mid.orders, MatchRow(mid, last, price, eventId).value.orders);
    }
  }

  lemma TurnPath(s: System, owners: seq<nat>, m: Matching, r: nat, price: real, eventId: string, day: int)
    returns (steps: seq<Step>)
    requires !s.holder.Down? && AllFollow(s.journal, owners, m.orders) && r < |owners| && 0.0 < price < 1.0
    ensures Path(s, steps, s.(journal := CoreTurn(s.journal, owners[r], m, r, price, eventId, day)))
  {
    assert Follows(s.journal, owners[r], m.orders[r]);
    if FillOf(m.orders[r], price, m.left) > 0.0 {
      steps := TurnIsStep(s, owners[r], m, r, price, eventId, day);
    } else {
      EmptyPath(s);
      steps := [];
    }
  }

  // ---------------------------------------------------------------------------------------------
  // Steps of the world
  // ---------------------------------------------------------------------------------------------

  /** One step of the world: a path of the protocol, at most one transaction of the ledger, and the invariant. */
  ghost predicate Follow(w: World, v: World) {
    && WorldInv(v)
    && (exists steps :: Path(w.system, steps, v.system))
    && (v.ledger == w.ledger || exists step :: LedgerStep(w.ledger, step, v.ledger))
  }

  ghost predicate LedgerStep(a: Ledger, step: PaperStep, b: Ledger) {
    Admissible(step) && b == After(a, step)
  }

  /** Rows that have moved on keep every earlier row a snapshot. */
  lemma MovedOnRemembers(w: World, v: World)
    requires |w.owners| == |w.ledger.orders| && |v.owners| == |v.ledger.orders| && Remembered(w)
    requires w.owners <= v.owners && DistinctOwners(v.owners)
    requires forall r | 0 <= r < |w.owners| :: RowEvolves(w.ledger.orders[r], v.ledger.orders[r])
    requires v.seen <= w.seen && (v.answer.None? || (v.answer == w.answer && v.system.holder == w.system.holder))
    ensures Remembered(v)
  {
    if v.answer.Some? {
      forall r | 0 <= r < |v.owners| && v.owners[r] == v.system.holder.order
        ensures Snapshot(v.answer.value, v.ledger.orders[r])
      {
        var q :| 0 <= q < |w.owners| && w.owners[q] == w.system.holder.order;
        assert v.owners[q] == w.owners[q];
        assert Snapshot(w.answer.value, w.ledger.orders[q]) && RowEvolves(w.ledger.orders[q], v.ledger.orders[q]);
      }
    }
    forall seen | seen in v.seen ensures seen.0 < |v.owners| && Snapshot(seen.1, v.ledger.orders[seen.0]) {
      assert Snapshot(seen.1, w.ledger.orders[seen.0]) && RowEvolves(w.ledger.orders[seen.0], v.ledger.orders[seen.0]);
    }
  }

  lemma CalledStays(s: System, step: Step)
    requires Fire(s, step).Some? && s.holder.Called? && Fire(s, step).value.holder.Called?
    ensures Fire(s, step).value.holder == s.holder
  {
  }

  lemma OneStep(s: System, step: Step)
    requires Fire(s, step).Some?
    ensures Path(s, [step], Fire(s, step).value)
  {
    EmptyPath(s);
    PathStep(s, [], s, step, Fire(s, step).value);
    assert [] + [step] == [step];
  }

  lemma FinishIsSubmission(s: System, response: Response, day: int)
    requires Fire(s, Finish(response, day)).Some?
    ensures s.holder.Called? && FireSubmission(s, Finish(response, day)) == Fire(s, Finish(response, day))
  {
  }

  lemma CoreFollows(w: World, step: Step)
    requires WorldInv(w) && Inv(w.system) && OrderBounds.Sound(w.system.journal) && Next(w, WorldStep.Core(step)).Some?
    ensures Follow(w, Next(w, WorldStep.Core(step)).value)
  {
    var v := Next(w, WorldStep.Core(step)).value;
    OneStep(w.system, step);
    if step.Finish? {
      FinishIsSubmission(w.system, step.response, step.day);
      FinishFollows(w.system, step.response, step.day, w.owners, w.ledger.orders);
    } else {
      FireIsStill(w.system, step);
      StillFollows(w.system.journal, v.system.journal, w.owners, w.ledger.orders);
    }
    if v.answer.Some? {
      CalledStays(w.system, step);
    }
    MovedOnRemembers(w, v);
  }

  lemma CommitFollows(w: World, step: WorldStep)
    requires WorldInv(w) && step.CommitPaper? && Next(w, step).Some?
    ensures Follow(w, Next(w, step).value)
  {
    var v, o := Next(w, step).value, w.system.holder.order;
    var submit := PairStep.Submit(step.request, step.market, step.book, step.walk, step.id, step.now);
    var row := SubmittedOrder(step.request, step.market, step.walk, step.id, step.now);
    SubmittedIsPlausible(w.system.journal.orders[o], submit);
    assert CoreBehind(w.system.journal.orders[o], 0.0);
    assert Follows(w.system.journal, o, row);
    CommitAppends(w.ledger, row);
    PlacedFollows(w, o, row);
    PlacedIsRemembered(w, v, row);
    EmptyPath(w.system);
    var commit := PaperStep.Submit(step.request, step.market, step.book, step.walk, step.id, step.now);
    assert LedgerStep(w.ledger, commit, v.ledger);
  }

  lemma PlacedFollows(w: World, o: nat, row: PaperOrder)
    requires WorldInv(w) && Follows(w.system.journal, o, row) && o !in w.owners
    ensures AllFollow(w.system.journal, w.owners + [o], w.ledger.orders + [row])
    ensures DistinctOwners(w.owners + [o]) && OthersUntouched(w.system.journal, w.owners + [o])
  {
    var owners, orders := w.owners + [o], w.ledger.orders + [row];
    forall r | 0 <= r < |owners| ensures Follows(w.system.journal, owners[r], orders[r]) {
      if r < |w.owners| {
        assert Follows(w.system.journal, w.owners[r], w.ledger.orders[r]);
      }
    }
  }

  lemma PlacedIsRemembered(w: World, v: World, row: PaperOrder)
    requires WorldInv(w) && w.system.holder.Called? && w.system.holder.order !in w.owners && Plausible(row)
    requires v.system == w.system && v.owners == w.owners + [w.system.holder.order]
    requires v.ledger.orders == w.ledger.orders + [row] && v.answer == Some(row) && v.seen == w.seen
    ensures Remembered(v)
  {
    assert forall r | 0 <= r < |w.owners| :: w.owners[r] in w.owners && v.owners[r] == w.owners[r];
    forall r | 0 <= r < |v.owners| && v.owners[r] == v.system.holder.order ensures Snapshot(row, v.ledger.orders[r]) {
    }
    assert v.owners[|w.owners|] == v.system.holder.order;
    forall seen | seen in v.seen ensures seen.0 < |v.owners| && Snapshot(seen.1, v.ledger.orders[seen.0]) {
      assert Snapshot(seen.1, w.ledger.orders[seen.0]);
    }
  }

  lemma CommitAppends(l: Ledger, row: PaperOrder)
    requires Find(l.orders, row.id) == |l.orders| && CommitOrder(l, row).Ok?
    ensures CommitOrder(l, row).value.orders == l.orders + [row]
  {
  }

  lemma AnswerFollows(w: World, day: int)
    requires WorldInv(w) && Next(w, RecordAnswer(day)).Some?
    ensures Follow(w, Next(w, RecordAnswer(day)).value)
  {
    var v, p := Next(w, RecordAnswer(day)).value, w.answer.value;
    var response := Accepted(p.state, "paper", p.filled, p.AveragePrice(), p.tradeIds);
    OneStep(w.system, Finish(response, day));
    FinishIsSubmission(w.system, response, day);
    FinishFollows(w.system, response, day, w.owners, w.ledger.orders);
    MovedOnRemembers(w, v);
  }

  lemma TradeFollows(w: World, step: WorldStep)
    requires WorldInv(w) && step.MarketTrade? && Next(w, step).Some?
    ensures Follow(w, Next(w, step).value)
  {
    var v := Next(w, step).value;
    var trade := PaperStep.Trade(step.eventId, step.tokenId, step.price, step.size, step.observedAt);
    assert LedgerStep(w.ledger, trade, v.ledger);
    if step.eventId in w.ledger.events {
      EmptyPath(w.system);
    } else {
      var rows := OpenRows(w.ledger.orders, |w.ledger.orders|, step.tokenId, step.observedAt);
      var steps := LoopIsPath(w.system, w.owners, StartMatching(w.ledger, step.tokenId, step.size), rows, step.price,
                              step.eventId, step.day);
    }
    MovedOnRemembers(w, v);
  }

  lemma CancelFollows(w: World, id: nat)
    requires WorldInv(w) && Next(w, CancelRow(id)).Some?
    ensures Follow(w, Next(w, CancelRow(id)).value)
  {
    var v, k := Next(w, CancelRow(id)).value, Find(w.ledger.orders, id);
    assert LedgerStep(w.ledger, PaperStep.Cancel(id), v.ledger);
    EmptyPath(w.system);
    assert Follows(w.system.journal, w.owners[k], w.ledger.orders[k]);
    forall r | 0 <= r < |v.owners|
      ensures Follows(v.system.journal, v.owners[r], v.ledger.orders[r]) && RowEvolves(w.ledger.orders[r], v.ledger.orders[r])
    {
      assert Follows(w.system.journal, w.owners[r], w.ledger.orders[r]);
    }
    MovedOnRemembers(w, v);
  }

  lemma ObservationFollows(w: World, r: nat)
    requires WorldInv(w) && Next(w, ObserveRow(r)).Some?
    ensures Follow(w, Next(w, ObserveRow(r)).value)
  {
    EmptyPath(w.system);
    assert Follows(w.system.journal, w.owners[r], w.ledger.orders[r]);
    var v := Next(w, ObserveRow(r)).value;
    forall seen | seen in v.seen ensures seen.0 < |v.owners| && Snapshot(seen.1, v.ledger.orders[seen.0]) {
    }
  }

  /** What a step with a snapshot does: the transaction on the row's order, committed or refused. */
  lemma ProjectIs(s: System, o: nat, seen: Observation, day: int)
    requires Fire(s, Project(o, seen, day)).Some?
    ensures Fire(s, Project(o, seen, day)).value == Outside(s, ReconcileProjection(s.journal, o, seen, day))
  {
  }

  lemma ResolveIs(s: System, o: nat, venueId: string, seen: Observation, day: int)
    requires Fire(s, Step.Resolve(o, venueId, seen, day)).Some?
    ensures Fire(s, Step.Resolve(o, venueId, seen, day)).value == Outside(s, ResolveUnknown(s.journal, o, venueId, seen, day))
  {
  }

  lemma SettleIs(s: System, o: nat, venueId: string, seen: Observation, day: int)
    requires Fire(s, Settle(o, venueId, seen, day)).Some?
    ensures !s.holder.Called?
    ensures var t := Fire(s, Settle(o, venueId, seen, day)).value;
      if ResolveUnknown(s.journal, o, venueId, seen, day).Ok?
      then t.journal == ResolveUnknown(s.journal, o, venueId, seen, day).value
      else t.journal.orders == s.journal.orders
  {
    assert FireReconciliation(s, Settle(o, venueId, seen, day)).Some?;
  }

  lemma ReportFollows(w: World, steps: seq<Step>, t: System)
    requires WorldInv(w) && Path(w.system, steps, t) && (t.holder == w.system.holder || w.answer.None?)
    requires AllFollow(t.journal, w.owners, w.ledger.orders) && OthersUntouched(t.journal, w.owners)
    ensures Follow(w, w.(system := t))
  {
    MovedOnRemembers(w, w.(system := t));
  }

  lemma ProjectFollows(w: World, r: nat, p: PaperOrder, day: int)
    requires WorldInv(w) && r < |w.owners| && (r, p) in w.seen && Fire(w.system, Project(w.owners[r], ObservationOf(p), day)).Some?
    ensures Follow(w, w.(system := Fire(w.system, Project(w.owners[r], ObservationOf(p), day)).value))
  {
    var j, o, seen := w.system.journal, w.owners[r], ObservationOf(p);
    ProjectIs(w.system, o, seen, day);
    if ReconcileProjection(j, o, seen, day).Ok? {
      ProjectionFollows(j, r, p, day, w.owners, w.ledger.orders);
    }
    OneStep(w.system, Project(o, seen, day));
    ReportFollows(w, [Project(o, seen, day)], Outside(w.system, ReconcileProjection(j, o, seen, day)));
  }

  lemma ResolveFollows(w: World, r: nat, p: PaperOrder, venueId: string, day: int)
    requires WorldInv(w) && r < |w.owners| && (r, p) in w.seen
    requires Fire(w.system, Step.Resolve(w.owners[r], venueId, ObservationOf(p), day)).Some?
    ensures Follow(w, w.(system := Fire(w.system, Step.Resolve(w.owners[r], venueId, ObservationOf(p), day)).value))
  {
    var j, o, seen := w.system.journal, w.owners[r], ObservationOf(p);
    ResolveIs(w.system, o, venueId, seen, day);
    if ResolveUnknown(j, o, venueId, seen, day).Ok? {
      ResolutionFollows(j, r, p, venueId, day, w.owners, w.ledger.orders);
    }
    OneStep(w.system, Step.Resolve(o, venueId, seen, day));
    ReportFollows(w, [Step.Resolve(o, venueId, seen, day)], Outside(w.system, ResolveUnknown(j, o, venueId, seen, day)));
  }

  lemma SettleFollows(w: World, r: nat, p: PaperOrder, venueId: string, day: int)
    requires WorldInv(w) && r < |w.owners| && (r, p) in w.seen
    requires Fire(w.system, Settle(w.owners[r], venueId, ObservationOf(p), day)).Some?
    ensures Follow(w, w.(system := Fire(w.system, Settle(w.owners[r], venueId, ObservationOf(p), day)).value))
  {
    var j, o, seen := w.system.journal, w.owners[r], ObservationOf(p);
    var t := Fire(w.system, Settle(o, venueId, seen, day)).value;
    SettleIs(w.system, o, venueId, seen, day);
    if ResolveUnknown(j, o, venueId, seen, day).Ok? {
      ResolutionFollows(j, r, p, venueId, day, w.owners, w.ledger.orders);
    } else {
      StillFollows(j, t.journal, w.owners, w.ledger.orders);
    }
    OneStep(w.system, Settle(o, venueId, seen, day));
    ReportFollows(w, [Settle(o, venueId, seen, day)], t);
  }

  lemma NextFollows(w: World, step: WorldStep)
    requires WorldInv(w) && Inv(w.system) && OrderBounds.Sound(w.system.journal) && Next(w, step).Some?
    ensures Follow(w, Next(w, step).value)
  {
    match step {
      case Core(core) => CoreFollows(w, core);
      case CommitPaper(_, _, _, _, _, _) => CommitFollows(w, step);
      case RecordAnswer(day) => AnswerFollows(w, day);
      case MarketTrade(_, _, _, _, _, _) => TradeFollows(w, step);
      case CancelRow(id) => CancelFollows(w, id);
      case ObserveRow(r) => ObservationFollows(w, r);
      case ProjectRow(r, p, day) => ProjectFollows(w, r, p, day);
      case ResolveRow(r, p, venueId, day) => ResolveFollows(w, r, p, venueId, day);
      case SettleRow(r, p, venueId, day) => SettleFollows(w, r, p, venueId, day);
    }
  }

  // ---------------------------------------------------------------------------------------------
  // Runs of the world
  // ---------------------------------------------------------------------------------------------

  ghost predicate Start(w: World) {
    Protocol.Initial(w.system) && Opened(w.ledger) && w.owners == [] && w.answer.None? && w.seen == {}
  }

  ghost predicate WorldRun(worlds: seq<World>, steps: seq<WorldStep>) {
    && |worlds| == |steps| + 1 && Start(worlds[0])
    && forall k {:trigger steps[k]} | 0 <= k < |steps| ::
         |worlds[k].owners| == |worlds[k].ledger.orders| && Next(worlds[k], steps[k]) == Some(worlds[k + 1])
  }

  ghost predicate Reached(start: System, s: System) {
    exists states: seq<System>, steps: seq<Step> :: Run(states, steps) && states[0] == start && states[|steps|] == s
  }

  lemma ReachedOn(start: System, s: System, more: seq<Step>, t: System)
    requires Reached(start, s) && Path(s, more, t)
    ensures Reached(start, t)
  {
    var states: seq<System>, steps: seq<Step> :| Run(states, steps) && states[0] == start && states[|steps|] == s;
    var extended := PathExtendsRun(states, steps, more, t);
    assert extended[0] == start && extended[|steps + more|] == t;
  }

  lemma ReachedIsSound(start: System, s: System)
    requires Reached(start, s)
    ensures Inv(s) && OrderBounds.Sound(s.journal)
  {
    var states: seq<System>, steps: seq<Step> :| Run(states, steps) && states[0] == start && states[|steps|] == s;
    RunKeepsInv(states, steps, |steps|);
    RunIsSound(states, steps, |steps|);
  }

  lemma StartIsReached(w: World)
    requires Start(w)
    ensures WorldInv(w) && Reached(w.system, w.system)
  {
    var none: seq<Step> := [];
    assert Run([w.system], none) && [w.system][|none|] == w.system;
  }

  /** Every world of a run holds a state some run of the protocol ends in: no fill and no evidence steps outside it. */
  lemma {:induction false} WorldIsReached(worlds: seq<World>, steps: seq<WorldStep>, k: nat)
    requires WorldRun(worlds, steps) && k < |worlds|
    ensures WorldInv(worlds[k]) && Reached(worlds[0].system, worlds[k].system)
  {
    if k == 0 {
      StartIsReached(worlds[0]);
    } else {
      WorldIsReached(worlds, steps, k - 1);
      var more := WorldPath(worlds, steps, k - 1);
      ReachedOn(worlds[0].system, worlds[k - 1].system, more, worlds[k].system);
    }
  }

  lemma WorldPath(worlds: seq<World>, steps: seq<WorldStep>, k: nat) returns (more: seq<Step>)
    requires WorldRun(worlds, steps) && k < |steps|
    requires WorldInv(worlds[k]) && Reached(worlds[0].system, worlds[k].system)
    ensures Follow(worlds[k], worlds[k + 1]) && Path(worlds[k].system, more, worlds[k + 1].system)
  {
    ReachedIsSound(worlds[0].system, worlds[k].system);
    assert Next(worlds[k], steps[k]) == Some(worlds[k + 1]);
    NextFollows(worlds[k], steps[k]);
    more :| Path(worlds[k].system, more, worlds[k + 1].system);
  }

  lemma WorldReachedPath(worlds: seq<World>, steps: seq<WorldStep>, k: nat) returns (more: seq<Step>)
    requires WorldRun(worlds, steps) && k < |steps|
    ensures Path(worlds[k].system, more, worlds[k + 1].system)
  {
    WorldIsReached(worlds, steps, k);
    more := WorldPath(worlds, steps, k);
  }

  lemma {:induction false} WorldPathBetween(worlds: seq<World>, steps: seq<WorldStep>, k: nat, l: nat) returns (more: seq<Step>)
    requires WorldRun(worlds, steps) && k <= l < |worlds|
    ensures Path(worlds[k].system, more, worlds[l].system)
  {
    if k == l {
      EmptyPath(worlds[k].system);
      more := [];
    } else {
      var before := WorldPathBetween(worlds, steps, k, l - 1);
      var last := WorldReachedPath(worlds, steps, l - 1);
      PathJoin(worlds[k].system, before, worlds[l - 1].system, last, worlds[l].system);
      more := before + last;
    }
  }

  /** The exchange's half is a run of the ledger. */
  lemma {:induction false} WorldLedgers(worlds: seq<World>, steps: seq<WorldStep>, k: nat)
    returns (ledgers: seq<Ledger>, moves: seq<PaperStep>)
    requires WorldRun(worlds, steps) && k < |worlds|
    ensures LedgerRun(ledgers, moves) && ledgers[0] == worlds[0].ledger && ledgers[|moves|] == worlds[k].ledger
  {
    if k == 0 {
      ledgers, moves := [worlds[0].ledger], [];
    } else {
      ledgers, moves := WorldLedgers(worlds, steps, k - 1);
      WorldIsReached(worlds, steps, k - 1);
      var _ := WorldPath(worlds, steps, k - 1);
      if worlds[k].ledger != worlds[k - 1].ledger {
        var move :| LedgerStep(worlds[k - 1].ledger, move, worlds[k].ledger);
        ledgers, moves := LedgerNext(ledgers, moves, move);
      }
    }
  }

  lemma LedgerNext(ledgers: seq<Ledger>, moves: seq<PaperStep>, move: PaperStep)
    returns (extended: seq<Ledger>, longer: seq<PaperStep>)
    requires LedgerRun(ledgers, moves) && Admissible(move)
    ensures LedgerRun(extended, longer) && extended[0] == ledgers[0] && extended[|longer|] == After(ledgers[|moves|], move)
  {
    extended, longer := ledgers + [After(ledgers[|moves|], move)], moves + [move];
    forall k | 0 <= k < |longer| ensures Admissible(longer[k]) && extended[k + 1] == After(extended[k], longer[k]) {
      if k < |moves| {
        assert longer[k] == moves[k];
      }
    }
  }

  // ---------------------------------------------------------------------------------------------
  // The guarantees of both
  // ---------------------------------------------------------------------------------------------

  /** The risk limits hold whatever the exchange fills: no assumption on fills is left. */
  lemma LimitsHoldOverPaper(worlds: seq<World>, steps: seq<WorldStep>, k: nat)
    requires WorldRun(worlds, steps) && k < |worlds|
    requires WithinLimits(worlds[0].system.journal, worlds[0].system.policy)
    ensures WithinLimits(worlds[k].system.journal, worlds[0].system.policy)
  {
    WorldIsReached(worlds, steps, k);
    var states: seq<System>, moves: seq<Step> :|
      Run(states, moves) && states[0] == worlds[0].system && states[|moves|] == worlds[k].system;
    LimitsHoldInEveryState(states, moves, |moves|);
  }

  /** So do the quantities, between any two worlds of a run. */
  lemma QuantitiesDescendOverPaper(worlds: seq<World>, steps: seq<WorldStep>, k: nat, l: nat)
    requires WorldRun(worlds, steps) && k <= l < |worlds|
    ensures Descends(worlds[k].system.journal, worlds[l].system.journal)
    ensures OrderBounds.Sound(worlds[l].system.journal)
  {
    WorldIsReached(worlds, steps, k);
    var more := WorldPathBetween(worlds, steps, k, l);
    var states: seq<System>, moves: seq<Step> :|
      Run(states, moves) && states[0] == worlds[0].system && states[|moves|] == worlds[k].system;
    var extended := PathExtendsRun(states, moves, more, worlds[l].system);
    assert extended[|moves|] == states[|moves|];
    QuantitiesOnlyDescend(extended, moves + more, |moves|, |moves + more|);
    RunIsSound(extended, moves + more, |moves + more|);
  }

  /**
   In every world the books of the exchange balance, each of its rows belongs to one order of the journal, and
   the journal counts no more of an order that is open, or has something remaining, than the row has filled.
   */
  lemma JournalNeverAheadOfExchange(worlds: seq<World>, steps: seq<WorldStep>, k: nat)
    requires WorldRun(worlds, steps) && k < |worlds|
    ensures Balanced(worlds[k].ledger) && DistinctOwners(worlds[k].owners) && |worlds[k].owners| == |worlds[k].ledger.orders|
    ensures forall r | 0 <= r < |worlds[k].owners| ::
      Follows(worlds[k].system.journal, worlds[k].owners[r], worlds[k].ledger.orders[r])
  {
    WorldIsReached(worlds, steps, k);
    var ledgers, moves := WorldLedgers(worlds, steps, k);
    LedgerIsAlwaysBalanced(ledgers, moves, |moves|);
  }

  /** A market trade with valid fields always goes through, on both sides. */
  lemma TradeAlwaysGoesThrough(worlds: seq<World>, steps: seq<WorldStep>, k: nat, step: WorldStep)
    requires WorldRun(worlds, steps) && k < |worlds| && step.MarketTrade? && !worlds[k].system.holder.Down?
    requires step.eventId != "" && step.tokenId != "" && 0.0 < step.price < 1.0 && step.size > 0.0
    ensures |worlds[k].owners| == |worlds[k].ledger.orders| && Next(worlds[k], step).Some?
  {
    JournalNeverAheadOfExchange(worlds, steps, k);
    TradeThroughKeepsBalance(worlds[k].ledger, step.eventId, step.tokenId, step.price, step.size, step.observedAt);
  }
}
