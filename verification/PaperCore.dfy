/**
 One order seen twice: the journal's row and the paper exchange's row, between the venue call and the
 end of both. Fills, answers, snapshots, crashes and recoveries interleave freely.
 */
module PaperCore {
  import opened Wrappers
  import opened Domain
  import opened Sums
  import opened Journal
  import opened WalkBook
  import opened PaperLedger
  import opened PaperBalance
  import opened PaperOrders
  import opened Protocol

  /** `answer` is the venue's reply on its way back; `seen` are the snapshots read and not yet used. */
  datatype Pair = Pair(journal: Journal, paper: Option<PaperOrder>, answer: Option<PaperOrder>, seen: set<PaperOrder>)

  datatype PairStep =
    | Submit(request: Request, market: MarketRules, book: OrderBook, walk: PaperFill, id: nat, now: int)
    | Refuse(day: int)
    | FinishAnswered(day: int)
    | FinishAmbiguous(key: string, day: int)
    | Crash
    | Recover
    | Fill(price: real, left: real, eventId: string, day: int)
    | CancelPaper
    | Observe
    | Reconcile(snapshot: PaperOrder, day: int)
    | Resolve(snapshot: PaperOrder, venueId: string, day: int)
    | Transition(state: OrderState)
    | Elsewhere(next: Journal)

  function ObservationOf(p: PaperOrder): Observation {
    Observation(p.state, p.remaining, p.filled, p.AveragePrice(), p.tradeIds)
  }

  /** Level prices are market prices on the tick grid's positive part. */
  predicate PricedLevels(levels: seq<PriceLevel>, tick: real) {
    forall level | level in levels :: 0.0 < tick <= level.price < 1.0 && level.size >= 0.0
  }

  /** The venue is called with the tick size the reservation was computed with. */
  ghost predicate SubmitFits(core: Order, step: PairStep)
    requires step.Submit?
  {
    && step.request.QuantityDecimal().Some? && step.request.ProtectionPrice().Some?
    && ValidRules(step.market)
    && PricedLevels(step.book.asks, step.market.tickSize) && PricedLevels(step.book.bids, step.market.tickSize)
    && WalkedFor(step.request, step.market, step.book, step.walk)
    && SubmittedOrder(step.request, step.market, step.walk, step.id, step.now).original == core.original
  }

  function Kept(j: Journal, result: Result<Journal, Refusal>): Journal {
    if result.Ok? then result.value else j
  }

  /** The core half of a fill: the row is looked up by its venue id, which it may not have yet. */
  function CoreFill(j: Journal, o: nat, p: PaperOrder, fill: real, price: real, eventId: string, day: int): Journal
    requires o < |j.orders|
  {
    if j.orders[o].venueId.None? then j
    else ProjectPaperFill(j, o, p.state, p.remaining, fill, price, eventId, day)
  }

  /** The next state, or None when the step cannot happen. Order `o` belongs to intent `i`. */
  ghost function Next(s: Pair, i: nat, o: nat, step: PairStep): Option<Pair>
    requires o < |s.journal.orders|
  {
    var core := s.journal.orders[o];
    match step
    case Submit(request, market, book, walk, id, now) =>
      if s.paper.None? && core.state.Submitting? && SubmitFits(core, step) then
        var row := SubmittedOrder(request, market, walk, id, now);
        Some(s.(paper := Some(row), answer := Some(row)))
      else None
    case Refuse(day) =>
      if s.paper.Some? then None
      else Some(s.(journal := Kept(s.journal,
        FinishSubmission(s.journal, i, o, false, OrderState.Rejected, None, 0.0, None, [], day))))
    case FinishAnswered(day) =>
      if s.answer.None? then None
      else
        var p := s.answer.value;
        Some(s.(answer := None, journal := Kept(s.journal,
          FinishSubmission(s.journal, i, o, false, p.state, Some("paper"), p.filled, p.AveragePrice(), p.tradeIds, day))))
    case FinishAmbiguous(key, day) =>
      Some(s.(answer := None, journal := Kept(s.journal,
        FinishSubmission(s.journal, i, o, true, OrderState.Unknown, Some(key), 0.0, None, [], day))))
    case Crash => Some(s.(answer := None, seen := {}))
    case Recover => Some(s.(journal := RecoverInterrupted(s.journal)))
    case Fill(price, left, eventId, day) =>
      if s.paper.Some? && Resting(s.paper.value) && 0.0 < price < 1.0 && FillOf(s.paper.value, price, left) > 0.0 then
        var fill := FillOf(s.paper.value, price, left);
        var row := FilledRow(s.paper.value, price, fill, eventId);
        Some(s.(paper := Some(row), journal := CoreFill(s.journal, o, row, fill, price, eventId, day)))
      else None
    case CancelPaper =>
      if s.paper.Some? && !s.paper.value.state.Terminal() then Some(s.(paper := Some(CancelledRow(s.paper.value)))) else None
    case Observe => if s.paper.Some? then Some(s.(seen := s.seen + {s.paper.value})) else None
    case Reconcile(p, day) =>
      if p in s.seen && !core.state.Submitting? then Some(s.(journal := Kept(s.journal, ReconcileProjection(s.journal, o, ObservationOf(p), day)))) else None
    case Resolve(p, venueId, day) =>
      if p in s.seen then Some(s.(journal := Kept(s.journal, ResolveUnknown(s.journal, o, venueId, ObservationOf(p), day)))) else None
    case Transition(state) =>
      if state.CancelPending? || state.Terminal() then Some(s.(journal := Kept(s.journal, TransitionOrder(s.journal, o, state)))) else None
    case Elsewhere(next) =>
      if o < |next.orders| && next.orders[o] == core && i < |next.intents| && i < |s.journal.intents|
        && next.intents[i] == s.journal.intents[i] then Some(s.(journal := next)) else None
  }

  // ---------------------------------------------------------------------------------------------
  // The invariant
  // ---------------------------------------------------------------------------------------------

  /** An average price strictly between zero and one, or no fill at all. */
  predicate Priced(filled: real, quote: real) {
    if filled > 0.0 then 0.0 < quote < filled else filled == 0.0 && quote == 0.0
  }

  /** A paper row whose numbers the evidence check accepts. */
  predicate Plausible(p: PaperOrder) {
    && SoundOrder(p)
    && p.original > 0.0 && p.filled + p.remaining <= p.original
    && Priced(p.filled, p.quote)
    && (p.state.PartiallyFilled? ==> p.filled > 0.0)
    && (p.state.Live? || p.state.PartiallyFilled? || p.state.Filled? || p.state.Cancelled?)
  }

  function PaperFilled(s: Pair): real {
    if s.paper.Some? then s.paper.value.filled else 0.0
  }

  /** The journal claims no fill the exchange does not have, unless it has closed the order and dropped the rest. */
  predicate CoreBehind(core: Order, filled: real) {
    core.remaining >= 0.0 && (core.state.Active() || core.remaining > 0.0 ==> core.original - core.remaining <= filled)
  }

  /** The intent and its order leave SUBMITTING together. */
  predicate Together(j: Journal, i: nat, o: nat)
    requires o < |j.orders| && i < |j.intents|
  {
    j.intents[i].state.Submitting? <==> j.orders[o].state.Submitting?
  }

  predicate Snapshot(p: PaperOrder, current: PaperOrder) {
    Plausible(p) && RowEvolves(p, current)
  }

  ghost predicate PairInv(s: Pair, i: nat, o: nat) {
    && o < |s.journal.orders| && s.journal.orders[o].intent == i && i < |s.journal.intents|
    && s.journal.orders[o].original > 0.0
    && CoreBehind(s.journal.orders[o], PaperFilled(s))
    && Together(s.journal, i, o)
    && (s.paper.None? ==> s.answer.None? && s.seen == {})
    && (s.paper.Some? ==>
          && Plausible(s.paper.value) && s.paper.value.original == s.journal.orders[o].original
          && (s.answer.Some? ==> Snapshot(s.answer.value, s.paper.value))
          && forall p | p in s.seen :: Snapshot(p, s.paper.value))
  }

  lemma PriceOfFill(quote: real, filled: real)
    requires 0.0 < quote < filled
    ensures 0.0 < quote / filled < 1.0
  {
    var price := quote / filled;
    assert price * filled == quote;
    if price >= 1.0 {
      ProductNonNegative(price - 1.0, filled);
    }
  }

  /** A plausible row is valid evidence for an order of the same size. */
  lemma PlausibleIsEvidence(p: PaperOrder)
    requires Plausible(p)
    ensures ValidEvidence(p.original, p.state, p.remaining, p.filled, p.AveragePrice())
  {
    if p.filled > 0.0 {
      PriceOfFill(p.quote, p.filled);
    }
  }

  lemma FilledIsPlausible(p: PaperOrder, price: real, left: real, eventId: string)
    requires Plausible(p) && Resting(p) && 0.0 < price < 1.0 && FillOf(p, price, left) > 0.0
    ensures var row := FilledRow(p, price, FillOf(p, price, left), eventId);
      Plausible(row) && RowEvolves(p, row)
  {
    var fill := FillOf(p, price, left);
    FilledIsSound(p, price, fill, eventId);
    QuoteBetween(fill, price);
    PricedTogether(p.filled, p.quote, fill, QuoteOf(fill, price));
    var row := FilledRow(p, price, fill, eventId);
    assert row.filled == p.filled + fill && row.quote == p.quote + QuoteOf(fill, price);
  }

  lemma PricedTogether(filled: real, quote: real, fill: real, part: real)
    requires Priced(filled, quote) && 0.0 < part < fill && filled >= 0.0
    ensures Priced(filled + fill, quote + part)
  {
  }

  lemma ProductBelow(shares: real, price: real, quote: real)
    requires shares > 0.0 && 0.0 < price < 1.0 && quote == shares * price
    ensures 0.0 < quote < shares
  {
    var rest := shares * (1.0 - price);
    assert rest > 0.0 && quote + rest == shares;
  }

  lemma QuoteBetween(shares: real, price: real)
    requires shares > 0.0 && 0.0 < price < 1.0
    ensures 0.0 < QuoteOf(shares, price) < shares
  {
    ProductBelow(shares, price, QuoteOf(shares, price));
  }

  // ---------------------------------------------------------------------------------------------
  // The submitted row is plausible
  // ---------------------------------------------------------------------------------------------

  lemma AllocationPriced(takes: seq<Take>, levels: seq<PriceLevel>, side: Side, worst: real, tick: real)
    requires PricedLevels(levels, tick) && Allocates(takes, levels, side, worst) && 0.0 < tick
    ensures QuoteOf(Total(takes, Shares()), tick) <= Total(takes, Value())
    ensures Total(takes, Shares()) >= 0.0
    ensures Total(takes, Value()) <= Total(takes, Shares())
    ensures Total(takes, Shares()) != 0.0 ==> Total(takes, Value()) < Total(takes, Shares())
  {
    ValueAtLeastTick(takes, levels, side, worst, tick);
    AllocationNonNegative(takes, levels, side, worst);
    AllocationBelowOne(takes, levels, side, worst, tick);
  }

  lemma {:induction false} AllocationBelowOne(takes: seq<Take>, levels: seq<PriceLevel>, side: Side, worst: real,
            tick: real)
    requires PricedLevels(levels, tick) && Allocates(takes, levels, side, worst) && 0.0 < tick
    ensures Total(takes, Value()) <= Total(takes, Shares())
    ensures Total(takes, Shares()) != 0.0 ==> Total(takes, Value()) < Total(takes, Shares())
  {
    if takes != [] {
      var n := |takes| - 1;
      AllocationBelowOne(takes[..n], levels[..n], side, worst, tick);
      assert Takes(takes[n], levels[n], side, worst) && levels[n] in levels;
      ShareValue(takes[n]);
    }
  }

  lemma ShareValue(take: Take)
    requires take.shares >= 0.0 && 0.0 < take.level.price < 1.0
    ensures Value()(take) <= Shares()(take)
    ensures Shares()(take) != 0.0 ==> Value()(take) < Shares()(take)
  {
    if take.shares > 0.0 {
      ProductBelow(take.shares, take.level.price, Value()(take));
    }
  }

  lemma AttainedIsPlausible(levels: seq<PriceLevel>, side: Side, worst: real, tick: real, shares: real, quote: real)
    requires PricedLevels(levels, tick) && Attained(levels, side, worst, shares, quote) && 0.0 < tick
    ensures QuoteOf(shares, tick) <= quote && Priced(shares, quote)
  {
    var takes: seq<Take> :| Allocates(takes, levels, side, worst)
      && Total(takes, Shares()) == shares && Total(takes, Value()) == quote;
    AllocationPriced(takes, levels, side, worst, tick);
    AllocationNonNegative(takes, levels, side, worst);
    if shares > 0.0 {
      QuoteOrder(tick, 0.0, shares);
    }
  }

  lemma WalkIsPlausible(request: Request, market: MarketRules, book: OrderBook, walk: PaperFill)
    requires request.QuantityDecimal().Some? && request.ProtectionPrice().Some? && request.Immediate()
    requires ValidRules(market) && PricedLevels(book.asks, market.tickSize) && PricedLevels(book.bids, market.tickSize)
    requires WalkedFor(request, market, book, walk)
    ensures Priced(walk.shares, walk.quote)
    ensures walk.shares <= if request.side.Buy? then request.quantity.value / market.tickSize else request.quantity.value
  {
    var levels := if request.side.Buy? then book.asks else book.bids;
    AttainedIsPlausible(levels, request.side, request.price.value, market.tickSize, walk.shares, walk.quote);
    if request.side.Buy? {
      FeeAtMostQuote(walk.quote, market.LargerFee());
      DivideByTick(walk.shares, market.tickSize, request.quantity.value);
    }
  }

  lemma SubmittedIsPlausible(core: Order, step: PairStep)
    requires step.Submit? && SubmitFits(core, step)
    ensures Plausible(SubmittedOrder(step.request, step.market, step.walk, step.id, step.now))
  {
    var request, market := step.request, step.market;
    SubmittedIsSound(request, market, step.book, step.walk, step.id, step.now);
    if request.Immediate() {
      WalkIsPlausible(request, market, step.book, step.walk);
      if request.side.Buy? {
        assert request.quantity.value / market.tickSize > 0.0;
      }
    }
  }

  // ---------------------------------------------------------------------------------------------
  // Steps
  // ---------------------------------------------------------------------------------------------

  /** A later paper row keeps every snapshot a snapshot. */
  lemma SnapshotsStay(s: Pair, next: PaperOrder)
    requires s.paper.Some? && RowEvolves(s.paper.value, next)
    requires s.answer.Some? ==> Snapshot(s.answer.value, s.paper.value)
    requires forall p | p in s.seen :: Snapshot(p, s.paper.value)
    ensures s.answer.Some? ==> Snapshot(s.answer.value, next)
    ensures forall p | p in s.seen :: Snapshot(p, next)
  {
    forall p | p in s.seen ensures Snapshot(p, next) {
      assert Snapshot(p, s.paper.value);
    }
  }

  /** The row a fill leaves in the journal. */
  lemma CoreFillStaysBehind(j: Journal, o: nat, p: PaperOrder, price: real, left: real, eventId: string, tradeId: string,
            day: int)
    requires o < |j.orders| && Plausible(p) && p.original == j.orders[o].original
    requires CoreBehind(j.orders[o], p.filled) && 0.0 < price < 1.0 && FillOf(p, price, left) > 0.0
    ensures var fill := FillOf(p, price, left);
      var row := FilledRow(p, price, fill, eventId);
      var next := CoreFill(j, o, row, fill, price, tradeId, day);
      && |next.intents| == |j.intents| && |next.orders| == |j.orders|
      && CoreBehind(next.orders[o], row.filled)
      && next.orders[o].original == j.orders[o].original && next.orders[o].intent == j.orders[o].intent
      && (j.orders[o].state.Open() ==> PaperFillFits(j, o, row.state, row.remaining, fill))
  {
    var fill := FillOf(p, price, left);
    var row := FilledRow(p, price, fill, eventId);
    assert row.remaining == p.remaining - fill && row.filled == p.filled + fill;
  }

  /** An accepted snapshot, fresh or stale, brings the journal no further than the exchange. */
  lemma ProjectionStaysBehind(j: Journal, o: nat, p: PaperOrder, current: PaperOrder, day: int)
    requires o < |j.orders| && Snapshot(p, current) && p.original == j.orders[o].original
    requires CoreBehind(j.orders[o], current.filled)
    requires ReconcileProjection(j, o, ObservationOf(p), day).Ok?
    ensures var next := ReconcileProjection(j, o, ObservationOf(p), day).value;
      && |next.orders| == |j.orders| && |next.intents| == |j.intents|
      && CoreBehind(next.orders[o], current.filled)
      && next.orders[o].original == j.orders[o].original && next.orders[o].intent == j.orders[o].intent
  {
  }

  lemma ResolutionStaysBehind(j: Journal, o: nat, p: PaperOrder, current: PaperOrder, venueId: string, day: int)
    requires o < |j.orders| && Snapshot(p, current) && p.original == j.orders[o].original
    requires CoreBehind(j.orders[o], current.filled)
    requires ResolveUnknown(j, o, venueId, ObservationOf(p), day).Ok?
    ensures var next := ResolveUnknown(j, o, venueId, ObservationOf(p), day).value;
      && |next.orders| == |j.orders| && |next.intents| == |j.intents|
      && CoreBehind(next.orders[o], current.filled)
      && next.orders[o].original == j.orders[o].original && next.orders[o].intent == j.orders[o].intent
  {
  }

  lemma FinishStaysBehind(j: Journal, i: nat, o: nat, unknown: bool, state: OrderState, venueId: Option<string>,
                          filled: real, price: Option<real>, tradeIds: seq<string>, day: int, known: real)
    requires o < |j.orders| && filled <= known
    requires FinishSubmission(j, i, o, unknown, state, venueId, filled, price, tradeIds, day).Ok?
    ensures var next := FinishSubmission(j, i, o, unknown, state, venueId, filled, price, tradeIds, day).value;
      && |next.orders| == |j.orders| && |next.intents| == |j.intents|
      && CoreBehind(next.orders[o], known)
      && next.orders[o].original == j.orders[o].original && next.orders[o].intent == j.orders[o].intent
  {
  }

  lemma PaperStepKeepsPair(s: Pair, i: nat, o: nat, step: PairStep)
    requires PairInv(s, i, o) && Next(s, i, o, step).Some?
    requires step.Submit? || step.Fill? || step.CancelPaper? || step.Observe? || step.Crash?
    ensures PairInv(Next(s, i, o, step).value, i, o)
  {
    match step {
      case Submit(request, market, book, walk, id, now) =>
        SubmittedIsPlausible(s.journal.orders[o], step);
      case Fill(price, left, eventId, day) =>
        var p := s.paper.value;
        FilledIsPlausible(p, price, left, eventId);
        SnapshotsStay(s, FilledRow(p, price, FillOf(p, price, left), eventId));
        CoreFillStaysBehind(s.journal, o, p, price, left, eventId, eventId, day);
      case CancelPaper =>
        SnapshotsStay(s, CancelledRow(s.paper.value));
      case _ =>
    }
  }

  lemma FinishStepKeepsPair(s: Pair, i: nat, o: nat, step: PairStep)
    requires PairInv(s, i, o) && Next(s, i, o, step).Some?
    requires step.Refuse? || step.FinishAnswered? || step.FinishAmbiguous?
    ensures PairInv(Next(s, i, o, step).value, i, o)
  {
    var j := s.journal;
    match step {
      case Refuse(day) =>
        if FinishSubmission(j, i, o, false, OrderState.Rejected, None, 0.0, None, [], day).Ok? {
          FinishStaysBehind(j, i, o, false, OrderState.Rejected, None, 0.0, None, [], day, PaperFilled(s));
        }
      case FinishAnswered(day) =>
        var p := s.answer.value;
        if FinishSubmission(j, i, o, false, p.state, Some("paper"), p.filled, p.AveragePrice(), p.tradeIds, day).Ok? {
          FinishStaysBehind(j, i, o, false, p.state, Some("paper"), p.filled, p.AveragePrice(), p.tradeIds, day, PaperFilled(s));
        }
      case FinishAmbiguous(key, day) =>
        if FinishSubmission(j, i, o, true, OrderState.Unknown, Some(key), 0.0, None, [], day).Ok? {
          FinishStaysBehind(j, i, o, true, OrderState.Unknown, Some(key), 0.0, None, [], day, PaperFilled(s));
        }
      case _ =>
    }
  }

  lemma JournalStepKeepsPair(s: Pair, i: nat, o: nat, step: PairStep)
    requires PairInv(s, i, o) && Next(s, i, o, step).Some?
    requires step.Reconcile? || step.Resolve? || step.Recover? || step.Transition? || step.Elsewhere?
    ensures PairInv(Next(s, i, o, step).value, i, o)
  {
    var j := s.journal;
    match step {
      case Reconcile(p, day) =>
        assert Snapshot(p, s.paper.value);
        if ReconcileProjection(j, o, ObservationOf(p), day).Ok? {
          ProjectionStaysBehind(j, o, p, s.paper.value, day);
        }
      case Resolve(p, venueId, day) =>
        assert Snapshot(p, s.paper.value);
        if ResolveUnknown(j, o, venueId, ObservationOf(p), day).Ok? {
          ResolutionStaysBehind(j, o, p, s.paper.value, venueId, day);
        }
      case Recover => RecoveryStaysBehind(j, i, o, PaperFilled(s));
      case Transition(state) =>
        if TransitionOrder(j, o, state).Ok? {
          TransitionStaysBehind(j, i, o, state, PaperFilled(s));
        }
      case _ =>
    }
  }

  lemma TransitionStaysBehind(j: Journal, i: nat, o: nat, state: OrderState, filled: real)
    requires o < |j.orders| && i < |j.intents| && j.orders[o].intent == i && Together(j, i, o)
    requires CoreBehind(j.orders[o], filled) && (state.CancelPending? || state.Terminal()) && TransitionOrder(j, o, state).Ok?
    ensures var next := TransitionOrder(j, o, state).value;
      && |next.orders| == |j.orders| && |next.intents| == |j.intents|
      && CoreBehind(next.orders[o], filled) && Together(next, i, o)
      && next.orders[o].original == j.orders[o].original && next.orders[o].intent == i
  {
  }

  lemma RecoveryStaysBehind(j: Journal, i: nat, o: nat, filled: real)
    requires o < |j.orders| && i < |j.intents| && j.orders[o].intent == i && Together(j, i, o)
    requires CoreBehind(j.orders[o], filled)
    ensures var next := RecoverInterrupted(j);
      && CoreBehind(next.orders[o], filled) && Together(next, i, o)
      && next.orders[o].original == j.orders[o].original && next.orders[o].intent == i
  {
    var next := RecoverInterrupted(j);
    assert next.orders[o] == UnknownOrder(j, o) && next.intents[i] == UnknownIntent(j, i);
    if Interrupted(j, o) {
      assert InterruptedIntent(j, i);
    }
  }

  // ---------------------------------------------------------------------------------------------
  // Runs
  // ---------------------------------------------------------------------------------------------

  /** The worker is about to call the venue with an order the exchange has not seen. */
  predicate AboutToCall(s: Pair, i: nat, o: nat) {
    && o < |s.journal.orders| && s.journal.orders[o].intent == i && i < |s.journal.intents|
    && s.journal.orders[o].state.Submitting? && s.journal.intents[i].state.Submitting? && s.journal.orders[o].original > 0.0
    && s.journal.orders[o].remaining == s.journal.orders[o].original
    && s.paper.None? && s.answer.None? && s.seen == {}
  }

  ghost predicate PairRun(states: seq<Pair>, steps: seq<PairStep>, i: nat, o: nat) {
    && |states| == |steps| + 1 && AboutToCall(states[0], i, o)
    && forall k {:trigger steps[k]} | 0 <= k < |steps| ::
         o < |states[k].journal.orders| && Next(states[k], i, o, steps[k]) == Some(states[k + 1])
  }

  /**
   In every reachable state the journal counts no more of an active order as filled than the exchange
   has filled, whatever fills come between the venue's commit and the recording of its answer.
   */
  lemma {:induction false} CoreNeverRunsAhead(states: seq<Pair>, steps: seq<PairStep>, i: nat, o: nat, k: nat)
    requires PairRun(states, steps, i, o) && k < |states|
    ensures PairInv(states[k], i, o)
    ensures states[k].journal.orders[o].state.Active() ==>
      states[k].journal.orders[o].original - states[k].journal.orders[o].remaining <= PaperFilled(states[k])
  {
    if k > 0 {
      CoreNeverRunsAhead(states, steps, i, o, k - 1);
      var step := steps[k - 1];
      assert Next(states[k - 1], i, o, step) == Some(states[k]);
      if step.Submit? || step.Fill? || step.CancelPaper? || step.Observe? || step.Crash? {
        PaperStepKeepsPair(states[k - 1], i, o, step);
      } else if step.Refuse? || step.FinishAnswered? || step.FinishAmbiguous? {
        FinishStepKeepsPair(states[k - 1], i, o, step);
      } else {
        JournalStepKeepsPair(states[k - 1], i, o, step);
      }
    }
  }

  /**
   So the exchange's current row is always accepted: as the answer of the venue however late, as the
   resolution of an unknown outcome, and as the projection onto an open order.
   */
  lemma CurrentRowIsAccepted(states: seq<Pair>, steps: seq<PairStep>, i: nat, o: nat, k: nat, day: int)
    requires PairRun(states, steps, i, o) && k < |states| && states[k].paper.Some?
    ensures o < |states[k].journal.orders| && i < |states[k].journal.intents|
    ensures var j, p := states[k].journal, states[k].paper.value;
      && (j.orders[o].state.Open() ==> ReconcileProjection(j, o, ObservationOf(p), day).Ok?)
      && (j.orders[o].state.Unknown? ==> ResolveUnknown(j, o, "paper", ObservationOf(p), day).Ok?)
    ensures var j, answer := states[k].journal, states[k].answer;
      answer.Some? && j.orders[o].state.Submitting? ==>
        FinishSubmission(j, i, o, false, answer.value.state, Some("paper"), answer.value.filled,
                         answer.value.AveragePrice(), answer.value.tradeIds, day).Ok?
  {
    CoreNeverRunsAhead(states, steps, i, o, k);
    PlausibleIsEvidence(states[k].paper.value);
    if states[k].answer.Some? {
      PlausibleIsEvidence(states[k].answer.value);
      AnswerIsEvidence(states[k].answer.value);
    }
  }

  /** The remaining quantity the journal derives from an answer is consistent with it too. */
  lemma AnswerIsEvidence(p: PaperOrder)
    requires Plausible(p)
    ensures ValidEvidence(p.original, p.state, FinishRemaining(p.original, p.state, p.filled), p.filled, p.AveragePrice())
  {
    PlausibleIsEvidence(p);
  }

  /** Every fill of the exchange fits the open core order it is projected onto. */
  lemma EveryFillFits(states: seq<Pair>, steps: seq<PairStep>, i: nat, o: nat, k: nat)
    requires PairRun(states, steps, i, o) && k < |steps| && steps[k].Fill?
    ensures states[k].paper.Some? && o < |states[k].journal.orders|
    ensures var p, step := states[k].paper.value, steps[k];
      var fill := FillOf(p, step.price, step.left);
      var row := FilledRow(p, step.price, fill, step.eventId);
      states[k].journal.orders[o].state.Open() ==> PaperFillFits(states[k].journal, o, row.state, row.remaining, fill)
  {
    CoreNeverRunsAhead(states, steps, i, o, k);
    assert Next(states[k], i, o, steps[k]) == Some(states[k + 1]);
    CoreFillStaysBehind(states[k].journal, o, states[k].paper.value, steps[k].price, steps[k].left, steps[k].eventId, steps[k].eventId, steps[k].day);
  }

  // ---------------------------------------------------------------------------------------------
  // Closed orders
  // ---------------------------------------------------------------------------------------------

  /** The comparison itself, for an order in any state. */
  predicate Behind(s: Pair, o: nat)
    requires o < |s.journal.orders|
  {
    s.journal.orders[o].original - s.journal.orders[o].remaining <= PaperFilled(s)
  }

  /**
   Closed orders may fail the comparison, because closing evidence sets the remaining quantity to zero
   whatever was filled. In every reachable state it holds exactly when the journal still has something
   remaining or the exchange has filled everything.
   */
  lemma BehindIff(states: seq<Pair>, steps: seq<PairStep>, i: nat, o: nat, k: nat)
    requires PairRun(states, steps, i, o) && k < |states|
    ensures o < |states[k].journal.orders|
    ensures Behind(states[k], o) <==>
      states[k].journal.orders[o].remaining > 0.0 || PaperFilled(states[k]) == states[k].journal.orders[o].original
  {
    CoreNeverRunsAhead(states, steps, i, o, k);
  }

  /** The step brings evidence that the order is over: an answer, a snapshot, or a definite rejection. */
  predicate Closes(s: Pair, step: PairStep) {
    match step
    case Refuse(_) => true
    case FinishAnswered(_) => s.answer.Some? && s.answer.value.state.Terminal()
    case Reconcile(p, _) => p.state.Terminal()
    case Resolve(p, _, _) => p.state.Terminal()
    case _ => false
  }

  /** The journal takes it: an answer or a rejection while SUBMITTING, a resolution while UNKNOWN, a snapshot that shows no less than is known. */
  predicate TakesEvidence(core: Order, step: PairStep) {
    match step
    case Refuse(_) => core.state.Submitting?
    case FinishAnswered(_) => core.state.Submitting?
    case Reconcile(p, _) => LocalFilled(core) <= p.filled
    case Resolve(_, _, _) => core.state.Unknown?
    case _ => false
  }

  /** The comparison is lost exactly when such evidence is accepted for an order the exchange has not filled completely. */
  lemma BehindIsLostIff(states: seq<Pair>, steps: seq<PairStep>, i: nat, o: nat, k: nat)
    requires PairRun(states, steps, i, o) && k < |steps| && o < |states[k].journal.orders| && Behind(states[k], o)
    ensures o < |states[k + 1].journal.orders|
    ensures !Behind(states[k + 1], o)
       <==> && Closes(states[k], steps[k]) && TakesEvidence(states[k].journal.orders[o], steps[k])
            && PaperFilled(states[k]) < states[k].journal.orders[o].original
  {
    CoreNeverRunsAhead(states, steps, i, o, k);
    BehindIff(states, steps, i, o, k);
    BehindIff(states, steps, i, o, k + 1);
    var s, step := states[k], steps[k];
    assert Next(s, i, o, step) == Some(states[k + 1]);
    if Closes(s, step) {
      ClosingDropsTheRest(s, i, o, step);
    } else {
      OpenStepsStayBehind(s, i, o, step);
    }
  }

  lemma ClosingDropsTheRest(s: Pair, i: nat, o: nat, step: PairStep)
    requires PairInv(s, i, o) && Next(s, i, o, step).Some? && Closes(s, step)
    ensures var t := Next(s, i, o, step).value;
      && |t.journal.orders| == |s.journal.orders| && PaperFilled(t) == PaperFilled(s)
      && t.journal.orders[o].original == s.journal.orders[o].original
      && (TakesEvidence(s.journal.orders[o], step) ==> t.journal.orders[o].remaining == 0.0)
      && (!TakesEvidence(s.journal.orders[o], step) ==> t.journal == s.journal)
  {
    match step {
      case Reconcile(p, _) =>
        assert Snapshot(p, s.paper.value);
        PlausibleIsEvidence(p);
      case Resolve(p, _, _) =>
        assert Snapshot(p, s.paper.value);
        PlausibleIsEvidence(p);
      case FinishAnswered(_) =>
        PlausibleIsEvidence(s.answer.value);
        AnswerIsEvidence(s.answer.value);
      case _ =>
    }
  }

  lemma OpenStepsStayBehind(s: Pair, i: nat, o: nat, step: PairStep)
    requires PairInv(s, i, o) && Behind(s, o) && Next(s, i, o, step).Some? && !Closes(s, step)
    ensures var t := Next(s, i, o, step).value; o < |t.journal.orders| && Behind(t, o)
  {
    if step.Fill? {
      FillStaysBehind(s, i, o, step);
    } else if step.Reconcile? {
      ReconcileStaysBehind(s, i, o, step);
    } else if step.Resolve? {
      ResolveStaysBehind(s, i, o, step);
    } else if step.FinishAnswered? || step.FinishAmbiguous? {
      AnswerStaysBehind(s, i, o, step);
    } else {
      OtherStepsStayBehind(s, i, o, step);
    }
  }

  lemma FillStaysBehind(s: Pair, i: nat, o: nat, step: PairStep)
    requires PairInv(s, i, o) && Behind(s, o) && step.Fill? && Next(s, i, o, step).Some?
    ensures var t := Next(s, i, o, step).value; o < |t.journal.orders| && Behind(t, o)
  {
    var p := s.paper.value;
    FilledIsPlausible(p, step.price, step.left, step.eventId);
    CoreFillStaysBehind(s.journal, o, p, step.price, step.left, step.eventId, step.eventId, step.day);
    assert FilledRow(p, step.price, FillOf(p, step.price, step.left), step.eventId).original == p.original;
  }

  /** These leave the core order's quantities alone. */
  lemma OtherStepsStayBehind(s: Pair, i: nat, o: nat, step: PairStep)
    requires PairInv(s, i, o) && Behind(s, o) && Next(s, i, o, step).Some?
    requires step.Submit? || step.CancelPaper? || step.Observe? || step.Crash? || step.Recover? || step.Transition? || step.Elsewhere?
    ensures var t := Next(s, i, o, step).value; o < |t.journal.orders| && Behind(t, o)
  {
    if step.Recover? {
      assert RecoverInterrupted(s.journal).orders[o] == UnknownOrder(s.journal, o);
    } else if step.Submit? {
      PaperStepKeepsPair(s, i, o, step);
    } else if step.Transition? && TransitionOrder(s.journal, o, step.state).Ok? {
      TransitionStaysBehind(s.journal, i, o, step.state, PaperFilled(s));
    }
  }

  lemma ReconcileStaysBehind(s: Pair, i: nat, o: nat, step: PairStep)
    requires PairInv(s, i, o) && Behind(s, o) && step.Reconcile? && Next(s, i, o, step).Some? && !Closes(s, step)
    ensures var t := Next(s, i, o, step).value; o < |t.journal.orders| && Behind(t, o)
  {
    var p := step.snapshot;
    assert Snapshot(p, s.paper.value);
    if ReconcileProjection(s.journal, o, ObservationOf(p), step.day).Ok? {
      ProjectionStaysBehind(s.journal, o, p, s.paper.value, step.day);
    }
  }

  lemma ResolveStaysBehind(s: Pair, i: nat, o: nat, step: PairStep)
    requires PairInv(s, i, o) && Behind(s, o) && step.Resolve? && Next(s, i, o, step).Some? && !Closes(s, step)
    ensures var t := Next(s, i, o, step).value; o < |t.journal.orders| && Behind(t, o)
  {
    var p := step.snapshot;
    assert Snapshot(p, s.paper.value);
    if ResolveUnknown(s.journal, o, step.venueId, ObservationOf(p), step.day).Ok? {
      ResolutionStaysBehind(s.journal, o, p, s.paper.value, step.venueId, step.day);
    }
  }

  lemma AnswerStaysBehind(s: Pair, i: nat, o: nat, step: PairStep)
    requires PairInv(s, i, o) && Behind(s, o) && (step.FinishAnswered? || step.FinishAmbiguous?)
    requires Next(s, i, o, step).Some? && !Closes(s, step)
    ensures var t := Next(s, i, o, step).value; o < |t.journal.orders| && Behind(t, o)
  {
    FinishStepKeepsPair(s, i, o, step);
    assert PairInv(Next(s, i, o, step).value, i, o);
  }
}
