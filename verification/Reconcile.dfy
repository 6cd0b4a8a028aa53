/**
 What a reconciliation makes of the tables (`reconcile_started_inner`): every open order takes what the
 venue shows of it, then every UNKNOWN order that the venue can account for is settled.
 */
module Reconcile {
  import opened Wrappers
  import opened Domain
  import opened Journal
  import opened OrderBounds
  import opened Fills

  /** The order the venue finds under a deterministic id. */
  datatype Sighting = Sighting(venueId: string, seen: Observation)

  /** What a reconciliation is told: open orders it observes, lookups of unknown ones, anything else. */
  datatype VenueReport = VenueReport(
    available: bool, open: map<nat, Observation>, unknown: map<nat, Sighting>, otherFindings: bool, day: int)

  /** An order that rests as far as the journal knows, and of which the venue shows something. */
  predicate Observed(orders: seq<Order>, o: nat, report: VenueReport) {
    && o < |orders| && orders[o].venueId.Some? && orders[o].state.Open()
    && o in report.open && !report.open[o].state.Unknown?
  }

  /** An UNKNOWN order that the venue can account for. */
  predicate Sighted(orders: seq<Order>, o: nat, report: VenueReport) {
    && o < |orders| && orders[o].state.Unknown?
    && o in report.unknown && !report.unknown[o].seen.state.Unknown?
  }

  /** An order that rests here as far as the journal knows, and that the venue does not account for. */
  predicate Missing(orders: seq<Order>, o: nat, report: VenueReport) {
    && o < |orders| && orders[o].venueId.Some? && orders[o].state.Open()
    && (o !in report.open || report.open[o].state.Unknown?)
  }

  predicate Unresolved(orders: seq<Order>, o: nat, report: VenueReport) {
    && o < |orders| && orders[o].state.Unknown?
    && (o !in report.unknown || report.unknown[o].seen.state.Unknown?)
  }

  predicate AnyMissing(orders: seq<Order>, n: nat, report: VenueReport) {
    exists o: nat | o < n :: Missing(orders, o, report)
  }

  predicate AnyUnresolved(orders: seq<Order>, n: nat, report: VenueReport) {
    exists o: nat | o < n :: Unresolved(orders, o, report)
  }

  /** What a reconciliation of these orders against this report finds. */
  predicate Findings(orders: seq<Order>, report: VenueReport) {
    report.otherFindings || AnyMissing(orders, |orders|, report) || AnyUnresolved(orders, |orders|, report)
  }

  /** Nothing is found exactly if the venue shows something of every order that rests and accounts for every UNKNOWN one. */
  lemma NothingFoundIff(orders: seq<Order>, report: VenueReport)
    ensures !Findings(orders, report) <==>
      && !report.otherFindings
      && (forall o: nat | o < |orders| && orders[o].venueId.Some? && orders[o].state.Open() :: Observed(orders, o, report))
      && (forall o: nat | o < |orders| && orders[o].state.Unknown? :: Sighted(orders, o, report))
  {
    forall o: nat ensures Missing(orders, o, report) <==>
      o < |orders| && orders[o].venueId.Some? && orders[o].state.Open() && !Observed(orders, o, report) {
    }
    forall o: nat ensures Unresolved(orders, o, report) <==>
      o < |orders| && orders[o].state.Unknown? && !Sighted(orders, o, report) {
    }
  }

  /** The tables once the first `n` orders have been projected. */
  function Projected(j: Journal, report: VenueReport, n: nat): Result<Journal, Refusal> {
    if n == 0 then Ok(j)
    else
      var before :- Projected(j, report, n - 1);
      if Observed(j.orders, n - 1, report) then ReconcileProjection(before, n - 1, report.open[n - 1], report.day)
      else Ok(before)
  }

  /** The tables once the first `n` orders have been settled. */
  function Settled(j: Journal, report: VenueReport, n: nat): Result<Journal, Refusal> {
    if n == 0 then Ok(j)
    else
      var before :- Settled(j, report, n - 1);
      if Sighted(j.orders, n - 1, report)
      then ResolveUnknown(before, n - 1, report.unknown[n - 1].venueId, report.unknown[n - 1].seen, report.day)
      else Ok(before)
  }

  /** A refused transaction ends either loop. */
  lemma {:induction false} RefusalEndsIt(j: Journal, report: VenueReport, n: nat, m: nat)
    requires n <= m
    ensures Projected(j, report, n).Err? ==> Projected(j, report, m).Err?
    ensures Settled(j, report, n).Err? ==> Settled(j, report, m).Err?
  {
    if n < m {
      RefusalEndsIt(j, report, n, m - 1);
    }
  }

  function Reconciled(j: Journal, report: VenueReport): Result<Journal, Refusal> {
    var projected :- Projected(j, report, |j.orders|);
    Settled(projected, report, |j.orders|)
  }

  // ---------------------------------------------------------------------------------------------
  // When it goes through
  // ---------------------------------------------------------------------------------------------

  /** What a venue may show of an order. */
  predicate Believable(original: real, seen: Observation) {
    && original > 0.0 && 0.0 <= seen.remaining && 0.0 <= seen.filled && seen.remaining + seen.filled <= original
    && (match seen.state
        case Live => seen.remaining > 0.0
        case PartiallyFilled => seen.remaining > 0.0 && seen.filled > 0.0
        case Filled => seen.remaining == 0.0
        case Cancelled => true
        case Expired => true
        case Rejected => seen.filled == 0.0
        case Unknown => seen.filled == 0.0 && seen.remaining == original
        case _ => false)
    && (seen.filled > 0.0 ==> seen.price.Some? && 0.0 < seen.price.value < 1.0)
  }

  /** Nothing the venue shows of an open order takes back a fill that the journal has. */
  predicate Projectable(orders: seq<Order>, report: VenueReport, n: nat) {
    forall o: nat | o < n && Observed(orders, o, report) ::
      Believable(orders[o].original, report.open[o]) && report.open[o].filled >= orders[o].original - orders[o].remaining
  }

  predicate Settleable(orders: seq<Order>, intents: nat, report: VenueReport, n: nat) {
    forall o: nat | o < n && Sighted(orders, o, report) ::
      orders[o].intent < intents && Believable(orders[o].original, report.unknown[o].seen)
  }

  lemma EvidenceIsBelievable(original: real, seen: Observation)
    ensures ValidEvidence(original, seen.state, seen.remaining, seen.filled, seen.price) <==> Believable(original, seen)
  {
  }

  // ---------------------------------------------------------------------------------------------
  // What becomes of each order
  // ---------------------------------------------------------------------------------------------

  /** The row of an open order that the venue shows; a pending cancellation that is shown resting stays pending. */
  function Shown(order: Order, seen: Observation): Order {
    order.(state := if order.state.CancelPending? && (seen.state.Live? || seen.state.PartiallyFilled?)
                    then OrderState.CancelPending else seen.state,
           remaining := seen.remaining)
  }

  /** The UNIQUE key of an order's fill is in the trades, if there is a fill. */
  ghost predicate FillKnown(trades: seq<Trade>, o: nat, venueId: Option<string>, tradeIds: seq<string>, fill: real) {
    fill > 0.0 ==> forall key | Names(key, tradeIds, venueId, o) :: Taken(trades, key)
  }

  /** The first `n` orders have taken what is shown of them; every other order, each intent and the control row are as before. */
  ghost predicate TookShown(a: Journal, b: Journal, report: VenueReport, n: nat) {
    && |b.orders| == |a.orders| && b.intents == a.intents && b.control == a.control && a.trades <= b.trades
    && (forall o | 0 <= o < |a.orders| ::
          b.orders[o] == if o < n && Observed(a.orders, o, report) then Shown(a.orders[o], report.open[o]) else a.orders[o])
    && (forall o: nat | o < n && Observed(a.orders, o, report) ::
          FillKnown(b.trades, o, a.orders[o].venueId, report.open[o].tradeIds,
                    Min(report.open[o].filled, report.open[o].filled - (a.orders[o].original - a.orders[o].remaining))))
  }

  lemma FillIsKnown(a: Journal, o: nat, order: Order, venueId: Option<string>, fill: real, price: Option<real>,
            tradeIds: seq<string>, day: int)
    ensures var b := MatchFill(a, o, order, venueId, fill, price, tradeIds, day);
      && b.orders == a.orders && b.intents == a.intents && b.control == a.control && a.trades <= b.trades
      && FillKnown(b.trades, o, venueId, tradeIds, fill)
  {
    var b := MatchFill(a, o, order, venueId, fill, price, tradeIds, day);
    var key := KeyOf(tradeIds, venueId, o);
    if fill > 0.0 {
      forall other | Names(other, tradeIds, venueId, o) ensures Taken(b.trades, other) {
        assert other == key;
        if !Recorded(a.trades, key) {
          assert b.trades[|a.trades|].key == key;
        }
      }
    }
  }

  lemma OneProjection(a: Journal, o: nat, seen: Observation, day: int)
    requires o < |a.orders| && !seen.state.Unknown?
    ensures var result := ReconcileProjection(a, o, seen, day);
      && (result.Ok? <==> Believable(a.orders[o].original, seen) && seen.filled >= a.orders[o].original - a.orders[o].remaining)
      && (result.Ok? ==>
            && result.value.orders == a.orders[o := Shown(a.orders[o], seen)]
            && result.value.intents == a.intents && result.value.control == a.control && a.trades <= result.value.trades
            && FillKnown(result.value.trades, o, a.orders[o].venueId, seen.tradeIds,
                         Min(seen.filled, seen.filled - (a.orders[o].original - a.orders[o].remaining))))
  {
    EvidenceIsBelievable(a.orders[o].original, seen);
    var prior := a.orders[o];
    var delta := seen.filled - LocalFilled(prior);
    var mid := a.(orders := a.orders[o := Shown(prior, seen)]);
    FillIsKnown(mid, o, prior, prior.venueId, delta, seen.price, seen.tradeIds, day);
    if Shown(prior, seen) == prior {
      assert mid.orders == a.orders;
    }
  }

  lemma ProjectableNext(orders: seq<Order>, report: VenueReport, n: nat)
    ensures Projectable(orders, report, n + 1) <==>
      && Projectable(orders, report, n)
      && (Observed(orders, n, report) ==>
            Believable(orders[n].original, report.open[n]) && report.open[n].filled >= orders[n].original - orders[n].remaining)
  {
  }

  lemma NoneTookShown(j: Journal, b: Journal, report: VenueReport, n: nat)
    requires n < |j.orders| && TookShown(j, b, report, n) && !Observed(j.orders, n, report)
    ensures TookShown(j, b, report, n + 1)
  {
  }

  /** Projecting the first `n` orders goes through exactly if each can take what is shown of it, and then each has. */
  lemma {:induction false} ProjectionGoesThroughIff(j: Journal, report: VenueReport, n: nat)
    requires n <= |j.orders|
    ensures Projected(j, report, n).Ok? <==> Projectable(j.orders, report, n)
    ensures Projected(j, report, n).Ok? ==> TookShown(j, Projected(j, report, n).value, report, n)
  {
    if n > 0 {
      ProjectionGoesThroughIff(j, report, n - 1);
      ProjectableNext(j.orders, report, n - 1);
      if Projected(j, report, n - 1).Ok? {
        NextProjection(j, Projected(j, report, n - 1).value, report, n - 1);
      }
    }
  }

  /** One more order. */
  lemma NextProjection(j: Journal, before: Journal, report: VenueReport, o: nat)
    requires o < |j.orders| && Projected(j, report, o) == Ok(before) && TookShown(j, before, report, o)
    ensures var next := Projected(j, report, o + 1);
      && (next.Ok? <==> (Observed(j.orders, o, report) ==>
            Believable(j.orders[o].original, report.open[o]) && report.open[o].filled >= j.orders[o].original - j.orders[o].remaining))
      && (next.Ok? ==> TookShown(j, next.value, report, o + 1))
  {
    assert before.orders[o] == j.orders[o];
    if Observed(j.orders, o, report) {
      OneProjection(before, o, report.open[o], report.day);
      var next := Projected(j, report, o + 1);
      if next.Ok? {
        NextTookShown(j, before, next.value, report, o + 1);
      }
    } else {
      NoneTookShown(j, before, report, o);
    }
  }

  lemma NextTookShown(j: Journal, before: Journal, next: Journal, report: VenueReport, n: nat)
    requires 0 < n <= |j.orders| && TookShown(j, before, report, n - 1) && Observed(j.orders, n - 1, report)
    requires next.orders == before.orders[n - 1 := Shown(j.orders[n - 1], report.open[n - 1])]
    requires next.intents == before.intents && next.control == before.control && before.trades <= next.trades
    requires FillKnown(next.trades, n - 1, j.orders[n - 1].venueId, report.open[n - 1].tradeIds,
                       Min(report.open[n - 1].filled, report.open[n - 1].filled - (j.orders[n - 1].original - j.orders[n - 1].remaining)))
    ensures TookShown(j, next, report, n)
  {
    forall o: nat | o < n && Observed(j.orders, o, report)
      ensures FillKnown(next.trades, o, j.orders[o].venueId, report.open[o].tradeIds,
                        Min(report.open[o].filled, report.open[o].filled - (j.orders[o].original - j.orders[o].remaining)))
    {
      if o < n - 1 {
        FillStaysKnown(before.trades, next.trades, o, j.orders[o].venueId, report.open[o].tradeIds,
                       Min(report.open[o].filled, report.open[o].filled - (j.orders[o].original - j.orders[o].remaining)));
      }
    }
  }

  lemma FillStaysKnown(before: seq<Trade>, after: seq<Trade>, o: nat, venueId: Option<string>, tradeIds: seq<string>, fill: real)
    requires before <= after && FillKnown(before, o, venueId, tradeIds, fill)
    ensures FillKnown(after, o, venueId, tradeIds, fill)
  {
    if fill > 0.0 {
      forall key | Names(key, tradeIds, venueId, o) ensures Taken(after, key) {
        var k :| 0 <= k < |before| && before[k].key == key;
        assert after[k].key == key;
      }
    }
  }

  /** The row of an UNKNOWN order that the venue accounts for. */
  function AccountedFor(order: Order, sighting: Sighting): Order {
    order.(state := sighting.seen.state, venueId := Some(sighting.venueId), remaining := sighting.seen.remaining)
  }

  /** A settled order's intent: UNKNOWN no longer. */
  predicate IntentSettles(a: Intent, b: Intent) {
    && b.request == a.request && b.reservation == a.reservation
    && b.state == if a.state.Unknown? then IntentState.Submitted else a.state
  }

  /** The intent has one of the first `n` orders, and that order is settled. */
  predicate HasSighted(j: Journal, report: VenueReport, i: nat, n: nat) {
    exists o: nat | o < n :: Sighted(j.orders, o, report) && j.orders[o].intent == i
  }

  ghost predicate TookSighted(a: Journal, b: Journal, report: VenueReport, n: nat) {
    && |b.orders| == |a.orders| && |b.intents| == |a.intents| && b.control == a.control && a.trades <= b.trades
    && (forall o | 0 <= o < |a.orders| ::
          b.orders[o] == if o < n && Sighted(a.orders, o, report) then AccountedFor(a.orders[o], report.unknown[o]) else a.orders[o])
    && (forall o: nat | o < n && Sighted(a.orders, o, report) ::
          && a.orders[o].intent < |a.intents| && !b.intents[a.orders[o].intent].state.Unknown?
          && FillKnown(b.trades, o, Some(report.unknown[o].venueId), report.unknown[o].seen.tradeIds, report.unknown[o].seen.filled))
    && (forall i | 0 <= i < |a.intents| ::
          b.intents[i] == a.intents[i] || (IntentSettles(a.intents[i], b.intents[i]) && HasSighted(a, report, i, n)))
  }

  lemma OneSettlement(a: Journal, o: nat, sighting: Sighting, day: int)
    requires o < |a.orders| && a.orders[o].state.Unknown? && !sighting.seen.state.Unknown?
    ensures var result := ResolveUnknown(a, o, sighting.venueId, sighting.seen, day);
      var i := a.orders[o].intent;
      && (result.Ok? <==> i < |a.intents| && Believable(a.orders[o].original, sighting.seen))
      && (result.Ok? ==>
            && result.value.orders == a.orders[o := AccountedFor(a.orders[o], sighting)]
            && |result.value.intents| == |a.intents| && IntentSettles(a.intents[i], result.value.intents[i])
            && (forall k | 0 <= k < |a.intents| && k != i :: result.value.intents[k] == a.intents[k])
            && result.value.control == a.control && a.trades <= result.value.trades
            && FillKnown(result.value.trades, o, Some(sighting.venueId), sighting.seen.tradeIds, sighting.seen.filled))
  {
    EvidenceIsBelievable(a.orders[o].original, sighting.seen);
    var result := ResolveUnknown(a, o, sighting.venueId, sighting.seen, day);
    if result.Ok? {
      var i := a.orders[o].intent;
      var row := MoveAttempt(SubmittedIfUnknown(a.intents[i]), AttemptUnknown, AttemptResolved);
      var mid := SetIntent(a, i, row).(orders := a.orders[o := AccountedFor(a.orders[o], sighting)]);
      FillIsKnown(mid, o, a.orders[o], Some(sighting.venueId), sighting.seen.filled, sighting.seen.price, sighting.seen.tradeIds, day);
    }
  }

  lemma SettleableNext(orders: seq<Order>, intents: nat, report: VenueReport, n: nat)
    ensures Settleable(orders, intents, report, n + 1) <==>
      && Settleable(orders, intents, report, n)
      && (Sighted(orders, n, report) ==>
            orders[n].intent < intents && Believable(orders[n].original, report.unknown[n].seen))
  {
  }

  lemma NoneTookSighted(j: Journal, b: Journal, report: VenueReport, n: nat)
    requires n < |j.orders| && TookSighted(j, b, report, n) && !Sighted(j.orders, n, report)
    ensures TookSighted(j, b, report, n + 1)
  {
    forall i | 0 <= i < |j.intents| && HasSighted(j, report, i, n) ensures HasSighted(j, report, i, n + 1) {
    }
  }

  /** Settling the first `n` orders goes through exactly if what is shown of each is believable, and then each is settled. */
  lemma {:induction false} SettlementGoesThroughIff(j: Journal, report: VenueReport, n: nat)
    requires n <= |j.orders|
    ensures Settled(j, report, n).Ok? <==> Settleable(j.orders, |j.intents|, report, n)
    ensures Settled(j, report, n).Ok? ==> TookSighted(j, Settled(j, report, n).value, report, n)
  {
    if n > 0 {
      SettlementGoesThroughIff(j, report, n - 1);
      SettleableNext(j.orders, |j.intents|, report, n - 1);
      if Settled(j, report, n - 1).Ok? {
        NextSettlement(j, Settled(j, report, n - 1).value, report, n - 1);
      }
    }
  }

  /** One more order. */
  lemma NextSettlement(j: Journal, before: Journal, report: VenueReport, o: nat)
    requires o < |j.orders| && Settled(j, report, o) == Ok(before) && TookSighted(j, before, report, o)
    ensures var next := Settled(j, report, o + 1);
      && (next.Ok? <==> (Sighted(j.orders, o, report) ==>
            j.orders[o].intent < |j.intents| && Believable(j.orders[o].original, report.unknown[o].seen)))
      && (next.Ok? ==> TookSighted(j, next.value, report, o + 1))
  {
    assert before.orders[o] == j.orders[o];
    if Sighted(j.orders, o, report) {
      OneSettlement(before, o, report.unknown[o], report.day);
      var next := Settled(j, report, o + 1);
      if next.Ok? {
        NextTookSighted(j, before, next.value, report, o + 1);
      }
    } else {
      NoneTookSighted(j, before, report, o);
    }
  }

  lemma NextTookSighted(j: Journal, before: Journal, next: Journal, report: VenueReport, n: nat)
    requires 0 < n <= |j.orders| && TookSighted(j, before, report, n - 1) && Sighted(j.orders, n - 1, report)
    requires next.orders == before.orders[n - 1 := AccountedFor(j.orders[n - 1], report.unknown[n - 1])]
    requires next.control == before.control && before.trades <= next.trades
    requires var i := j.orders[n - 1].intent;
      && i < |j.intents| && |next.intents| == |before.intents| && IntentSettles(before.intents[i], next.intents[i])
      && forall k | 0 <= k < |before.intents| && k != i :: next.intents[k] == before.intents[k]
    requires FillKnown(next.trades, n - 1, Some(report.unknown[n - 1].venueId), report.unknown[n - 1].seen.tradeIds,
                       report.unknown[n - 1].seen.filled)
    ensures TookSighted(j, next, report, n)
  {
    forall i | 0 <= i < |j.intents| && HasSighted(j, report, i, n - 1) ensures HasSighted(j, report, i, n) {
    }
    assert HasSighted(j, report, j.orders[n - 1].intent, n);
    forall o: nat | o < n && Sighted(j.orders, o, report)
      ensures FillKnown(next.trades, o, Some(report.unknown[o].venueId), report.unknown[o].seen.tradeIds, report.unknown[o].seen.filled)
      ensures j.orders[o].intent < |j.intents| && !next.intents[j.orders[o].intent].state.Unknown?
    {
      if o < n - 1 {
        FillStaysKnown(before.trades, next.trades, o, Some(report.unknown[o].venueId), report.unknown[o].seen.tradeIds,
                       report.unknown[o].seen.filled);
      }
    }
  }

  // ---------------------------------------------------------------------------------------------
  // The reconciliation as a whole
  // ---------------------------------------------------------------------------------------------

  /** The venue's report can be taken over: every observation is believable and takes no fill back. */
  predicate Consistent(orders: seq<Order>, intents: nat, report: VenueReport) {
    Projectable(orders, report, |orders|) && Settleable(orders, intents, report, |orders|)
  }

  function Reported(orders: seq<Order>, o: nat, report: VenueReport): Order
    requires o < |orders|
  {
    if Observed(orders, o, report) then Shown(orders[o], report.open[o])
    else if Sighted(orders, o, report) then AccountedFor(orders[o], report.unknown[o])
    else orders[o]
  }

  /** Each order is as the venue shows it, or as it was if the venue shows nothing; fills are in the trades. */
  ghost predicate AsReported(a: Journal, b: Journal, report: VenueReport) {
    && |b.orders| == |a.orders| && |b.intents| == |a.intents| && b.control == a.control && a.trades <= b.trades
    && (forall o | 0 <= o < |a.orders| ::
          b.orders[o] == Reported(a.orders, o, report))
    && (forall o: nat | Observed(a.orders, o, report) ::
          FillKnown(b.trades, o, a.orders[o].venueId, report.open[o].tradeIds,
                    Min(report.open[o].filled, report.open[o].filled - (a.orders[o].original - a.orders[o].remaining))))
    && (forall o: nat | Sighted(a.orders, o, report) ::
          && a.orders[o].intent < |a.intents| && !b.intents[a.orders[o].intent].state.Unknown?
          && FillKnown(b.trades, o, Some(report.unknown[o].venueId), report.unknown[o].seen.tradeIds, report.unknown[o].seen.filled))
    && (forall i | 0 <= i < |a.intents| ::
          b.intents[i] == a.intents[i] || (IntentSettles(a.intents[i], b.intents[i]) && HasSighted(a, report, i, |a.orders|)))
  }

  /** Projections leave the UNKNOWN orders and what is said of them alone. */
  lemma SameSighted(a: Journal, b: Journal, report: VenueReport)
    requires TookShown(a, b, report, |a.orders|)
    ensures forall o: nat :: Sighted(b.orders, o, report) <==> Sighted(a.orders, o, report)
    ensures forall o: nat | Sighted(a.orders, o, report) :: b.orders[o] == a.orders[o]
    ensures AnyUnresolved(b.orders, |b.orders|, report) <==> AnyUnresolved(a.orders, |a.orders|, report)
    ensures Settleable(b.orders, |b.intents|, report, |b.orders|) <==> Settleable(a.orders, |a.intents|, report, |a.orders|)
  {
    forall o: nat ensures Sighted(b.orders, o, report) <==> Sighted(a.orders, o, report)
      ensures Unresolved(b.orders, o, report) <==> Unresolved(a.orders, o, report)
      ensures Sighted(a.orders, o, report) ==> b.orders[o] == a.orders[o]
    {
      if o < |a.orders| {
        assert b.orders[o].state.Unknown? <==> a.orders[o].state.Unknown?;
      }
    }
  }

  /** A reconciliation goes through exactly if the report can be taken over, and then the tables are as it reports. */
  lemma ReconciliationGoesThroughIff(j: Journal, report: VenueReport)
    ensures Reconciled(j, report).Ok? <==> Consistent(j.orders, |j.intents|, report)
    ensures Reconciled(j, report).Ok? ==> AsReported(j, Reconciled(j, report).value, report)
  {
    ProjectionGoesThroughIff(j, report, |j.orders|);
    if Projected(j, report, |j.orders|).Ok? {
      var mid := Projected(j, report, |j.orders|).value;
      SameSighted(j, mid, report);
      SettlementGoesThroughIff(mid, report, |j.orders|);
      if Reconciled(j, report).Ok? {
        ReportedThroughout(j, mid, Reconciled(j, report).value, report);
      }
    }
  }

  lemma ReportedThroughout(j: Journal, mid: Journal, next: Journal, report: VenueReport)
    requires TookShown(j, mid, report, |j.orders|) && TookSighted(mid, next, report, |j.orders|)
    ensures AsReported(j, next, report)
  {
    SameSighted(j, mid, report);
    forall o: nat | Observed(j.orders, o, report)
      ensures FillKnown(next.trades, o, j.orders[o].venueId, report.open[o].tradeIds,
                        Min(report.open[o].filled, report.open[o].filled - (j.orders[o].original - j.orders[o].remaining)))
    {
      FillStaysKnown(mid.trades, next.trades, o, j.orders[o].venueId, report.open[o].tradeIds,
                     Min(report.open[o].filled, report.open[o].filled - (j.orders[o].original - j.orders[o].remaining)));
    }
  }
}
