/** What a cancellation makes of its targets (`execute_cancellation`), and several of them one after the other. */
module Cancellations {
  import opened Wrappers
  import opened Domain
  import opened Journal

  /** A cancellation request on its way: its targets, and the terminal state the venue reports for some of them. */
  datatype Cancellation = Cancellation(targets: seq<nat>, answers: map<nat, OrderState>)
  {
    function Answer(o: nat): Option<OrderState> {
      if o in answers then Some(answers[o]) else None
    }

    /** The first `k` targets. */
    function Upto(k: nat): Cancellation
      requires k <= |targets|
    {
      Cancellation(targets[..k], answers)
    }
  }

  predicate Conclusive(answers: map<nat, OrderState>) {
    forall o | o in answers :: answers[o].Terminal()
  }

  // ---------------------------------------------------------------------------------------------
  // One target
  // ---------------------------------------------------------------------------------------------

  /** A prepared order no venue has heard of is cancelled here. */
  predicate CancelledHere(order: Order) {
    order.state.Prepared? && order.venueId.None?
  }

  /** The venue confirms nothing: it was not asked, or its call failed. */
  predicate Unconfirmed(order: Order, answer: Option<OrderState>) {
    !order.state.Terminal() && !CancelledHere(order) && (order.venueId.None? || answer.None?)
  }

  /** The row of a target whose cancellation is not refused. */
  function CancelledRow(order: Order, answer: Option<OrderState>): Order {
    if order.state.Terminal() then order
    else if CancelledHere(order) then order.(state := OrderState.Cancelled)
    else if Unconfirmed(order, answer) then
      if order.state.Unknown? then order else order.(state := OrderState.CancelPending)
    else order.(state := answer.value)
  }

  /**
   A target that does not exist, one whose submission is under way, one that is prepared but known to the
   venue, and one that the venue says it rejected; the join with the intent must find a row where one is written.
   */
  predicate Refuses(orders: seq<Order>, intents: nat, o: nat, answer: Option<OrderState>) {
    if o >= |orders| then true
    else if orders[o].state.Terminal() then false
    else
      || (orders[o].intent >= intents && !(orders[o].state.Unknown? && Unconfirmed(orders[o], answer)))
      || orders[o].state.Submitting?
      || (orders[o].state.Prepared? && orders[o].venueId.Some?)
      || (orders[o].venueId.Some? && answer == Some(OrderState.Rejected))
  }

  /**
   State by state: a resting order ends as the venue says, or waits CANCEL_PENDING for its word; an UNKNOWN
   one ends as the venue says or stays; one the venue never heard of is cancelled; one being sent is refused.
   */
  lemma TargetByState(orders: seq<Order>, intents: nat, o: nat, answer: Option<OrderState>)
    requires o < |orders| && orders[o].intent < intents && (answer.Some? ==> answer.value.Terminal())
    ensures var order := orders[o];
      var confirmed := order.venueId.Some? && answer.Some?;
      match order.state
      case Live | PartiallyFilled | CancelPending =>
        if confirmed && answer.value.Rejected? then Refuses(orders, intents, o, answer)
        else !Refuses(orders, intents, o, answer)
             && CancelledRow(order, answer) == order.(state := if confirmed then answer.value else OrderState.CancelPending)
             && (Unconfirmed(order, answer) <==> !confirmed)
      case Unknown =>
        if confirmed && answer.value.Rejected? then Refuses(orders, intents, o, answer)
        else !Refuses(orders, intents, o, answer)
             && CancelledRow(order, answer) == order.(state := if confirmed then answer.value else OrderState.Unknown)
             && (Unconfirmed(order, answer) <==> !confirmed)
      case Prepared =>
        if order.venueId.Some? then Refuses(orders, intents, o, answer)
        else !Refuses(orders, intents, o, answer) && !Unconfirmed(order, answer)
             && CancelledRow(order, answer) == order.(state := OrderState.Cancelled)
      case Submitting => Refuses(orders, intents, o, answer)
      case _ => !Refuses(orders, intents, o, answer) && !Unconfirmed(order, answer) && CancelledRow(order, answer) == order
  {
  }

  /** Asking again changes nothing more. */
  lemma CancellingTwice(order: Order, answer: Option<OrderState>, orders: seq<Order>, intents: nat, o: nat)
    requires answer.Some? ==> answer.value.Terminal()
    requires o < |orders| && orders[o] == order && !Refuses(orders, intents, o, answer)
    ensures CancelledRow(CancelledRow(order, answer), answer) == CancelledRow(order, answer)
    ensures !Refuses(orders[o := CancelledRow(order, answer)], intents, o, answer)
    ensures Unconfirmed(CancelledRow(order, answer), answer) <==> Unconfirmed(order, answer)
    ensures Unconfirmed(order, answer) <==> !CancelledRow(order, answer).state.Terminal()
  {
  }

  // ---------------------------------------------------------------------------------------------
  // The intents of the targets
  // ---------------------------------------------------------------------------------------------

  /** Orders keep their intents; prepared and unknown ones end or stay as they are; ended ones stay. */
  predicate OrdersFollow(a: seq<Order>, b: seq<Order>) {
    && |a| == |b|
    && forall o | 0 <= o < |a| ::
         && b[o].intent == a[o].intent && (a[o].state.Terminal() ==> b[o] == a[o])
         && (b[o].state == a[o].state || b[o].state.Terminal()
             || (b[o].state.CancelPending? && !a[o].state.Prepared? && !a[o].state.Unknown?))
  }

  /** An order of the intent has gone from this state to its end. */
  predicate OrderEnds(a: seq<Order>, b: seq<Order>, i: nat, from: OrderState) {
    exists o | 0 <= o < |a| && o < |b| :: a[o].intent == i && a[o].state == from && b[o].state.Terminal()
  }

  /** An intent changes only with its order: rejected with a prepared one, submitted with an unknown one. */
  predicate Follows(a: Journal, b: Journal, i: nat)
    requires i < |a.intents| && i < |b.intents|
  {
    var x, y := a.intents[i], b.intents[i];
    && y.request == x.request && y.reservation == x.reservation
    && y.state == if x.state.Prepared? && OrderEnds(a.orders, b.orders, i, OrderState.Prepared) then IntentState.Rejected
                  else if x.state.Unknown? && OrderEnds(a.orders, b.orders, i, OrderState.Unknown) then IntentState.Submitted
                  else x.state
  }

  /** What cancellations may have done to the tables. */
  predicate CancelledInto(a: Journal, b: Journal) {
    && OrdersFollow(a.orders, b.orders) && |a.intents| == |b.intents|
    && b.trades == a.trades && b.positions == a.positions && b.control == a.control
    && forall i | 0 <= i < |a.intents| :: Follows(a, b, i)
  }

  lemma NothingCancelled(a: Journal)
    ensures CancelledInto(a, a)
  {
  }

  lemma OrderEndsJoins(a: seq<Order>, m: seq<Order>, b: seq<Order>, i: nat, from: OrderState)
    requires OrdersFollow(a, m) && OrdersFollow(m, b) && (from.Prepared? || from.Unknown?)
    ensures OrdersFollow(a, b)
    ensures OrderEnds(a, b, i, from) <==> OrderEnds(a, m, i, from) || OrderEnds(m, b, i, from)
  {
    if OrderEnds(a, b, i, from) {
      var o :| 0 <= o < |a| && a[o].intent == i && a[o].state == from && b[o].state.Terminal();
      assert m[o].state.Terminal() || m[o].state == from;
    }
    if OrderEnds(m, b, i, from) {
      var o :| 0 <= o < |m| && m[o].intent == i && m[o].state == from && b[o].state.Terminal();
      assert a[o].state == from;
    }
    if OrderEnds(a, m, i, from) {
      var o :| 0 <= o < |a| && a[o].intent == i && a[o].state == from && m[o].state.Terminal();
      assert b[o] == m[o];
    }
  }

  lemma CancelledIntoJoins(a: Journal, m: Journal, b: Journal)
    requires CancelledInto(a, m) && CancelledInto(m, b)
    ensures CancelledInto(a, b)
  {
    forall i | 0 <= i < |a.intents| ensures Follows(a, b, i) {
      assert Follows(a, m, i) && Follows(m, b, i);
      OrderEndsJoins(a.orders, m.orders, b.orders, i, OrderState.Prepared);
      OrderEndsJoins(a.orders, m.orders, b.orders, i, OrderState.Unknown);
    }
    OrderEndsJoins(a.orders, m.orders, b.orders, 0, OrderState.Prepared);
  }

  lemma CancelPreparedFollows(j: Journal, o: nat)
    requires CancelPreparedOrder(j, o).Ok?
    ensures CancelledInto(j, CancelPreparedOrder(j, o).value)
    ensures CancelPreparedOrder(j, o).value.orders == j.orders[o := j.orders[o].(state := OrderState.Cancelled)]
  {
    var b := CancelPreparedOrder(j, o).value;
    forall i | 0 <= i < |j.intents| ensures Follows(j, b, i) {
      if i == j.orders[o].intent {
        assert OrderEnds(j.orders, b.orders, i, OrderState.Prepared);
      } else {
        assert b.intents[i] == j.intents[i];
      }
    }
  }

  lemma TransitionFollows(j: Journal, o: nat, next: OrderState)
    requires TransitionOrder(j, o, next).Ok? && o < |j.orders| && !j.orders[o].state.Terminal() && !j.orders[o].state.Prepared?
    requires next.CancelPending? || next.Terminal()
    ensures CancelledInto(j, TransitionOrder(j, o, next).value)
    ensures TransitionOrder(j, o, next).value.orders == j.orders[o := j.orders[o].(state := next)]
  {
    var b := TransitionOrder(j, o, next).value;
    forall i | 0 <= i < |j.intents| ensures Follows(j, b, i) {
      if i == j.orders[o].intent {
        if j.orders[o].state.Unknown? {
          assert OrderEnds(j.orders, b.orders, i, OrderState.Unknown);
        }
      } else {
        assert b.intents[i] == j.intents[i];
      }
    }
  }

  // ---------------------------------------------------------------------------------------------
  // One request
  // ---------------------------------------------------------------------------------------------

  /** A request is refused exactly if one of its targets is. */
  predicate Refused(orders: seq<Order>, intents: nat, request: Cancellation) {
    exists o | o in request.targets :: Refuses(orders, intents, o, request.Answer(o))
  }

  function AfterRequest(orders: seq<Order>, request: Cancellation): seq<Order> {
    seq(|orders|, o requires 0 <= o < |orders| =>
      if o in request.targets then CancelledRow(orders[o], request.Answer(o)) else orders[o])
  }

  /** The targets a request ends without a word from the venue. */
  predicate Unfinished(orders: seq<Order>, request: Cancellation, o: nat) {
    o in request.targets && o < |orders| && Unconfirmed(orders[o], request.Answer(o))
  }

  /** One more target of a request. */
  lemma NextTarget(orders: seq<Order>, intents: nat, request: Cancellation, k: nat)
    requires k < |request.targets| && Conclusive(request.answers) && !Refused(orders, intents, request.Upto(k))
    ensures var o := request.targets[k];
      var done := AfterRequest(orders, request.Upto(k));
      && (Refused(orders, intents, request.Upto(k + 1)) <==> Refuses(done, intents, o, request.Answer(o)))
      && (Refuses(done, intents, o, request.Answer(o)) ==> Refused(orders, intents, request))
      && (!Refuses(done, intents, o, request.Answer(o)) ==>
            AfterRequest(orders, request.Upto(k + 1)) == done[o := CancelledRow(done[o], request.Answer(o))])
  {
    var o := request.targets[k];
    SameAnswer(orders, intents, request, k);
    var before, after := request.Upto(k), request.Upto(k + 1);
    assert after.targets == before.targets + [o];
    forall p: nat ensures p in after.targets <==> p in before.targets || p == o {
    }
    forall p | p in before.targets ensures !Refuses(orders, intents, p, after.Answer(p)) {
      assert !Refuses(orders, intents, p, before.Answer(p));
    }
    assert o in after.targets && after.Answer(o) == request.Answer(o);
  }

  /** A target asked before is refused no more and no less than at first. */
  lemma SameAnswer(orders: seq<Order>, intents: nat, request: Cancellation, k: nat)
    requires k < |request.targets| && Conclusive(request.answers) && !Refused(orders, intents, request.Upto(k))
    ensures var o := request.targets[k];
      var done := AfterRequest(orders, request.Upto(k));
      && (Refuses(done, intents, o, request.Answer(o)) <==> Refuses(orders, intents, o, request.Answer(o)))
      && (o < |orders| && !Refuses(done, intents, o, request.Answer(o)) ==>
            && CancelledRow(done[o], request.Answer(o)) == CancelledRow(orders[o], request.Answer(o))
            && (Unconfirmed(done[o], request.Answer(o)) <==> Unconfirmed(orders[o], request.Answer(o))))
  {
    var o := request.targets[k];
    if o in request.Upto(k).targets {
      assert !Refuses(orders, intents, o, request.Upto(k).Answer(o));
      CancellingTwice(orders[o], request.Answer(o), orders, intents, o);
    }
  }

  lemma OneMoreUnfinished(orders: seq<Order>, intents: nat, request: Cancellation, k: nat, done: seq<Order>)
    requires k < |request.targets| && Conclusive(request.answers) && !Refused(orders, intents, request.Upto(k))
    requires done == AfterRequest(orders, request.Upto(k))
    ensures var o := request.targets[k];
      !Refuses(done, intents, o, request.Answer(o)) ==>
        forall p: nat :: Unfinished(orders, request.Upto(k + 1), p)
          <==> Unfinished(orders, request.Upto(k), p) || (p == o && Unconfirmed(done[o], request.Answer(o)))
  {
    SameAnswer(orders, intents, request, k);
    var before, after, o := request.Upto(k), request.Upto(k + 1), request.targets[k];
    assert after.targets == before.targets + [o];
    forall p: nat ensures Unfinished(orders, after, p) <==> Unfinished(orders, before, p) || (p == o && Unfinished(orders, after, o)) {
    }
    assert o in after.targets && after.Answer(o) == request.Answer(o);
  }

  // ---------------------------------------------------------------------------------------------
  // Several requests
  // ---------------------------------------------------------------------------------------------

  function AfterRequests(orders: seq<Order>, requests: seq<Cancellation>): seq<Order> {
    if requests == [] then orders
    else AfterRequest(AfterRequests(orders, requests[..|requests| - 1]), requests[|requests| - 1])
  }

  /** Some request is refused when its turn comes. */
  predicate AnyRefused(orders: seq<Order>, intents: nat, requests: seq<Cancellation>) {
    && requests != []
    && (AnyRefused(orders, intents, requests[..|requests| - 1])
        || Refused(AfterRequests(orders, requests[..|requests| - 1]), intents, requests[|requests| - 1]))
  }

  /** Some request leaves this target unconfirmed. */
  predicate AnyUnfinished(orders: seq<Order>, requests: seq<Cancellation>, o: nat) {
    && requests != []
    && (AnyUnfinished(orders, requests[..|requests| - 1], o)
        || Unfinished(AfterRequests(orders, requests[..|requests| - 1]), requests[|requests| - 1], o))
  }

  /** The targets of a request for all open orders: every order that has not ended. */
  function OpenIds(orders: seq<Order>): seq<nat> {
    if orders == [] then []
    else
      var n := |orders| - 1;
      OpenIds(orders[..n]) + if orders[n].state.Terminal() then [] else [n]
  }

  lemma {:induction false} OpenIdsAreOpen(orders: seq<Order>)
    ensures forall o: nat :: o in OpenIds(orders) <==> o < |orders| && !orders[o].state.Terminal()
  {
    if orders != [] {
      OpenIdsAreOpen(orders[..|orders| - 1]);
    }
  }

  /** Every target of a request that is not refused ends, or the request reports it. */
  lemma TargetsEndOrAreReported(orders: seq<Order>, intents: nat, request: Cancellation, o: nat)
    requires !Refused(orders, intents, request) && Conclusive(request.answers) && o in request.targets
    ensures o < |orders|
    ensures AfterRequest(orders, request)[o].state.Terminal() <==> !Unfinished(orders, request, o)
  {
    assert !Refuses(orders, intents, o, request.Answer(o));
    CancellingTwice(orders[o], request.Answer(o), orders, intents, o);
  }

  /** Orders that have ended stay as they are. */
  lemma {:induction false} EndedStayEnded(orders: seq<Order>, requests: seq<Cancellation>)
    ensures |AfterRequests(orders, requests)| == |orders|
    ensures forall o | 0 <= o < |orders| && orders[o].state.Terminal() :: AfterRequests(orders, requests)[o] == orders[o]
  {
    if requests != [] {
      EndedStayEnded(orders, requests[..|requests| - 1]);
    }
  }

  /** After all requests every target of every one of them has ended or has been reported. */
  lemma {:induction false} AllTargetsEndOrAreReported(orders: seq<Order>, intents: nat, requests: seq<Cancellation>,
            k: nat, o: nat)
    requires !AnyRefused(orders, intents, requests) && k < |requests| && o in requests[k].targets
    requires forall c | c in requests :: Conclusive(c.answers)
    ensures o < |orders| && |AfterRequests(orders, requests)| == |orders|
    ensures AfterRequests(orders, requests)[o].state.Terminal() || AnyUnfinished(orders, requests, o)
  {
    var n := |requests| - 1;
    EndedStayEnded(orders, requests[..n]);
    if k == n {
      TargetsEndOrAreReported(AfterRequests(orders, requests[..n]), intents, requests[n], o);
    } else {
      AllTargetsEndOrAreReported(orders, intents, requests[..n], k, o);
    }
  }

  lemma {:induction false} RefusedStays(orders: seq<Order>, intents: nat, requests: seq<Cancellation>, k: nat)
    requires k <= |requests| && AnyRefused(orders, intents, requests[..k])
    ensures AnyRefused(orders, intents, requests)
  {
    if k == |requests| {
      assert requests[..k] == requests;
    } else {
      assert requests[..|requests| - 1][..k] == requests[..k];
      RefusedStays(orders, intents, requests[..|requests| - 1], k);
    }
  }
}
