/**
 The handoff of the server-sent event stream from journal replay to live flow (src/api.rs, `events`),
 with writers, senders and pruning interleaved at every point.

 Events are their sequence numbers. The journal numbers them without gaps from 1 and pruning removes a
 prefix; a writer commits its events first and sends each to the broadcast channel later.
 */
module EventStream {
  import opened Wrappers

  const REPLAY_LIMIT: nat := 10_000
  const CHANNEL_CAPACITY: nat := 1_024

  datatype ResetReason = CursorOutsideRetention | ReplayLimitExceeded

  // ---------------------------------------------------------------------------------------------
  // Opening a stream
  // ---------------------------------------------------------------------------------------------

  predicate CursorOutside(after: nat, minimum: Option<nat>, maximum: Option<nat>) {
    after > 0
    && ((minimum.Some? && after as int < minimum.value as int - 1) || maximum.None? || after > maximum.value)
  }

  predicate ReplayTruncated(outside: bool, maximum: Option<nat>, watermark: nat) {
    !outside && maximum.Some? && watermark < maximum.value
  }

  /** The events after `low` up to `high`, in order. */
  function Range(low: nat, high: nat): (events: seq<nat>)
    ensures |events| == (if low <= high then high - low else 0)
    ensures forall k | 0 <= k < |events| :: events[k] == low + 1 + k
  {
    if low < high then Range(low, high - 1) + [high] else []
  }

  function Larger(a: nat, b: nat): nat {
    if a >= b then a else b
  }

  function Smaller(a: nat, b: nat): nat {
    if a <= b then a else b
  }

  /** `replay_events`: the retained rows after the cursor, at most the limit. */
  function ReplayRows(high: nat, pruned: nat, after: nat): seq<nat> {
    var low := Larger(after, pruned);
    Range(low, Smaller(high, low + REPLAY_LIMIT))
  }

  /** What a client is given before live events: a reset or the replay, and the live watermark. */
  datatype Opening = Opening(reset: Option<ResetReason>, replay: seq<nat>, watermark: nat)

  function Open(after: nat, minimum: Option<nat>, maximum: Option<nat>, rows: seq<nat>): Opening {
    var watermark := if rows == [] then after else rows[|rows| - 1];
    if CursorOutside(after, minimum, maximum) then
      Opening(Some(CursorOutsideRetention), [], if maximum.Some? then maximum.value else after)
    else if ReplayTruncated(false, maximum, watermark) then Opening(Some(ReplayLimitExceeded), [], maximum.value)
    else Opening(None, rows, watermark)
  }

  /** The handler's own order of decisions, over a mutable replay buffer. */
  method OpenStream(after: nat, minimum: Option<nat>, maximum: Option<nat>, rows: seq<nat>) returns (opening: Opening)
    ensures opening == Open(after, minimum, maximum, rows)
  {
    var outside := CursorOutside(after, minimum, maximum);
    var replay := if outside then [] else rows;
    var replayWatermark := if replay == [] then after else replay[|replay| - 1];
    var truncated := ReplayTruncated(outside, maximum, replayWatermark);
    if truncated {
      replay := [];
    }
    var reset := if outside then Some(CursorOutsideRetention) else if truncated then Some(ReplayLimitExceeded) else None;
    var watermark := if reset.None? then replayWatermark else if maximum.Some? then maximum.value else after;
    opening := Opening(reset, replay, watermark);
  }

  // ---------------------------------------------------------------------------------------------
  // Steps
  // ---------------------------------------------------------------------------------------------

  datatype Phase =
    | Away
    | Subscribed
    | Bounded(minimum: Option<nat>, maximum: Option<nat>)
    | Streaming(opening: Opening)

  /**
   `high` events are committed and the first `pruned` are deleted. `channel` is everything sent since
   the client subscribed, of which it has read `cursor`; `base` is what was committed, and `gone` what was pruned, at the bounds query.
   */
  datatype State = State(
    high: nat, pruned: nat, unsent: set<nat>,
    phase: Phase, channel: seq<nat>, cursor: nat, lagged: bool, live: seq<nat>, base: nat, gone: nat)

  datatype Step =
    | Commit(count: nat)
    | Send(event: nat)
    | Prune(cutoff: nat)
    | Subscribe
    | QueryBounds
    | QueryReplay
    | Receive

  function Minimum(s: State): Option<nat> {
    if s.pruned < s.high then Some(s.pruned + 1) else None
  }

  function Maximum(s: State): Option<nat> {
    if s.pruned < s.high then Some(s.high) else None
  }

  /** The numbers the next `count` events get. */
  function Fresh(high: nat, count: nat): set<nat> {
    var events := Range(high, high + count);
    set e | e in events
  }

  function Fire(s: State, after: nat, step: Step): Option<State> {
    match step
    case Commit(count) =>
      Some(s.(high := s.high + count, unsent := s.unsent + Fresh(s.high, count)))
    case Send(e) =>
      if e !in s.unsent then None
      else Some(s.(unsent := s.unsent - {e}, channel := if s.phase.Away? then s.channel else s.channel + [e]))
    case Prune(cutoff) =>
      // The newest event is always retained, and no prune falls between the bounds query and the replay.
      if s.phase.Bounded? || cutoff >= s.high then None else Some(s.(pruned := Larger(s.pruned, cutoff)))
    case Subscribe => if s.phase.Away? then Some(s.(phase := Subscribed)) else None
    case QueryBounds =>
      if s.phase.Subscribed? then Some(s.(phase := Bounded(Minimum(s), Maximum(s)), base := s.high, gone := s.pruned)) else None
    case QueryReplay =>
      if s.phase.Bounded? then
        Some(s.(phase := Streaming(Open(after, s.phase.minimum, s.phase.maximum, ReplayRows(s.high, s.pruned, after)))))
      else None
    case Receive =>
      if !s.phase.Streaming? || s.cursor >= |s.channel| then None
      else if |s.channel| - s.cursor > CHANNEL_CAPACITY then
        Some(s.(cursor := |s.channel| - CHANNEL_CAPACITY, lagged := true))
      else
        var e := s.channel[s.cursor];
        Some(s.(cursor := s.cursor + 1, live := if e > s.phase.opening.watermark then s.live + [e] else s.live))
  }

  predicate Initial(s: State) {
    && (s.pruned < s.high || s.high == 0 == s.pruned) && (forall e | e in s.unsent :: 0 < e <= s.high)
    && s.phase.Away? && s.channel == [] && s.cursor == 0 && !s.lagged && s.live == []
  }

  ghost predicate Run(states: seq<State>, steps: seq<Step>, after: nat) {
    && |states| == |steps| + 1 && Initial(states[0])
    && forall k {:trigger steps[k]} | 0 <= k < |steps| :: Fire(states[k], after, steps[k]) == Some(states[k + 1])
  }

  /** Everything the client has been given. */
  function Delivered(s: State): seq<nat>
    requires s.phase.Streaming?
  {
    s.phase.opening.replay + s.live
  }

  /** Still on its way to the client: sent later, or sent and not yet read. */
  predicate Pending(s: State, e: nat)
    requires s.phase.Streaming? && s.cursor <= |s.channel|
  {
    e > s.phase.opening.watermark && (e in s.unsent || e in s.channel[s.cursor..])
  }

  // ---------------------------------------------------------------------------------------------
  // The invariant
  // ---------------------------------------------------------------------------------------------

  predicate Distinct(events: seq<nat>) {
    forall i, j | 0 <= i < j < |events| :: events[i] != events[j]
  }

  predicate OnChannel(s: State, e: nat) {
    e in s.unsent || e in s.channel
  }

  /** Sent events are distinct, sent once, and none committed after the bounds query is missing. */
  ghost predicate ChannelInv(s: State) {
    && (s.pruned < s.high || s.high == 0 == s.pruned) && s.cursor <= |s.channel| && Distinct(s.channel)
    && (forall e | e in s.unsent :: 0 < e <= s.high && e !in s.channel)
    && (forall e | e in s.channel :: 0 < e <= s.high)
    && (s.phase.Away? ==> s.channel == [])
    && (!s.phase.Streaming? ==> s.live == [] && s.cursor == 0 && !s.lagged)
    && (s.phase.Bounded? || s.phase.Streaming? ==>
          s.base <= s.high && forall e | s.base < e <= s.high :: OnChannel(s, e))
  }

  ghost predicate PhaseInv(s: State, after: nat) {
    match s.phase
    case Bounded(minimum, maximum) =>
      && s.gone == s.pruned && (s.gone < s.base || s.base == 0 == s.gone) && s.base <= s.high
      && minimum == (if s.base > 0 then Some(s.gone + 1) else None)
      && maximum == (if s.base > 0 then Some(s.base) else None)
    case Streaming(opening) =>
      opening.reset.None? ==>
        && s.gone <= s.base <= opening.watermark <= s.high && after <= opening.watermark
        && (after > 0 ==> s.gone <= after)
        && (forall e: nat :: e in opening.replay <==> Larger(after, s.gone) < e <= opening.watermark)
        && Distinct(opening.replay)
    case _ => true
  }

  /** Live events are the ones read above the watermark, unless a lag has cut some out. */
  ghost predicate LiveInv(s: State) {
    s.phase.Streaming? ==>
      && s.cursor <= |s.channel| && Distinct(s.live)
      && (forall e | e in s.live :: e > s.phase.opening.watermark && e in s.channel[..s.cursor])
      && (!s.lagged ==> forall e | e in s.channel[..s.cursor] && e > s.phase.opening.watermark :: e in s.live)
  }

  lemma ChannelStep(s: State, after: nat, step: Step)
    requires ChannelInv(s) && Fire(s, after, step).Some?
    ensures ChannelInv(Fire(s, after, step).value)
  {
    var t := Fire(s, after, step).value;
    if step.Commit? {
      RangeMembers(s.high, t.high);
    }
    forall e | (s.phase.Bounded? || s.phase.Streaming?) && t.base < e <= t.high ensures OnChannel(t, e) {
      if e <= s.high {
        assert OnChannel(s, e);
      }
    }
  }

  lemma LiveStep(s: State, after: nat, step: Step)
    requires ChannelInv(s) && LiveInv(s) && Fire(s, after, step).Some?
    ensures LiveInv(Fire(s, after, step).value)
  {
    var t := Fire(s, after, step).value;
    if s.phase.Streaming? {
      match step {
        case Send(event) => assert t.channel[..t.cursor] == s.channel[..s.cursor];
        case Receive =>
          if |s.channel| - s.cursor <= CHANNEL_CAPACITY {
            assert t.channel[..t.cursor] == s.channel[..s.cursor] + [s.channel[s.cursor]];
            assert s.channel[s.cursor] !in s.channel[..s.cursor];
          } else {
            forall e | e in s.channel[..s.cursor] ensures e in t.channel[..t.cursor] {
            }
          }
        case _ =>
      }
    }
  }

  lemma ReplayRowsAre(high: nat, pruned: nat, after: nat)
    ensures var rows := ReplayRows(high, pruned, after);
      && Distinct(rows)
      && (forall e: nat :: e in rows <==>
            Larger(after, pruned) < e <= Smaller(high, Larger(after, pruned) + REPLAY_LIMIT))
      && (rows != [] ==> rows[|rows| - 1] == Smaller(high, Larger(after, pruned) + REPLAY_LIMIT))
  {
    var low := Larger(after, pruned);
    RangeMembers(low, Smaller(high, low + REPLAY_LIMIT));
  }

  lemma RangeMembers(low: nat, high: nat)
    ensures forall e: nat :: e in Range(low, high) <==> low < e <= high
    ensures Distinct(Range(low, high))
  {
    forall e: nat | low < e <= high ensures e in Range(low, high) {
      assert Range(low, high)[e - low - 1] == e;
    }
  }

  lemma PhaseStep(s: State, after: nat, step: Step)
    requires ChannelInv(s) && PhaseInv(s, after) && Fire(s, after, step).Some?
    ensures PhaseInv(Fire(s, after, step).value, after)
  {
    if step.QueryReplay? {
      ReplayRowsAre(s.high, s.pruned, after);
    }
  }

  ghost predicate Inv(s: State, after: nat) {
    ChannelInv(s) && PhaseInv(s, after) && LiveInv(s)
  }

  lemma {:induction false} RunKeepsInv(states: seq<State>, steps: seq<Step>, after: nat, k: nat)
    requires Run(states, steps, after) && k < |states|
    ensures Inv(states[k], after)
  {
    if k > 0 {
      RunKeepsInv(states, steps, after, k - 1);
      assert Fire(states[k - 1], after, steps[k - 1]) == Some(states[k]);
      ChannelStep(states[k - 1], after, steps[k - 1]);
      PhaseStep(states[k - 1], after, steps[k - 1]);
      LiveStep(states[k - 1], after, steps[k - 1]);
    }
  }

  // ---------------------------------------------------------------------------------------------
  // Theorems
  // ---------------------------------------------------------------------------------------------

  /**
   A client that is sent no reset has, at every moment, every retained event above its cursor exactly
   once, except those still on their way to it.
   */
  lemma EveryEventExactlyOnce(states: seq<State>, steps: seq<Step>, after: nat, k: nat)
    requires Run(states, steps, after) && k < |states|
    requires states[k].phase.Streaming? && states[k].phase.opening.reset.None? && !states[k].lagged
    ensures states[k].cursor <= |states[k].channel|
    ensures Distinct(Delivered(states[k]))
    ensures forall e: nat :: e in Delivered(states[k]) <==>
      Larger(after, states[k].gone) < e <= states[k].high && !Pending(states[k], e)
  {
    RunKeepsInv(states, steps, after, k);
    var s := states[k];
    DeliveredIsDistinct(s, after);
    forall e: nat ensures e in Delivered(s) <==> Larger(after, s.gone) < e <= s.high && !Pending(s, e) {
      DeliveredIff(s, after, e);
    }
  }

  lemma DeliveredIsDistinct(s: State, after: nat)
    requires Inv(s, after) && s.phase.Streaming? && s.phase.opening.reset.None?
    ensures Distinct(Delivered(s))
  {
    var replay := s.phase.opening.replay;
    forall i, j | 0 <= i < j < |Delivered(s)| ensures Delivered(s)[i] != Delivered(s)[j] {
      if i < |replay| <= j {
        assert replay[i] in replay && s.live[j - |replay|] in s.live;
      }
    }
  }

  lemma DeliveredIff(s: State, after: nat, e: nat)
    requires Inv(s, after) && s.phase.Streaming? && s.phase.opening.reset.None? && !s.lagged
    ensures e in Delivered(s) <==> Larger(after, s.gone) < e <= s.high && !Pending(s, e)
  {
    var w := s.phase.opening.watermark;
    assert s.channel == s.channel[..s.cursor] + s.channel[s.cursor..];
    if e in s.live {
      assert e in s.channel[..s.cursor] && e in s.channel;
      var i :| 0 <= i < s.cursor && s.channel[i] == e;
      assert e !in s.channel[s.cursor..];
    }
    if w < e <= s.high {
      assert OnChannel(s, e);
    }
  }

  /** Nothing above a non-zero cursor is missed; from cursor zero, exactly what was pruned before is. */
  lemma CompleteIffCovered(states: seq<State>, steps: seq<Step>, after: nat, k: nat)
    requires Run(states, steps, after) && k < |states|
    requires states[k].phase.Streaming? && states[k].phase.opening.reset.None? && !states[k].lagged
    ensures states[k].cursor <= |states[k].channel|
    ensures (forall e: nat | after < e <= states[k].high :: e in Delivered(states[k]) || Pending(states[k], e))
       <==> after > 0 || states[k].gone == 0
  {
    RunKeepsInv(states, steps, after, k);
    EveryEventExactlyOnce(states, steps, after, k);
    var s := states[k];
    if after == 0 && s.gone > 0 {
      assert !(s.gone in Delivered(s)) && !Pending(s, s.gone);
    }
  }

  /** When nothing is on its way, the client holds precisely the events above its cursor. */
  lemma CaughtUpClientHasEverything(states: seq<State>, steps: seq<Step>, after: nat, k: nat)
    requires Run(states, steps, after) && k < |states| && after > 0
    requires states[k].phase.Streaming? && states[k].phase.opening.reset.None? && !states[k].lagged
    requires states[k].unsent == {} && states[k].cursor == |states[k].channel|
    ensures multiset(Delivered(states[k])) == multiset(Range(after, states[k].high))
  {
    RunKeepsInv(states, steps, after, k);
    EveryEventExactlyOnce(states, steps, after, k);
    var s := states[k];
    RangeMembers(after, s.high);
    assert s.channel[s.cursor..] == [];
    forall e: nat ensures e in Delivered(s) <==> e in Range(after, s.high) {
      assert !Pending(s, e);
    }
    SameEvents(Delivered(s), Range(after, s.high));
  }

  lemma SameEvents(a: seq<nat>, b: seq<nat>)
    requires Distinct(a) && Distinct(b) && forall e: nat :: e in a <==> e in b
    ensures multiset(a) == multiset(b)
  {
    DistinctCounts(a);
    DistinctCounts(b);
    forall e: nat ensures multiset(a)[e] == multiset(b)[e] {
      assert e in a <==> e in b;
    }
  }

  lemma {:induction false} DistinctCounts(a: seq<nat>)
    requires Distinct(a)
    ensures forall e: nat :: multiset(a)[e] == if e in a then 1 else 0
  {
    if a != [] {
      var n := |a| - 1;
      DistinctCounts(a[..n]);
      assert a == a[..n] + [a[n]];
      assert a[n] !in a[..n];
    }
  }

  // ---------------------------------------------------------------------------------------------
  // Reconnecting with the last event id
  // ---------------------------------------------------------------------------------------------

  /** Sends so far have followed the sequence numbers. */
  ghost predicate Ordered(s: State) {
    && (forall i, j | 0 <= i < j < |s.channel| :: s.channel[i] < s.channel[j])
    && (forall sent, waiting | sent in s.channel && waiting in s.unsent :: sent < waiting)
    && (forall waiting, e: nat | waiting in s.unsent && waiting < e <= s.high :: e in s.unsent)
  }

  predicate SendsInOrder(s: State, step: Step) {
    step.Send? ==> forall waiting | waiting in s.unsent :: step.event <= waiting
  }

  lemma CommitStaysOrdered(s: State, after: nat, count: nat)
    requires ChannelInv(s) && Ordered(s)
    ensures Ordered(Fire(s, after, Commit(count)).value)
  {
    RangeMembers(s.high, s.high + count);
  }

  lemma SendStaysOrdered(s: State, after: nat, event: nat)
    requires ChannelInv(s) && Ordered(s) && event in s.unsent && SendsInOrder(s, Send(event))
    ensures Ordered(Fire(s, after, Send(event)).value)
  {
    var t := Fire(s, after, Send(event)).value;
    forall i, j | 0 <= i < j < |t.channel| ensures t.channel[i] < t.channel[j] {
      assert s.channel[i] in s.channel;
    }
    forall sent, waiting | sent in t.channel && waiting in t.unsent ensures sent < waiting {
      assert sent in s.channel || sent == event;
    }
  }

  lemma OrderedStep(s: State, after: nat, step: Step)
    requires ChannelInv(s) && Ordered(s) && Fire(s, after, step).Some? && SendsInOrder(s, step)
    ensures Ordered(Fire(s, after, step).value)
  {
    if step.Commit? {
      CommitStaysOrdered(s, after, step.count);
    } else if step.Send? {
      SendStaysOrdered(s, after, step.event);
    } else {
      assert Fire(s, after, step).value.channel == s.channel;
    }
  }

  ghost predicate OrderedRun(states: seq<State>, steps: seq<Step>, after: nat) {
    && Run(states, steps, after) && Ordered(states[0])
    && forall n | 0 <= n < |steps| :: SendsInOrder(states[n], steps[n])
  }

  lemma StepOf(states: seq<State>, steps: seq<Step>, after: nat, k: nat)
    requires OrderedRun(states, steps, after) && k < |steps|
    ensures ChannelInv(states[k]) && SendsInOrder(states[k], steps[k])
    ensures Fire(states[k], after, steps[k]) == Some(states[k + 1])
  {
    RunKeepsInv(states, steps, after, k);
  }

  lemma {:induction false} RunStaysOrdered(states: seq<State>, steps: seq<Step>, after: nat, k: nat)
    requires OrderedRun(states, steps, after) && k < |states|
    ensures Ordered(states[k])
  {
    if k > 0 {
      RunStaysOrdered(states, steps, after, k - 1);
      StepOf(states, steps, after, k - 1);
      OrderedStep(states[k - 1], after, steps[k - 1]);
    }
  }

  /**
   When writers send in sequence order, a client that leaves after any event holds everything before
   it, so resuming after that event loses nothing.
   */
  lemma OrderedSendsMakeResumingSafe(states: seq<State>, steps: seq<Step>, after: nat, k: nat, last: nat, e: nat)
    requires OrderedRun(states, steps, after) && k < |states|
    requires states[k].phase.Streaming? && states[k].phase.opening.reset.None? && !states[k].lagged
    requires last in Delivered(states[k]) && Larger(after, states[k].gone) < e <= last
    ensures e in Delivered(states[k])
  {
    RunStaysOrdered(states, steps, after, k);
    RunKeepsInv(states, steps, after, k);
    NothingMissingBefore(states[k], after, last, e);
  }

  lemma NothingMissingBefore(s: State, after: nat, last: nat, e: nat)
    requires Inv(s, after) && Ordered(s) && s.phase.Streaming? && s.phase.opening.reset.None? && !s.lagged
    requires last in Delivered(s) && Larger(after, s.gone) < e <= last
    ensures e in Delivered(s)
  {
    DeliveredIff(s, after, last);
    DeliveredIff(s, after, e);
    if last in s.live && e < last {
      NothingPendingBefore(s, last, e);
    }
  }

  lemma NothingPendingBefore(s: State, last: nat, e: nat)
    requires ChannelInv(s) && LiveInv(s) && Ordered(s) && s.phase.Streaming? && e < last
    requires last in s.live
    ensures !Pending(s, e)
  {
    var i :| 0 <= i < s.cursor && s.channel[i] == last;
    assert s.channel[i] in s.channel;
    forall x | x in s.channel[s.cursor..] ensures x > last {
      var j :| 0 <= j < |s.channel[s.cursor..]| && s.channel[s.cursor..][j] == x;
      assert s.channel[s.cursor + j] == x;
    }
  }

  /** A stream resumed after an event never carries it or anything before it. */
  lemma ResumedStreamStartsLater(states: seq<State>, steps: seq<Step>, after: nat, k: nat, e: nat)
    requires Run(states, steps, after) && k < |states| && e <= after
    requires states[k].phase.Streaming? && states[k].phase.opening.reset.None? && !states[k].lagged
    ensures e !in Delivered(states[k])
  {
    EveryEventExactlyOnce(states, steps, after, k);
  }

  /** The stream after its client has left: the journal and the senders go on, the subscription is gone. */
  function Left(s: State): State {
    s.(phase := Away, channel := [], cursor := 0, lagged := false, live := [], base := 0, gone := 0)
  }

  /**
   What a client holds when it leaves with the cursor `last`: every retained event up to there, exactly
   when none of those is still on its way to it.
   */
  lemma HoldsAllUpToIff(states: seq<State>, steps: seq<Step>, after: nat, k: nat, last: nat)
    requires Run(states, steps, after) && k < |states|
    requires states[k].phase.Streaming? && states[k].phase.opening.reset.None? && !states[k].lagged
    requires Larger(after, states[k].gone) <= last <= states[k].high
    ensures states[k].cursor <= |states[k].channel|
    ensures (forall e: nat | Larger(after, states[k].gone) < e <= last :: e in Delivered(states[k]))
       <==> (forall e: nat | e <= last :: !Pending(states[k], e))
  {
    EveryEventExactlyOnce(states, steps, after, k);
    RunKeepsInv(states, steps, after, k);
    var s := states[k];
    if forall e: nat | Larger(after, s.gone) < e <= last :: e in Delivered(s) {
      forall e: nat | e <= last ensures !Pending(s, e) {
        assert Larger(after, s.gone) < e ==> e in Delivered(s);
      }
    }
  }

  lemma {:induction false} HighGrows(states: seq<State>, steps: seq<Step>, after: nat, k: nat)
    requires Run(states, steps, after) && k < |states|
    ensures states[0].high <= states[k].high
  {
    if k > 0 {
      HighGrows(states, steps, after, k - 1);
      assert Fire(states[k - 1], after, steps[k - 1]) == Some(states[k]);
    }
  }

  /** What a resumed stream has given, or will give: precisely the events above its cursor. */
  lemma ResumedCovers(states: seq<State>, steps: seq<Step>, last: nat, n: nat, e: nat)
    requires Run(states, steps, last) && n < |states| && last > 0
    requires states[n].phase.Streaming? && states[n].phase.opening.reset.None? && !states[n].lagged
    ensures states[n].cursor <= |states[n].channel| && last <= states[n].high
    ensures e in Delivered(states[n]) || (Pending(states[n], e) && e <= states[n].high) <==> last < e <= states[n].high
  {
    EveryEventExactlyOnce(states, steps, last, n);
    RunKeepsInv(states, steps, last, n);
  }

  /**
   Across a reconnect with the last event id nothing is lost exactly when, at the moment of leaving, no
   event up to that id was still on its way; whatever happens before and after the resumption.
   */
  lemma ReconnectLosesNothingIff(states: seq<State>, steps: seq<Step>, after: nat, k: nat, last: nat,
            others: seq<State>, more: seq<Step>, n: nat)
    requires Run(states, steps, after) && k < |states|
    requires states[k].phase.Streaming? && states[k].phase.opening.reset.None? && !states[k].lagged
    requires 0 < last && Larger(after, states[k].gone) <= last <= states[k].high
    requires Run(others, more, last) && others[0] == Left(states[k]) && n < |others|
    requires others[n].phase.Streaming? && others[n].phase.opening.reset.None? && !others[n].lagged
    ensures states[k].cursor <= |states[k].channel| && others[n].cursor <= |others[n].channel|
    ensures (forall e: nat | Larger(after, states[k].gone) < e <= others[n].high ::
               e in Delivered(states[k]) || e in Delivered(others[n]) || Pending(others[n], e))
       <==> (forall e: nat | e <= last :: !Pending(states[k], e))
  {
    var s, t := states[k], others[n];
    HoldsAllUpToIff(states, steps, after, k, last);
    ResumedCovers(others, more, last, n, last);
    forall e: nat | e <= t.high ensures e in Delivered(t) || Pending(t, e) <==> last < e {
      ResumedCovers(others, more, last, n, e);
    }
    if forall e: nat | Larger(after, s.gone) < e <= t.high :: e in Delivered(s) || e in Delivered(t) || Pending(t, e) {
      forall e: nat | Larger(after, s.gone) < e <= last ensures e in Delivered(s) {
      }
    }
  }

  /** And nothing is given twice exactly when the client left with the largest event it held. */
  lemma ReconnectRepeatsNothingIff(states: seq<State>, steps: seq<Step>, after: nat, k: nat, last: nat,
            others: seq<State>, more: seq<Step>, n: nat)
    requires Run(states, steps, after) && k < |states|
    requires states[k].phase.Streaming? && states[k].phase.opening.reset.None? && !states[k].lagged
    requires 0 < last <= states[k].high
    requires Run(others, more, last) && others[0] == Left(states[k]) && n < |others|
    requires others[n].phase.Streaming? && others[n].phase.opening.reset.None? && !others[n].lagged
    ensures others[n].cursor <= |others[n].channel|
    ensures (forall e | e in Delivered(states[k]) :: e !in Delivered(others[n]) && !Pending(others[n], e))
       <==> (forall e | e in Delivered(states[k]) :: e <= last)
  {
    var s, t := states[k], others[n];
    EveryEventExactlyOnce(states, steps, after, k);
    HighGrows(others, more, last, n);
    ResumedCovers(others, more, last, n, last);
    forall e | e in Delivered(s) ensures e in Delivered(t) || Pending(t, e) <==> last < e {
      assert e <= s.high <= t.high;
      ResumedCovers(others, more, last, n, e);
    }
  }

  /** A run in which the first of three committed events is still to be sent when the second is read. */
  function LossState(k: nat): State {
    var away := State(0, 0, {}, Away, [], 0, false, [], 0, 0);
    var open := away.(phase := Streaming(Opening(None, [], 0)));
    if k == 0 then away
    else if k == 1 then away.(phase := Subscribed)
    else if k == 2 then away.(phase := Bounded(None, None))
    else if k == 3 then open
    else if k == 4 then open.(high := 3, unsent := {1, 2, 3})
    else if k == 5 then open.(high := 3, unsent := {1, 3}, channel := [2])
    else open.(high := 3, unsent := {1, 3}, channel := [2], cursor := 1, live := [2])
  }

  const LOSS_STEPS: seq<Step> := [Subscribe, QueryBounds, QueryReplay, Commit(3), Send(2), Receive]

  lemma LossStep(k: nat)
    requires k < 6
    ensures Fire(LossState(k), 0, LOSS_STEPS[k]) == Some(LossState(k + 1))
  {
    if k == 2 {
      assert ReplayRows(0, 0, 0) == [];
    } else if k == 3 {
      RangeMembers(0, 3);
      assert Fresh(0, 3) == {1, 2, 3};
      assert {} + Fresh(0, 3) == {1, 2, 3};
    } else if k == 4 {
      assert {1, 2, 3} - {2} == {1, 3};
      assert LossState(4).channel + [2] == [2];
    } else if k == 5 {
      assert LossState(5).live + [2] == [2];
    }
  }

  /** The stream the same client opens after event 2; the first event is sent and read only now. */
  function ResumedState(k: nat): State {
    var away := State(3, 0, {1, 3}, Away, [], 0, false, [], 0, 0);
    var open := away.(phase := Streaming(Opening(None, [3], 3)), base := 3);
    if k == 0 then away
    else if k == 1 then away.(phase := Subscribed)
    else if k == 2 then away.(phase := Bounded(Some(1), Some(3)), base := 3)
    else if k == 3 then open
    else if k == 4 then open.(unsent := {3}, channel := [1])
    else open.(unsent := {3}, channel := [1], cursor := 1)
  }

  const RESUMED_STEPS: seq<Step> := [Subscribe, QueryBounds, QueryReplay, Send(1), Receive]

  lemma ResumedStep(k: nat)
    requires k < 5
    ensures Fire(ResumedState(k), 2, RESUMED_STEPS[k]) == Some(ResumedState(k + 1))
  {
    if k == 2 {
      assert ReplayRows(3, 0, 2) == Range(2, 3) == [3];
    } else if k == 3 {
      assert {1, 3} - {1} == {3};
      assert ResumedState(3).channel + [1] == [1];
    }
  }

  /**
   The order matters: `finish_submission` numbers its trade event first and sends it last. A client that
   leaves in between holds event 2 and not event 1; the stream it resumes after 2 gives it event 3, and
   drops event 1 when that is sent at last.
   */
  lemma UnorderedSendIsLostOnReconnect() returns (states: seq<State>, others: seq<State>)
    ensures Run(states, LOSS_STEPS, 0) && |states| == 7
    ensures states[6].phase.Streaming? && Delivered(states[6]) == [2]
    ensures Run(others, RESUMED_STEPS, 2) && |others| == 6 && others[0] == Left(states[6])
    ensures others[5].phase.Streaming? && others[5].phase.opening.reset.None? && !others[5].lagged
    ensures Delivered(others[5]) == [3] && 1 in others[5].channel && 1 !in others[5].unsent
    ensures others[5].cursor == |others[5].channel|
  {
    states := seq(7, k requires 0 <= k => LossState(k));
    forall k | 0 <= k < 6 ensures Fire(states[k], 0, LOSS_STEPS[k]) == Some(states[k + 1]) {
      LossStep(k);
    }
    others := seq(6, k requires 0 <= k => ResumedState(k));
    forall k | 0 <= k < 5 ensures Fire(others[k], 2, RESUMED_STEPS[k]) == Some(others[k + 1]) {
      ResumedStep(k);
    }
  }
}
