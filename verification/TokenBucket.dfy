/** The admission rate limiter of src/api.rs. */
module TokenBuckets {
  import opened Domain

  function Inflow(elapsed: real, rate: real): real {
    elapsed * rate
  }

  class TokenBucket {
    var tokens: real
    const rate: real
    const capacity: real
    var last: real

    constructor (rate: real, capacity: real, now: real)
      ensures this.rate == rate && this.capacity == capacity && tokens == capacity && last == now
    {
      this.rate, this.capacity, tokens, last := rate, capacity, capacity, now;
    }

    function Level(): Bucket
      reads this
    {
      Bucket(tokens, last)
    }

    /** Whether one request is admitted at `now`. A clock that steps back counts as no time passed. */
    method Take(now: real) returns (admitted: bool)
      modifies this`tokens, this`last
      ensures Level() == old(Level()).After(rate, capacity, now)
      ensures admitted <==> old(Level()).Admits(rate, capacity, now)
    {
      tokens := Min(tokens + Inflow(Max(now - last, 0.0), rate), capacity);
      last := now;
      if tokens >= 1.0 {
        tokens := tokens - 1.0;
        admitted := true;
      } else {
        admitted := false;
      }
    }
  }

  datatype Bucket = Bucket(tokens: real, last: real) {
    function Refilled(rate: real, capacity: real, now: real): real {
      Min(tokens + Inflow(Max(now - last, 0.0), rate), capacity)
    }

    predicate Admits(rate: real, capacity: real, now: real) {
      Refilled(rate, capacity, now) >= 1.0
    }

    function After(rate: real, capacity: real, now: real): Bucket {
      Bucket(Refilled(rate, capacity, now) - if Admits(rate, capacity, now) then 1.0 else 0.0, now)
    }
  }

  /** The bucket after calls at the given times. */
  function Later(b: Bucket, rate: real, capacity: real, calls: seq<real>): Bucket {
    if calls == [] then b
    else Later(b, rate, capacity, calls[..|calls| - 1]).After(rate, capacity, calls[|calls| - 1])
  }

  /** How many of the calls are admitted. */
  function Admitted(b: Bucket, rate: real, capacity: real, calls: seq<real>): nat {
    if calls == [] then 0
    else
      var earlier := calls[..|calls| - 1];
      Admitted(b, rate, capacity, earlier)
      + if Later(b, rate, capacity, earlier).Admits(rate, capacity, calls[|calls| - 1]) then 1 else 0
  }

  predicate InOrder(calls: seq<real>) {
    forall i, j | 0 <= i < j < |calls| :: calls[i] <= calls[j]
  }

  lemma InflowNonNegative(elapsed: real, rate: real)
    requires elapsed >= 0.0 && rate >= 0.0
    ensures Inflow(elapsed, rate) >= 0.0
  {
  }

  lemma InflowAdds(first: real, second: real, rate: real)
    ensures Inflow(first + second, rate) == Inflow(first, rate) + Inflow(second, rate)
  {
  }

  /** The level never leaves [0, capacity], whatever the call times. */
  lemma {:induction false} LevelStaysInRange(b: Bucket, rate: real, capacity: real, calls: seq<real>)
    requires rate >= 0.0 && 0.0 <= b.tokens <= capacity
    ensures 0.0 <= Later(b, rate, capacity, calls).tokens <= capacity
  {
    if calls != [] {
      var n := |calls| - 1;
      LevelStaysInRange(b, rate, capacity, calls[..n]);
      InflowNonNegative(Max(calls[n] - Later(b, rate, capacity, calls[..n]).last, 0.0), rate);
    }
  }

  /** Calls at the start of any list are part of the whole. */
  lemma {:induction false} LaterSplits(b: Bucket, rate: real, capacity: real, first: seq<real>, rest: seq<real>)
    ensures Later(b, rate, capacity, first + rest) == Later(Later(b, rate, capacity, first), rate, capacity, rest)
    ensures Admitted(b, rate, capacity, first + rest)
         == Admitted(b, rate, capacity, first) + Admitted(Later(b, rate, capacity, first), rate, capacity, rest)
  {
    if rest == [] {
      assert first + rest == first;
    } else {
      var n := |rest| - 1;
      assert (first + rest)[..|first + rest| - 1] == first + rest[..n];
      LaterSplits(b, rate, capacity, first, rest[..n]);
    }
  }

  /** What has been admitted and what is left was in the bucket or has flowed in since the first call. */
  lemma {:induction false} AdmissionsFlowIn(b: Bucket, rate: real, capacity: real, calls: seq<real>)
    requires rate >= 0.0 && 0.0 <= b.tokens <= capacity && calls != [] && InOrder(calls)
    ensures Admitted(b, rate, capacity, calls) as real + Later(b, rate, capacity, calls).tokens
         <= capacity + Inflow(calls[|calls| - 1] - calls[0], rate)
    ensures Later(b, rate, capacity, calls).last == calls[|calls| - 1]
  {
    var n := |calls| - 1;
    var earlier := calls[..n];
    if n > 0 {
      AdmissionsFlowIn(b, rate, capacity, earlier);
      InflowAdds(earlier[n - 1] - calls[0], calls[n] - earlier[n - 1], rate);
    }
  }

  /**
   Whatever was called before, the calls of any window admit at most the capacity and what flows in
   over its length.
   */
  lemma WindowIsBounded(b: Bucket, rate: real, capacity: real, before: seq<real>, window: seq<real>)
    requires rate >= 0.0 && 0.0 <= b.tokens <= capacity && window != [] && InOrder(window)
    ensures Admitted(b, rate, capacity, before + window) - Admitted(b, rate, capacity, before) >= 0
    ensures (Admitted(b, rate, capacity, before + window) - Admitted(b, rate, capacity, before)) as real
         <= capacity + Inflow(window[|window| - 1] - window[0], rate)
  {
    LaterSplits(b, rate, capacity, before, window);
    LevelStaysInRange(b, rate, capacity, before);
    var start := Later(b, rate, capacity, before);
    AdmissionsFlowIn(start, rate, capacity, window);
    LevelStaysInRange(start, rate, capacity, window);
  }

  /** A refused caller is admitted once enough time has passed for one token. */
  lemma WaitingEarnsAToken(b: Bucket, rate: real, capacity: real, calls: seq<real>, now: real)
    requires rate > 0.0 && capacity >= 1.0 && 0.0 <= b.tokens <= capacity
    requires now - Later(b, rate, capacity, calls).last >= 1.0 / rate
    ensures Later(b, rate, capacity, calls).Admits(rate, capacity, now)
  {
    LevelStaysInRange(b, rate, capacity, calls);
    var elapsed := now - Later(b, rate, capacity, calls).last;
    assert 1.0 / rate > 0.0;
    assert Inflow(1.0 / rate, rate) == 1.0;
    InflowNonNegative(elapsed - 1.0 / rate, rate);
    InflowAdds(elapsed - 1.0 / rate, 1.0 / rate, rate);
  }
}
