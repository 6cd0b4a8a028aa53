/**
 The immediate-fill walk of the paper venue (src/venue/paper.rs, `walk_book`) and its optimality.

 Optimality is proved by a price certificate: at the price where the walk stops, what it gained over
 that price equals the most any allocation of the book can gain over it.
 */
module WalkBook {
  import opened Wrappers
  import opened Domain
  import opened Sums
  import opened Risk

  datatype PaperFill = PaperFill(shares: real, quote: real, fee: real, complete: bool)
  {
    function AveragePrice(): Option<real> {
      if shares > 0.0 then Some(quote / shares) else None
    }
  }

  const TOLERANCE: real := 0.000001

  // ---------------------------------------------------------------------------------------------
  // Best price first
  // ---------------------------------------------------------------------------------------------

  predicate NoWorse(side: Side, a: real, b: real) {
    if side.Buy? then a <= b else a >= b
  }

  function Insert(sorted: seq<PriceLevel>, level: PriceLevel, side: Side): seq<PriceLevel> {
    if sorted == [] then [level]
    else
      var last := sorted[|sorted| - 1];
      if NoWorse(side, last.price, level.price) then sorted + [level]
      else Insert(sorted[..|sorted| - 1], level, side) + [last]
  }

  /** The stable sort of the levels: ascending asks for a buy, descending bids for a sell. */
  function SortLevels(levels: seq<PriceLevel>, side: Side): seq<PriceLevel> {
    if levels == [] then []
    else Insert(SortLevels(levels[..|levels| - 1], side), levels[|levels| - 1], side)
  }

  predicate Sorted(levels: seq<PriceLevel>, side: Side) {
    forall i, j | 0 <= i < j < |levels| :: NoWorse(side, levels[i].price, levels[j].price)
  }

  lemma {:induction false} InsertSorted(sorted: seq<PriceLevel>, level: PriceLevel, side: Side)
    requires Sorted(sorted, side)
    ensures Sorted(Insert(sorted, level, side), side)
    ensures forall x :: x in Insert(sorted, level, side) <==> x in sorted || x == level
  {
    if sorted != [] && !NoWorse(side, sorted[|sorted| - 1].price, level.price) {
      var rest, last := sorted[..|sorted| - 1], sorted[|sorted| - 1];
      InsertSorted(rest, level, side);
      assert sorted == rest + [last];
      forall x | x in Insert(rest, level, side) ensures NoWorse(side, x.price, last.price) {
        if x in rest {
          var i :| 0 <= i < |rest| && rest[i] == x;
          assert NoWorse(side, sorted[i].price, sorted[|sorted| - 1].price);
        }
      }
    }
  }

  lemma {:induction false} SortedLevels(levels: seq<PriceLevel>, side: Side)
    ensures Sorted(SortLevels(levels, side), side)
    ensures forall x :: x in SortLevels(levels, side) <==> x in levels
  {
    if levels != [] {
      SortedLevels(levels[..|levels| - 1], side);
      InsertSorted(SortLevels(levels[..|levels| - 1], side), levels[|levels| - 1], side);
      assert levels == levels[..|levels| - 1] + [levels[|levels| - 1]];
    }
  }

  lemma {:induction false} InsertTotal(sorted: seq<PriceLevel>, level: PriceLevel, side: Side,
            weight: PriceLevel -> real)
    ensures Total(Insert(sorted, level, side), weight) == Total(sorted, weight) + weight(level)
  {
    if sorted == [] || NoWorse(side, sorted[|sorted| - 1].price, level.price) {
      TotalAppend(sorted, level, weight);
      assert [] + [level] == [level];
    } else {
      var rest, last := sorted[..|sorted| - 1], sorted[|sorted| - 1];
      InsertTotal(rest, level, side, weight);
      TotalAppend(Insert(rest, level, side), last, weight);
    }
  }

  /** Sorting changes no sum over the book. */
  lemma {:induction false} SortTotal(levels: seq<PriceLevel>, side: Side, weight: PriceLevel -> real)
    ensures Total(SortLevels(levels, side), weight) == Total(levels, weight)
  {
    if levels != [] {
      SortTotal(levels[..|levels| - 1], side, weight);
      InsertTotal(SortLevels(levels[..|levels| - 1], side), levels[|levels| - 1], side, weight);
    }
  }

  // ---------------------------------------------------------------------------------------------
  // Allocations of a book
  // ---------------------------------------------------------------------------------------------

  /** The shares a level offers at the protection price or better. */
  function Offered(side: Side, worst: real, level: PriceLevel): real {
    if NoWorse(side, level.price, worst) then level.size else 0.0
  }

  function Depth(side: Side, worst: real): PriceLevel -> real {
    (level: PriceLevel) => Offered(side, worst, level)
  }

  function DepthValue(side: Side, worst: real): PriceLevel -> real {
    (level: PriceLevel) => QuoteOf(Offered(side, worst, level), level.price)
  }

  datatype Take = Take(level: PriceLevel, shares: real)

  function Shares(): Take -> real {
    (take: Take) => take.shares
  }

  function Value(): Take -> real {
    (take: Take) => QuoteOf(take.shares, take.level.price)
  }

  predicate Takes(take: Take, level: PriceLevel, side: Side, worst: real) {
    take.level == level && 0.0 <= take.shares <= Offered(side, worst, level)
  }

  /** One take per level of the book, within what the level offers. */
  predicate Allocates(takes: seq<Take>, levels: seq<PriceLevel>, side: Side, worst: real) {
    && |takes| == |levels|
    && forall k | 0 <= k < |levels| :: Takes(takes[k], levels[k], side, worst)
  }

  /** The fill is what some allocation of the book yields. */
  ghost predicate Attained(levels: seq<PriceLevel>, side: Side, worst: real, shares: real, quote: real) {
    exists takes: seq<Take> :: Allocates(takes, levels, side, worst)
      && Total(takes, Shares()) == shares && Total(takes, Value()) == quote
  }

  /** No allocation that costs as little buys more. */
  ghost predicate BestBuy(levels: seq<PriceLevel>, worst: real, shares: real, quote: real) {
    forall takes: seq<Take> :: Allocates(takes, levels, Buy, worst) && Total(takes, Value()) <= quote
      ==> Total(takes, Shares()) <= shares
  }

  /** No allocation that sells as little brings more. */
  ghost predicate BestSell(levels: seq<PriceLevel>, worst: real, shares: real, quote: real) {
    forall takes: seq<Take> :: Allocates(takes, levels, Sell, worst) && Total(takes, Shares()) <= shares
      ==> Total(takes, Value()) <= quote
  }

  // ---------------------------------------------------------------------------------------------
  // The price certificate
  // ---------------------------------------------------------------------------------------------

  /** What one share at the level gains over the price `cut`. */
  function Gain(side: Side, cut: real, price: real): real {
    if side.Buy? then cut - price else price - cut
  }

  function Edge(side: Side, worst: real, cut: real): PriceLevel -> real {
    (level: PriceLevel) => QuoteOf(Offered(side, worst, level), Max(0.0, Gain(side, cut, level.price)))
  }

  /** The gain over `cut` of a whole fill. */
  function FillGain(side: Side, cut: real, shares: real, quote: real): real {
    if side.Buy? then QuoteOf(shares, cut) - quote else quote - QuoteOf(shares, cut)
  }

  /** The gain over `cut` of one take. */
  function TakeGain(side: Side, cut: real): Take -> real {
    (take: Take) => QuoteOf(take.shares, Gain(side, cut, take.level.price))
  }

  lemma TakeGainBound(take: Take, level: PriceLevel, side: Side, worst: real, cut: real)
    requires Takes(take, level, side, worst)
    ensures TakeGain(side, cut)(take) <= Edge(side, worst, cut)(level)
  {
    ProductBound(take.shares, Offered(side, worst, level), Gain(side, cut, level.price));
  }

  lemma ProductBound(a: real, b: real, g: real)
    requires 0.0 <= a <= b
    ensures QuoteOf(a, g) <= QuoteOf(b, Max(0.0, g))
  {
  }

  lemma QuoteAdds(a: real, b: real, price: real)
    ensures QuoteOf(a + b, price) == QuoteOf(a, price) + QuoteOf(b, price)
  {
  }

  lemma FeeAdds(a: real, b: real, feeRate: real)
    ensures FeeOf(a + b, feeRate) == FeeOf(a, feeRate) + FeeOf(b, feeRate)
  {
  }

  /** One take's gain is the gain of its own little fill. */
  lemma OneGain(take: Take, side: Side, cut: real)
    ensures TakeGain(side, cut)(take) == FillGain(side, cut, take.shares, QuoteOf(take.shares, take.level.price))
  {
    GainOfShares(take.shares, cut, take.level.price);
  }

  lemma GainOfShares(shares: real, cut: real, price: real)
    ensures QuoteOf(shares, cut - price) == QuoteOf(shares, cut) - QuoteOf(shares, price)
    ensures QuoteOf(shares, price - cut) == QuoteOf(shares, price) - QuoteOf(shares, cut)
  {
  }

  /** Gains add up to the gain of the sums. */
  lemma {:induction false} TakeGainTotal(takes: seq<Take>, side: Side, cut: real)
    ensures Total(takes, TakeGain(side, cut)) == FillGain(side, cut, Total(takes, Shares()), Total(takes, Value()))
  {
    if takes != [] {
      var init, last := takes[..|takes| - 1], takes[|takes| - 1];
      TakeGainTotal(init, side, cut);
      OneGain(last, side, cut);
      QuoteAdds(Total(init, Shares()), last.shares, cut);
    }
  }

  /** No allocation gains more over `cut` than the whole book's edge. */
  lemma GainBound(takes: seq<Take>, levels: seq<PriceLevel>, side: Side, worst: real, cut: real)
    requires Allocates(takes, levels, side, worst)
    ensures FillGain(side, cut, Total(takes, Shares()), Total(takes, Value())) <= Total(levels, Edge(side, worst, cut))
  {
    forall k | 0 <= k < |takes| ensures TakeGain(side, cut)(takes[k]) <= Edge(side, worst, cut)(levels[k]) {
      TakeGainBound(takes[k], levels[k], side, worst, cut);
    }
    TotalDominated(takes, levels, TakeGain(side, cut), Edge(side, worst, cut));
    TakeGainTotal(takes, side, cut);
  }

  /** A fill that reaches the edge at some positive price is optimal on its side. */
  lemma CertificateIsOptimal(levels: seq<PriceLevel>, side: Side, worst: real, cut: real, shares: real, quote: real)
    requires cut > 0.0
    requires FillGain(side, cut, shares, quote) == Total(levels, Edge(side, worst, cut))
    ensures side.Buy? ==> BestBuy(levels, worst, shares, quote)
    ensures side.Sell? ==> BestSell(levels, worst, shares, quote)
  {
    forall takes: seq<Take> | Allocates(takes, levels, side, worst)
      ensures side.Buy? && Total(takes, Value()) <= quote ==> Total(takes, Shares()) <= shares
      ensures side.Sell? && Total(takes, Shares()) <= shares ==> Total(takes, Value()) <= quote
    {
      GainBound(takes, levels, side, worst, cut);
      CompareFills(side, cut, shares, quote, Total(takes, Shares()), Total(takes, Value()));
    }
  }

  lemma CompareFills(side: Side, cut: real, shares: real, quote: real, otherShares: real, otherQuote: real)
    requires cut > 0.0 && FillGain(side, cut, otherShares, otherQuote) <= FillGain(side, cut, shares, quote)
    ensures side.Buy? && otherQuote <= quote ==> otherShares <= shares
    ensures side.Sell? && otherShares <= shares ==> otherQuote <= quote
  {
    QuoteOrder(cut, shares, otherShares);
  }

  lemma QuoteOrder(price: real, a: real, b: real)
    requires price > 0.0
    ensures a < b <==> QuoteOf(a, price) < QuoteOf(b, price)
  {
    ScaleOrder(price, a, b);
  }

  lemma ScaleOrder(c: real, a: real, b: real)
    requires c > 0.0
    ensures a < b <==> c * a < c * b
  {
    if a < b {
      assert c * (b - a) > 0.0;
    } else {
      assert c * (a - b) >= 0.0;
    }
  }

  /** The takes that empty the levels. */
  function FullTakes(levels: seq<PriceLevel>, side: Side, worst: real): seq<Take> {
    seq(|levels|, i requires 0 <= i < |levels| => Take(levels[i], Offered(side, worst, levels[i])))
  }

  lemma FullTakesTotal(levels: seq<PriceLevel>, side: Side, worst: real)
    ensures Total(FullTakes(levels, side, worst), Shares()) == Total(levels, Depth(side, worst))
    ensures Total(FullTakes(levels, side, worst), Value()) == Total(levels, DepthValue(side, worst))
  {
    TotalAgrees(FullTakes(levels, side, worst), levels, Shares(), Depth(side, worst));
    TotalAgrees(FullTakes(levels, side, worst), levels, Value(), DepthValue(side, worst));
  }

  lemma FullTakeGain(level: PriceLevel, side: Side, worst: real, cut: real)
    requires Gain(side, cut, level.price) >= 0.0
    ensures TakeGain(side, cut)(Take(level, Offered(side, worst, level))) == Edge(side, worst, cut)(level)
  {
  }

  lemma {:induction false} FullTakesGain(levels: seq<PriceLevel>, side: Side, worst: real, cut: real)
    requires forall level | level in levels :: Gain(side, cut, level.price) >= 0.0
    ensures Total(FullTakes(levels, side, worst), TakeGain(side, cut)) == Total(levels, Edge(side, worst, cut))
  {
    if levels != [] {
      var init, last := levels[..|levels| - 1], levels[|levels| - 1];
      FullTakesGain(init, side, worst, cut);
      FullTakeGain(last, side, worst, cut);
      assert FullTakes(levels, side, worst)[..|init|] == FullTakes(init, side, worst);
    }
  }

  lemma NoEdge(level: PriceLevel, side: Side, worst: real, cut: real)
    requires Gain(side, cut, level.price) <= 0.0 || Offered(side, worst, level) == 0.0
    ensures Edge(side, worst, cut)(level) == 0.0
  {
  }

  /** The edge of a book whose first `k` levels are at least as good as `cut`, and the rest no better. */
  lemma EdgeOfPrefix(levels: seq<PriceLevel>, k: nat, side: Side, worst: real, cut: real)
    requires k <= |levels|
    requires forall i | 0 <= i < k :: Gain(side, cut, levels[i].price) >= 0.0
    requires forall i | k <= i < |levels| :: Gain(side, cut, levels[i].price) <= 0.0 || Offered(side, worst, levels[i]) == 0.0
    ensures Total(levels, Edge(side, worst, cut))
         == FillGain(side, cut, Total(levels[..k], Depth(side, worst)), Total(levels[..k], DepthValue(side, worst)))
  {
    forall i | k <= i < |levels| ensures Edge(side, worst, cut)(levels[i]) == 0.0 {
      NoEdge(levels[i], side, worst, cut);
    }
    TotalPrefix(levels, k, Edge(side, worst, cut));
    var prefix := levels[..k];
    var takes := FullTakes(prefix, side, worst);
    FullTakesGain(prefix, side, worst, cut);
    TakeGainTotal(takes, side, cut);
    FullTakesTotal(prefix, side, worst);
  }

  // ---------------------------------------------------------------------------------------------
  // From the sorted book back to the book
  // ---------------------------------------------------------------------------------------------

  lemma {:induction false} Uninsert(sorted: seq<PriceLevel>, level: PriceLevel, side: Side, worst: real,
            takes: seq<Take>)
    returns (rest: seq<Take>, one: Take)
    requires Allocates(takes, Insert(sorted, level, side), side, worst)
    ensures Allocates(rest, sorted, side, worst) && Takes(one, level, side, worst)
    ensures forall weight: Take -> real :: Total(takes, weight) == Total(rest, weight) + weight(one)
  {
    var n := |takes| - 1;
    if sorted == [] || NoWorse(side, sorted[|sorted| - 1].price, level.price) {
      assert Insert(sorted, level, side) == sorted + [level];
      rest, one := takes[..n], takes[n];
      forall k | 0 <= k < |sorted| ensures Takes(rest[k], sorted[k], side, worst) {
        assert Takes(takes[k], (sorted + [level])[k], side, worst);
      }
      assert Takes(takes[n], (sorted + [level])[n], side, worst);
    } else {
      var init, last := sorted[..|sorted| - 1], sorted[|sorted| - 1];
      var inner := Insert(init, level, side);
      assert Insert(sorted, level, side) == inner + [last];
      forall k | 0 <= k < |inner| ensures Takes(takes[..n][k], inner[k], side, worst) {
        assert Takes(takes[k], (inner + [last])[k], side, worst);
      }
      assert Takes(takes[n], (inner + [last])[n], side, worst);
      var most;
      most, one := Uninsert(init, level, side, worst, takes[..n]);
      rest := most + [takes[n]];
      AppendTake(most, takes[n], init, last, side, worst);
      forall weight: Take -> real ensures Total(takes, weight) == Total(rest, weight) + weight(one) {
        TotalAppend(most, takes[n], weight);
      }
    }
  }

  lemma AppendTake(takes: seq<Take>, take: Take, levels: seq<PriceLevel>, level: PriceLevel, side: Side, worst: real)
    requires Allocates(takes, levels, side, worst) && Takes(take, level, side, worst)
    ensures Allocates(takes + [take], levels + [level], side, worst)
  {
  }

  lemma {:induction false} Unsort(levels: seq<PriceLevel>, side: Side, worst: real, takes: seq<Take>)
    returns (own: seq<Take>)
    requires Allocates(takes, SortLevels(levels, side), side, worst)
    ensures Allocates(own, levels, side, worst)
    ensures forall weight: Take -> real :: Total(own, weight) == Total(takes, weight)
  {
    if levels == [] {
      own := takes;
    } else {
      var init, last := levels[..|levels| - 1], levels[|levels| - 1];
      var rest, one := Uninsert(SortLevels(init, side), last, side, worst, takes);
      var most := Unsort(init, side, worst, rest);
      own := most + [one];
      AppendTake(most, one, init, last, side, worst);
      assert init + [last] == levels;
      forall weight: Take -> real ensures Total(own, weight) == Total(takes, weight) {
        TotalAppend(most, one, weight);
      }
    }
  }

  /** The takes of a walk that empties `k` levels and takes `part` of the next. */
  function WalkTakes(levels: seq<PriceLevel>, k: nat, part: real, side: Side, worst: real): seq<Take> {
    seq(|levels|, i requires 0 <= i < |levels| =>
      Take(levels[i], if i < k then Offered(side, worst, levels[i]) else if i == k then part else 0.0))
  }

  lemma WalkTakesTotal(levels: seq<PriceLevel>, k: nat, part: real, side: Side, worst: real)
    requires k < |levels|
    ensures Total(WalkTakes(levels, k, part, side, worst), Shares()) == Total(levels[..k], Depth(side, worst)) + part
    ensures Total(WalkTakes(levels, k, part, side, worst), Value())
         == Total(levels[..k], DepthValue(side, worst)) + QuoteOf(part, levels[k].price)
  {
    var takes := WalkTakes(levels, k, part, side, worst);
    assert takes[..k] == FullTakes(levels[..k], side, worst);
    FullTakesTotal(levels[..k], side, worst);
    LastTake(takes, k, Shares());
    LastTake(takes, k, Value());
  }

  lemma LastTake(takes: seq<Take>, k: nat, weight: Take -> real)
    requires k < |takes|
    requires forall i | k < i < |takes| :: weight(takes[i]) == 0.0
    ensures Total(takes, weight) == Total(takes[..k], weight) + weight(takes[k])
  {
    TotalPrefix(takes, k + 1, weight);
    TotalNext(takes, k, weight);
  }

  // ---------------------------------------------------------------------------------------------
  // What a finished walk is
  // ---------------------------------------------------------------------------------------------

  predicate ValidLevels(levels: seq<PriceLevel>) {
    forall level | level in levels :: level.price > 0.0 && level.size >= 0.0
  }

  /** The walk emptied the levels before `k` and took `part` of level `k`; then it stopped. */
  predicate StoppedAt(sorted: seq<PriceLevel>, k: nat, part: real, side: Side, worst: real, fill: PaperFill) {
    && k < |sorted| && NoWorse(side, sorted[k].price, worst) && 0.0 <= part <= sorted[k].size
    && fill.shares == Total(sorted[..k], Depth(side, worst)) + part
    && fill.quote == Total(sorted[..k], DepthValue(side, worst)) + QuoteOf(part, sorted[k].price)
  }

  predicate Exhausted(sorted: seq<PriceLevel>, side: Side, worst: real, fill: PaperFill) {
    && fill.shares == Total(sorted, Depth(side, worst))
    && fill.quote == Total(sorted, DepthValue(side, worst))
  }

  /** Shares at the marginal price gain nothing over it. */
  lemma MarginalGain(side: Side, cut: real, shares: real, quote: real, part: real, fill: PaperFill)
    requires fill.shares == shares + part && fill.quote == quote + QuoteOf(part, cut)
    ensures FillGain(side, cut, fill.shares, fill.quote) == FillGain(side, cut, shares, quote)
  {
    QuoteAdds(shares, part, cut);
  }

  lemma StoppedIsOptimal(levels: seq<PriceLevel>, side: Side, worst: real, k: nat, part: real, fill: PaperFill)
    requires ValidLevels(levels)
    requires StoppedAt(SortLevels(levels, side), k, part, side, worst, fill)
    ensures Attained(levels, side, worst, fill.shares, fill.quote)
    ensures side.Buy? ==> BestBuy(levels, worst, fill.shares, fill.quote)
    ensures side.Sell? ==> BestSell(levels, worst, fill.shares, fill.quote)
  {
    StoppedIsAttained(levels, side, worst, k, part, fill);
    var cut := StoppedReachesEdge(levels, side, worst, k, part, fill);
    CertificateIsOptimal(levels, side, worst, cut, fill.shares, fill.quote);
  }

  /** Around the level where a sorted walk stops, prices are no worse before and no better after. */
  lemma GainsAround(levels: seq<PriceLevel>, side: Side, k: nat)
    requires ValidLevels(levels) && k < |SortLevels(levels, side)|
    ensures var sorted := SortLevels(levels, side);
      && sorted[k].price > 0.0
      && (forall i | 0 <= i < k :: Gain(side, sorted[k].price, sorted[i].price) >= 0.0)
      && (forall i | k <= i < |sorted| :: Gain(side, sorted[k].price, sorted[i].price) <= 0.0)
      && (forall i | 0 <= i < |sorted| :: sorted[i].price > 0.0 && sorted[i].size >= 0.0)
  {
    var sorted := SortLevels(levels, side);
    SortedLevels(levels, side);
    forall i | 0 <= i < |sorted| ensures sorted[i].price > 0.0 && sorted[i].size >= 0.0 {
      assert sorted[i] in levels;
    }
  }

  lemma WalkTakesAllocate(sorted: seq<PriceLevel>, k: nat, part: real, side: Side, worst: real)
    requires k < |sorted| && NoWorse(side, sorted[k].price, worst) && 0.0 <= part <= sorted[k].size
    requires forall i | 0 <= i < |sorted| :: sorted[i].size >= 0.0
    ensures Allocates(WalkTakes(sorted, k, part, side, worst), sorted, side, worst)
  {
  }

  lemma StoppedIsAttained(levels: seq<PriceLevel>, side: Side, worst: real, k: nat, part: real, fill: PaperFill)
    requires ValidLevels(levels)
    requires StoppedAt(SortLevels(levels, side), k, part, side, worst, fill)
    ensures Attained(levels, side, worst, fill.shares, fill.quote)
  {
    var sorted := SortLevels(levels, side);
    GainsAround(levels, side, k);
    var takes := WalkTakes(sorted, k, part, side, worst);
    WalkTakesAllocate(sorted, k, part, side, worst);
    WalkTakesTotal(sorted, k, part, side, worst);
    var own := Unsort(levels, side, worst, takes);
    assert Total(own, Shares()) == fill.shares && Total(own, Value()) == fill.quote;
  }

  lemma StoppedReachesEdge(levels: seq<PriceLevel>, side: Side, worst: real, k: nat, part: real, fill: PaperFill)
    returns (cut: real)
    requires ValidLevels(levels)
    requires StoppedAt(SortLevels(levels, side), k, part, side, worst, fill)
    ensures cut > 0.0 && FillGain(side, cut, fill.shares, fill.quote) == Total(levels, Edge(side, worst, cut))
  {
    var sorted := SortLevels(levels, side);
    GainsAround(levels, side, k);
    cut := sorted[k].price;
    EdgeOfPrefix(sorted, k, side, worst, cut);
    SortTotal(levels, side, Edge(side, worst, cut));
    MarginalGain(side, cut, Total(sorted[..k], Depth(side, worst)), Total(sorted[..k], DepthValue(side, worst)), part, fill);
  }

  lemma ExhaustedIsOptimal(levels: seq<PriceLevel>, side: Side, worst: real, fill: PaperFill)
    requires ValidLevels(levels) && Exhausted(SortLevels(levels, side), side, worst, fill)
    ensures Attained(levels, side, worst, fill.shares, fill.quote)
    ensures side.Buy? ==> BestBuy(levels, worst, fill.shares, fill.quote)
    ensures side.Sell? ==> BestSell(levels, worst, fill.shares, fill.quote)
    ensures fill.shares == Total(levels, Depth(side, worst))
  {
    var sorted := SortLevels(levels, side);
    SortedLevels(levels, side);
    SortTotal(levels, side, Depth(side, worst));
    forall i | 0 <= i < |sorted| ensures sorted[i].price > 0.0 && sorted[i].size >= 0.0 {
      assert sorted[i] in levels;
    }
    var n := |sorted|;
    assert sorted[..n] == sorted;
    var cut := if n == 0 then 1.0 else sorted[n - 1].price;
    EdgeOfPrefix(sorted, n, side, worst, cut);
    SortTotal(levels, side, Edge(side, worst, cut));
    CertificateIsOptimal(levels, side, worst, cut, fill.shares, fill.quote);
    var takes := FullTakes(sorted, side, worst);
    FullTakesTotal(sorted, side, worst);
    var own := Unsort(levels, side, worst, takes);
  }

  /** A fill is affordable, tells truly whether it is complete, and is the best of its kind. */
  ghost predicate WalkedBuy(asks: seq<PriceLevel>, requested: real, worst: real, feeRate: real, fill: PaperFill) {
    && Attained(asks, Buy, worst, fill.shares, fill.quote)
    && BestBuy(asks, worst, fill.shares, fill.quote)
    && fill.fee == FeeOf(fill.quote, feeRate)
    && fill.quote + fill.fee <= requested
    && (fill.complete ==> requested - (fill.quote + fill.fee) <= TOLERANCE)
    && (!fill.complete ==> fill.shares == Total(asks, Depth(Buy, worst)))
  }

  ghost predicate WalkedSell(bids: seq<PriceLevel>, requested: real, worst: real, feeRate: real, fill: PaperFill) {
    && Attained(bids, Sell, worst, fill.shares, fill.quote)
    && BestSell(bids, worst, fill.shares, fill.quote)
    && fill.fee == FeeOf(fill.quote, feeRate)
    && fill.shares <= requested
    && (fill.complete ==> requested - fill.shares <= TOLERANCE)
    && (!fill.complete ==> fill.shares == Total(bids, Depth(Sell, worst)))
  }

  /** The walk has emptied every offered level before `k`. */
  predicate Walking(sorted: seq<PriceLevel>, k: nat, side: Side, worst: real, feeRate: real, fill: PaperFill) {
    && k <= |sorted| && Exhausted(sorted[..k], side, worst, fill)
    && fill.fee == FeeOf(fill.quote, feeRate) && !fill.complete
  }

  /** One level's contribution. */
  predicate Contributes(level: PriceLevel, feeRate: real, part: PaperFill) {
    part.quote == QuoteOf(part.shares, level.price) && part.fee == FeeOf(part.quote, feeRate) && 0.0 <= part.shares <= level.size
  }

  function Plus(fill: PaperFill, part: PaperFill): PaperFill {
    PaperFill(fill.shares + part.shares, fill.quote + part.quote, fill.fee + part.fee, fill.complete)
  }

  lemma WalkPast(sorted: seq<PriceLevel>, k: nat, side: Side, worst: real, feeRate: real, fill: PaperFill)
    requires Walking(sorted, k, side, worst, feeRate, fill) && k < |sorted|
    requires !NoWorse(side, sorted[k].price, worst)
    ensures Walking(sorted, k + 1, side, worst, feeRate, fill)
  {
    TotalNext(sorted, k, Depth(side, worst));
    TotalNext(sorted, k, DepthValue(side, worst));
  }

  lemma WalkOn(sorted: seq<PriceLevel>, k: nat, side: Side, worst: real, feeRate: real, fill: PaperFill,
            part: PaperFill)
    requires Walking(sorted, k, side, worst, feeRate, fill) && k < |sorted|
    requires NoWorse(side, sorted[k].price, worst) && Contributes(sorted[k], feeRate, part) && part.shares == sorted[k].size
    ensures Walking(sorted, k + 1, side, worst, feeRate, Plus(fill, part))
  {
    TotalNext(sorted, k, Depth(side, worst));
    TotalNext(sorted, k, DepthValue(side, worst));
    FeeAdds(fill.quote, part.quote, feeRate);
  }

  lemma WalkStops(sorted: seq<PriceLevel>, k: nat, side: Side, worst: real, feeRate: real, fill: PaperFill,
            part: PaperFill)
    requires Walking(sorted, k, side, worst, feeRate, fill) && k < |sorted|
    requires NoWorse(side, sorted[k].price, worst) && Contributes(sorted[k], feeRate, part)
    ensures StoppedAt(sorted, k, part.shares, side, worst, Plus(fill, part).(complete := true))
    ensures Plus(fill, part).fee == FeeOf(Plus(fill, part).quote, feeRate)
  {
    FeeAdds(fill.quote, part.quote, feeRate);
  }

  /** What one ask yields for the quote that is left: all of it, or all the quote can pay for. */
  method TakeAsk(level: PriceLevel, quoteRemaining: real, feeRate: real) returns (part: PaperFill)
    requires quoteRemaining > 0.0 && feeRate >= 0.0 && level.price > 0.0 && level.size >= 0.0
    ensures Contributes(level, feeRate, part) && part.quote + part.fee <= quoteRemaining
    ensures part.shares < level.size ==> part.quote + part.fee == quoteRemaining
  {
    var quotePerShare := level.price * (1.0 + feeRate);
    assert quotePerShare > 0.0;
    var affordable := quoteRemaining / quotePerShare;
    assert QuoteOf(affordable, quotePerShare) == quoteRemaining;
    var shares := Min(level.size, affordable);
    var quote := QuoteOf(shares, level.price);
    CostOfShares(shares, level.price, feeRate);
    ProductOrder(shares, affordable, quotePerShare);
    part := PaperFill(shares, quote, FeeOf(quote, feeRate), false);
  }

  lemma CostOfShares(shares: real, price: real, feeRate: real)
    ensures QuoteOf(shares, price) + FeeOf(QuoteOf(shares, price), feeRate) == QuoteOf(shares, price * (1.0 + feeRate))
  {
  }

  lemma ProductOrder(a: real, b: real, c: real)
    requires a <= b && c >= 0.0
    ensures a * c <= b * c
    ensures QuoteOf(a, c) <= QuoteOf(b, c)
  {
  }

  method WalkAsks(asks: seq<PriceLevel>, requested: real, worst: real, feeRate: real) returns (fill: PaperFill)
    requires requested > 0.0 && feeRate >= 0.0 && ValidLevels(asks)
    ensures WalkedBuy(asks, requested, worst, feeRate, fill)
  {
    var levels := SortLevels(asks, Buy);
    SortedLevels(asks, Buy);
    fill := PaperFill(0.0, 0.0, 0.0, false);
    var quoteRemaining := requested;
    for k := 0 to |levels|
      invariant quoteRemaining == requested - (fill.quote + fill.fee) && quoteRemaining > 0.0
      invariant Walking(levels, k, Buy, worst, feeRate, fill)
    {
      assert levels[k] in asks;
      if levels[k].price <= worst {
        var part := TakeAsk(levels[k], quoteRemaining, feeRate);
        quoteRemaining := quoteRemaining - (part.quote + part.fee);
        if quoteRemaining <= TOLERANCE {
          WalkStops(levels, k, Buy, worst, feeRate, fill, part);
          fill := Plus(fill, part).(complete := true);
          StoppedIsOptimal(asks, Buy, worst, k, part.shares, fill);
          return;
        }
        WalkOn(levels, k, Buy, worst, feeRate, fill, part);
        fill := Plus(fill, part);
      } else {
        WalkPast(levels, k, Buy, worst, feeRate, fill);
      }
    }
    assert levels[..|levels|] == levels;
    ExhaustedIsOptimal(asks, Buy, worst, fill);
  }

  /** What one bid takes of the shares that are left. */
  method TakeBid(level: PriceLevel, sharesRemaining: real, feeRate: real) returns (part: PaperFill)
    requires sharesRemaining > 0.0 && level.size >= 0.0
    ensures Contributes(level, feeRate, part) && part.shares <= sharesRemaining
    ensures part.shares < level.size ==> part.shares == sharesRemaining
  {
    var shares := Min(level.size, sharesRemaining);
    var quote := QuoteOf(shares, level.price);
    part := PaperFill(shares, quote, FeeOf(quote, feeRate), false);
  }

  method WalkBids(bids: seq<PriceLevel>, requested: real, worst: real, feeRate: real) returns (fill: PaperFill)
    requires requested > 0.0 && ValidLevels(bids)
    ensures WalkedSell(bids, requested, worst, feeRate, fill)
  {
    var levels := SortLevels(bids, Sell);
    SortedLevels(bids, Sell);
    fill := PaperFill(0.0, 0.0, 0.0, false);
    var sharesRemaining := requested;
    for k := 0 to |levels|
      invariant sharesRemaining == requested - fill.shares && sharesRemaining > 0.0
      invariant Walking(levels, k, Sell, worst, feeRate, fill)
    {
      assert levels[k] in bids;
      if levels[k].price >= worst {
        var part := TakeBid(levels[k], sharesRemaining, feeRate);
        sharesRemaining := sharesRemaining - part.shares;
        if sharesRemaining <= TOLERANCE {
          WalkStops(levels, k, Sell, worst, feeRate, fill, part);
          fill := Plus(fill, part).(complete := true);
          StoppedIsOptimal(bids, Sell, worst, k, part.shares, fill);
          return;
        }
        WalkOn(levels, k, Sell, worst, feeRate, fill, part);
        fill := Plus(fill, part);
      } else {
        WalkPast(levels, k, Sell, worst, feeRate, fill);
      }
    }
    assert levels[..|levels|] == levels;
    ExhaustedIsOptimal(bids, Sell, worst, fill);
  }

  /** `walk_book`: the asks for a buy of `requested` quote, the bids for a sale of `requested` shares. */
  method WalkBook(book: OrderBook, side: Side, requested: real, worst: real, feeRate: real) returns (fill: PaperFill)
    requires requested > 0.0 && feeRate >= 0.0 && ValidLevels(book.asks) && ValidLevels(book.bids)
    ensures side.Buy? ==> WalkedBuy(book.asks, requested, worst, feeRate, fill)
    ensures side.Sell? ==> WalkedSell(book.bids, requested, worst, feeRate, fill)
  {
    match side {
      case Buy => fill := WalkAsks(book.asks, requested, worst, feeRate);
      case Sell => fill := WalkBids(book.bids, requested, worst, feeRate);
    }
  }

  // ---------------------------------------------------------------------------------------------
  // The reservation dominates the fill
  // ---------------------------------------------------------------------------------------------

  lemma ValueAtLeastTick(takes: seq<Take>, levels: seq<PriceLevel>, side: Side, worst: real, tick: real)
    requires Allocates(takes, levels, side, worst)
    requires forall level | level in levels :: level.price >= tick
    ensures QuoteOf(Total(takes, Shares()), tick) <= Total(takes, Value())
  {
    TakeGainTotal(takes, Sell, tick);
    forall k | 0 <= k < |takes| ensures TakeGain(Sell, tick)(takes[k]) >= 0.0 {
      assert levels[k] in levels;
      ProductNonNegative(takes[k].shares, takes[k].level.price - tick);
    }
    TotalNonNegative(takes, TakeGain(Sell, tick));
  }

  lemma ProductNonNegative(a: real, b: real)
    requires a >= 0.0 && b >= 0.0
    ensures a * b >= 0.0
    ensures QuoteOf(a, b) >= 0.0
  {
  }

  /**
   The worst case reserved for an immediate buy covers whatever the walk fills: its shares by the
   reserved shares, its quote and fee by the reserved quote.
   */
  lemma ImmediateBuyWithinReservation(request: Request, market: MarketRules, book: OrderBook, feeRate: real,
            fill: PaperFill)
    requires request.side.Buy? && request.Immediate()
    requires request.QuantityDecimal().Some? && request.ProtectionPrice().Some? && market.tickSize > 0.0
    requires forall level | level in book.asks :: level.price >= market.tickSize
    requires WalkedBuy(book.asks, request.quantity.value, request.price.value, feeRate, fill) && fill.fee >= 0.0
    ensures var reserved := ConservativeExposure(request, market, request.quantity.value, request.price.value);
      && reserved.Some?
      && fill.shares <= reserved.value.0
      && fill.quote + fill.fee <= reserved.value.1
  {
    var takes: seq<Take> :| Allocates(takes, book.asks, Buy, request.price.value)
      && Total(takes, Shares()) == fill.shares && Total(takes, Value()) == fill.quote;
    ValueAtLeastTick(takes, book.asks, Buy, request.price.value, market.tickSize);
    var q, tick := request.quantity.value, market.tickSize;
    DivideByTick(fill.shares, tick, q);
  }

  lemma DivideByTick(shares: real, tick: real, quote: real)
    requires tick > 0.0 && QuoteOf(shares, tick) <= quote
    ensures shares <= quote / tick
  {
    assert QuoteOf(quote / tick, tick) == quote;
    QuoteOrder(tick, quote / tick, shares);
  }
}
