/**
 * The fallback generator `loadMockData` with `generateBids` and `generateAsks`
 * (src/hooks/useOrderBook.js:33-54): fifteen synthetic levels a side around a
 * base price of 29.50. Prices are kept in exact thousandths (what
 * `parseFloat(price.toFixed(3))` is meant to produce); the random sizes are
 * the caller's draw.
 */
module Fallback {
  import opened Wrappers
  import opened Levels

  /** 29.50, the base price, in thousandths. */
  const BasePriceTicks: int := 29500
  /** 0.001, the half-spread around the base price, in thousandths. */
  const SpreadTicks: int := 1
  /** 0.001, the distance between neighbouring levels, in thousandths. */
  const StepTicks: int := 1

  /** `Math.random() * 200 + 50`, rounded to cents, lies in this range. */
  const MinMockSize: real := 50.0
  const MaxMockSize: real := 250.0

  function Thousandths(ticks: int): real {
    ticks as real / 1000.0
  }

  function BidPrice(i: int): real {
    Thousandths(BasePriceTicks - SpreadTicks - i * StepTicks)
  }

  function AskPrice(i: int): real {
    Thousandths(BasePriceTicks + SpreadTicks + i * StepTicks)
  }

  /** The random sizes of one refresh: fifteen per side, each as `Math.random` can make it. */
  datatype Draw = Draw(bidSizes: seq<real>, askSizes: seq<real>)

  predicate ValidDraw(d: Draw) {
    && |d.bidSizes| == MaxDepth && |d.askSizes| == MaxDepth
    && (forall x :: x in d.bidSizes ==> MinMockSize <= x <= MaxMockSize)
    && (forall x :: x in d.askSizes ==> MinMockSize <= x <= MaxMockSize)
  }

  /** Level `i` of the synthetic bids is priced `29.50 - 0.001 - i * 0.001`. */
  function MockBids(sizes: seq<real>): seq<Level>
    requires |sizes| == MaxDepth
  {
    seq(MaxDepth, i requires 0 <= i < MaxDepth => Level(BidPrice(i), sizes[i]))
  }

  /** Level `i` of the synthetic asks is priced `29.50 + 0.001 + i * 0.001`. */
  function MockAsks(sizes: seq<real>): seq<Level>
    requires |sizes| == MaxDepth
  {
    seq(MaxDepth, i requires 0 <= i < MaxDepth => Level(AskPrice(i), sizes[i]))
  }

  /** The snapshot one mock refresh publishes (lines 57-61 and 70-74). */
  function MockBook(d: Draw, now: int): Book
    requires ValidDraw(d)
  {
    Book(MockBids(d.bidSizes), MockAsks(d.askSizes), Some(now))
  }

  /** `generateBids` (lines 36-44): the loop pushes the fifteen bid levels in order. */
  method GenerateBids(sizes: seq<real>) returns (bids: seq<Level>)
    requires |sizes| == MaxDepth
    ensures bids == MockBids(sizes)
  {
    bids := [];
    for i := 0 to MaxDepth
      invariant bids == MockBids(sizes)[..i]
    {
      bids := bids + [Level(BidPrice(i), sizes[i])];
    }
  }

  /** `generateAsks` (lines 46-54): the loop pushes the fifteen ask levels in order. */
  method GenerateAsks(sizes: seq<real>) returns (asks: seq<Level>)
    requires |sizes| == MaxDepth
    ensures asks == MockAsks(sizes)
  {
    asks := [];
    for i := 0 to MaxDepth
      invariant asks == MockAsks(sizes)[..i]
    {
      asks := asks + [Level(AskPrice(i), sizes[i])];
    }
  }

  /** The synthetic bids fall strictly from 29.499 to 29.485 in steps of 0.001. */
  lemma MockBidsStrictlyDescending(sizes: seq<real>)
    requires |sizes| == MaxDepth
    ensures var bids := MockBids(sizes);
      && bids[0].price == 29.499 && bids[MaxDepth - 1].price == 29.485
      && (forall i :: 0 < i < MaxDepth ==> bids[i - 1].price - bids[i].price == 0.001)
      && forall i, j :: 0 <= i < j < MaxDepth ==> bids[i].price > bids[j].price
  {
  }

  /** The synthetic asks rise strictly from 29.501 to 29.515 in steps of 0.001. */
  lemma MockAsksStrictlyAscending(sizes: seq<real>)
    requires |sizes| == MaxDepth
    ensures var asks := MockAsks(sizes);
      && asks[0].price == 29.501 && asks[MaxDepth - 1].price == 29.515
      && (forall i :: 0 < i < MaxDepth ==> asks[i].price - asks[i - 1].price == 0.001)
      && forall i, j :: 0 <= i < j < MaxDepth ==> asks[i].price < asks[j].price
  {
  }

  /**
   * A mock snapshot is a valid book with fifteen levels a side, and it is not
   * crossed: its best ask is 0.002 above its best bid, and every ask is above
   * every bid.
   */
  lemma MockBookValid(d: Draw, now: int)
    requires ValidDraw(d)
    ensures var b := MockBook(d, now);
      && BookValid(b) && |b.bids| == MaxDepth && |b.asks| == MaxDepth
      && b.asks[0].price - b.bids[0].price == 0.002
      && forall i, j :: 0 <= i < MaxDepth && 0 <= j < MaxDepth ==> b.bids[i].price < b.asks[j].price
  {
    var b := MockBook(d, now);
    MockBidsStrictlyDescending(d.bidSizes);
    MockAsksStrictlyAscending(d.askSizes);
    forall l | l in b.bids
      ensures l.size > 0.0
    {
      var i :| 0 <= i < MaxDepth && b.bids[i] == l;
      assert d.bidSizes[i] in d.bidSizes;
    }
    forall l | l in b.asks
      ensures l.size > 0.0
    {
      var i :| 0 <= i < MaxDepth && b.asks[i] == l;
      assert d.askSizes[i] in d.askSizes;
    }
  }
}
