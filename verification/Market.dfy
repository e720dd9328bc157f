/** The market state of one symbol: closed bars, the streaming taker flow, the top of book. */
module Market {
  import opened Models

  datatype Bar = Bar(open: real, high: real, low: real, close: real, volume: real)

  const MAX_BARS: nat := 256

  datatype SymbolState = SymbolState(
    symbol: string,
    bars: seq<Bar>,
    takerBuyQuote: real,
    takerSellQuote: real,
    flowBucketStartMs: Option<int>,
    bestBid: Option<real>,
    bestAsk: Option<real>,
    bidDepth: real,
    askDepth: real,
    lastEventTimeMs: Option<int>)

  function NewSymbolState(symbol: string): SymbolState {
    SymbolState(symbol, [], 0.0, 0.0, None, None, None, 0.0, 0.0, None)
  }

  /** A bounded deque: the oldest bar makes room for the newest. */
  function PushBar(bars: seq<Bar>, bar: Bar): seq<Bar> {
    var all := bars + [bar];
    if |all| > MAX_BARS then all[|all| - MAX_BARS..] else all
  }

  /** A usable book: both sides present, positive, not crossed. */
  predicate UsableBook(bid: Option<real>, ask: Option<real>) {
    bid.Some? && ask.Some? && bid.value > 0.0 && ask.value >= bid.value
  }

  datatype Trade = Trade(timeMs: int, quote: real, buyerIsMaker: bool)

  datatype Flow = Flow(start: Option<int>, buy: real, sell: real)

  function Bucket(timeMs: int, bucketMs: int): int
    requires bucketMs > 0
  {
    timeMs - timeMs % bucketMs
  }

  function AddTrade(f: Flow, t: Trade, bucketMs: int): Flow
    requires bucketMs > 0
  {
    var bucket := Bucket(t.timeMs, bucketMs);
    var g := if f.start.None? || bucket > f.start.value then Flow(Some(bucket), 0.0, 0.0) else f;
    if bucket < g.start.value then g
    else if t.buyerIsMaker then g.(sell := g.sell + t.quote)
    else g.(buy := g.buy + t.quote)
  }

  function AddTrades(f: Flow, ts: seq<Trade>, bucketMs: int): Flow
    requires bucketMs > 0
  {
    if ts == [] then f else AddTrade(AddTrades(f, ts[..|ts| - 1], bucketMs), ts[|ts| - 1], bucketMs)
  }

  const NO_FLOW := Flow(None, 0.0, 0.0)

  /** The quote volume one side took in one bucket. */
  function TakerVolume(ts: seq<Trade>, bucket: int, bucketMs: int, sold: bool): real
    requires bucketMs > 0
  {
    if ts == [] then 0.0
    else
      var t := ts[|ts| - 1];
      TakerVolume(ts[..|ts| - 1], bucket, bucketMs, sold)
      + if Bucket(t.timeMs, bucketMs) == bucket && t.buyerIsMaker == sold then t.quote else 0.0
  }

  ghost predicate LatestBucket(ts: seq<Trade>, bucket: int, bucketMs: int)
    requires bucketMs > 0
  {
    && (exists t :: t in ts && Bucket(t.timeMs, bucketMs) == bucket)
    && (forall t | t in ts :: Bucket(t.timeMs, bucketMs) <= bucket)
  }

  lemma {:induction false} NoTradesInLaterBucket(ts: seq<Trade>, bucket: int, bucketMs: int, sold: bool)
    requires bucketMs > 0
    requires forall t | t in ts :: Bucket(t.timeMs, bucketMs) < bucket
    ensures TakerVolume(ts, bucket, bucketMs, sold) == 0.0
  {
    if ts != [] {
      assert ts[|ts| - 1] in ts;
      NoTradesInLaterBucket(ts[..|ts| - 1], bucket, bucketMs, sold);
    }
  }

  /** Whatever the arrival order, the streaming totals are those of the latest bucket seen. */
  lemma {:induction false} FlowIsLatestBucket(ts: seq<Trade>, bucketMs: int)
    requires bucketMs > 0 && ts != []
    ensures AddTrades(NO_FLOW, ts, bucketMs).start.Some?
    ensures
      var f := AddTrades(NO_FLOW, ts, bucketMs);
      && LatestBucket(ts, f.start.value, bucketMs)
      && f.sell == TakerVolume(ts, f.start.value, bucketMs, true)
      && f.buy == TakerVolume(ts, f.start.value, bucketMs, false)
  {
    var front, t := ts[..|ts| - 1], ts[|ts| - 1];
    assert ts == front + [t];
    var b := Bucket(t.timeMs, bucketMs);
    if front != [] {
      FlowIsLatestBucket(front, bucketMs);
      var f := AddTrades(NO_FLOW, front, bucketMs);
      if b > f.start.value {
        NoTradesInLaterBucket(front, b, bucketMs, true);
        NoTradesInLaterBucket(front, b, bucketMs, false);
        assert t in ts;
      } else {
        var u :| u in front && Bucket(u.timeMs, bucketMs) == f.start.value;
        assert u in ts;
      }
    } else {
      assert t in ts;
      assert TakerVolume(front, b, bucketMs, true) == TakerVolume(front, b, bucketMs, false) == 0.0;
    }
  }

  /** The quote volume one side took from a time on; the taker sold when the buyer was the maker. */
  function VolumeFrom(ts: seq<Trade>, from: int, sold: bool): real {
    if ts == [] then 0.0
    else
      var t := ts[|ts| - 1];
      VolumeFrom(ts[..|ts| - 1], from, sold) + if t.timeMs >= from && t.buyerIsMaker == sold then t.quote else 0.0
  }

  lemma {:induction false} LatestIsFrom(ts: seq<Trade>, from: int, bucketMs: int, sold: bool)
    requires bucketMs > 0 && from % bucketMs == 0 && forall t | t in ts :: t.timeMs < from + bucketMs
    ensures TakerVolume(ts, from, bucketMs, sold) == VolumeFrom(ts, from, sold)
  {
    if ts != [] {
      var t := ts[|ts| - 1];
      assert t in ts;
      InBucketIff(t.timeMs, from, bucketMs);
      LatestIsFrom(ts[..|ts| - 1], from, bucketMs, sold);
    }
  }

  lemma BucketMeans(timeMs: int, bucketMs: int)
    requires bucketMs > 0
    ensures Bucket(timeMs, bucketMs) % bucketMs == 0
    ensures Bucket(timeMs, bucketMs) <= timeMs < Bucket(timeMs, bucketMs) + bucketMs
  {
    assert timeMs == timeMs / bucketMs * bucketMs + timeMs % bucketMs;
    MultipleHasNoRest(timeMs / bucketMs, bucketMs);
  }

  /** A multiple short of one step either way is none. */
  lemma NoStep(k: int, n: int)
    ensures n > 0 && -n < k * n < n ==> k == 0
  {
    if n > 0 && k >= 1 {
      assert k * n == (k - 1) * n + n && (k - 1) * n >= 0;
    } else if n > 0 && k <= -1 {
      assert k * n == (k + 1) * n - n && (k + 1) * n <= 0;
    }
  }

  lemma MultipleHasNoRest(k: int, n: int)
    requires n > 0
    ensures (k * n) % n == 0
  {
    var q, r := (k * n) / n, (k * n) % n;
    assert k * n == q * n + r;
    assert (k - q) * n == r;
    NoStep(k - q, n);
  }

  lemma InBucketIff(timeMs: int, from: int, bucketMs: int)
    requires bucketMs > 0 && from % bucketMs == 0 && timeMs < from + bucketMs
    ensures Bucket(timeMs, bucketMs) == from <==> timeMs >= from
  {
    BucketMeans(timeMs, bucketMs);
    hide Bucket;
    var b := Bucket(timeMs, bucketMs);
    if timeMs >= from {
      Apart(b, from, bucketMs);
    }
  }

  /** Two multiples less than a step apart are the same. */
  lemma Apart(a: int, b: int, n: int)
    requires n > 0 && a % n == 0 && b % n == 0 && -n < a - b < n
    ensures a == b
  {
    var x, y := a / n, b / n;
    assert a == x * n && b == y * n;
    assert (x - y) * n == a - b;
    NoStep(x - y, n);
  }

  /** So after any trades the totals cover a whole bucket: it starts at a multiple of its length, no trade seen is past
      it, some trade lies in it, and the totals are what takers sold and bought from its start on. */
  lemma FlowCoversBucket(ts: seq<Trade>, bucketMs: int)
    requires bucketMs > 0 && ts != []
    ensures AddTrades(NO_FLOW, ts, bucketMs).start.Some?
    ensures
      var f := AddTrades(NO_FLOW, ts, bucketMs);
      var from := f.start.value;
      && from % bucketMs == 0
      && (forall t | t in ts :: t.timeMs < from + bucketMs) && (exists t :: t in ts && t.timeMs >= from)
      && f.sell == VolumeFrom(ts, from, true) && f.buy == VolumeFrom(ts, from, false)
  {
    FlowIsLatestBucket(ts, bucketMs);
    hide AddTrades, Bucket;
    var from := AddTrades(NO_FLOW, ts, bucketMs).start.value;
    var u :| u in ts && Bucket(u.timeMs, bucketMs) == from;
    BucketMeans(u.timeMs, bucketMs);
    forall t | t in ts ensures t.timeMs < from + bucketMs {
      BucketMeans(t.timeMs, bucketMs);
    }
    LatestIsFrom(ts, from, bucketMs, true);
    LatestIsFrom(ts, from, bucketMs, false);
  }

  lemma {:induction false} TakerVolumeSplit(ts: seq<Trade>, k: nat, bucket: int, bucketMs: int, sold: bool)
    requires bucketMs > 0 && k < |ts|
    ensures
      var rest := ts[..k] + ts[k + 1..];
      TakerVolume(ts, bucket, bucketMs, sold) == TakerVolume(rest, bucket, bucketMs, sold)
        + if Bucket(ts[k].timeMs, bucketMs) == bucket && ts[k].buyerIsMaker == sold then ts[k].quote else 0.0
    decreases |ts|
  {
    hide Bucket;
    var rest := ts[..k] + ts[k + 1..];
    if k == |ts| - 1 {
      assert rest == ts[..|ts| - 1];
    } else {
      var front := ts[..|ts| - 1];
      TakerVolumeSplit(front, k, bucket, bucketMs, sold);
      assert rest[..|rest| - 1] == front[..k] + front[k + 1..];
    }
  }

  /** Taking out one element takes out one copy of it. */
  lemma TakenOut<T>(us: seq<T>, k: nat)
    requires k < |us|
    ensures multiset(us[..k] + us[k + 1..]) == multiset(us) - multiset{us[k]}
  {
    assert us == us[..k] + ([us[k]] + us[k + 1..]);
    assert multiset(us) == multiset(us[..k]) + (multiset{us[k]} + multiset(us[k + 1..]));
  }

  lemma RemoveLast<T>(ts: seq<T>, us: seq<T>) returns (k: nat)
    requires ts != [] && multiset(ts) == multiset(us)
    ensures k < |us| && us[k] == ts[|ts| - 1]
    ensures multiset(ts[..|ts| - 1]) == multiset(us[..k] + us[k + 1..])
  {
    var n := |ts| - 1;
    assert ts[n] in multiset(us);
    k :| 0 <= k < |us| && us[k] == ts[n];
    TakenOut(us, k);
    TakenOut(ts, n);
    assert ts[..n] + ts[n + 1..] == ts[..n];
  }

  lemma {:induction false} TakerVolumeOfPermutation(ts: seq<Trade>, us: seq<Trade>, bucket: int, bucketMs: int,
                                                    sold: bool)
    requires bucketMs > 0 && multiset(ts) == multiset(us)
    ensures TakerVolume(ts, bucket, bucketMs, sold) == TakerVolume(us, bucket, bucketMs, sold)
    decreases |ts|
  {
    hide Bucket;
    if ts == [] {
      assert |multiset(us)| == 0;
    } else {
      var k := RemoveLast(ts, us);
      TakerVolumeSplit(us, k, bucket, bucketMs, sold);
      TakerVolumeOfPermutation(ts[..|ts| - 1], us[..k] + us[k + 1..], bucket, bucketMs, sold);
    }
  }

  /** The streaming totals do not depend on the order the trades arrive in. */
  lemma FlowIgnoresArrivalOrder(ts: seq<Trade>, us: seq<Trade>, bucketMs: int)
    requires bucketMs > 0 && multiset(ts) == multiset(us)
    ensures AddTrades(NO_FLOW, ts, bucketMs) == AddTrades(NO_FLOW, us, bucketMs)
  {
    if ts == [] {
      assert |multiset(us)| == 0;
      assert us == [];
    } else {
      assert ts[0] in multiset(us);
      assert forall t :: t in ts <==> t in multiset(ts);
      assert forall t :: t in us <==> t in multiset(us);
      FlowIsLatestBucket(ts, bucketMs);
      FlowIsLatestBucket(us, bucketMs);
      var b := AddTrades(NO_FLOW, ts, bucketMs).start.value;
      TakerVolumeOfPermutation(ts, us, b, bucketMs, true);
      TakerVolumeOfPermutation(ts, us, b, bucketMs, false);
    }
  }

  /** The mutable state the market hub keeps for a symbol. */
  class SymbolFeed {
    const symbol: string
    var bars: seq<Bar>
    var takerBuyQuote: real
    var takerSellQuote: real
    var flowBucketStartMs: Option<int>

    ghost function FlowView(): Flow
      reads this
    {
      Flow(flowBucketStartMs, takerBuyQuote, takerSellQuote)
    }

    constructor (symbol: string)
      ensures this.symbol == symbol && bars == [] && FlowView() == NO_FLOW
    {
      this.symbol := symbol;
      bars, takerBuyQuote, takerSellQuote, flowBucketStartMs := [], 0.0, 0.0, None;
    }

    method AddBar(bar: Bar)
      modifies this`bars
      ensures bars == PushBar(old(bars), bar)
    {
      bars := bars + [bar];
      if |bars| > MAX_BARS {
        bars := bars[|bars| - MAX_BARS..];
      }
    }

    method ResetFlowWindow()
      modifies this`takerBuyQuote, this`takerSellQuote
      ensures takerBuyQuote == 0.0 && takerSellQuote == 0.0
    {
      takerBuyQuote := 0.0;
      takerSellQuote := 0.0;
    }

    method AddTakerTrade(t: Trade, bucketMs: int)
      requires bucketMs > 0
      modifies this`takerBuyQuote, this`takerSellQuote, this`flowBucketStartMs
      ensures FlowView() == AddTrade(old(FlowView()), t, bucketMs)
    {
      var bucket := t.timeMs - t.timeMs % bucketMs;
      if flowBucketStartMs.None? || bucket > flowBucketStartMs.value {
        ResetFlowWindow();
        flowBucketStartMs := Some(bucket);
      } else if bucket < flowBucketStartMs.value {
        return;
      }
      if t.buyerIsMaker {
        takerSellQuote := takerSellQuote + t.quote;
      } else {
        takerBuyQuote := takerBuyQuote + t.quote;
      }
    }
  }
}
