/** Historical bars, book snapshots and funding points. */
module History {
  import opened Models
  import opened Market

  datatype HistoricalBar = HistoricalBar(
    symbol: string,
    openTimeMs: int,
    closeTimeMs: int,
    open: real,
    high: real,
    low: real,
    close: real,
    volume: real,
    quoteVolume: real,
    takerBuyQuote: real,
    bestBid: Option<real>,
    bestAsk: Option<real>,
    bidDepth: Option<real>,
    askDepth: Option<real>)
  {
    function TakerSellQuote(): (r: real)
      ensures r >= 0.0
    {
      MaxReal(0.0, quoteVolume - takerBuyQuote)
    }

    predicate HasBook() {
      && bestBid.Some? && bestAsk.Some? && bidDepth.Some? && askDepth.Some?
      && bestBid.value > 0.0 && bestAsk.value >= bestBid.value && bidDepth.value >= 0.0 && askDepth.value >= 0.0
    }

    function AsBar(): Bar {
      Bar(open, high, low, close, volume)
    }
  }

  datatype BookSnapshot = BookSnapshot(
    symbol: string,
    timestampMs: int,
    bestBid: real,
    bestAsk: real,
    bidDepth: real,
    askDepth: real)

  datatype FundingPoint = FundingPoint(symbol: string, timestampMs: int, rate: real)

  function OpenTime(b: HistoricalBar): int {
    b.openTimeMs
  }

  function CloseTime(b: HistoricalBar): int {
    b.closeTimeMs
  }

  function SnapshotTime(s: BookSnapshot): int {
    s.timestampMs
  }
}
