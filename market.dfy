/**
 * The records the dashboard passes around (src/types/market.ts): quotes,
 * news items and the per-symbol prediction an analysis run returns.
 */
module Market {
  import opened Wrappers

  /** One end-of-day quote of one symbol. */
  datatype MarketDataItem = MarketDataItem(
    symbol: string,
    open: real,
    close: real,
    high: real,
    low: real,
    volume: real,
    date: string)

  /** One news item, whichever provider it came from. */
  datatype NewsItem = NewsItem(
    title: string,
    summary: string,
    url: string,
    source: string,
    timestamp: string,
    image: Option<string>,
    category: Option<string>,
    sentiment: Option<string>)

  /** Short, medium and long term price targets of one stock. */
  datatype PriceTargets = PriceTargets(shortTerm: string, mediumTerm: string, longTerm: string)

  /** The analysis of one symbol: three percentages, the technical-indicator
      observations and the optional extras of a single-stock analysis. */
  datatype PredictionResult = PredictionResult(
    up: real,
    down: real,
    neutral: real,
    keyFibonacciLevels: seq<string>,
    fractalSignals: seq<string>,
    marketStructure: string,
    rsiAnalysis: Option<seq<string>>,
    macdAnalysis: Option<seq<string>>,
    elliottWave: Option<seq<string>>,
    volumeProfile: Option<seq<string>>,
    ichimokuSignals: Option<seq<string>>,
    harmonicPatterns: Option<seq<string>>,
    priceTargets: Option<PriceTargets>,
    stockSummary: Option<string>,
    confidence: Option<real>,
    factors: Option<seq<string>>)

  /** Predictions keyed by symbol. */
  type PredictionMap = map<string, PredictionResult>

  /** `items[i]` is the first record whose symbol is `symbol`. */
  predicate IsFirstOfSymbol(items: seq<MarketDataItem>, symbol: string, i: int) {
    0 <= i < |items| && items[i].symbol == symbol &&
    forall j :: 0 <= j < i ==> items[j].symbol != symbol
  }

  /** A first match in the tail is a first match one place further on in the
      whole list, once the head does not match. */
  lemma FirstOfSymbolShift(items: seq<MarketDataItem>, symbol: string)
    requires items != [] && items[0].symbol != symbol
    ensures forall i :: IsFirstOfSymbol(items[1..], symbol, i) ==> IsFirstOfSymbol(items, symbol, i + 1)
  {
  }

  /** `items.find(item => item.symbol === symbol)`: the first record of that symbol. */
  function FindBySymbol(items: seq<MarketDataItem>, symbol: string): (r: Option<MarketDataItem>)
    ensures r.None? <==> forall i :: 0 <= i < |items| ==> items[i].symbol != symbol
    ensures r.Some? ==> r.value.symbol == symbol
    ensures r.Some? ==> exists i :: IsFirstOfSymbol(items, symbol, i) && items[i] == r.value
  {
    if items == [] then None
    else if items[0].symbol == symbol then Some(items[0])
    else
      var r := FindBySymbol(items[1..], symbol);
      assert forall i :: 1 <= i < |items| ==> items[i] == items[1..][i - 1];
      FirstOfSymbolShift(items, symbol);
      r
  }
}
