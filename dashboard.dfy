/**
 * The dashboard page (src/app/page.tsx): its state, the market analysis
 * request `sendToAIAnalysis` with the cascade over the shapes a webhook
 * reply may take, and the single-stock analysis `handleStockSearch`.
 *
 * The webhook replies, the quote service and `JSON.parse` are parameters:
 * a reply is `None` when the POST throws, and `parse` returns `None` where
 * `JSON.parse` throws.
 */
module Dashboard {
  import opened Wrappers
  import opened JsString
  import opened JsArray
  import opened Market
  import opened BraceScan
  import opened ReplyPatterns

  /** The `output` field of a legacy reply: text, or anything else (on which
      `match` throws). */
  datatype OutputValue = OutputText(text: string) | OutputOther

  /** What a webhook answered, as far as the page looks at it. An `Object`
      lists which of the keys it reads are present. */
  datatype Reply =
    | NotAnObject
    | Object(predictions: Option<PredictionMap>, summary: Option<string>,
             timestamp: Option<string>, output: Option<OutputValue>)

  const Unrecognised := "Formato de respuesta no reconocido"
  const ParseError := "Error al analizar la respuesta de IA. Formato inesperado."
  const RequestFailed := "Failed to get prediction results. Please try again later."

  /** What the legacy `output` branch makes of the text. */
  datatype LegacyOutcome =
    | Parsed(predictions: PredictionMap, summary: Option<string>)  // summary None: keep the old one
    | ParseFailed
    | NoJson

  /** The legacy branch: a non-empty fenced capture first, else the embedded
      object cut out from where the embedded pattern matched. This is the
      specification, stated with the declarative `FirstObject` (hence ghost);
      the method `ReadLegacy` is the page's code, which finds the start with
      `indexOf` and cuts the object out with the scanning loop, and is proved
      to compute it. */
  ghost function Legacy(text: string, parse: string -> Option<PredictionMap>): LegacyOutcome {
    var fenced := FencedCapture(text);
    if fenced.Some? && fenced.value != [] then FencedOutcome(text, fenced.value, parse)
    else EmbeddedOutcome(text, parse)
  }

  /** The fenced shape: the capture parsed, the summary from the summary
      pattern, trimmed, when that captured anything. */
  function FencedOutcome(text: string, capture: string, parse: string -> Option<PredictionMap>): LegacyOutcome {
    match parse(capture)
    case None => ParseFailed
    case Some(p) =>
      var sm := SummaryCapture(text);
      Parsed(p, if sm.Some? && sm.value != [] then Some(Trim(sm.value)) else None)
  }

  /** The embedded shape: the object cut out from where the embedded
      pattern matched. */
  ghost function EmbeddedOutcome(text: string, parse: string -> Option<PredictionMap>): LegacyOutcome {
    match MatchEmbedded(text)
    case None => NoJson
    case Some(m) => ObjectOutcome(text, m.start, parse)
  }

  /** The first balanced object from index `start` on, parsed; the summary
      is the trimmed text after it, when there is any. */
  ghost function ObjectOutcome(text: string, start: nat, parse: string -> Option<PredictionMap>): LegacyOutcome
    requires start <= |text|
  {
    match FirstObject(text[start..])
    case None => NoJson
    case Some(j) =>
      match parse(j)
      case None => ParseFailed
      case Some(p) =>
        var after := Trim(text[start + |j|..]);
        Parsed(p, if after != [] then Some(after) else None)
  }

  /** The part of the page state a market analysis writes. */
  datatype AnalysisState = AnalysisState(
    predictions: Option<PredictionMap>,
    summary: Option<string>,
    timestamp: string,
    error: Option<string>)

  /** The state after the legacy branch came to `outcome`. */
  function ApplyOutcome(s: AnalysisState, outcome: LegacyOutcome): AnalysisState {
    match outcome
    case NoJson => s
    case ParseFailed => s.(error := Some(ParseError))
    case Parsed(p, sm) => s.(predictions := Some(p), summary := if sm.Some? then sm else s.summary)
  }

  /** The state after a market analysis whose webhook answered `response`,
      the error having been cleared when the request started. */
  ghost function AfterAnalysis(s: AnalysisState, response: Option<Reply>,
                               parse: string -> Option<PredictionMap>, nowIso: string): AnalysisState
  {
    var s := s.(error := None);
    match response
    case None => s.(error := Some(RequestFailed))
    case Some(NotAnObject) => s.(error := Some(Unrecognised))
    case Some(reply) =>
      var s' :=
        if reply.predictions.Some? then
          s.(predictions := reply.predictions,
             summary := if reply.summary.Some? && reply.summary.value != [] then reply.summary else None)
        else if reply.output.Some? then
          match reply.output.value
          case OutputOther => s.(error := Some(ParseError))
          case OutputText(text) => ApplyOutcome(s, Legacy(text, parse))
        else s.(error := Some(Unrecognised));
      s'.(timestamp := nowIso)
  }

  /** The body of the market analysis POST. */
  datatype MarketRequest = MarketRequest(
    futuresData: seq<MarketDataItem>,
    newsData: seq<NewsItem>,
    stocksData: seq<MarketDataItem>,
    timestamp: string,
    dataSource: string)

  /** How the quote service answered `getStockData`. */
  datatype FetchResult = Fetched(item: MarketDataItem) | FetchedNull | FetchThrew

  /** The body of the single-stock analysis POST. */
  datatype StockRequest = StockRequest(
    targetStock: string,
    stockData: MarketDataItem,
    marketData: seq<MarketDataItem>,
    newsData: seq<NewsItem>,
    timestamp: string,
    dataSource: string)

  /** The title or the summary of `n` holds `symbol`. */
  predicate Mentions(n: NewsItem, symbol: string) {
    Includes(n.title, symbol) || Includes(n.summary, symbol)
  }

  /** The news forwarded with a stock analysis: the items that mention the
      symbol. */
  function NewsFor(news: seq<NewsItem>, symbol: string): (r: seq<NewsItem>)
    ensures |r| <= |news|
    ensures forall n :: n in r <==> n in news && Mentions(n, symbol)
  {
    Filter(news, (n: NewsItem) => Mentions(n, symbol))
  }

  /** Filtering news keeps their order: filtering two batches one after the
      other is filtering them together. */
  lemma NewsForKeepsOrder(a: seq<NewsItem>, b: seq<NewsItem>, symbol: string)
    ensures NewsFor(a + b, symbol) == NewsFor(a, symbol) + NewsFor(b, symbol)
  {
    FilterAppend(a, b, (n: NewsItem) => Mentions(n, symbol));
  }

  /** The part of the page state a stock analysis writes. */
  datatype SearchState = SearchState(
    stocksData: seq<MarketDataItem>,
    stockSymbol: Option<string>,
    stockAnalysis: Option<PredictionResult>,
    error: Option<string>)

  /** The quote a stock analysis sends: the cached one, else a fresh one. */
  function QuoteFor(stocks: seq<MarketDataItem>, symbol: string, fetched: FetchResult): Option<MarketDataItem> {
    match FindBySymbol(stocks, ToUpper(symbol))
    case Some(item) => Some(item)
    case None => if fetched.Fetched? then Some(fetched.item) else None
  }

  /** The messages a stock analysis of `symbol` can leave in `error`. */
  function NoQuoteMessage(symbol: string): string {
    "No data available for stock symbol: " + symbol
  }

  function QuoteFailedMessage(symbol: string): string {
    "No se pudo obtener datos para el símbolo: " + symbol
  }

  function AnalysisFailedMessage(symbol: string): string {
    "Error al analizar el stock " + symbol + ". Por favor, intente de nuevo."
  }

  function NoAnalysisMessage(symbol: string): string {
    "No se pudo obtener análisis para el símbolo: " + symbol
  }

  /** The state after a stock analysis of `symbol`: the quote service
      answered `fetched` (asked only when the quote is not cached) and the
      webhook `response` (read only when there is a quote to send). */
  function AfterSearch(s: SearchState, symbol: string, fetched: FetchResult, response: Option<Reply>): SearchState {
    var s' := AfterSearchQuote(s, symbol, fetched);
    if QuoteFor(s.stocksData, symbol, fetched).None? then s'
    else AfterSearchReply(s', symbol, response)
  }

  /** The part of a stock analysis that looks up the quote: the error is
      cleared, a fresh quote is appended to the cached ones, and a missing
      one is reported. */
  function AfterSearchQuote(s: SearchState, symbol: string, fetched: FetchResult): SearchState {
    var s := s.(error := None);
    if FindBySymbol(s.stocksData, ToUpper(symbol)).Some? then s
    else
      match fetched
      case Fetched(item) => s.(stocksData := s.stocksData + [item])
      case FetchedNull => s.(error := Some(NoQuoteMessage(symbol)))
      case FetchThrew => s.(error := Some(QuoteFailedMessage(symbol)))
  }

  /** The part of a stock analysis that reads the webhook `response`: only
      an object whose predictions hold the upper-cased symbol selects it. */
  function AfterSearchReply(s: SearchState, symbol: string, response: Option<Reply>): SearchState {
    var sym := ToUpper(symbol);
    match response
    case None => s.(error := Some(AnalysisFailedMessage(symbol)))
    case Some(NotAnObject) => s.(error := Some(Unrecognised))
    case Some(reply) =>
      if reply.predictions.Some? && sym in reply.predictions.value then
        s.(stockSymbol := Some(sym), stockAnalysis := Some(reply.predictions.value[sym]))
      else s.(error := Some(NoAnalysisMessage(symbol)))
  }

  /** A reply with a `predictions` key is taken as the direct shape whatever
      else it holds: its predictions replace the old ones, its summary is
      kept only when non-empty, the error is cleared, and the timestamp it
      carries is overridden by the current time. */
  lemma DirectShapeWins(s: AnalysisState, p: PredictionMap, summary: Option<string>, timestamp: Option<string>,
                        output: Option<OutputValue>, parse: string -> Option<PredictionMap>, nowIso: string)
    ensures var r := AfterAnalysis(s, Some(Object(Some(p), summary, timestamp, output)), parse, nowIso);
      r.predictions == Some(p) && r.error == None && r.timestamp == nowIso &&
      (r.summary.Some? <==> summary.Some? && summary.value != []) &&
      (r.summary.Some? ==> r.summary == summary)
  {
  }

  /** A reply that is not an object, or an object with neither `predictions`
      nor `output`, is reported as unrecognised and changes neither the
      predictions nor the summary; only an object moves the timestamp. */
  lemma UnrecognisedReply(s: AnalysisState, response: Reply, parse: string -> Option<PredictionMap>, nowIso: string)
    requires response.NotAnObject? || (response.predictions.None? && response.output.None?)
    ensures var r := AfterAnalysis(s, Some(response), parse, nowIso);
      r.error == Some(Unrecognised) && r.predictions == s.predictions && r.summary == s.summary &&
      r.timestamp == (if response.Object? then nowIso else s.timestamp)
  {
  }

  /** Whatever an object reply holds, the timestamp ends as the current
      time; a failed request or a non-object reply leaves it alone. */
  lemma TimestampIsAlwaysNow(s: AnalysisState, response: Option<Reply>, parse: string -> Option<PredictionMap>, nowIso: string)
    ensures var r := AfterAnalysis(s, response, parse, nowIso);
      r.timestamp == (if response.Some? && response.value.Object? then nowIso else s.timestamp)
  {
  }

  /** A failed request reports it and changes nothing else. */
  lemma FailedRequest(s: AnalysisState, parse: string -> Option<PredictionMap>, nowIso: string)
    ensures AfterAnalysis(s, None, parse, nowIso) == s.(error := Some(RequestFailed))
  {
  }

  /** A legacy reply whose `output` is plain text: the text that selects the
      legacy branch. */
  function LegacyReply(text: string): Reply {
    Object(None, None, None, Some(OutputText(text)))
  }

  /** Legacy text in which neither pattern matches changes neither the
      predictions nor the summary, and reports no error. */
  lemma UnmatchedOutputIgnored(s: AnalysisState, text: string, parse: string -> Option<PredictionMap>, nowIso: string)
    requires FencedCapture(text).None? || FencedCapture(text).value == []
    requires MatchEmbedded(text).None?
    ensures var r := AfterAnalysis(s, Some(LegacyReply(text)), parse, nowIso);
      r.predictions == s.predictions && r.summary == s.summary && r.error == None
  {
  }

  /** When `JSON.parse` throws on the fenced capture, the parse error is
      reported and the predictions and summary stay as they were. */
  lemma FencedParseFailure(s: AnalysisState, text: string, parse: string -> Option<PredictionMap>, nowIso: string)
    requires FencedCapture(text).Some? && FencedCapture(text).value != []
    requires parse(FencedCapture(text).value).None?
    ensures var r := AfterAnalysis(s, Some(LegacyReply(text)), parse, nowIso);
      r.predictions == s.predictions && r.summary == s.summary && r.error == Some(ParseError)
  {
  }

  /** A fenced reply whose first fence is the opening "```json": the
      predictions are the parsed capture, and the summary is everything after
      the opening fence, trimmed, so it starts with "json" and repeats the
      block. */
  lemma FencedSummaryRepeatsBlock(s: AnalysisState, text: string, p: nat, parse: string -> Option<PredictionMap>, nowIso: string)
    requires IndexOf(text, Fence) == Some(p) && OccursAt(text, JsonFence, p)
    requires FencedCapture(text).Some? && FencedCapture(text).value != []
    requires parse(FencedCapture(text).value).Some?
    ensures var r := AfterAnalysis(s, Some(LegacyReply(text)), parse, nowIso);
      r.predictions == parse(FencedCapture(text).value) && r.error == None &&
      r.summary == Some(Trim(text[p + |Fence|..])) && text[p + |Fence|..p + |JsonFence|] == "json"
  {
    SummaryRepeatsFencedBlock(text, p);
    assert text[p + |Fence|..][..4] == text[p + |Fence|..p + |JsonFence|];
  }

  /** With no usable fenced block, the legacy branch reads the object from
      where the embedded pattern matched, or finds nothing. */
  lemma EmbeddedShapeSelected(text: string, parse: string -> Option<PredictionMap>)
    requires FencedCapture(text).None? || FencedCapture(text).value == []
    ensures MatchEmbedded(text).None? ==> Legacy(text, parse) == NoJson
    ensures MatchEmbedded(text).Some? ==>
      Legacy(text, parse) == ObjectOutcome(text, MatchEmbedded(text).value.start, parse)
  {
  }

  /** The object read from `start` on: the predictions are its parse, and
      the summary is the trimmed text after it, only when that is not
      empty. */
  lemma ObjectOutcomeParsed(text: string, start: nat, parse: string -> Option<PredictionMap>)
    requires start <= |text|
    requires FirstObject(text[start..]).Some? && parse(FirstObject(text[start..]).value).Some?
    ensures var j := FirstObject(text[start..]).value;
      var o := ObjectOutcome(text, start, parse);
      start + |j| <= |text| && o.Parsed? && Some(o.predictions) == parse(j) &&
      (o.summary.None? <==> Trim(text[start + |j|..]) == []) &&
      (o.summary.Some? ==> o.summary.value == Trim(text[start + |j|..]))
  {
  }

  /** A stock analysis leaves its result in place exactly when a quote was
      available and the reply holds predictions keyed by the upper-cased
      symbol; every other outcome sets an error and keeps the previous
      analysis. */
  lemma SearchAcceptsOnlyKeyedReply(s: SearchState, symbol: string, fetched: FetchResult, response: Option<Reply>)
    ensures var r := AfterSearch(s, symbol, fetched, response);
      var sym := ToUpper(symbol);
      var keyed := QuoteFor(s.stocksData, symbol, fetched).Some? && response.Some? && response.value.Object? &&
        response.value.predictions.Some? && sym in response.value.predictions.value;
      (keyed ==> r.error == None && r.stockSymbol == Some(sym) &&
                 r.stockAnalysis == Some(response.value.predictions.value[sym])) &&
      (!keyed ==> r.error.Some? && r.stockSymbol == s.stockSymbol && r.stockAnalysis == s.stockAnalysis)
  {
    var q := AfterSearchQuote(s, symbol, fetched);
    if QuoteFor(s.stocksData, symbol, fetched).Some? {
      assert q.error == None && q.stockSymbol == s.stockSymbol && q.stockAnalysis == s.stockAnalysis;
      ReplySelectsOnlyKeyed(q, symbol, response);
    }
  }

  /** The reply stage selects the analysis exactly for an object whose
      predictions hold the upper-cased symbol, and otherwise reports an
      error and leaves the selection alone. */
  lemma ReplySelectsOnlyKeyed(s: SearchState, symbol: string, response: Option<Reply>)
    ensures var r := AfterSearchReply(s, symbol, response);
      var sym := ToUpper(symbol);
      var keyed := response.Some? && response.value.Object? &&
        response.value.predictions.Some? && sym in response.value.predictions.value;
      (keyed ==> r.error == s.error && r.stockSymbol == Some(sym) &&
                 r.stockAnalysis == Some(response.value.predictions.value[sym])) &&
      (!keyed ==> r.error.Some? && r.stockSymbol == s.stockSymbol && r.stockAnalysis == s.stockAnalysis)
  {
  }

  /** A quote not among the page's stocks and fetched fresh is appended to
      them, whatever the analysis then answers; otherwise the stocks stay. */
  lemma FreshQuoteAppended(s: SearchState, symbol: string, fetched: FetchResult, response: Option<Reply>)
    ensures var r := AfterSearch(s, symbol, fetched, response);
      r.stocksData == (if FindBySymbol(s.stocksData, ToUpper(symbol)).None? && fetched.Fetched?
                       then s.stocksData + [fetched.item] else s.stocksData)
  {
    var q := AfterSearchQuote(s, symbol, fetched);
    ReplyKeepsQuotes(q, symbol, response);
  }

  /** Reading the webhook reply never changes the cached quotes. */
  lemma ReplyKeepsQuotes(s: SearchState, symbol: string, response: Option<Reply>)
    ensures AfterSearchReply(s, symbol, response).stocksData == s.stocksData
  {
  }

  /** The dashboard's state. */
  class Page {
    var apiSource: string
    var error: Option<string>
    var isAnalyzing: bool
    var marketData: seq<MarketDataItem>
    var newsData: seq<NewsItem>
    var predictionResults: Option<PredictionMap>
    var analysisSummary: Option<string>
    var analysisTimestamp: string
    var stocksData: seq<MarketDataItem>
    var stockSymbol: Option<string>
    var stockAnalysis: Option<PredictionResult>
    var isSearchingStock: bool

    /** The state the page starts from. */
    constructor(nowIso: string)
      ensures apiSource == "live" && error == None && !isAnalyzing
      ensures marketData == [] && newsData == [] && stocksData == []
      ensures predictionResults == None && analysisSummary == None && analysisTimestamp == nowIso
      ensures stockSymbol == None && stockAnalysis == None && !isSearchingStock
    {
      apiSource := "live";
      error := None;
      isAnalyzing := false;
      marketData := [];
      newsData := [];
      predictionResults := None;
      analysisSummary := None;
      analysisTimestamp := nowIso;
      stocksData := [];
      stockSymbol := None;
      stockAnalysis := None;
      isSearchingStock := false;
    }

    /** The fields a market analysis writes. */
    function Analysis(): AnalysisState
      reads this`predictionResults, this`analysisSummary, this`analysisTimestamp, this`error
    {
      AnalysisState(predictionResults, analysisSummary, analysisTimestamp, error)
    }

    /** The fields a stock analysis writes. */
    function Search(): SearchState
      reads this`stocksData, this`stockSymbol, this`stockAnalysis, this`error
    {
      SearchState(stocksData, stockSymbol, stockAnalysis, error)
    }

    /** `sendToAIAnalysis`: posts the page's data and applies the reply. */
    method SendToAiAnalysis(response: Option<Reply>, parse: string -> Option<PredictionMap>, nowIso: string)
      returns (request: MarketRequest)
      modifies this`error, this`isAnalyzing, this`predictionResults, this`analysisSummary, this`analysisTimestamp
      ensures request == MarketRequest(marketData, newsData, stocksData, nowIso, apiSource)
      ensures Analysis() == AfterAnalysis(old(Analysis()), response, parse, nowIso)
      ensures !isAnalyzing
    {
      error := None;
      isAnalyzing := true;
      request := MarketRequest(marketData, newsData, stocksData, nowIso, apiSource);
      match response {
        case None =>
          error := Some(RequestFailed);
        case Some(NotAnObject) =>
          error := Some(Unrecognised);
        case Some(reply) =>
          if reply.predictions.Some? {
            predictionResults := reply.predictions;
            analysisSummary := if reply.summary.Some? && reply.summary.value != [] then reply.summary else None;
            analysisTimestamp := if reply.timestamp.Some? && reply.timestamp.value != [] then reply.timestamp.value else nowIso;
          } else if reply.output.Some? {
            match reply.output.value {
              case OutputOther =>
                error := Some(ParseError);
              case OutputText(text) =>
                ApplyLegacy(text, parse);
            }
          } else {
            error := Some(Unrecognised);
          }
          analysisTimestamp := nowIso;
      }
      isAnalyzing := false;
    }

    /** The legacy branch of `sendToAIAnalysis`, on the text of `output`. */
    method ApplyLegacy(text: string, parse: string -> Option<PredictionMap>)
      modifies this`predictionResults, this`analysisSummary, this`error
      ensures Analysis() == ApplyOutcome(old(Analysis()), Legacy(text, parse))
    {
      var outcome := ReadLegacy(text, parse);
      match outcome {
        case NoJson =>
        case ParseFailed =>
          error := Some(ParseError);
        case Parsed(p, sm) =>
          predictionResults := Some(p);
          if sm.Some? {
            analysisSummary := sm;
          }
      }
    }

    /** `handleStockSearch`: analyses one symbol, fetching its quote first
      when it is not among the page's stocks. Returns the body it posted,
      if it got that far. */
    method HandleStockSearch(symbol: string, fetched: FetchResult, response: Option<Reply>, nowIso: string)
      returns (request: Option<StockRequest>)
      modifies this`isSearchingStock, this`error, this`stocksData, this`stockSymbol, this`stockAnalysis
      ensures Search() == AfterSearch(old(Search()), symbol, fetched, response)
      ensures var quote := QuoteFor(old(stocksData), symbol, fetched);
        request.Some? <==> quote.Some?
      ensures request.Some? ==>
        (request.value == StockRequest(ToUpper(symbol), QuoteFor(old(stocksData), symbol, fetched).value,
           old(marketData), NewsFor(old(newsData), ToUpper(symbol)), nowIso, old(apiSource)))
      ensures !isSearchingStock
    {
      isSearchingStock := true;
      var normalizedSymbol := ToUpper(symbol);
      var stockData := LookUpQuote(symbol, fetched);
      match stockData {
        case None =>
          request := None;
        case Some(quote) =>
          request := Some(StockRequest(normalizedSymbol, quote, marketData,
                                       NewsFor(newsData, normalizedSymbol), nowIso, apiSource));
          ApplySearchReply(symbol, response);
      }
      isSearchingStock := false;
    }

    /** The quote half of `handleStockSearch`: the cached quote, else the
        one the quote service answered, appended to the cache. */
    method LookUpQuote(symbol: string, fetched: FetchResult) returns (stockData: Option<MarketDataItem>)
      modifies this`error, this`stocksData
      ensures stockData == QuoteFor(old(stocksData), symbol, fetched)
      ensures Search() == AfterSearchQuote(old(Search()), symbol, fetched)
    {
      error := None;
      stockData := FindBySymbol(stocksData, ToUpper(symbol));
      if stockData.None? {
        match fetched {
          case Fetched(item) =>
            stockData := Some(item);
            stocksData := stocksData + [item];
          case FetchedNull =>
            error := Some(NoQuoteMessage(symbol));
          case FetchThrew =>
            error := Some(QuoteFailedMessage(symbol));
        }
      }
    }

    /** The reply half of `handleStockSearch`: selects the analysis for the
        symbol or reports why it cannot. */
    method ApplySearchReply(symbol: string, response: Option<Reply>)
      modifies this`error, this`stockSymbol, this`stockAnalysis
      ensures Search() == AfterSearchReply(old(Search()), symbol, response)
    {
      var normalizedSymbol := ToUpper(symbol);
      match response {
        case None =>
          error := Some(AnalysisFailedMessage(symbol));
        case Some(NotAnObject) =>
          error := Some(Unrecognised);
        case Some(reply) =>
          if reply.predictions.Some? && normalizedSymbol in reply.predictions.value {
            stockSymbol := Some(normalizedSymbol);
            stockAnalysis := Some(reply.predictions.value[normalizedSymbol]);
          } else {
            error := Some(NoAnalysisMessage(symbol));
          }
      }
    }
  }

  /** What the legacy branch reads out of the text of `output`: the regular
      expressions, `indexOf`, `extractValidJSON` and `JSON.parse` in the
      order the page calls them. */
  method ReadLegacy(text: string, parse: string -> Option<PredictionMap>) returns (outcome: LegacyOutcome)
    ensures outcome == Legacy(text, parse)
  {
    var jsonMatch := FencedCapture(text);
    if jsonMatch.Some? && jsonMatch.value != [] {
      var predictions := parse(jsonMatch.value);
      if predictions.None? {
        return ParseFailed;
      }
      var summaryMatch := SummaryCapture(text);
      if summaryMatch.Some? && summaryMatch.value != [] {
        return Parsed(predictions.value, Some(Trim(summaryMatch.value)));
      }
      return Parsed(predictions.value, None);
    }
    outcome := ReadEmbedded(text, parse);
  }

  /** The embedded-object half of the legacy branch. */
  method ReadEmbedded(text: string, parse: string -> Option<PredictionMap>) returns (outcome: LegacyOutcome)
    ensures outcome == EmbeddedOutcome(text, parse)
  {
    match MatchEmbedded(text) {
      case None =>
        outcome := NoJson;
      case Some(m) =>
        EmbeddedStart(text, m, parse);
        var startIndex := IndexOf(text, text[m.start..m.start + m.len]).value;
        outcome := ReadObject(text, startIndex, parse);
    }
  }

  /** `indexOf(match[0])` lands on the match, so the scan starts there. */
  lemma EmbeddedStart(text: string, m: EmbeddedMatch, parse: string -> Option<PredictionMap>)
    requires MatchEmbedded(text) == Some(m)
    ensures IndexOf(text, text[m.start..m.start + m.len]) == Some(m.start)
    ensures EmbeddedOutcome(text, parse) == ObjectOutcome(text, m.start, parse)
  {
    EmbeddedIndexOf(text, m);
  }

  /** `extractValidJSON` from `startIndex` on, `JSON.parse` on what it
      returns, and the text after the object. */
  method ReadObject(text: string, startIndex: nat, parse: string -> Option<PredictionMap>) returns (outcome: LegacyOutcome)
    requires startIndex <= |text|
    ensures outcome == ObjectOutcome(text, startIndex, parse)
  {
    var jsonText := ExtractValidJson(text[startIndex..]);
    if jsonText.None? {
      return NoJson;
    }
    var predictions := parse(jsonText.value);
    if predictions.None? {
      return ParseFailed;
    }
    var textAfterJson := text[startIndex + |jsonText.value|..];
    if Trim(textAfterJson) != [] {
      return Parsed(predictions.value, Some(Trim(textAfterJson)));
    }
    return Parsed(predictions.value, None);
  }
}
