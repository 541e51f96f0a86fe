# Sirius Markets dashboard — a Dafny model

Sirius Markets is a Next.js dashboard. It has three parts:

- It loads end-of-day quotes from MarketStack and financial news from Alpha Vantage or NewsAPI.
- It sends them to an AI webhook.
- It renders the trend predictions that come back.

This project models the dashboard's core and proves properties of it:

- **The page** (`src/app/page.tsx`), in `Dashboard` (class `Page`), `BraceScan` and `ReplyPatterns`:
  - `extractValidJSON` is the brace-counting scan for the first top-level `{…}`.
  - `sendToAIAnalysis` reads the AI reply in one of three shapes:
    - the direct `{predictions, summary, timestamp}` object;
    - a legacy `output` text holding a fenced ```` ```json ```` block;
    - a legacy text holding an embedded `{"^SYMBOL" …}` object.
  - `handleStockSearch` fetches a quote when needed, filters the news, and accepts only a reply keyed by the upper-cased symbol.
- **The data services** (`src/lib/api-services.ts`):
  - `SymbolMapper` holds the symbol table, `convertSymbol` and the inverse relabelling.
  - `QuoteCache` holds the quote cache with its 15-minute lifetime, the per-symbol fetch loop of `getEndOfDayData` with its fixture fallback, and `getStockData`.
  - `NewsMapping` holds the two news normalisers.
- **The components**:
  - `FilterControls`: the selection toggles and the filtered data.
  - `StockTicker`: the speed cycle, the scroll step, the badges and the doubled track.
  - `PredictionDetail` and `StockAnalysis`: card colour, badges, indicator sections and price targets. They share `Trend` and `Indicators`.
  - `MarketSummary`: splitting the summary into paragraphs.
  - `StockSearch`: the normalised submitted symbol.
- **Helpers**: `JsString` and `JsArray` give the JavaScript built-ins the model relies on (`trim`, `toUpperCase`, `indexOf`, `includes`, `filter`, `new Set`). `Market` holds the record types of `src/types/market.ts`.

State that React keeps in `useState` hooks is modelled as fields of a class whose methods are the event handlers. Pure helpers are functions. Loops are methods proved against a specification function. Calls to the outside world become parameters:

- the HTTP replies;
- `JSON.parse`, given as `parse: string -> Option<PredictionMap>` with `None` for a throw;
- the clock;
- the API-key environment variable;
- the mock fixtures;
- the laid-out width of the ticker.

Where the code does something surprising, the model follows the code:

- A fenced legacy reply's summary is everything after the *first* triple backquote, trimmed. It therefore starts with `json` and repeats the JSON block.
- Legacy text that matches neither pattern is ignored without an error.
- The timestamp a direct reply carries is always overwritten by the current time.
- `getEndOfDayData` returns a *shorter* list when only some of its requests fail. It does not fill the gaps with fixtures: the fixture list is used only when nothing at all was obtained, or when the key is missing.
- The relabelling after a fetch uses the first table key whose value is the provider symbol. A direct request for `SPY` therefore comes back, and is cached, as `^GSPC` (`SymbolMapper.RoundTrip`).

## Model

| member | source | states |
|---|---|---|
| BraceScan.DepthAtCounts | src/app/page.tsx:60-68 | the running brace count after `n` characters is the number of `{` minus the number of `}` among them |
| BraceScan.FirstObject | src/app/page.tsx:59-76 | an object is found iff some start brace at depth 0 is closed by a `}` that brings the depth back to 0 with no earlier return to 0, and it is exactly that slice |
| BraceScan.SpansUnique | src/app/page.tsx:63-71 | the first balanced span is unique, so the scan's answer is well defined |
| BraceScan.ExtractValidJson | src/app/page.tsx:59-76 | the scanning loop returns exactly `FirstObject(text)` |
| BraceScan.NoStartNoObject | src/app/page.tsx:63-75 | with no `{` met at depth 0 the scan returns null |
| BraceScan.NoEndNoObject | src/app/page.tsx:63-75 | an object that is opened but never closed back to depth 0 gives null |
| BraceScan.OpenInside | src/app/page.tsx:63-71 | inside a returned span the depth never drops below 1 |
| BraceScan.SliceCounts | src/app/page.tsx:60-68 | brace counts of a slice are the differences of the prefix counts |
| BraceScan.ExtractedObjectIsBalanced | src/app/page.tsx:59-76 | the extracted text starts with `{`, ends with `}` and holds equally many of each |
| BraceScan.StaysOpen | src/app/page.tsx:63-71 | once open, the depth stays positive until the first return to 0 |
| BraceScan.LeadingBraceShortestBalancedPrefix | src/app/page.tsx:336 | for text starting with `{`, the result is the shortest prefix that balances |
| BraceScan.LeadingBraceNeverBalanced | src/app/page.tsx:336-337 | text starting with `{` that never balances yields null, so no predictions are set |
| ReplyPatterns.LazyClose | src/app/page.tsx:320 | the lazy capture ends at the first place where optional whitespace and a closing fence follow |
| ReplyPatterns.MatchFenced | src/app/page.tsx:320 | a match of the fenced pattern is ordered start ≤ end ≤ close and a fence really occurs at close |
| ReplyPatterns.FencedNoLaterStart | src/app/page.tsx:320 | when the leftmost opening fence finds no close, no later opening fence can, so the match fails as a whole |
| ReplyPatterns.FencedCaptureIsTrimmed | src/app/page.tsx:320 | the fenced capture has no whitespace at either end (trimming it changes nothing) |
| ReplyPatterns.SummaryCapture | src/app/page.tsx:326 | the summary pattern matches iff the text holds a triple backquote |
| ReplyPatterns.SummaryRepeatsFencedBlock | src/app/page.tsx:320-329 | when the first fence opens the JSON block, the summary capture is everything after it, beginning with `json` |
| ReplyPatterns.SampleSummaryAsWritten | src/app/page.tsx:326-328 | concrete reply: the summary of a fenced reply is `json`, the block and the closing fence followed by the prose |
| ReplyPatterns.SampleFencedCapture | src/app/page.tsx:320-322 | concrete reply: the fenced capture is just the JSON object |
| ReplyPatterns.EmbeddedLen | src/app/page.tsx:332 | a match of `\{\s*"(\^[A-Z]+)"[\s\S]*?\}` at a position starts with `{` and ends at the first `}` after the quoted symbol |
| ReplyPatterns.EmbeddedLenLocal | src/app/page.tsx:332 | the embedded match depends only on the characters it spans |
| ReplyPatterns.EmbeddedFrom | src/app/page.tsx:332-333 | the search returns the leftmost position where the embedded pattern matches |
| ReplyPatterns.MatchEmbedded | src/app/page.tsx:333 | a match lies within the text and begins with `{` |
| ReplyPatterns.EmbeddedNotEarlier | src/app/page.tsx:333-335 | the matched text occurs nowhere before its match position |
| ReplyPatterns.EmbeddedIndexOf | src/app/page.tsx:335 | `indexOf(match[0])` finds the match position itself |
| Dashboard.Page.SendToAiAnalysis | src/app/page.tsx:273-371 | the request carries the page's data, time and source; the new state is `AfterAnalysis` of the old one; the busy flag ends cleared |
| Dashboard.Page.ApplyLegacy | src/app/page.tsx:318-351 | reading legacy `output` text changes the page exactly as the legacy outcome says |
| Dashboard.ReadLegacy | src/app/page.tsx:318-351 | the legacy branch's code computes `Legacy(text, parse)`: fenced capture first, then the embedded object, then nothing |
| Dashboard.ReadEmbedded | src/app/page.tsx:330-347 | the embedded branch computes `EmbeddedOutcome` |
| Dashboard.ReadObject | src/app/page.tsx:335-345 | extracting from the match position computes `ObjectOutcome` |
| Dashboard.DirectShapeWins | src/app/page.tsx:300-304 | a reply with `predictions` sets them, keeps a non-empty summary only, clears the error, and ends with the current time whatever timestamp it carried |
| Dashboard.UnrecognisedReply | src/app/page.tsx:352-361 | a non-object reply, or an object with neither key, is reported unrecognised and keeps predictions and summary |
| Dashboard.TimestampIsAlwaysNow | src/app/page.tsx:358 | every object reply ends with the current time as timestamp; other outcomes leave it |
| Dashboard.FailedRequest | src/app/page.tsx:364-367 | a failed request sets the request error and nothing else |
| Dashboard.UnmatchedOutputIgnored | src/app/page.tsx:330-347 | legacy text matching neither pattern changes nothing and reports no error |
| Dashboard.FencedParseFailure | src/app/page.tsx:320-351 | a fenced capture that does not parse reports the parse error and keeps predictions and summary |
| Dashboard.FencedSummaryRepeatsBlock | src/app/page.tsx:320-329 | a parsed fenced reply sets the predictions, and its summary is the trimmed text after the opening fence, starting with `json` |
| Dashboard.EmbeddedShapeSelected | src/app/page.tsx:330-346 | without a usable fenced block, the object is read from the embedded match, or nothing happens |
| Dashboard.ObjectOutcomeParsed | src/app/page.tsx:336-345 | the predictions are the parse of the extracted object; the summary is the trimmed rest, set only when non-empty |
| Dashboard.NewsFor | src/app/page.tsx:229-232 | a news item is sent iff it is among the page's news and its title or summary contains the symbol |
| Dashboard.NewsForKeepsOrder | src/app/page.tsx:229-232 | the news filter works piecewise, so it keeps the page's order |
| Dashboard.SearchAcceptsOnlyKeyedReply | src/app/page.tsx:195-266 | the stock analysis is set, with the upper-cased symbol, iff a quote was available and the reply holds predictions under that symbol; otherwise an error is set and the old analysis stays |
| Dashboard.FreshQuoteAppended | src/app/page.tsx:198-210 | a quote that was not on the page and was fetched is appended to the stocks, whatever the analysis returns |
| Dashboard.Page.HandleStockSearch | src/app/page.tsx:187-270 | the new state is `AfterSearch` of the old one; a request is sent only with a quote, and it carries the upper-cased symbol and the filtered news; the busy flag ends cleared |
| Dashboard.Page.constructor | src/app/page.tsx:33-47 | the initial state of the page's hooks |
| JsString.TrimIsSlice | src/app/page.tsx:328 | `trim` removes exactly the whitespace at both ends; it is empty iff the text is blank |
| JsString.ToUpperIdempotent | src/app/page.tsx:195 | upper-casing a symbol twice changes nothing more |
| JsString.IndexOfFromFirst | src/app/page.tsx:335 | `indexOf` returns the first occurrence |
| JsString.IncludesIffOccurs | src/app/page.tsx:230-231 | `includes` holds iff the text occurs at some position |
| JsArray.Dedupe | src/components/FilterControls.tsx:30-37 | `[...new Set(xs)]` is duplicate-free, has the same members, and keeps the order of first occurrence |
| JsArray.FilterCount | src/components/FilterControls.tsx:59-71 | `filter` keeps each kept value as many times as it occurs, and drops each other value entirely |
| Market.FindBySymbol | src/app/page.tsx:198 | `find` returns the first record with that symbol, and none iff no record has it |
| SymbolMapper.TableShape | src/lib/api-services.ts:11-19 | the table's keys are distinct, its values are distinct, and no value is also a key |
| SymbolMapper.Convert | src/lib/api-services.ts:28-30 | a table key becomes its value, any other symbol is sent unchanged |
| SymbolMapper.Original | src/lib/api-services.ts:103 | a provider symbol that is a table value is relabelled with its key, any other keeps its name |
| SymbolMapper.LookupDistinct | src/lib/api-services.ts:29 | with distinct keys, looking a key up finds its own value |
| SymbolMapper.KeyOfDistinct | src/lib/api-services.ts:103 | with distinct values, the first key with a given value is that value's own key |
| SymbolMapper.ConvertNeverKey | src/lib/api-services.ts:28-30 | what is sent to the provider is never a table key |
| SymbolMapper.ConvertOriginal | src/lib/api-services.ts:103-108 | converting the relabelled symbol gives back the provider symbol, so relabelling is injective on what is sent |
| SymbolMapper.RoundTrip | src/lib/api-services.ts:89-105 | a request comes back under its own symbol iff that symbol is not a provider symbol of the table; otherwise it comes back under a table key |
| SymbolMapper.Relabellings | src/lib/api-services.ts:103-110 | concretely, `SPY`, `DIA`, `QQQ`, `ES`, `YM` and `NQ` come back as `^GSPC`, `^DJI`, `^IXIC`, `ES=F`, `YM=F` and `NQ=F` |
| QuoteCache.ConvertAll | src/lib/api-services.ts:89 | each missed symbol is converted, position by position |
| QuoteCache.FallbackRecord | src/lib/api-services.ts:130-148 | the fallback record carries the requested symbol: it is the first market fixture of that symbol, else the first stock fixture, else the placeholder with open 100, close 102, high 103, low 99, volume 1000000 and the current date |
| QuoteCache.Fallback | src/lib/api-services.ts:174-191 | the fallback list has one record per requested symbol, in order, each the fallback record of its symbol |
| QuoteCache.HitsAndMisses | src/lib/api-services.ts:73-81 | every symbol is either a fresh cache hit or scheduled for fetching, and a symbol is fetched iff it is not a fresh hit |
| QuoteCache.AllHitsInOrder | src/lib/api-services.ts:83-86 | when nothing misses, the cached records of all symbols come back in request order |
| QuoteCache.ProvidersOfMisses | src/lib/api-services.ts:88-89 | no symbol sent to the provider is a table key |
| QuoteCache.FetchedCount | src/lib/api-services.ts:95-122 | every request yields a record iff every request succeeded, and none does iff none succeeded |
| QuoteCache.CacheWrittenOnlyOnSuccess | src/lib/api-services.ts:101-113 | a changed cache entry belongs to a successful request's relabelled symbol and holds its record stamped now; with no success the cache is unchanged |
| QuoteCache.SuccessesCached | src/lib/api-services.ts:101-113 | every success is cached under its relabelled symbol, stamped now, and no later write overrides it |
| QuoteCache.EndOfDayLength | src/lib/api-services.ts:61-152 | at most one record per symbol; with the key configured, fewer records exactly when some request failed and something was obtained |
| QuoteCache.EndOfDayShape | src/lib/api-services.ts:61-191 | the fixture list comes back exactly when the key is missing or nothing was obtained, and then the cache is untouched; otherwise the result is the hits in request order, then the successes in request order |
| QuoteCache.QuoteService.GetEndOfDayData | src/lib/api-services.ts:61-193 | the two loops compute the results and the new cache of `EndOfDay` from the old cache |
| QuoteCache.QuoteService.GetStockData | src/lib/api-services.ts:33-37 | returns the first record of the one-symbol batch and leaves that batch's cache |
| QuoteCache.OneSymbolBatch | src/lib/api-services.ts:33-36 | a one-symbol batch always holds exactly one record, so `getStockData` never returns null |
| QuoteCache.QuoteService.constructor | src/lib/api-services.ts:24 | the cache starts empty |
| NewsMapping.ImageOf | src/lib/api-services.ts:257 | an image is kept iff it is present, non-empty and not the string `null` |
| NewsMapping.FromFeedItem | src/lib/api-services.ts:249-258 | each field is the item's value when truthy, else its default (`No Title`, `No Description`, empty url, `Alpha Vantage`, now); the sentiment is `overall_sentiment_label` when truthy, else null; the image is `banner_image` under the `ImageOf` rule; no category |
| NewsMapping.FromFeedReply | src/lib/api-services.ts:240-263 | with a feed array, its first ten items are mapped in order; without one, no news |
| NewsMapping.FeedTailIgnored | src/lib/api-services.ts:243 | items after the tenth never affect the news |
| NewsMapping.SourceName | src/lib/api-services.ts:308-313 | the source is the object's truthy name, else a string source as it is, else `Unknown` |
| NewsMapping.FromArticle | src/lib/api-services.ts:315-322 | each field is the article's value when truthy, else its default (`No Title`, `No Description` from `description`, empty url, now); the source is `SourceName`; the image is `urlToImage` under the `ImageOf` rule; no sentiment and no category |
| NewsMapping.FromArticlesReply | src/lib/api-services.ts:299-327 | with an articles array, every article is mapped in order; without one, no news |
| FilterControls.Safe | src/components/FilterControls.tsx:25-27 | a value that is not an array is read as the empty list |
| FilterControls.AvailableSymbols | src/components/FilterControls.tsx:30-33 | the symbol buttons are the market and stock symbols, each once, in order of first appearance |
| FilterControls.AvailableSources | src/components/FilterControls.tsx:35-37 | the source buttons are the news sources, each once, in order of first appearance |
| FilterControls.Toggle | src/components/FilterControls.tsx:39-53 | a selected value is removed everywhere while every other value keeps its multiplicity; an unselected one is appended at the end |
| FilterControls.ToggleRemoveInOrder | src/components/FilterControls.tsx:41 | removing a selected value keeps the remaining entries in their order |
| FilterControls.ToggleTwice | src/components/FilterControls.tsx:39-45 | selecting then deselecting restores the selection |
| FilterControls.ToggleKeepsNoDup | src/components/FilterControls.tsx:47-53 | toggling keeps a selection free of duplicates |
| FilterControls.FilterKeepsNoDup | src/components/FilterControls.tsx:41 | filtering keeps a list free of duplicates |
| FilterControls.BySymbols | src/components/FilterControls.tsx:59-65 | with no selection everything passes; otherwise exactly the records whose symbol is selected, with their multiplicities |
| FilterControls.BySources | src/components/FilterControls.tsx:67-71 | no news when news is excluded; all of it with no source selected; otherwise exactly the items from selected sources |
| FilterControls.BySymbolsAppend | src/components/FilterControls.tsx:59-65 | the symbol filter works piecewise, so it keeps the order |
| FilterControls.Panel.constructor | src/components/FilterControls.tsx:18-22 | nothing selected, range `1d`, news included, not filtering |
| FilterControls.Panel.SelectSymbol | src/components/FilterControls.tsx:39-45 | the symbol selection becomes its toggle |
| FilterControls.Panel.SelectNewsSource | src/components/FilterControls.tsx:47-53 | the source selection becomes its toggle |
| FilterControls.Panel.SelectTimeRange | src/components/FilterControls.tsx:117 | the range becomes the chosen one |
| FilterControls.Panel.ToggleIncludeNews | src/components/FilterControls.tsx:136 | the news checkbox flips |
| FilterControls.Panel.ApplyFilters | src/components/FilterControls.tsx:55-82 | the filtered market, stock and news lists and the range are handed on, and the busy flag ends cleared |
| StockTicker.NextSpeed | src/components/StockTicker.tsx:95-99 | 1 goes to 2, 2 to 0.5, anything else to 1 |
| StockTicker.SpeedCycle | src/components/StockTicker.tsx:95-99 | from a valid speed the button stays among 0.5, 1 and 2, never stands still, and returns after three presses |
| StockTicker.SpeedLabel | src/components/StockTicker.tsx:119 | `Slow` iff 0.5, `Normal` iff 1, `Fast` otherwise |
| StockTicker.Controls.constructor | src/components/StockTicker.tsx:11-12 | running at normal speed |
| StockTicker.Controls.TogglePause | src/components/StockTicker.tsx:107 | the pause flag flips |
| StockTicker.Controls.ChangeSpeed | src/components/StockTicker.tsx:95-99 | the speed steps through its cycle and stays valid |
| StockTicker.StepPos | src/components/StockTicker.tsx:42-52 | paused nothing moves; otherwise the track moves left by the speed and jumps back to 0 on reaching minus the half-width |
| StockTicker.StepStaysInWindow | src/components/StockTicker.tsx:43-49 | with positive speed and width, one step keeps the position in (−width, 0] |
| StockTicker.StepsStayInWindow | src/components/StockTicker.tsx:40-56 | any number of frames from 0 stays in the window, and paused frames stay at 0 |
| StockTicker.Animation.Animate | src/components/StockTicker.tsx:42-52 | one frame applies `StepPos` and keeps the window |
| StockTicker.Animation.constructor | src/components/StockTicker.tsx:40 | each run of the effect starts at position 0 |
| StockTicker.DirectionOf | src/components/StockTicker.tsx:66 | rise iff close > open, fall iff close < open, flat iff equal |
| StockTicker.BadgeOf | src/components/StockTicker.tsx:81-84 | ▲, `+` and green iff the quote rose; ▼ and red iff it fell; ■ and grey iff flat |
| StockTicker.Entries | src/components/StockTicker.tsx:22-25 | one entry per quote, in order |
| StockTicker.Track.Build | src/components/StockTicker.tsx:14-34 | with no quotes the track is left as it was; otherwise it holds the entries twice, both halves equal |
| Trend.Classify | src/components/PredictionDetail.tsx:12-20 | bullish iff up beats both others strictly, bearish iff down does, undecided otherwise |
| Trend.TieForMaximumIsUndecided | src/components/PredictionDetail.tsx:13-18 | a tie for the largest value gives the neutral colour |
| Trend.NeutralLeadIsUndecided | src/components/PredictionDetail.tsx:17-18 | a neutral lead gives the neutral colour |
| Indicators.VisibleSections | src/components/PredictionDetail.tsx:100-101 | every section shown holds the non-empty items of one of the kinds asked for |
| Indicators.VisibleIffNonEmpty | src/components/PredictionDetail.tsx:100-101 | a kind's section is shown iff its list is non-empty |
| Indicators.VisibleSectionsInRankOrder | src/components/PredictionDetail.tsx:170-179 | sections appear in the fixed indicator order |
| PredictionDetail.BgColor | src/components/PredictionDetail.tsx:12-20 | green iff up dominates, red iff down dominates, blue otherwise |
| PredictionDetail.Badges | src/components/PredictionDetail.tsx:158-166 | each badge is bright (`-500`) iff its percentage exceeds 50, dark (`-800`) otherwise |
| PredictionDetail.EveryKindOnCard | src/components/PredictionDetail.tsx:170-179 | the card offers a section for every indicator kind |
| PredictionDetail.Render | src/components/PredictionDetail.tsx:153-190 | colour, badges and market structure as above; a section per non-empty list holding exactly that list, in the fixed order |
| StockAnalysis.BgGradient | src/components/StockAnalysis.tsx:25-32 | green iff up dominates, red iff down dominates, blue otherwise |
| StockAnalysis.Badges | src/components/StockAnalysis.tsx:116-123 | each badge is bright (`-600`) iff its percentage exceeds 50, dark (`-800`) otherwise |
| StockAnalysis.TargetsOf | src/components/StockAnalysis.tsx:265-278 | short, medium and long term targets, in that order |
| StockAnalysis.Render | src/components/StockAnalysis.tsx:111-305 | Fibonacci and fractal lists always shown; each optional indicator iff non-empty, in order; targets iff present; summary iff non-empty |
| MarketSummary.Split | src/components/MarketSummary.tsx:23 | `split('\n')` gives at least one piece and no piece holds a line feed |
| MarketSummary.JoinSplit | src/components/MarketSummary.tsx:23 | joining the pieces with line feeds restores the text |
| MarketSummary.SplitJoin | src/components/MarketSummary.tsx:23 | splitting a join of line-free pieces gives the pieces back |
| MarketSummary.FirstLineFeedAt | src/components/MarketSummary.tsx:23 | the first piece is the text up to the first line feed; the rest is split on its own |
| MarketSummary.SplitConcat | src/components/MarketSummary.tsx:23 | splitting around a line feed is splitting each side |
| MarketSummary.Paragraphs | src/components/MarketSummary.tsx:23 | the paragraphs are exactly the non-blank lines |
| MarketSummary.ParagraphsConcat | src/components/MarketSummary.tsx:23 | paragraphs of two texts joined by a line feed are the paragraphs of each, in order |
| MarketSummary.SingleLine | src/components/MarketSummary.tsx:23 | a non-blank line is one paragraph |
| MarketSummary.BlankText | src/components/MarketSummary.tsx:23 | a blank text has no paragraph |
| MarketSummary.PieceOfBlankIsBlank | src/components/MarketSummary.tsx:23 | each line of a blank text is blank |
| StockSearch.Submitted | src/components/StockSearch.tsx:12-17 | a search is submitted iff the input is not blank, and it is the trimmed input upper-cased, with no whitespace at either end |
| StockSearch.SubmitDisabled | src/components/StockSearch.tsx:35 | the button is disabled iff a search runs or the input is blank |
| StockSearch.SearchBox.constructor | src/components/StockSearch.tsx:10 | the input starts empty |
| StockSearch.SearchBox.OnChange | src/components/StockSearch.tsx:29 | the input holds what was typed |
| StockSearch.SearchBox.HandleSubmit | src/components/StockSearch.tsx:12-17 | submits the normalised symbol iff the input is not blank |

## Left out

- Network calls (`axios.get`, `axios.post`) are parameters: the reply, or `None` for a throw. Retries, status codes and the error-logging branches are not modelled.
- `JSON.parse` is a parameter. The model does not capture JSON syntax. It also does not capture a parse result that is not an object: a `predictions` key holding `null` or a non-object is outside the reply type.
- JavaScript objects are modelled without prototype keys: `'predictions' in data` sees only own data keys.
- `toUpperCase` maps only the ASCII letters. Unicode case mapping is not modelled.
- The `isAnalyzing` / `isSearchingStock` flags are modelled as set and cleared within one call. Their intermediate value, seen while a request is pending, and interleaved concurrent calls are not modelled.
- `setTimeout` scrolling, `requestAnimationFrame` scheduling, the DOM and all styling are not modelled, apart from the class names listed above. The same goes for the `toFixed` and percentage text of the ticker, icons and SVG.
- StockTicker.Animation.Animate: the laid-out width `scrollWidth / 2` is a parameter.
- QuoteCache.QuoteService.GetEndOfDayData: each provider reply is a deterministic function of the provider symbol (`fetch`), and `Date.now()` is one instant for the whole batch.
- The mock fixtures of `@/mocks/testData` are parameters.
- The record that the provider returns is relabelled but otherwise taken as is. A first element that is not an object, which makes the inner `catch` fire, counts as a failed request.
- QuoteCache.QuoteService.GetStockData: its `catch` branch is not modelled. `getEndOfDayData` catches every error itself, so that branch cannot be reached.
- `getPopularStocks`, `getMarketIndices` and the other service wrappers only forward to `getEndOfDayData` and are not part of this model. The same holds for the page's loading effect, `ApiTester`, `NewsSection`, `MarketData`, `WebhookButton` and `webhook-service.ts`.
- NewsMapping.FromFeedReply and NewsMapping.FromArticlesReply: they model only a reply that arrived as an object. Every case in which the service throws lies outside the model: a missing API key, a failed request, a reply whose `data` is null or undefined (the logging call `Object.keys(response.data)` at src/lib/api-services.ts:237 and :297 throws before the array guard), and a feed item or article that is `null` (the mapper throws on it). The service rethrows all of these. `FeedReply(None)` and `ArticlesReply(None)` stand only for an object reply without the array, which gives no news.
- Prices and percentages are reals. Not-a-number and floating-point rounding are not modelled.
- Dashboard.Page.SendToAiAnalysis: the log lines and the `apiError` state are not modelled.
