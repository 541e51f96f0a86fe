/**
 * The end-of-day quote service of src/lib/api-services.ts: a per-symbol
 * cache with a fifteen-minute lifetime, one provider request per missing
 * symbol (converted through the symbol table), tolerance of partial
 * failure, and a fixture-or-placeholder fallback when nothing was obtained.
 */
module QuoteCache {
  import opened Wrappers
  import opened Market
  import opened SymbolMapper

  /** `CACHE_TTL`: fifteen minutes in milliseconds. */
  const CacheTtl: int := 15 * 60 * 1000

  /** One cache slot: the record and the time (ms) it was stored. */
  datatype CacheEntry = CacheEntry(data: MarketDataItem, timestamp: int)

  type Cache = map<string, CacheEntry>

  /** What one provider request for one (converted) symbol came back with:
      a first record, a reply without records, or a failed request. */
  datatype FetchOutcome = Record(item: MarketDataItem) | NoData | Failed

  /** A cached record is used iff it is younger than the lifetime, strictly. */
  predicate IsHit(cache: Cache, symbol: string, now: int) {
    symbol in cache && now - cache[symbol].timestamp < CacheTtl
  }

  /** The cached records of the symbols that hit, in request order. */
  function Hits(cache: Cache, symbols: seq<string>, now: int): (r: seq<MarketDataItem>)
    ensures |r| <= |symbols|
  {
    if symbols == [] then []
    else
      var last := symbols[|symbols| - 1];
      Hits(cache, symbols[..|symbols| - 1], now) + (if IsHit(cache, last, now) then [cache[last].data] else [])
  }

  /** The symbols that miss, in request order. */
  function Misses(cache: Cache, symbols: seq<string>, now: int): (r: seq<string>)
    ensures |r| <= |symbols|
  {
    if symbols == [] then []
    else
      var last := symbols[|symbols| - 1];
      Misses(cache, symbols[..|symbols| - 1], now) + (if IsHit(cache, last, now) then [] else [last])
  }

  /** `symbolsToFetch.map(convertSymbol)`. */
  function ConvertAll(symbols: seq<string>): (r: seq<string>)
    ensures |r| == |symbols|
    ensures forall i :: 0 <= i < |symbols| ==> r[i] == Convert(symbols[i])
  {
    seq(|symbols|, i requires 0 <= i < |symbols| => Convert(symbols[i]))
  }

  /** A provider record relabelled with the original symbol. */
  function Relabel(item: MarketDataItem, provider: string): MarketDataItem {
    item.(symbol := Original(provider))
  }

  /** The relabelled records of the successful requests, in request order. */
  function Fetched(providers: seq<string>, fetch: string -> FetchOutcome): (r: seq<MarketDataItem>)
    ensures |r| <= |providers|
  {
    if providers == [] then []
    else
      var last := providers[|providers| - 1];
      Fetched(providers[..|providers| - 1], fetch) +
        match fetch(last)
        case Record(item) => [Relabel(item, last)]
        case _ => []
  }

  /** The cache after the requests: every success stores its relabelled
      record under the original symbol, stamped `now`. */
  function CacheAfter(cache: Cache, providers: seq<string>, fetch: string -> FetchOutcome, now: int): Cache {
    if providers == [] then cache
    else
      var last := providers[|providers| - 1];
      var c := CacheAfter(cache, providers[..|providers| - 1], fetch, now);
      match fetch(last)
      case Record(item) => c[Original(last) := CacheEntry(Relabel(item, last), now)]
      case _ => c
  }

  /** One more symbol: a hit adds its cached record, a miss nothing. */
  lemma HitsSnoc(cache: Cache, init: seq<string>, s: string, now: int)
    ensures Hits(cache, init + [s], now) == Hits(cache, init, now) + (if IsHit(cache, s, now) then [cache[s].data] else [])
    ensures Misses(cache, init + [s], now) == Misses(cache, init, now) + (if IsHit(cache, s, now) then [] else [s])
  {
    assert (init + [s])[..|init|] == init;
  }

  /** One more request: a success adds its relabelled record, a failure nothing. */
  lemma FetchedSnoc(init: seq<string>, p: string, fetch: string -> FetchOutcome)
    ensures Fetched(init + [p], fetch) == Fetched(init, fetch) + (if fetch(p).Record? then [Relabel(fetch(p).item, p)] else [])
  {
    assert (init + [p])[..|init|] == init;
  }

  /** One more request: a success writes its record under its original
      symbol, a failure leaves the cache. */
  lemma CacheAfterSnoc(cache: Cache, init: seq<string>, p: string, fetch: string -> FetchOutcome, now: int)
    ensures CacheAfter(cache, init + [p], fetch, now) ==
      if fetch(p).Record? then CacheAfter(cache, init, fetch, now)[Original(p) := CacheEntry(Relabel(fetch(p).item, p), now)]
      else CacheAfter(cache, init, fetch, now)
  {
    assert (init + [p])[..|init|] == init;
  }

  /** The record made up for a symbol found in neither fixture list. */
  function Placeholder(symbol: string, nowIso: string): MarketDataItem {
    MarketDataItem(symbol, 100.0, 102.0, 103.0, 99.0, 1000000.0, nowIso)
  }

  /** The fallback record of one symbol: the market fixture, else the stock
      fixture, else the placeholder. */
  function FallbackRecord(symbol: string, mockMarket: seq<MarketDataItem>, mockStocks: seq<MarketDataItem>, nowIso: string): (r: MarketDataItem)
    ensures r.symbol == symbol
    ensures FindBySymbol(mockMarket, symbol).Some? ==> r == FindBySymbol(mockMarket, symbol).value
    ensures FindBySymbol(mockMarket, symbol).None? && FindBySymbol(mockStocks, symbol).Some? ==>
      r == FindBySymbol(mockStocks, symbol).value
    ensures (forall i :: 0 <= i < |mockMarket| ==> mockMarket[i].symbol != symbol) &&
            (forall i :: 0 <= i < |mockStocks| ==> mockStocks[i].symbol != symbol) ==>
      r == MarketDataItem(symbol, 100.0, 102.0, 103.0, 99.0, 1000000.0, nowIso)
  {
    match FindBySymbol(mockMarket, symbol)
    case Some(m) => m
    case None =>
      match FindBySymbol(mockStocks, symbol)
      case Some(m) => m
      case None => Placeholder(symbol, nowIso)
  }

  /** One fallback record per requested symbol, in order. */
  function Fallback(symbols: seq<string>, mockMarket: seq<MarketDataItem>, mockStocks: seq<MarketDataItem>, nowIso: string): (r: seq<MarketDataItem>)
    ensures |r| == |symbols|
    ensures forall i :: 0 <= i < |symbols| ==> r[i].symbol == symbols[i]
    ensures forall i :: 0 <= i < |symbols| ==> r[i] == FallbackRecord(symbols[i], mockMarket, mockStocks, nowIso)
  {
    seq(|symbols|, i requires 0 <= i < |symbols| => FallbackRecord(symbols[i], mockMarket, mockStocks, nowIso))
  }

  /** What `getEndOfDayData` returns, and the cache it leaves. */
  datatype Batch = Batch(results: seq<MarketDataItem>, cache: Cache)

  /** The whole of `getEndOfDayData`: without an API key the fallback; all
      hits are returned as they are; otherwise hits then successful fetches,
      or the fallback when that is empty. */
  function EndOfDay(
    cache: Cache, symbols: seq<string>, apiKeyConfigured: bool, fetch: string -> FetchOutcome,
    mockMarket: seq<MarketDataItem>, mockStocks: seq<MarketDataItem>, now: int, nowIso: string): Batch
  {
    if !apiKeyConfigured then Batch(Fallback(symbols, mockMarket, mockStocks, nowIso), cache)
    else
      var hits := Hits(cache, symbols, now);
      var misses := Misses(cache, symbols, now);
      if misses == [] then Batch(hits, cache)
      else
        var providers := ConvertAll(misses);
        var results := hits + Fetched(providers, fetch);
        var cache' := CacheAfter(cache, providers, fetch, now);
        if results == [] then Batch(Fallback(symbols, mockMarket, mockStocks, nowIso), cache')
        else Batch(results, cache')
  }

  /** `marketStackService`: its cache is the one piece of state. */
  class QuoteService {
    var dataCache: Cache

    constructor()
      ensures dataCache == map[]
    {
      dataCache := map[];
    }

    /** `getEndOfDayData(symbols)`, with the provider, the key's presence,
        the fixtures and the clock as parameters. */
    method GetEndOfDayData(
      symbols: seq<string>, apiKeyConfigured: bool, fetch: string -> FetchOutcome,
      mockMarket: seq<MarketDataItem>, mockStocks: seq<MarketDataItem>, now: int, nowIso: string)
      returns (results: seq<MarketDataItem>)
      modifies this`dataCache
      ensures results == EndOfDay(old(dataCache), symbols, apiKeyConfigured, fetch, mockMarket, mockStocks, now, nowIso).results
      ensures dataCache == EndOfDay(old(dataCache), symbols, apiKeyConfigured, fetch, mockMarket, mockStocks, now, nowIso).cache
    {
      if !apiKeyConfigured {
        return Fallback(symbols, mockMarket, mockStocks, nowIso);
      }
      var hits, symbolsToFetch := CheckCache(symbols, now);
      if |symbolsToFetch| == 0 {
        return hits;
      }
      var convertedSymbols := ConvertAll(symbolsToFetch);
      var fetched := FetchEach(convertedSymbols, fetch, now);
      results := hits + fetched;
      if |results| == 0 {
        results := Fallback(symbols, mockMarket, mockStocks, nowIso);
      }
    }

    /** The cache pass of `getEndOfDayData`: the records of the fresh hits
        and the symbols still to fetch, both in request order. */
    method CheckCache(symbols: seq<string>, now: int) returns (hits: seq<MarketDataItem>, symbolsToFetch: seq<string>)
      ensures hits == Hits(dataCache, symbols, now)
      ensures symbolsToFetch == Misses(dataCache, symbols, now)
    {
      hits := [];
      symbolsToFetch := [];
      for i := 0 to |symbols|
        invariant hits == Hits(dataCache, symbols[..i], now)
        invariant symbolsToFetch == Misses(dataCache, symbols[..i], now)
      {
        assert symbols[..i + 1] == symbols[..i] + [symbols[i]];
        HitsSnoc(dataCache, symbols[..i], symbols[i], now);
        var symbol := symbols[i];
        if symbol in dataCache && now - dataCache[symbol].timestamp < CacheTtl {
          hits := hits + [dataCache[symbol].data];
        } else {
          symbolsToFetch := symbolsToFetch + [symbol];
        }
      }
      assert symbols[..|symbols|] == symbols;
    }

    /** The fetch pass of `getEndOfDayData`: one request per provider
        symbol; a success is relabelled, cached and collected. */
    method FetchEach(convertedSymbols: seq<string>, fetch: string -> FetchOutcome, now: int) returns (fetched: seq<MarketDataItem>)
      modifies this`dataCache
      ensures fetched == Fetched(convertedSymbols, fetch)
      ensures dataCache == CacheAfter(old(dataCache), convertedSymbols, fetch, now)
    {
      fetched := [];
      for i := 0 to |convertedSymbols|
        invariant fetched == Fetched(convertedSymbols[..i], fetch)
        invariant dataCache == CacheAfter(old(dataCache), convertedSymbols[..i], fetch, now)
      {
        assert convertedSymbols[..i + 1] == convertedSymbols[..i] + [convertedSymbols[i]];
        FetchedSnoc(convertedSymbols[..i], convertedSymbols[i], fetch);
        CacheAfterSnoc(old(dataCache), convertedSymbols[..i], convertedSymbols[i], fetch, now);
        var symbol := convertedSymbols[i];
        match fetch(symbol)
        case Record(item) =>
          var originalSymbol := Original(symbol);
          var data := item.(symbol := originalSymbol);
          dataCache := dataCache[originalSymbol := CacheEntry(data, now)];
          fetched := fetched + [data];
        case _ =>
      }
      assert convertedSymbols[..|convertedSymbols|] == convertedSymbols;
    }

    /** `getStockData(symbol)`: the first record of the one-symbol batch, or
        none when that batch is empty. */
    method GetStockData(
      symbol: string, apiKeyConfigured: bool, fetch: string -> FetchOutcome,
      mockMarket: seq<MarketDataItem>, mockStocks: seq<MarketDataItem>, now: int, nowIso: string)
      returns (r: Option<MarketDataItem>)
      modifies this`dataCache
      ensures r == StockData(old(dataCache), symbol, apiKeyConfigured, fetch, mockMarket, mockStocks, now, nowIso)
      ensures dataCache == EndOfDay(old(dataCache), [symbol], apiKeyConfigured, fetch, mockMarket, mockStocks, now, nowIso).cache
    {
      var data := GetEndOfDayData([symbol], apiKeyConfigured, fetch, mockMarket, mockStocks, now, nowIso);
      r := if |data| > 0 then Some(data[0]) else None;
    }
  }

  /** The value `getStockData` resolves to. */
  function StockData(
    cache: Cache, symbol: string, apiKeyConfigured: bool, fetch: string -> FetchOutcome,
    mockMarket: seq<MarketDataItem>, mockStocks: seq<MarketDataItem>, now: int, nowIso: string): Option<MarketDataItem>
  {
    var data := EndOfDay(cache, [symbol], apiKeyConfigured, fetch, mockMarket, mockStocks, now, nowIso).results;
    if |data| > 0 then Some(data[0]) else None
  }

  /** Every symbol either hits or is fetched, never both: the misses are
      exactly the requested symbols that do not hit, in request order, and
      there is one cached record per hit. */
  lemma {:induction false} HitsAndMisses(cache: Cache, symbols: seq<string>, now: int)
    ensures |Hits(cache, symbols, now)| + |Misses(cache, symbols, now)| == |symbols|
    ensures forall s :: s in Misses(cache, symbols, now) <==> s in symbols && !IsHit(cache, s, now)
  {
    if symbols != [] {
      var init := symbols[..|symbols| - 1];
      HitsAndMisses(cache, init, now);
      assert symbols == init + [symbols[|symbols| - 1]];
    }
  }

  /** When every symbol hits, the result is the cached records, one per
      requested symbol, in request order. */
  lemma {:induction false} AllHitsInOrder(cache: Cache, symbols: seq<string>, now: int)
    requires Misses(cache, symbols, now) == []
    ensures |Hits(cache, symbols, now)| == |symbols|
    ensures forall i :: 0 <= i < |symbols| ==> IsHit(cache, symbols[i], now) && Hits(cache, symbols, now)[i] == cache[symbols[i]].data
  {
    if symbols != [] {
      var init := symbols[..|symbols| - 1];
      AllHitsInOrder(cache, init, now);
    }
  }

  /** The requests made: one per miss, each for the miss's converted symbol,
      and none of them a table key. */
  lemma ProvidersOfMisses(misses: seq<string>)
    ensures |ConvertAll(misses)| == |misses|
    ensures forall p :: p in ConvertAll(misses) ==> !IsKey(p)
  {
    forall p | p in ConvertAll(misses) ensures !IsKey(p) {
      var i :| 0 <= i < |misses| && ConvertAll(misses)[i] == p;
      ConvertNeverKey(misses[i]);
    }
  }

  /** A request that succeeded. */
  predicate Succeeded(fetch: string -> FetchOutcome, provider: string) {
    fetch(provider).Record?
  }

  /** Each success contributes one record and each failure none, so a
      single failure makes the list shorter than the requests. */
  lemma {:induction false} FetchedCount(providers: seq<string>, fetch: string -> FetchOutcome)
    ensures |Fetched(providers, fetch)| == |providers| <==> forall i :: 0 <= i < |providers| ==> Succeeded(fetch, providers[i])
    ensures Fetched(providers, fetch) == [] <==> forall i :: 0 <= i < |providers| ==> !Succeeded(fetch, providers[i])
  {
    if providers != [] {
      var init, last := providers[..|providers| - 1], providers[|providers| - 1];
      assert providers == init + [last];
      FetchedCount(init, fetch);
      FetchedSnoc(init, last, fetch);
      assert forall i :: 0 <= i < |init| ==> providers[i] == init[i];
      assert (forall i :: 0 <= i < |providers| ==> Succeeded(fetch, providers[i])) <==>
        (forall i :: 0 <= i < |init| ==> Succeeded(fetch, init[i])) && Succeeded(fetch, last);
      assert (forall i :: 0 <= i < |providers| ==> !Succeeded(fetch, providers[i])) <==>
        (forall i :: 0 <= i < |init| ==> !Succeeded(fetch, init[i])) && !Succeeded(fetch, last);
    }
  }

  /** The cache is written only by successes: a key whose entry changed is
      the original symbol of a successful request and holds its relabelled
      record stamped `now`; without any success the cache is unchanged. */
  lemma {:induction false} CacheWrittenOnlyOnSuccess(cache: Cache, providers: seq<string>, fetch: string -> FetchOutcome, now: int)
    ensures forall k :: k in CacheAfter(cache, providers, fetch, now) ==>
      (k in cache && CacheAfter(cache, providers, fetch, now)[k] == cache[k]) ||
      (exists i :: 0 <= i < |providers| && Succeeded(fetch, providers[i]) && k == Original(providers[i]) &&
         CacheAfter(cache, providers, fetch, now)[k] == CacheEntry(Relabel(fetch(providers[i]).item, providers[i]), now))
    ensures (forall i :: 0 <= i < |providers| ==> !Succeeded(fetch, providers[i])) ==> CacheAfter(cache, providers, fetch, now) == cache
  {
    if providers != [] {
      var init := providers[..|providers| - 1];
      CacheWrittenOnlyOnSuccess(cache, init, fetch, now);
      assert forall i :: 0 <= i < |init| ==> providers[i] == init[i];
    }
  }

  /** Every success is in the cache afterwards, under its original symbol,
      as its relabelled record stamped `now` (two distinct provider symbols
      never share an original symbol, so no later write overrides it). */
  lemma {:induction false} SuccessesCached(cache: Cache, providers: seq<string>, fetch: string -> FetchOutcome, now: int)
    requires forall p :: p in providers ==> !IsKey(p)
    ensures forall i :: 0 <= i < |providers| && Succeeded(fetch, providers[i]) ==>
      Original(providers[i]) in CacheAfter(cache, providers, fetch, now) &&
      CacheAfter(cache, providers, fetch, now)[Original(providers[i])] == CacheEntry(Relabel(fetch(providers[i]).item, providers[i]), now)
  {
    if providers != [] {
      var n := |providers| - 1;
      var init, last := providers[..n], providers[n];
      assert providers == init + [last];
      SuccessesCached(cache, init, fetch, now);
      CacheAfterSnoc(cache, init, last, fetch, now);
      forall i | 0 <= i < |providers| && Succeeded(fetch, providers[i])
        ensures Original(providers[i]) in CacheAfter(cache, providers, fetch, now) &&
          CacheAfter(cache, providers, fetch, now)[Original(providers[i])] == CacheEntry(Relabel(fetch(providers[i]).item, providers[i]), now)
      {
        if i < n && Succeeded(fetch, last) {
          assert providers[i] == init[i];
          ConvertOriginal(providers[i]);
          ConvertOriginal(last);
        } else if i < n {
          assert providers[i] == init[i];
        }
      }
    }
  }

  /** `getEndOfDayData` never returns more records than symbols requested;
      with the key configured, it returns fewer exactly when a request
      failed and something else was obtained. */
  lemma EndOfDayLength(
    cache: Cache, symbols: seq<string>, apiKeyConfigured: bool, fetch: string -> FetchOutcome,
    mockMarket: seq<MarketDataItem>, mockStocks: seq<MarketDataItem>, now: int, nowIso: string)
    ensures |EndOfDay(cache, symbols, apiKeyConfigured, fetch, mockMarket, mockStocks, now, nowIso).results| <= |symbols|
    ensures (apiKeyConfigured && Misses(cache, symbols, now) != [] &&
             Hits(cache, symbols, now) + Fetched(ConvertAll(Misses(cache, symbols, now)), fetch) != []) ==>
      (|EndOfDay(cache, symbols, apiKeyConfigured, fetch, mockMarket, mockStocks, now, nowIso).results| < |symbols| <==>
       exists i :: 0 <= i < |Misses(cache, symbols, now)| && !Succeeded(fetch, ConvertAll(Misses(cache, symbols, now))[i]))
  {
    HitsAndMisses(cache, symbols, now);
    var misses := Misses(cache, symbols, now);
    FetchedCount(ConvertAll(misses), fetch);
  }

  /** Which list comes back: the fallback exactly when the key is missing or
      nothing was obtained (no hit and no success); otherwise the hits in
      request order followed by the successes in miss order. */
  lemma EndOfDayShape(
    cache: Cache, symbols: seq<string>, apiKeyConfigured: bool, fetch: string -> FetchOutcome,
    mockMarket: seq<MarketDataItem>, mockStocks: seq<MarketDataItem>, now: int, nowIso: string)
    ensures var providers := ConvertAll(Misses(cache, symbols, now));
      var nothing := Misses(cache, symbols, now) != [] && Hits(cache, symbols, now) == [] &&
        forall i :: 0 <= i < |providers| ==> !Succeeded(fetch, providers[i]);
      var b := EndOfDay(cache, symbols, apiKeyConfigured, fetch, mockMarket, mockStocks, now, nowIso);
      (!apiKeyConfigured || nothing ==> b.results == Fallback(symbols, mockMarket, mockStocks, nowIso)) &&
      (apiKeyConfigured && !nothing ==> b.results == Hits(cache, symbols, now) + Fetched(providers, fetch)) &&
      (!apiKeyConfigured || nothing ==> b.cache == cache)
  {
    var misses := Misses(cache, symbols, now);
    var providers := ConvertAll(misses);
    FetchedCount(providers, fetch);
    CacheWrittenOnlyOnSuccess(cache, providers, fetch, now);
    if misses == [] {
      assert providers == [];
    }
  }

  /** A one-symbol batch always holds exactly one record (a hit, a success,
      or the fallback), so `getStockData` never resolves to null. */
  lemma OneSymbolBatch(
    cache: Cache, symbol: string, apiKeyConfigured: bool, fetch: string -> FetchOutcome,
    mockMarket: seq<MarketDataItem>, mockStocks: seq<MarketDataItem>, now: int, nowIso: string)
    ensures |EndOfDay(cache, [symbol], apiKeyConfigured, fetch, mockMarket, mockStocks, now, nowIso).results| == 1
    ensures StockData(cache, symbol, apiKeyConfigured, fetch, mockMarket, mockStocks, now, nowIso).Some?
  {
    HitsAndMisses(cache, [symbol], now);
    var misses := Misses(cache, [symbol], now);
    FetchedCount(ConvertAll(misses), fetch);
  }
}
