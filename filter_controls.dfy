/**
 * The filter panel (src/components/FilterControls.tsx): the symbols and
 * news sources on offer, the selection toggles, and the filtered data the
 * panel hands to the analysis.
 */
module FilterControls {
  import opened Wrappers
  import opened JsArray
  import opened Market

  /** `Array.isArray(xs) ? xs : []`, with `None` for a value that is not an array. */
  function Safe<T>(xs: Option<seq<T>>): (r: seq<T>)
    ensures xs.None? ==> r == []
    ensures xs.Some? ==> r == xs.value
  {
    xs.GetOr([])
  }

  function Symbols(items: seq<MarketDataItem>): (r: seq<string>)
    ensures |r| == |items|
    ensures forall i :: 0 <= i < |items| ==> r[i] == items[i].symbol
  {
    seq(|items|, i requires 0 <= i < |items| => items[i].symbol)
  }

  function Sources(news: seq<NewsItem>): (r: seq<string>)
    ensures |r| == |news|
    ensures forall i :: 0 <= i < |news| ==> r[i] == news[i].source
  {
    seq(|news|, i requires 0 <= i < |news| => news[i].source)
  }

  /** The symbol buttons: market symbols then stock symbols, each once, in
      the order first met. */
  function AvailableSymbols(market: seq<MarketDataItem>, stocks: seq<MarketDataItem>): (r: seq<string>)
    ensures NoDup(r)
    ensures forall s :: s in r <==> s in Symbols(market) + Symbols(stocks)
    ensures forall i, j :: 0 <= i < j < |r| ==>
      FirstIndex(Symbols(market) + Symbols(stocks), r[i]) < FirstIndex(Symbols(market) + Symbols(stocks), r[j])
  {
    Dedupe(Symbols(market) + Symbols(stocks))
  }

  /** The source buttons: each news source once, in the order first met. */
  function AvailableSources(news: seq<NewsItem>): (r: seq<string>)
    ensures NoDup(r)
    ensures forall s :: s in r <==> s in Sources(news)
    ensures forall i, j :: 0 <= i < j < |r| ==> FirstIndex(Sources(news), r[i]) < FirstIndex(Sources(news), r[j])
  {
    Dedupe(Sources(news))
  }

  /** A selection toggle: a selected value is removed wherever it occurs,
      another one is appended at the end. */
  function Toggle(selected: seq<string>, x: string): (r: seq<string>)
    ensures x in selected ==> x !in r && forall y :: y in r <==> y in selected && y != x
    ensures x in selected ==> forall y :: y != x ==> multiset(r)[y] == multiset(selected)[y]
    ensures x !in selected ==> r == selected + [x]
  {
    if x in selected then
      FilterCount(selected, (y: string) => y != x);
      Filter(selected, (y: string) => y != x)
    else selected + [x]
  }

  /** Removing a selected value keeps the order of the rest: the entries
      after a part holding it are filtered on their own and follow it. */
  lemma ToggleRemoveInOrder(a: seq<string>, b: seq<string>, x: string)
    requires x in a
    ensures Toggle(a + b, x) == Toggle(a, x) + Filter(b, (y: string) => y != x)
  {
    FilterAppend(a, b, (y: string) => y != x);
  }

  /** Selecting an unselected value and selecting it again restores the selection. */
  lemma ToggleTwice(selected: seq<string>, x: string)
    requires x !in selected
    ensures Toggle(Toggle(selected, x), x) == selected
  {
    var once := selected + [x];
    FilterAppend(selected, [x], (y: string) => y != x);
    FilterAllPass(selected, (y: string) => y != x);
    assert Filter([x], (y: string) => y != x) == [];
  }

  /** A duplicate-free selection stays duplicate-free. */
  lemma ToggleKeepsNoDup(selected: seq<string>, x: string)
    requires NoDup(selected)
    ensures NoDup(Toggle(selected, x))
  {
    if x in selected {
      FilterKeepsNoDup(selected, (y: string) => y != x);
    }
  }

  lemma {:induction false} FilterKeepsNoDup(s: seq<string>, p: string -> bool)
    requires NoDup(s)
    ensures NoDup(Filter(s, p))
  {
    if s != [] {
      FilterKeepsNoDup(s[1..], p);
      assert s[0] !in s[1..];
    }
  }

  /** The market or stock records kept for the selection: all of them when
      nothing is selected, else those whose symbol is selected, in order. */
  function BySymbols(items: seq<MarketDataItem>, selected: seq<string>): (r: seq<MarketDataItem>)
    ensures selected == [] ==> r == items
    ensures selected != [] ==> forall x :: x in r <==> x in items && x.symbol in selected
    ensures selected != [] ==> forall x :: multiset(r)[x] == if x.symbol in selected then multiset(items)[x] else 0
  {
    if |selected| > 0 then
      FilterCount(items, (item: MarketDataItem) => item.symbol in selected);
      Filter(items, (item: MarketDataItem) => item.symbol in selected)
    else items
  }

  /** The news kept: none when news is excluded, all of it when no source is
      selected, else the items from the selected sources, in order. */
  function BySources(news: seq<NewsItem>, includeNews: bool, sources: seq<string>): (r: seq<NewsItem>)
    ensures !includeNews ==> r == []
    ensures includeNews && sources == [] ==> r == news
    ensures includeNews && sources != [] ==> forall x :: x in r <==> x in news && x.source in sources
    ensures includeNews && sources != [] ==> forall x :: multiset(r)[x] == if x.source in sources then multiset(news)[x] else 0
  {
    if includeNews then
      if |sources| > 0 then
        FilterCount(news, (item: NewsItem) => item.source in sources);
        Filter(news, (item: NewsItem) => item.source in sources)
      else news
    else []
  }

  /** Filtering record lists piece by piece: the kept records keep their order. */
  lemma BySymbolsAppend(a: seq<MarketDataItem>, b: seq<MarketDataItem>, selected: seq<string>)
    ensures BySymbols(a + b, selected) == BySymbols(a, selected) + BySymbols(b, selected)
  {
    if selected != [] {
      FilterAppend(a, b, (item: MarketDataItem) => item.symbol in selected);
    }
  }

  /** What the panel hands to the analysis. */
  datatype FilteredData = FilteredData(
    marketData: seq<MarketDataItem>,
    stocksData: seq<MarketDataItem>,
    newsData: seq<NewsItem>,
    timeRange: string)

  /** The panel's state. */
  class Panel {
    var selectedSymbols: seq<string>
    var timeRange: string
    var includeNews: bool
    var newsSources: seq<string>
    var isFiltering: bool

    constructor()
      ensures selectedSymbols == [] && timeRange == "1d" && includeNews
      ensures newsSources == [] && !isFiltering
    {
      selectedSymbols := [];
      timeRange := "1d";
      includeNews := true;
      newsSources := [];
      isFiltering := false;
    }

    /** `handleSelectSymbol`. */
    method SelectSymbol(symbol: string)
      modifies this`selectedSymbols
      ensures selectedSymbols == Toggle(old(selectedSymbols), symbol)
    {
      selectedSymbols := Toggle(selectedSymbols, symbol);
    }

    /** `handleSelectNewsSource`. */
    method SelectNewsSource(source: string)
      modifies this`newsSources
      ensures newsSources == Toggle(old(newsSources), source)
    {
      newsSources := Toggle(newsSources, source);
    }

    /** A time-range button. */
    method SelectTimeRange(range: string)
      modifies this`timeRange
      ensures timeRange == range
    {
      timeRange := range;
    }

    /** The include-news checkbox. */
    method ToggleIncludeNews()
      modifies this`includeNews
      ensures includeNews == !old(includeNews)
    {
      includeNews := !includeNews;
    }

    /** `applyFilters`: the filtered lists and the time range; the busy flag
        is set and cleared again. */
    method ApplyFilters(
      marketData: Option<seq<MarketDataItem>>, stocksData: Option<seq<MarketDataItem>>, newsData: Option<seq<NewsItem>>)
      returns (out: FilteredData)
      modifies this`isFiltering
      ensures out.marketData == BySymbols(Safe(marketData), selectedSymbols)
      ensures out.stocksData == BySymbols(Safe(stocksData), selectedSymbols)
      ensures out.newsData == BySources(Safe(newsData), includeNews, newsSources)
      ensures out.timeRange == timeRange
      ensures !isFiltering
    {
      isFiltering := true;
      var filteredMarketData := BySymbols(Safe(marketData), selectedSymbols);
      var filteredStocksData := BySymbols(Safe(stocksData), selectedSymbols);
      var filteredNewsData := BySources(Safe(newsData), includeNews, newsSources);
      out := FilteredData(filteredMarketData, filteredStocksData, filteredNewsData, timeRange);
      isFiltering := false;
    }
  }
}
