/**
 * The quote provider's symbol table (src/lib/api-services.ts): index and
 * future tickers are sent to the provider as ETF or short symbols, and the
 * records that come back are relabelled with the first table key whose
 * value is the provider symbol.
 */
module SymbolMapper {
  import opened Wrappers

  /** `symbolMapping`, in its declaration order (the inverse lookup depends on it). */
  const Table: seq<(string, string)> := [
    ("^DJI", "DIA"),
    ("^GSPC", "SPY"),
    ("^IXIC", "QQQ"),
    ("ES=F", "ES"),
    ("YM=F", "YM"),
    ("NQ=F", "NQ")
  ]

  predicate IsKey(s: string) {
    exists i :: 0 <= i < |Table| && Table[i].0 == s
  }

  predicate IsValue(s: string) {
    exists i :: 0 <= i < |Table| && Table[i].1 == s
  }

  /** Value of the first pair whose key is `k`. */
  function Lookup(t: seq<(string, string)>, k: string): (r: Option<string>)
    ensures r.None? <==> forall i :: 0 <= i < |t| ==> t[i].0 != k
    ensures r.Some? ==> exists i :: 0 <= i < |t| && t[i].0 == k && t[i].1 == r.value
  {
    if t == [] then None
    else if t[0].0 == k then Some(t[0].1)
    else
      var r := Lookup(t[1..], k);
      assert forall i :: 1 <= i < |t| ==> t[i] == t[1..][i - 1];
      r
  }

  /** `Object.keys(t).find(key => t[key] === v)`: key of the first pair whose value is `v`. */
  function KeyOf(t: seq<(string, string)>, v: string): (r: Option<string>)
    ensures r.None? <==> forall i :: 0 <= i < |t| ==> t[i].1 != v
    ensures r.Some? ==> exists i :: 0 <= i < |t| && t[i].1 == v && t[i].0 == r.value
  {
    if t == [] then None
    else if t[0].1 == v then Some(t[0].0)
    else
      var r := KeyOf(t[1..], v);
      assert forall i :: 1 <= i < |t| ==> t[i] == t[1..][i - 1];
      r
  }

  /** In a table whose keys are distinct, looking up a key finds its own pair. */
  lemma {:induction false} LookupDistinct(t: seq<(string, string)>, i: nat)
    requires i < |t|
    requires forall a, b :: 0 <= a < b < |t| ==> t[a].0 != t[b].0
    ensures Lookup(t, t[i].0) == Some(t[i].1)
  {
    if i > 0 {
      assert t[0].0 != t[i].0;
      LookupDistinct(t[1..], i - 1);
    }
  }

  /** In a table whose values are distinct, the inverse of a value finds its own pair. */
  lemma {:induction false} KeyOfDistinct(t: seq<(string, string)>, i: nat)
    requires i < |t|
    requires forall a, b :: 0 <= a < b < |t| ==> t[a].1 != t[b].1
    ensures KeyOf(t, t[i].1) == Some(t[i].0)
  {
    if i > 0 {
      assert t[0].1 != t[i].1;
      KeyOfDistinct(t[1..], i - 1);
    }
  }

  /** The table's keys are distinct, its values are distinct, and no value is a key. */
  lemma TableShape()
    ensures forall a, b :: 0 <= a < b < |Table| ==> Table[a].0 != Table[b].0
    ensures forall a, b :: 0 <= a < b < |Table| ==> Table[a].1 != Table[b].1
    ensures forall a, b :: 0 <= a < |Table| && 0 <= b < |Table| ==> Table[a].0 != Table[b].1
  {
    assert Table[0].0[0] == '^' && Table[1].0[0] == '^' && Table[2].0[0] == '^';
    assert Table[3].0[2] == '=' && Table[4].0[2] == '=' && Table[5].0[2] == '=';
    assert |Table[3].1| == 2 && |Table[4].1| == 2 && |Table[5].1| == 2;
    assert |Table[0].1| == 3 && |Table[1].1| == 3 && |Table[2].1| == 3;
    assert Table[0].1[0] == 'D' && Table[1].1[0] == 'S' && Table[2].1[0] == 'Q';
    assert Table[3].1[0] == 'E' && Table[4].1[0] == 'Y' && Table[5].1[0] == 'N';
    assert Table[3].0[0] == 'E' && Table[4].0[0] == 'Y' && Table[5].0[0] == 'N';
    assert Table[0].0[1] == 'D' && Table[1].0[1] == 'G' && Table[2].0[1] == 'I';
  }

  /** `convertSymbol`: `symbolMapping[symbol] || symbol` (no table value is empty). */
  function Convert(symbol: string): (r: string)
    ensures !IsKey(symbol) ==> r == symbol
    ensures forall i :: 0 <= i < |Table| && Table[i].0 == symbol ==> r == Table[i].1
  {
    TableShape();
    forall i | 0 <= i < |Table| && Table[i].0 == symbol ensures Lookup(Table, symbol) == Some(Table[i].1) {
      LookupDistinct(Table, i);
    }
    Lookup(Table, symbol).GetOr(symbol)
  }

  /** The symbol a provider record is relabelled with: the first key mapped
      to `provider`, else `provider` itself. */
  function Original(provider: string): (r: string)
    ensures !IsValue(provider) ==> r == provider
    ensures forall i :: 0 <= i < |Table| && Table[i].1 == provider ==> r == Table[i].0
  {
    TableShape();
    forall i | 0 <= i < |Table| && Table[i].1 == provider ensures KeyOf(Table, provider) == Some(Table[i].0) {
      KeyOfDistinct(Table, i);
    }
    KeyOf(Table, provider).GetOr(provider)
  }

  /** What is sent to the provider is never a table key. */
  lemma ConvertNeverKey(symbol: string)
    ensures !IsKey(Convert(symbol))
  {
    TableShape();
  }

  /** Converting a provider symbol's relabelling gives the provider symbol back,
      so two distinct provider symbols are never cached under one key. */
  lemma ConvertOriginal(provider: string)
    requires !IsKey(provider)
    ensures Convert(Original(provider)) == provider
  {
    TableShape();
  }

  /** A requested symbol is reported under its own name iff it is not one of
      the provider symbols of the table: mapped keys and unmapped symbols
      round-trip, while a direct request for `SPY`, `DIA`, … comes back as
      `^GSPC`, `^DJI`, …. */
  lemma RoundTrip(symbol: string)
    ensures Original(Convert(symbol)) == symbol <==> !IsValue(symbol)
    ensures IsValue(symbol) ==> IsKey(Original(Convert(symbol)))
  {
    TableShape();
    if IsKey(symbol) {
      var i :| 0 <= i < |Table| && Table[i].0 == symbol;
      assert Convert(symbol) == Table[i].1;
    } else if IsValue(symbol) {
      var i :| 0 <= i < |Table| && Table[i].1 == symbol;
      assert Original(symbol) == Table[i].0;
    }
  }

  /** The relabellings the table forces, written out. */
  lemma Relabellings()
    ensures Original(Convert("SPY")) == "^GSPC"
    ensures Original(Convert("DIA")) == "^DJI"
    ensures Original(Convert("QQQ")) == "^IXIC"
    ensures Original(Convert("ES")) == "ES=F"
    ensures Original(Convert("YM")) == "YM=F"
    ensures Original(Convert("NQ")) == "NQ=F"
    ensures Convert("^GSPC") == "SPY" && Original("SPY") == "^GSPC"
  {
    TableShape();
    assert Table[1].1 == "SPY" && Table[0].1 == "DIA" && Table[2].1 == "QQQ";
    assert Table[3].1 == "ES" && Table[4].1 == "YM" && Table[5].1 == "NQ";
    assert Table[1].0 == "^GSPC";
    ConvertNeverKey("SPY");
  }
}
