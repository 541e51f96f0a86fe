/**
 * The stock search box (src/components/StockSearch.tsx): what the form
 * submits and when its button is disabled.
 */
module StockSearch {
  import opened Wrappers
  import opened JsString

  /** What `handleSubmit` passes to `onSearch`: the trimmed, upper-cased
      input, and nothing at all for a blank input. */
  function Submitted(input: string): (r: Option<string>)
    ensures r.Some? <==> !IsBlank(input)
    ensures r.Some? ==> r.value != [] && !IsWs(r.value[0]) && !IsWs(r.value[|r.value| - 1])
    ensures r.Some? ==> |r.value| == |Trim(input)| && forall i :: 0 <= i < |r.value| ==> r.value[i] == UpperChar(Trim(input)[i])
    ensures r.Some? ==> ToUpper(r.value) == r.value
  {
    var t := Trim(input);
    TrimIsSlice(input);
    if t != "" then
      ToUpperKeepsWs(t);
      ToUpperIdempotent(t);
      Some(ToUpper(t))
    else None
  }

  /** The submit button is disabled while searching or for a blank input. */
  function SubmitDisabled(isSearching: bool, input: string): (r: bool)
    ensures r <==> isSearching || IsBlank(input)
  {
    TrimIsSlice(input);
    isSearching || Trim(input) == ""
  }

  /** The input's state. */
  class SearchBox {
    var stockSymbol: string

    constructor()
      ensures stockSymbol == ""
    {
      stockSymbol := "";
    }

    /** The input's `onChange`. */
    method OnChange(value: string)
      modifies this`stockSymbol
      ensures stockSymbol == value
    {
      stockSymbol := value;
    }

    /** `handleSubmit`: the argument `onSearch` is called with, if it is called. */
    method HandleSubmit() returns (search: Option<string>)
      ensures search == Submitted(stockSymbol)
      ensures search.Some? <==> !IsBlank(stockSymbol)
    {
      var trimmed := Trim(stockSymbol);
      TrimIsSlice(stockSymbol);
      if trimmed != "" {
        search := Some(ToUpper(trimmed));
      } else {
        search := None;
      }
    }
  }
}
