/**
 * `extractValidJSON` (src/app/page.tsx): a brace-counting scan that cuts the
 * first top-level `{...}` out of free text. Braces are counted wherever
 * they stand, inside string literals too, and the count may go below 0.
 */
module BraceScan {
  import opened Wrappers

  /** What one character does to the running count. */
  function Delta(c: char): int {
    if c == '{' then 1 else if c == '}' then -1 else 0
  }

  /** The running count after reading the first `n` characters. */
  function DepthAt(text: string, n: nat): int
    requires n <= |text|
  {
    if n == 0 then 0 else DepthAt(text, n - 1) + Delta(text[n - 1])
  }

  /** The running count is the number of `{` minus the number of `}` read. */
  lemma {:induction false} DepthAtCounts(text: string, n: nat)
    requires n <= |text|
    ensures DepthAt(text, n) == multiset(text[..n])['{'] as int - multiset(text[..n])['}'] as int
  {
    if n > 0 {
      DepthAtCounts(text, n - 1);
      assert text[..n] == text[..n - 1] + [text[n - 1]];
    }
  }

  /** No `{` among the first `n` characters is met while the running count
      is 0. */
  ghost predicate NoOpenBefore(text: string, n: nat)
    requires n <= |text|
  {
    n == 0 || (NoOpenBefore(text, n - 1) && (text[n - 1] == '{' ==> DepthAt(text, n - 1) != 0))
  }

  /** The same, one position at a time. */
  lemma {:induction false} NoOpenBeforeMeans(text: string, n: nat)
    requires n <= |text|
    ensures NoOpenBefore(text, n) <==> forall a :: 0 <= a < n && text[a] == '{' ==> DepthAt(text, a) != 0
  {
    if n > 0 {
      NoOpenBeforeMeans(text, n - 1);
    }
  }

  /** No `}` after index `s` and before index `n` brings the running count
      back to 0. */
  ghost predicate NoCloseBetween(text: string, s: nat, n: nat)
    requires n <= |text|
  {
    n <= s + 1 || (NoCloseBetween(text, s, n - 1) && (text[n - 1] == '}' ==> DepthAt(text, n) != 0))
  }

  /** The same, one position at a time. */
  lemma {:induction false} NoCloseBetweenMeans(text: string, s: nat, n: nat)
    requires n <= |text|
    ensures NoCloseBetween(text, s, n) <==> forall j :: s < j < n && text[j] == '}' ==> DepthAt(text, j + 1) != 0
  {
    if n > s + 1 {
      NoCloseBetweenMeans(text, s, n - 1);
    }
  }

  /** `a` is where the scan opens its object: the first `{` met while the
      running count is 0. */
  ghost predicate IsStart(text: string, a: int) {
    0 <= a < |text| && text[a] == '{' && DepthAt(text, a) == 0 && NoOpenBefore(text, a)
  }

  /** `b` is where the scan closes the object opened at `a`: the first `}`
      after `a` that brings the running count back to 0. */
  ghost predicate IsEnd(text: string, a: int, b: int) {
    0 <= a < b < |text| && text[b] == '}' && DepthAt(text, b + 1) == 0 && NoCloseBetween(text, a, b)
  }

  ghost predicate Spans(text: string, a: int, b: int) {
    IsStart(text, a) && IsEnd(text, a, b)
  }

  /** The scan opens at one place only. */
  lemma StartUnique(text: string, a: int, a': int)
    requires IsStart(text, a) && IsStart(text, a')
    ensures a == a'
  {
    NoOpenBeforeMeans(text, a);
    NoOpenBeforeMeans(text, a');
  }

  /** There is at most one opening and one closing position. */
  lemma SpansUnique(text: string, a: int, b: int, a': int, b': int)
    requires Spans(text, a, b) && Spans(text, a', b')
    ensures a == a' && b == b'
  {
    StartUnique(text, a, a');
    NoCloseBetweenMeans(text, a, b);
    NoCloseBetweenMeans(text, a, b');
  }

  /** What `extractValidJSON` returns, stated without the scan. */
  ghost function FirstObject(text: string): (r: Option<string>)
    ensures r.Some? ==> 2 <= |r.value| <= |text|
    ensures r.Some? <==> exists a, b :: Spans(text, a, b)
    ensures forall a, b :: Spans(text, a, b) ==> r == Some(text[a..b + 1])
  {
    if exists a, b :: Spans(text, a, b) then
      var a, b :| Spans(text, a, b);
      assert forall a', b' :: Spans(text, a', b') ==> a' == a && b' == b by {
        forall a', b' | Spans(text, a', b') ensures a' == a && b' == b {
          SpansUnique(text, a, b, a', b');
        }
      }
      Some(text[a..b + 1])
    else None
  }

  /** A scan that read the whole text without opening an object finds none. */
  lemma NoStartNoObject(text: string)
    requires forall a :: 0 <= a < |text| && text[a] == '{' ==> DepthAt(text, a) != 0
    ensures FirstObject(text) == None
  {
  }

  /** A scan that opened at `s` and read the whole text without closing
      finds none. */
  lemma NoEndNoObject(text: string, s: int)
    requires IsStart(text, s)
    requires forall j :: s < j < |text| && text[j] == '}' ==> DepthAt(text, j + 1) != 0
    ensures FirstObject(text) == None
  {
    forall a, b | Spans(text, a, b) ensures false {
      StartUnique(text, a, s);
    }
  }

  /** The scan itself: a running brace count and the index where the
      current top-level object opened; returns as soon as the count comes
      back to 0 after an opening. */
  method ExtractValidJson(text: string) returns (r: Option<string>)
    ensures r == FirstObject(text)
  {
    var braceCount := 0;
    var startIndex := -1;
    var i := 0;
    while i < |text|
      invariant 0 <= i <= |text|
      invariant braceCount == DepthAt(text, i)
      invariant startIndex == -1 ==> braceCount <= 0 && NoOpenBefore(text, i)
      invariant startIndex != -1 ==> startIndex < i && IsStart(text, startIndex) && braceCount >= 1
      invariant startIndex != -1 ==> NoCloseBetween(text, startIndex, i)
    {
      if text[i] == '{' {
        if braceCount == 0 {
          startIndex := i;
        }
        braceCount := braceCount + 1;
      } else if text[i] == '}' {
        braceCount := braceCount - 1;
        if braceCount == 0 && startIndex != -1 {
          assert Spans(text, startIndex, i);
          return Some(text[startIndex..i + 1]);
        }
      }
      i := i + 1;
    }
    if startIndex == -1 {
      NoOpenBeforeMeans(text, |text|);
      NoStartNoObject(text);
    } else {
      NoCloseBetweenMeans(text, startIndex, |text|);
      NoEndNoObject(text, startIndex);
    }
    return None;
  }

  /** Between its opening and its closing brace the object stays open. */
  lemma {:induction false} OpenInside(text: string, a: int, b: int, j: int)
    requires Spans(text, a, b) && a < j <= b
    ensures DepthAt(text, j) >= 1
    decreases j
  {
    if j > a + 1 {
      OpenInside(text, a, b, j - 1);
      NoCloseBetweenMeans(text, a, b);
    }
  }

  /** The running count over a slice is the difference of two prefix counts. */
  lemma SliceCounts(text: string, a: nat, e: nat)
    requires a <= e <= |text|
    ensures multiset(text[a..e])['{'] as int - multiset(text[a..e])['}'] as int
         == DepthAt(text, e) - DepthAt(text, a)
  {
    DepthAtCounts(text, a);
    DepthAtCounts(text, e);
    assert text[..e] == text[..a] + text[a..e];
  }

  /** The extracted text is a contiguous piece of the input that opens with
      `{`, closes with `}`, holds as many `{` as `}`, and every proper prefix
      of it holds strictly more `{` than `}`. */
  lemma ExtractedObjectIsBalanced(text: string)
    requires FirstObject(text).Some?
    ensures var obj := FirstObject(text).value;
      (exists a, e :: 0 <= a <= e <= |text| && obj == text[a..e]) &&
      |obj| >= 2 && obj[0] == '{' && obj[|obj| - 1] == '}' &&
      multiset(obj)['{'] == multiset(obj)['}'] &&
      forall k :: 0 < k < |obj| ==> multiset(obj[..k])['{'] > multiset(obj[..k])['}']
  {
    var a, b :| Spans(text, a, b);
    assert FirstObject(text) == Some(text[a..b + 1]);
    SpanIsBalanced(text, a, b);
  }

  /** The same, for the span the scan found. */
  lemma SpanIsBalanced(text: string, a: int, b: int)
    requires Spans(text, a, b)
    ensures var obj := text[a..b + 1];
      (exists a, e :: 0 <= a <= e <= |text| && obj == text[a..e]) &&
      |obj| >= 2 && obj[0] == '{' && obj[|obj| - 1] == '}' &&
      multiset(obj)['{'] == multiset(obj)['}'] &&
      forall k :: 0 < k < |obj| ==> multiset(obj[..k])['{'] > multiset(obj[..k])['}']
  {
    var obj := text[a..b + 1];
    assert 0 <= a <= b + 1 <= |text| && obj == text[a..b + 1];
    assert obj[0] == text[a] && obj[|obj| - 1] == text[b];
    SliceCounts(text, a, b + 1);
    forall k | 0 < k < |obj| ensures multiset(obj[..k])['{'] > multiset(obj[..k])['}'] {
      PrefixOfObjectOpen(text, a, b, k);
    }
  }

  /** Every proper prefix of the object holds more `{` than `}`. */
  lemma PrefixOfObjectOpen(text: string, a: int, b: int, k: nat)
    requires Spans(text, a, b) && 0 < k < b + 1 - a
    ensures multiset(text[a..b + 1][..k])['{'] > multiset(text[a..b + 1][..k])['}']
  {
    assert text[a..b + 1][..k] == text[a..a + k];
    SliceCounts(text, a, a + k);
    OpenInside(text, a, b, a + k);
  }

  /** Once the count is positive it stays positive up to the first prefix
      where it is 0. */
  lemma {:induction false} StaysOpen(text: string, n: nat, k: nat)
    requires 0 < k < n <= |text| && DepthAt(text, k) >= 1
    requires forall m :: 0 < m < n ==> DepthAt(text, m) != 0
    ensures forall m :: k <= m < n ==> DepthAt(text, m) >= 1
    decreases n - k
  {
    if k + 1 < n {
      StaysOpen(text, n, k + 1);
    }
  }

  /** Where the text itself starts with `{`, as at the call site, the scan
      returns the shortest prefix whose braces balance. */
  lemma LeadingBraceShortestBalancedPrefix(text: string, n: nat)
    requires |text| > 0 && text[0] == '{'
    requires 0 < n <= |text| && DepthAt(text, n) == 0
    requires forall k :: 0 < k < n ==> DepthAt(text, k) != 0
    ensures FirstObject(text) == Some(text[..n])
  {
    StaysOpen(text, n, 1);
    NoCloseBetweenMeans(text, 0, n - 1);
    assert Spans(text, 0, n - 1);
  }

  /** Where the text starts with `{` and no prefix balances, the scan
      returns nothing. */
  lemma LeadingBraceNeverBalanced(text: string)
    requires |text| > 0 && text[0] == '{'
    requires forall k :: 0 < k <= |text| ==> DepthAt(text, k) != 0
    ensures FirstObject(text) == None
  {
    NoEndNoObject(text, 0);
  }
}
