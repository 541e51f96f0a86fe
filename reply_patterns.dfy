/**
 * The three regular expressions `sendToAIAnalysis` (src/app/page.tsx)
 * applies to a legacy `output` reply, each written out as the match the
 * JavaScript regular-expression engine finds:
 *   - the fenced block   /```json\s*([\s\S]*?)\s*```/
 *   - the summary        /```\s*([\s\S]*)/
 *   - the embedded map   /\{\s*"(\^[A-Z]+)"[\s\S]*?\}/
 */
module ReplyPatterns {
  import opened Wrappers
  import opened JsString

  const Fence := "```"
  const JsonFence := "```json"

  /** `s[i..]` starts with a closing fence once white space is skipped. */
  predicate ClosesAt(s: string, i: nat)
    requires i <= |s|
  {
    OccursAt(s, Fence, SkipWs(s, i))
  }

  /** Skipping white space from a white-space character is skipping it from
      the next one. */
  lemma SkipWsStep(s: string, i: nat)
    requires i < |s|
    ensures IsWs(s[i]) ==> SkipWs(s, i) == SkipWs(s, i + 1)
  {
  }

  /** The lazy `([\s\S]*?)\s*```` part: the least end `e >= from` of the
      capture after which white space and a fence follow. */
  function LazyClose(s: string, from: nat): (r: Option<nat>)
    requires from <= |s|
    ensures r.Some? ==> from <= r.value <= |s| && ClosesAt(s, r.value)
    ensures r.Some? ==> forall e :: from <= e < r.value ==> !ClosesAt(s, e)
    ensures r.None? ==> forall e :: from <= e <= |s| ==> !ClosesAt(s, e)
    decreases |s| - from
  {
    if ClosesAt(s, from) then Some(from)
    else if from == |s| then None
    else LazyClose(s, from + 1)
  }

  /** A non-empty lazy capture ends on a character that is not white space:
      had it ended on one, the closing fence would already follow one step
      earlier. */
  lemma LazyCloseAfterNonWs(s: string, from: nat, e: nat)
    requires from < e <= |s| && LazyClose(s, from) == Some(e)
    ensures !IsWs(s[e - 1])
  {
    assert !ClosesAt(s, e - 1) && ClosesAt(s, e);
    SkipWsStep(s, e - 1);
  }

  /** A fenced-block match: the capture is `s[start..end]`, the closing fence
      sits at `close`. */
  datatype FencedMatch = FencedMatch(start: nat, end: nat, close: nat)

  /** `/```json\s*([\s\S]*?)\s*```/`: the first "```json", greedy white
      space, then the shortest capture followed by a closing fence. */
  function MatchFenced(s: string): (r: Option<FencedMatch>)
    ensures r.Some? ==> r.value.start <= r.value.end <= r.value.close <= |s|
    ensures r.Some? ==> OccursAt(s, Fence, r.value.close)
    ensures r.Some? ==> LazyClose(s, r.value.start) == Some(r.value.end)
    ensures r.Some? && r.value.start < |s| ==> !IsWs(s[r.value.start])
  {
    match IndexOf(s, JsonFence)
    case None => None
    case Some(p) =>
      var q := SkipWs(s, p + |JsonFence|);
      match LazyClose(s, q)
      case None => None
      case Some(e) => Some(FencedMatch(q, e, SkipWs(s, e)))
  }

  /** The captured group of the fenced pattern, if it matches. */
  function FencedCapture(s: string): Option<string> {
    match MatchFenced(s)
    case None => None
    case Some(m) => Some(s[m.start..m.end])
  }

  /** Starting the search at the first "```json" loses nothing: when no
      closing fence follows it, none follows any later "```json" either, so
      the engine's retry at later positions fails too. */
  lemma FencedNoLaterStart(s: string, p': nat, e: nat)
    requires MatchFenced(s) == None
    requires OccursAt(s, JsonFence, p')
    requires SkipWs(s, p' + |JsonFence|) <= e <= |s|
    ensures !ClosesAt(s, e)
  {
    var p :| IndexOf(s, JsonFence) == Some(p);
    SkipWsMonotone(s, p + |JsonFence|, p' + |JsonFence|);
  }

  /** A greedy `\s*` never stops earlier for a later start. */
  lemma {:induction false} SkipWsMonotone(s: string, i: nat, j: nat)
    requires i <= j <= |s|
    ensures SkipWs(s, i) <= SkipWs(s, j)
    decreases j - i
  {
    if i < j {
      if IsWs(s[i]) {
        SkipWsMonotone(s, i + 1, j);
      }
    }
  }

  /** The capture of the fenced pattern has no white space at either end
      (the lazy group stops before trailing white space), so `JSON.parse`
      receives it already trimmed. */
  lemma FencedCaptureIsTrimmed(s: string)
    requires FencedCapture(s).Some?
    ensures var c := FencedCapture(s).value;
      c == [] || (!IsWs(c[0]) && !IsWs(c[|c| - 1]))
    ensures Trim(FencedCapture(s).value) == FencedCapture(s).value
  {
    var m := MatchFenced(s).value;
    FencedCaptureEnds(s, m);
    TrimmedSlice(s, m.start, m.end);
  }

  /** Both ends of the fenced capture: the greedy `\s*` before it stops on
      a character that is not white space, and so does the lazy group. */
  lemma FencedCaptureEnds(s: string, m: FencedMatch)
    requires MatchFenced(s) == Some(m)
    ensures FencedCapture(s) == Some(s[m.start..m.end])
    ensures m.start < m.end ==> !IsWs(s[m.start]) && !IsWs(s[m.end - 1])
  {
    if m.start < m.end {
      LazyCloseAfterNonWs(s, m.start, m.end);
    }
  }

  /** A slice that starts and ends on characters that are not white space
      is its own trim. */
  lemma TrimmedSlice(s: string, i: nat, j: nat)
    requires i <= j <= |s|
    requires i < j ==> !IsWs(s[i]) && !IsWs(s[j - 1])
    ensures var c := s[i..j]; c == [] || (!IsWs(c[0]) && !IsWs(c[|c| - 1]))
    ensures Trim(s[i..j]) == s[i..j]
  {
    var c := s[i..j];
    if i < j {
      assert c[0] == s[i] && c[|c| - 1] == s[j - 1];
    }
    TrimOfTrimmed(c);
  }

  /** `/```\s*([\s\S]*)/`: everything after the first fence and the white
      space that follows it. */
  function SummaryCapture(s: string): (r: Option<string>)
    ensures r.Some? <==> Includes(s, Fence)
  {
    match IndexOf(s, Fence)
    case None => None
    case Some(f) => Some(s[SkipWs(s, f + |Fence|)..])
  }

  /** Every "```json" begins with a fence followed by the tag "json". */
  lemma FenceOfJsonFence(s: string, j: nat)
    requires OccursAt(s, JsonFence, j)
    ensures OccursAt(s, Fence, j) && s[j + 3..j + 7] == "json"
  {
    assert s[j..j + 3] == s[j..j + 7][..3];
    assert s[j + 3..j + 7] == s[j..j + 7][3..];
  }

  /** The first fence of a fenced reply is its opening "```json" whenever no
      other fence comes before it; the summary pattern then captures from
      the "json" tag on, so the summary it yields starts with that tag and
      holds the whole fenced capture. */
  lemma SummaryRepeatsFencedBlock(s: string, p: nat)
    requires IndexOf(s, Fence) == Some(p) && OccursAt(s, JsonFence, p)
    requires MatchFenced(s).Some?
    ensures SummaryCapture(s) == Some(s[p + |Fence|..])
    ensures s[p + |Fence|..p + |JsonFence|] == "json"
    ensures p + |Fence| <= MatchFenced(s).value.start
  {
    forall j | 0 <= j < p ensures !OccursAt(s, JsonFence, j) {
      if OccursAt(s, JsonFence, j) { FenceOfJsonFence(s, j); }
    }
    IndexOfFromFirst(s, JsonFence, 0, p);
    FenceOfJsonFence(s, p);
    assert s[p + 3] == s[p + 3..p + 7][0];
    assert SkipWs(s, p + 3) == p + 3;
  }

  /** A reply of the usual shape: fenced JSON, then prose. */
  const SampleReply := "```json\n{}\n```\nok"

  /** On that reply the summary pattern yields the JSON block itself, fence
      tag and closing fence included, ahead of the prose "ok"... */
  lemma SampleSummaryAsWritten()
    ensures SummaryCapture(SampleReply) == Some("json\n{}\n```\nok")
  {
    var s := SampleReply;
    SampleReplyMatch(s);
    assert s[3..] == "json\n{}\n```\nok";
  }

  /** ...while the fenced pattern captures the JSON text alone. */
  lemma SampleFencedCapture()
    ensures FencedCapture(SampleReply) == Some("{}")
  {
    var s := SampleReply;
    SampleReplyMatch(s);
    assert s[8..10] == "{}";
  }

  /** Where both patterns match in the sample reply. */
  lemma SampleReplyMatch(s: string)
    requires s == SampleReply
    ensures IndexOf(s, Fence) == Some(0)
    ensures MatchFenced(s) == Some(FencedMatch(8, 10, 11))
    ensures SkipWs(s, 3) == 3
  {
    assert OccursAt(s, JsonFence, 0) by { assert s[0..7] == JsonFence; }
    FenceOfJsonFence(s, 0);
    IndexOfFromFirst(s, Fence, 0, 0);
    IndexOfFromFirst(s, JsonFence, 0, 0);
    SampleReplyFence(s);
  }

  /** The closing fence of the sample reply, found step by step. */
  lemma SampleReplyFence(s: string)
    requires s == SampleReply
    ensures SkipWs(s, 3) == 3 && SkipWs(s, 7) == 8 && LazyClose(s, 8) == Some(10)
    ensures SkipWs(s, 10) == 11
  {
    assert IsWs(s[7]) && !IsWs(s[8]) && !IsWs(s[9]) && IsWs(s[10]) && !IsWs(s[11]) && !IsWs(s[3]);
    assert SkipWs(s, 8) == 8 && SkipWs(s, 9) == 9 && SkipWs(s, 11) == 11;
    assert !ClosesAt(s, 8) by { assert s[8..11][0] == '{'; }
    assert !ClosesAt(s, 9) by { assert s[9..12][0] == '}'; }
    assert ClosesAt(s, 10) by { assert s[11..14] == Fence; }
  }

  predicate IsUpperAscii(c: char) {
    'A' <= c <= 'Z'
  }

  /** Where a greedy `[A-Z]+` run that starts at index `i` stops. */
  function UpperRun(w: string, i: nat): (j: nat)
    requires i <= |w|
    ensures i <= j <= |w|
    ensures forall k :: i <= k < j ==> IsUpperAscii(w[k])
    ensures j == |w| || !IsUpperAscii(w[j])
    decreases |w| - i
  {
    if i < |w| && IsUpperAscii(w[i]) then UpperRun(w, i + 1) else i
  }

  /** Where the quoted key of `/\{\s*"(\^[A-Z]+)"/` closes when that part
      matches at the start of `w`: an opening brace, white space, a quote,
      `^`, at least one capital letter and the closing quote. */
  function KeyEnd(w: string): (r: Option<nat>)
    ensures r.Some? ==> 0 < r.value < |w| && w[0] == '{' && w[r.value] == '"'
  {
    if |w| == 0 || w[0] != '{' then None
    else
      var q := SkipWs(w, 1);
      if q + 2 > |w| || w[q] != '"' || w[q + 1] != '^' then None
      else
        var e := UpperRun(w, q + 2);
        if e == q + 2 || e == |w| || w[e] != '"' then None
        else Some(e)
  }

  /** Length of the match of `/\{\s*"(\^[A-Z]+)"[\s\S]*?\}/` anchored at
      the start of `w`: the quoted key, then everything up to the first
      closing brace. */
  function EmbeddedLen(w: string): (r: Option<nat>)
    ensures r.Some? ==> KeyEnd(w).Some? && KeyEnd(w).value < r.value - 1
    ensures r.Some? ==> 2 <= r.value <= |w| && w[0] == '{' && w[r.value - 1] == '}'
  {
    match KeyEnd(w)
    case None => None
    case Some(e) =>
      match IndexOfFrom(w, "}", e + 1)
      case None => None
      case Some(k) => assert w[k..k + 1] == "}"; Some(k + 1)
  }

  /** `\s*` reads the same in two strings that agree a little beyond where
      it stops. */
  lemma {:induction false} SkipWsPrefix(w: string, v: string, i: nat, n: nat)
    requires i <= |w| && SkipWs(w, i) < n <= |w| && n <= |v| && v[..n] == w[..n]
    ensures i <= |v| && SkipWs(v, i) == SkipWs(w, i)
    decreases |w| - i
  {
    assert v[i] == v[..n][i] && w[i] == w[..n][i];
    if IsWs(w[i]) {
      SkipWsPrefix(w, v, i + 1, n);
    }
  }

  /** The same for a run of capitals. */
  lemma {:induction false} UpperRunPrefix(w: string, v: string, i: nat, n: nat)
    requires i <= |w| && UpperRun(w, i) < n <= |w| && n <= |v| && v[..n] == w[..n]
    ensures i <= |v| && UpperRun(v, i) == UpperRun(w, i)
    decreases |w| - i
  {
    assert v[i] == v[..n][i] && w[i] == w[..n][i];
    if IsUpperAscii(w[i]) {
      UpperRunPrefix(w, v, i + 1, n);
    }
  }

  /** The key part reads the same in two strings that agree a little
      beyond its closing quote. */
  lemma KeyEndLocal(w: string, v: string, n: nat)
    requires KeyEnd(w).Some? && KeyEnd(w).value < n <= |w|
    requires n <= |v| && v[..n] == w[..n]
    ensures KeyEnd(v) == KeyEnd(w)
  {
    assert v[0] == v[..n][0];
    SkipWsPrefix(w, v, 1, n);
    var q := SkipWs(w, 1);
    assert v[q] == v[..n][q] && v[q + 1] == v[..n][q + 1];
    UpperRunPrefix(w, v, q + 2, n);
    var e := UpperRun(w, q + 2);
    assert v[e] == v[..n][e];
  }

  /** The embedded pattern depends only on the text it matches: any string
      that starts with a match starts with the same match. */
  lemma EmbeddedLenLocal(w: string, v: string)
    requires EmbeddedLen(w).Some?
    requires EmbeddedLen(w).value <= |v| && v[..EmbeddedLen(w).value] == w[..EmbeddedLen(w).value]
    ensures EmbeddedLen(v) == EmbeddedLen(w)
  {
    var n := EmbeddedLen(w).value;
    var e := KeyEnd(w).value;
    KeyEndLocal(w, v, n);
    IndexOfFromPrefix(w, v, "}", e + 1, n - 1);
    EmbeddedLenOf(v, e, n - 1);
  }

  /** The match ends just past the first closing brace after the key. */
  lemma EmbeddedLenOf(w: string, e: nat, k: nat)
    requires KeyEnd(w) == Some(e) && IndexOfFrom(w, "}", e + 1) == Some(k)
    ensures EmbeddedLen(w) == Some(k + 1)
  {
  }

  /** The embedded pattern matches at index `m` of `s`. */
  predicate MatchesAt(s: string, m: nat)
    requires m <= |s|
  {
    EmbeddedLen(s[m..]).Some?
  }

  /** The leftmost position at or after `from` where the embedded pattern
      matches. */
  function EmbeddedFrom(s: string, from: nat): (r: Option<nat>)
    requires from <= |s|
    ensures r.Some? ==> from <= r.value < |s| && MatchesAt(s, r.value)
    ensures r.Some? ==> forall m :: from <= m < r.value ==> !MatchesAt(s, m)
    ensures r.None? ==> forall m :: from <= m <= |s| ==> !MatchesAt(s, m)
    decreases |s| - from
  {
    if MatchesAt(s, from) then Some(from)
    else if from == |s| then None
    else EmbeddedFrom(s, from + 1)
  }

  /** A match of the embedded pattern: `s[start..start + len]`. */
  datatype EmbeddedMatch = EmbeddedMatch(start: nat, len: nat)

  /** `s.match(/\{\s*"(\^[A-Z]+)"[\s\S]*?\}/)`: the leftmost match. */
  function MatchEmbedded(s: string): (r: Option<EmbeddedMatch>)
    ensures r.Some? ==> r.value.start + r.value.len <= |s| && r.value.len >= 2
    ensures r.Some? ==> s[r.value.start] == '{'
    ensures r.Some? ==> EmbeddedFrom(s, 0) == Some(r.value.start)
    ensures r.Some? ==> EmbeddedLen(s[r.value.start..]) == Some(r.value.len)
  {
    match EmbeddedFrom(s, 0)
    case None => None
    case Some(m) =>
      var w := s[m..];
      Some(EmbeddedMatch(m, EmbeddedLen(w).value))
  }

  /** The first `n` characters of the suffix at `j`. */
  lemma SuffixPrefix(s: string, j: nat, n: nat)
    requires j + n <= |s|
    ensures s[j..][..n] == s[j..j + n]
  {
  }

  /** The matched text does not occur before the match. */
  lemma EmbeddedNotEarlier(s: string, m: EmbeddedMatch, j: nat)
    requires MatchEmbedded(s) == Some(m) && j < m.start
    ensures !OccursAt(s, s[m.start..m.start + m.len], j)
  {
    var w := s[m.start..];
    assert !MatchesAt(s, j);
    if OccursAt(s, s[m.start..m.start + m.len], j) {
      var v := s[j..];
      SuffixPrefix(s, j, m.len);
      SuffixPrefix(s, m.start, m.len);
      EmbeddedLenLocal(w, v);
    }
  }

  /** `indexOf` on the matched text finds the match itself: no earlier
      position holds the same text, since the pattern would have matched
      there first. */
  lemma EmbeddedIndexOf(s: string, m: EmbeddedMatch)
    requires MatchEmbedded(s) == Some(m)
    ensures IndexOf(s, s[m.start..m.start + m.len]) == Some(m.start)
  {
    var sub := s[m.start..m.start + m.len];
    forall j | 0 <= j < m.start ensures !OccursAt(s, sub, j) {
      EmbeddedNotEarlier(s, m, j);
    }
    IndexOfFromFirst(s, sub, 0, m.start);
  }
}
