/**
 * The JavaScript string built-ins the dashboard relies on: the white-space
 * class of regular expressions (`\s`) and of `String.prototype.trim`,
 * `toUpperCase`, `indexOf` and `includes`.
 */
module JsString {
  import opened Wrappers

  /** The characters JavaScript treats as white space: `\s` in a regular
      expression, and what `trim` removes. */
  predicate IsWs(c: char) {
    c == ' ' || c == '\t' || c == '\n' || c == '\r' || c == '\U{000B}' || c == '\U{000C}' ||
    c == '\U{00A0}' || c == '\U{1680}' || ('\U{2000}' <= c <= '\U{200A}') ||
    c == '\U{2028}' || c == '\U{2029}' || c == '\U{202F}' || c == '\U{205F}' ||
    c == '\U{3000}' || c == '\U{FEFF}'
  }

  /** True when `s` holds white space only (its `trim()` is empty). */
  predicate IsBlank(s: string) {
    forall i :: 0 <= i < |s| ==> IsWs(s[i])
  }

  /** Where a greedy `\s*` that starts at index `i` stops. */
  function SkipWs(s: string, i: nat): (j: nat)
    requires i <= |s|
    ensures i <= j <= |s|
    ensures forall k :: i <= k < j ==> IsWs(s[k])
    ensures j == |s| || !IsWs(s[j])
    decreases |s| - i
  {
    if i < |s| && IsWs(s[i]) then SkipWs(s, i + 1) else i
  }

  /** `s.trimStart()`: drops the leading white space. */
  function TrimStart(s: string): string {
    if s != [] && IsWs(s[0]) then TrimStart(s[1..]) else s
  }

  /** `trimStart` keeps a suffix, drops only white space, and leaves none at
      the front. */
  lemma {:induction false} TrimStartIsSuffix(s: string)
    ensures var r := TrimStart(s);
      |r| <= |s| && r == s[|s| - |r|..] && IsBlank(s[..|s| - |r|]) && (r == [] || !IsWs(r[0]))
  {
    if s != [] && IsWs(s[0]) {
      TrimStartIsSuffix(s[1..]);
      var r := TrimStart(s);
      assert s[1..][..|s| - 1 - |r|] == s[1..|s| - |r|];
    }
  }

  /** `s.trimEnd()`: drops the trailing white space. */
  function TrimEnd(s: string): string {
    if s != [] && IsWs(s[|s| - 1]) then TrimEnd(s[..|s| - 1]) else s
  }

  /** `trimEnd` keeps a prefix, drops only white space, and leaves none at
      the end. */
  lemma {:induction false} TrimEndIsPrefix(s: string)
    ensures var r := TrimEnd(s);
      |r| <= |s| && r == s[..|r|] && IsBlank(s[|r|..]) && (r == [] || !IsWs(r[|r| - 1]))
  {
    if s != [] && IsWs(s[|s| - 1]) {
      TrimEndIsPrefix(s[..|s| - 1]);
      var r := TrimEnd(s);
      assert s[|r|..] == s[..|s| - 1][|r|..] + [s[|s| - 1]];
    }
  }

  /** `s.trim()`. */
  function Trim(s: string): string {
    TrimEnd(TrimStart(s))
  }

  /** `trim` keeps one contiguous piece of the text, drops only white space
      around it, and leaves no white space at either end. */
  lemma TrimIsSlice(s: string)
    ensures var t := Trim(s);
      exists i :: 0 <= i <= |s| - |t| && t == s[i..i + |t|] &&
        IsBlank(s[..i]) && IsBlank(s[i + |t|..])
    ensures Trim(s) == [] || (!IsWs(Trim(s)[0]) && !IsWs(Trim(s)[|Trim(s)| - 1]))
    ensures Trim(s) == [] <==> IsBlank(s)
  {
    var a := TrimStart(s);
    var t := TrimEnd(a);
    TrimStartIsSuffix(s);
    TrimEndIsPrefix(a);
    var i := |s| - |a|;
    assert a == s[i..];
    assert t == s[i..i + |t|];
    assert s[i + |t|..] == a[|t|..];
    if t == [] {
      assert IsBlank(a);
      forall k | 0 <= k < |s| ensures IsWs(s[k]) {
        assert s[..i][k] == s[k];
      }
    } else {
      assert !IsWs(t[0]);
    }
  }

  /** A slice of `s` with no white space at either end is already trimmed. */
  lemma TrimOfTrimmed(s: string)
    requires s == [] || (!IsWs(s[0]) && !IsWs(s[|s| - 1]))
    ensures Trim(s) == s
  {
  }

  /** JavaScript's `toUpperCase` on one character (ASCII letters only). */
  function UpperChar(c: char): char {
    if 'a' <= c <= 'z' then (c as int - 'a' as int + 'A' as int) as char else c
  }

  /** `s.toUpperCase()`: every character upper-cased, nothing else changed. */
  function ToUpper(s: string): (r: string)
    ensures |r| == |s|
    ensures forall i :: 0 <= i < |s| ==> r[i] == UpperChar(s[i])
  {
    if s == [] then [] else [UpperChar(s[0])] + ToUpper(s[1..])
  }

  /** Upper-casing twice is upper-casing once. */
  lemma ToUpperIdempotent(s: string)
    ensures ToUpper(ToUpper(s)) == ToUpper(s)
  {
    var u := ToUpper(s);
    assert forall i :: 0 <= i < |u| ==> ToUpper(u)[i] == u[i];
  }

  /** Upper-casing keeps white space where it was and adds none. */
  lemma ToUpperKeepsWs(s: string)
    ensures forall i :: 0 <= i < |s| ==> (IsWs(ToUpper(s)[i]) <==> IsWs(s[i]))
  {
  }

  /** `sub` occurs in `s` starting at index `i`. */
  predicate OccursAt(s: string, sub: string, i: nat) {
    i + |sub| <= |s| && s[i..i + |sub|] == sub
  }

  /** `s.indexOf(sub, from)`: the first occurrence at or after `from`. */
  function IndexOfFrom(s: string, sub: string, from: nat): (r: Option<nat>)
    ensures r.Some? ==> from <= r.value && OccursAt(s, sub, r.value)
    ensures r.Some? ==> forall j :: from <= j < r.value ==> !OccursAt(s, sub, j)
    ensures r.None? ==> forall j :: from <= j ==> !OccursAt(s, sub, j)
    decreases |s| - from
  {
    if from + |sub| > |s| then None
    else if OccursAt(s, sub, from) then Some(from)
    else IndexOfFrom(s, sub, from + 1)
  }

  /** `s.indexOf(sub)`. */
  function IndexOf(s: string, sub: string): Option<nat> {
    IndexOfFrom(s, sub, 0)
  }

  /** `s.includes(sub)`. */
  predicate Includes(s: string, sub: string) {
    IndexOf(s, sub).Some?
  }

  /** `includes` holds exactly when `sub` occurs somewhere in `s`. */
  lemma IncludesIffOccurs(s: string, sub: string)
    ensures Includes(s, sub) <==> exists i :: OccursAt(s, sub, i)
  {
    if !Includes(s, sub) {
      assert forall i :: !OccursAt(s, sub, i);
    }
  }

  /** `indexOf` depends only on the text up to the end of the occurrence it
      finds: two strings that agree up to there give the same answer. */
  lemma {:induction false} IndexOfFromPrefix(s: string, t: string, sub: string, from: nat, c: nat)
    requires IndexOfFrom(s, sub, from) == Some(c)
    requires c + |sub| <= |t| && t[..c + |sub|] == s[..c + |sub|]
    ensures IndexOfFrom(t, sub, from) == Some(c)
  {
    var n := c + |sub|;
    forall j | from <= j <= c ensures OccursAt(t, sub, j) <==> OccursAt(s, sub, j) {
      SliceOfPrefix(t, n, j, j + |sub|);
      SliceOfPrefix(s, n, j, j + |sub|);
    }
    IndexOfFromFirst(t, sub, from, c);
  }

  /** A slice of a prefix is the same slice of the whole. */
  lemma SliceOfPrefix(s: string, n: nat, i: nat, k: nat)
    requires i <= k <= n <= |s|
    ensures s[..n][i..k] == s[i..k]
  {
  }

  /** An occurrence at `c` with none between `from` and `c` is what
      `indexOf` finds. */
  lemma {:induction false} IndexOfFromFirst(s: string, sub: string, from: nat, c: nat)
    requires from <= c && OccursAt(s, sub, c)
    requires forall j :: from <= j < c ==> !OccursAt(s, sub, j)
    ensures IndexOfFrom(s, sub, from) == Some(c)
    decreases c - from
  {
    if from < c {
      assert !OccursAt(s, sub, from);
      IndexOfFromFirst(s, sub, from + 1, c);
    }
  }
}
