/**
 * The analysis summary panel (src/components/MarketSummary.tsx): the text is
 * split at every line feed and the blank pieces are dropped; each remaining
 * piece is one paragraph, kept exactly as it was.
 */
module MarketSummary {
  import opened JsString
  import opened JsArray

  const LineFeed: char := '\n'

  /** `s.split('\n')`: the pieces between line feeds, in order; a text without
      a line feed (the empty text included) is one piece. */
  function Split(s: string): (r: seq<string>)
    ensures |r| >= 1
    ensures forall i :: 0 <= i < |r| ==> LineFeed !in r[i]
  {
    if s == [] then [[]]
    else if s[0] == LineFeed then [[]] + Split(s[1..])
    else Push(s[0], Split(s[1..]))
  }

  /** A character that is not a line feed joins the first piece. */
  function Push(c: char, pieces: seq<string>): (r: seq<string>)
    requires |pieces| >= 1
    ensures |r| == |pieces|
  {
    [[c] + pieces[0]] + pieces[1..]
  }

  /** Pieces appended after the first one are left alone by `Push`. */
  lemma PushAppend(c: char, pieces: seq<string>, more: seq<string>)
    requires |pieces| >= 1
    ensures Push(c, pieces + more) == Push(c, pieces) + more
  {
    assert (pieces + more)[1..] == pieces[1..] + more;
  }

  /** `parts.join('\n')`. */
  function Join(parts: seq<string>): string
    decreases |parts|
  {
    if parts == [] then ""
    else if |parts| == 1 then parts[0]
    else parts[0] + [LineFeed] + Join(parts[1..])
  }

  /** Joining the pieces with line feeds gives the text back. */
  lemma {:induction false} JoinSplit(s: string)
    ensures Join(Split(s)) == s
  {
    if s != [] {
      var rest := Split(s[1..]);
      JoinSplit(s[1..]);
      assert s[0] != LineFeed ==> Split(s) == [[s[0]] + rest[0]] + rest[1..];
      if s[0] == LineFeed {
        assert Split(s) == [[]] + rest;
        assert Join(Split(s)) == [] + [LineFeed] + Join(rest);
      } else {
        var head := [s[0]] + rest[0];
        assert Split(s) == [head] + rest[1..];
        if |rest| == 1 {
          assert Join(Split(s)) == head;
        } else {
          assert Join(rest) == rest[0] + [LineFeed] + Join(rest[1..]);
          assert Join(Split(s)) == head + [LineFeed] + Join(rest[1..]);
        }
      }
    }
  }

  /** A text without a line feed is one piece, itself. */
  lemma {:induction false} SplitNoLineFeed(s: string)
    requires LineFeed !in s
    ensures Split(s) == [s]
  {
    if s != [] {
      assert s[0] != LineFeed && LineFeed !in s[1..];
      SplitNoLineFeed(s[1..]);
      assert Split(s) == Push(s[0], [s[1..]]);
      assert [s[0]] + s[1..] == s;
    }
  }

  /** A leading line feed ends an empty first piece. */
  lemma SplitLeadingLineFeed(t: string)
    ensures Split([LineFeed] + t) == [[]] + Split(t)
  {
    assert ([LineFeed] + t)[1..] == t;
  }

  /** Any other leading character joins the first piece. */
  lemma SplitLeadingChar(c: char, t: string)
    requires c != LineFeed
    ensures Split([c] + t) == Push(c, Split(t))
  {
    assert ([c] + t)[1..] == t;
  }

  /** Splitting works line feed by line feed: the pieces of `a + "\n" + b`
      are those of `a` followed by those of `b`. */
  lemma {:induction false} SplitConcat(a: string, b: string)
    ensures Split(a + [LineFeed] + b) == Split(a) + Split(b)
    decreases |a|
  {
    if a == [] {
      assert a + [LineFeed] + b == [LineFeed] + b;
      SplitLeadingLineFeed(b);
    } else {
      var c, t := a[0], a[1..];
      var x := t + [LineFeed] + b;
      assert a == [c] + t;
      assert a + [LineFeed] + b == [c] + x;
      SplitConcat(t, b);
      var rt, rb := Split(t), Split(b);
      assert Split(x) == rt + rb;
      if c == LineFeed {
        SplitLeadingLineFeed(x);
        SplitLeadingLineFeed(t);
      } else {
        SplitLeadingChar(c, x);
        SplitLeadingChar(c, t);
        PushAppend(c, rt, rb);
      }
    }
  }

  /** The first piece runs up to the first line feed; the rest of the text
      is split on its own. */
  lemma FirstLineFeedAt(a: string, b: string)
    requires LineFeed !in a
    ensures Split(a + [LineFeed] + b) == [a] + Split(b)
  {
    SplitConcat(a, b);
    SplitNoLineFeed(a);
  }

  /** Splitting a join of line-feed-free pieces gives the pieces back. */
  lemma {:induction false} SplitJoin(parts: seq<string>)
    requires |parts| >= 1
    requires forall i :: 0 <= i < |parts| ==> LineFeed !in parts[i]
    ensures Split(Join(parts)) == parts
    decreases |parts|
  {
    SplitNoLineFeed(parts[0]);
    if |parts| > 1 {
      SplitConcat(parts[0], Join(parts[1..]));
      SplitJoin(parts[1..]);
      assert parts == [parts[0]] + parts[1..];
    }
  }

  /** A piece worth a paragraph: not white space only. */
  predicate Kept(piece: string) {
    Trim(piece) != ""
  }

  /** The paragraphs: the non-blank pieces, in order, untrimmed. */
  function Paragraphs(s: string): (r: seq<string>)
    ensures forall p :: p in r ==> LineFeed !in p && !IsBlank(p)
    ensures forall p :: p in r <==> p in Split(s) && !IsBlank(p)
  {
    var pieces := Split(s);
    forall p | p in pieces ensures Kept(p) <==> !IsBlank(p) {
      TrimIsSlice(p);
    }
    Filter(pieces, Kept)
  }

  /** Paragraphs keep the text's order: those of `a + "\n" + b` are those of
      `a` followed by those of `b`. */
  lemma ParagraphsConcat(a: string, b: string)
    ensures Paragraphs(a + [LineFeed] + b) == Paragraphs(a) + Paragraphs(b)
  {
    SplitConcat(a, b);
    FilterAppend(Split(a), Split(b), Kept);
  }

  /** A one-line text that is not blank is one paragraph, exactly the text. */
  lemma SingleLine(s: string)
    requires LineFeed !in s && !IsBlank(s)
    ensures Paragraphs(s) == [s]
  {
    TrimIsSlice(s);
    SplitNoLineFeed(s);
    assert Filter([s], Kept) == [s] + Filter([s][1..], Kept);
  }

  /** An empty or all-blank text has no paragraphs. */
  lemma BlankText(s: string)
    requires IsBlank(s)
    ensures Paragraphs(s) == []
  {
    var r := Paragraphs(s);
    if r != [] {
      var pieces := Split(s);
      JoinSplit(s);
      assert r[0] in pieces;
      var i :| 0 <= i < |pieces| && pieces[i] == r[0];
      PieceOfBlankIsBlank(pieces, i);
    }
  }

  /** Every piece of a joined blank text is blank. */
  lemma {:induction false} PieceOfBlankIsBlank(pieces: seq<string>, i: nat)
    requires i < |pieces| && IsBlank(Join(pieces))
    ensures IsBlank(pieces[i])
    decreases |pieces|
  {
    if |pieces| > 1 {
      var tail := Join(pieces[1..]);
      var s := pieces[0] + [LineFeed] + tail;
      assert Join(pieces) == s;
      if i == 0 {
        forall k | 0 <= k < |pieces[0]| ensures IsWs(pieces[0][k]) {
          assert s[k] == pieces[0][k];
        }
      } else {
        forall k | 0 <= k < |tail| ensures IsWs(tail[k]) {
          assert s[|pieces[0]| + 1 + k] == tail[k];
        }
        PieceOfBlankIsBlank(pieces[1..], i - 1);
      }
    }
  }
}
