/**
 * The technical-indicator lists of a prediction, and which of them a card
 * shows: a list is shown only when it is present and non-empty
 * (PredictionDetail.tsx `renderIndicator`, StockAnalysis.tsx conditional
 * sections).
 */
module Indicators {
  import opened Wrappers
  import opened Market

  datatype Indicator = Fibonacci | Fractal | Rsi | Macd | Elliott | Volume | Ichimoku | Harmonic

  /** The place of an indicator in the order the cards list them. */
  function Rank(k: Indicator): nat {
    match k
    case Fibonacci => 0
    case Fractal => 1
    case Rsi => 2
    case Macd => 3
    case Elliott => 4
    case Volume => 5
    case Ichimoku => 6
    case Harmonic => 7
  }

  /** The observations a prediction holds for an indicator; an absent
      optional list reads as empty, as the `items = []` default does. */
  function ItemsOf(p: PredictionResult, k: Indicator): seq<string> {
    match k
    case Fibonacci => p.keyFibonacciLevels
    case Fractal => p.fractalSignals
    case Rsi => p.rsiAnalysis.GetOr([])
    case Macd => p.macdAnalysis.GetOr([])
    case Elliott => p.elliottWave.GetOr([])
    case Volume => p.volumeProfile.GetOr([])
    case Ichimoku => p.ichimokuSignals.GetOr([])
    case Harmonic => p.harmonicPatterns.GetOr([])
  }

  /** A rendered indicator section: its kind and one list entry per item. */
  datatype Section = Section(kind: Indicator, entries: seq<string>)

  /** Kinds listed in strictly increasing rank. */
  predicate InRankOrder(kinds: seq<Indicator>) {
    forall i, j :: 0 <= i < j < |kinds| ==> Rank(kinds[i]) < Rank(kinds[j])
  }

  /** The sections rendered for `kinds`, tried in that order: one per kind
      whose list is non-empty, holding that list's items in order. */
  function VisibleSections(p: PredictionResult, kinds: seq<Indicator>): (r: seq<Section>)
    ensures |r| <= |kinds|
    ensures forall i :: 0 <= i < |r| ==> r[i].kind in kinds
    ensures forall i :: 0 <= i < |r| ==> r[i].entries == ItemsOf(p, r[i].kind) && r[i].entries != []
  {
    if kinds == [] then []
    else
      var rest := VisibleSections(p, kinds[1..]);
      var items := ItemsOf(p, kinds[0]);
      if items != [] then [Section(kinds[0], items)] + rest else rest
  }

  /** Some section of `sections` is for kind `k`. */
  predicate HasSection(sections: seq<Section>, k: Indicator) {
    exists i :: 0 <= i < |sections| && sections[i].kind == k
  }

  /** A section in front adds its own kind and nothing else. */
  lemma HasSectionCons(s: Section, rest: seq<Section>, k: Indicator)
    ensures HasSection([s] + rest, k) <==> s.kind == k || HasSection(rest, k)
  {
    if HasSection(rest, k) {
      var j :| 0 <= j < |rest| && rest[j].kind == k;
      assert ([s] + rest)[j + 1] == rest[j];
    }
    if HasSection([s] + rest, k) && s.kind != k {
      var j :| 0 <= j < |[s] + rest| && ([s] + rest)[j].kind == k;
      assert rest[j - 1] == ([s] + rest)[j];
    } else if s.kind == k {
      assert ([s] + rest)[0] == s;
    }
  }

  /** A kind gets a section exactly when its list is non-empty. */
  lemma {:induction false} VisibleIffNonEmpty(p: PredictionResult, kinds: seq<Indicator>, k: Indicator)
    requires k in kinds
    ensures ItemsOf(p, k) != [] <==> HasSection(VisibleSections(p, kinds), k)
  {
    var r := VisibleSections(p, kinds);
    var rest := VisibleSections(p, kinds[1..]);
    var items := ItemsOf(p, kinds[0]);
    if ItemsOf(p, k) == [] {
      forall i | 0 <= i < |r| ensures r[i].kind != k {
        assert r[i].entries == ItemsOf(p, r[i].kind) != [];
      }
    } else if k == kinds[0] {
      HasSectionCons(Section(k, items), rest, k);
    } else {
      assert k in kinds[1..];
      VisibleIffNonEmpty(p, kinds[1..], k);
      if items != [] {
        HasSectionCons(Section(kinds[0], items), rest, k);
      }
    }
  }

  /** Kinds whose ranks climb one by one with their positions are listed in
      rank order. */
  lemma RanksFollowPositions(kinds: seq<Indicator>, offset: nat)
    requires forall i :: 0 <= i < |kinds| ==> Rank(kinds[i]) == i + offset
    ensures InRankOrder(kinds)
  {
  }

  /** Sections come out in the order their kinds were tried. */
  lemma {:induction false} VisibleSectionsInRankOrder(p: PredictionResult, kinds: seq<Indicator>)
    requires InRankOrder(kinds)
    ensures forall i, j :: 0 <= i < j < |VisibleSections(p, kinds)| ==>
              Rank(VisibleSections(p, kinds)[i].kind) < Rank(VisibleSections(p, kinds)[j].kind)
  {
    if kinds != [] {
      var rest := VisibleSections(p, kinds[1..]);
      assert InRankOrder(kinds[1..]);
      VisibleSectionsInRankOrder(p, kinds[1..]);
      assert forall k :: k in kinds[1..] ==> Rank(kinds[0]) < Rank(k);
    }
  }
}
