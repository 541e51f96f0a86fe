/**
 * The single-stock analysis card (src/components/StockAnalysis.tsx): its
 * gradient by dominant trend, the percentage badges, the always-shown
 * fibonacci and fractal lists, six optional indicator sections, the price
 * targets and the summary.
 */
module StockAnalysis {
  import opened Wrappers
  import opened Market
  import opened Trend
  import opened Indicators

  const GreenGradient := "bg-gradient-to-br from-gray-900 to-green-900"
  const RedGradient := "bg-gradient-to-br from-gray-900 to-red-900"
  const BlueGradient := "bg-gradient-to-br from-gray-900 to-blue-900"

  /** `getBgGradient`. */
  function BgGradient(p: PredictionResult): (r: string)
    ensures r == GreenGradient <==> UpDominates(p)
    ensures r == RedGradient <==> DownDominates(p)
    ensures r == BlueGradient <==> !UpDominates(p) && !DownDominates(p)
  {
    match Classify(p)
    case Bullish => GreenGradient
    case Bearish => RedGradient
    case Undecided => BlueGradient
  }

  function Badges(p: PredictionResult): (r: BadgeColors)
    ensures r.up == "bg-green-600" <==> BadgeLit(p.up)
    ensures r.up == "bg-green-800" <==> !BadgeLit(p.up)
    ensures r.down == "bg-red-600" <==> BadgeLit(p.down)
    ensures r.down == "bg-red-800" <==> !BadgeLit(p.down)
    ensures r.neutral == "bg-blue-600" <==> BadgeLit(p.neutral)
    ensures r.neutral == "bg-blue-800" <==> !BadgeLit(p.neutral)
  {
    BadgeColors(
      if p.up > 50.0 then "bg-green-600" else "bg-green-800",
      if p.down > 50.0 then "bg-red-600" else "bg-red-800",
      if p.neutral > 50.0 then "bg-blue-600" else "bg-blue-800")
  }

  /** The optional sections, in the order the card lays them out. */
  const OptionalKinds: seq<Indicator> := [Rsi, Macd, Elliott, Volume, Ichimoku, Harmonic]

  /** One labelled price target. */
  datatype Target = Target(heading: string, value: string)

  /** What the card shows. */
  datatype View = View(
    symbol: string,
    gradient: string,
    badges: BadgeColors,
    fibonacci: seq<string>,
    fractal: seq<string>,
    marketStructure: string,
    sections: seq<Section>,
    targets: Option<seq<Target>>,
    summary: Option<string>)

  /** The three targets, short term first. */
  function TargetsOf(t: PriceTargets): (r: seq<Target>)
    ensures |r| == 3
    ensures r[0].value == t.shortTerm && r[1].value == t.mediumTerm && r[2].value == t.longTerm
  {
    [Target("Corto Plazo", t.shortTerm), Target("Medio Plazo", t.mediumTerm), Target("Largo Plazo", t.longTerm)]
  }

  /** The card: fibonacci and fractal lists always (even when empty), an
      optional section only for a non-empty list, targets only when present,
      the summary only when non-empty. */
  function Render(symbol: string, p: PredictionResult): (r: View)
    ensures r.gradient == BgGradient(p) && r.badges == Badges(p)
    ensures r.fibonacci == p.keyFibonacciLevels && r.fractal == p.fractalSignals
    ensures forall k :: k in OptionalKinds ==>
      (ItemsOf(p, k) != [] <==> HasSection(r.sections, k))
    ensures forall i :: 0 <= i < |r.sections| ==> r.sections[i].kind in OptionalKinds && r.sections[i].entries == ItemsOf(p, r.sections[i].kind)
    ensures forall i, j :: 0 <= i < j < |r.sections| ==> Rank(r.sections[i].kind) < Rank(r.sections[j].kind)
    ensures r.targets.Some? <==> p.priceTargets.Some?
    ensures r.targets.Some? ==> r.targets.value == TargetsOf(p.priceTargets.value)
    ensures r.summary.Some? <==> p.stockSummary.Some? && p.stockSummary.value != ""
    ensures r.summary.Some? ==> r.summary == p.stockSummary
  {
    var sections := VisibleSections(p, OptionalKinds);
    RanksFollowPositions(OptionalKinds, 2);
    VisibleSectionsInRankOrder(p, OptionalKinds);
    forall k | k in OptionalKinds
      ensures ItemsOf(p, k) != [] <==> HasSection(sections, k)
    {
      VisibleIffNonEmpty(p, OptionalKinds, k);
    }
    View(
      symbol, BgGradient(p), Badges(p),
      p.keyFibonacciLevels, p.fractalSignals, p.marketStructure,
      sections,
      match p.priceTargets
      case Some(t) => Some(TargetsOf(t))
      case None => None,
      if p.stockSummary.Some? && p.stockSummary.value != "" then p.stockSummary else None)
  }
}
