/**
 * The per-symbol prediction card (src/components/PredictionDetail.tsx): its
 * background by dominant trend, the three percentage badges, and the eight
 * indicator sections it shows when their lists are non-empty.
 */
module PredictionDetail {
  import opened Market
  import opened Trend
  import opened Indicators

  const GreenCard := "bg-gradient-to-r from-gray-800 to-green-900"
  const RedCard := "bg-gradient-to-r from-gray-800 to-red-900"
  const BlueCard := "bg-gradient-to-r from-gray-800 to-blue-900"

  /** `getBgColor`. */
  function BgColor(p: PredictionResult): (r: string)
    ensures r == GreenCard <==> UpDominates(p)
    ensures r == RedCard <==> DownDominates(p)
    ensures r == BlueCard <==> !UpDominates(p) && !DownDominates(p)
  {
    match Classify(p)
    case Bullish => GreenCard
    case Bearish => RedCard
    case Undecided => BlueCard
  }

  /** Each badge is bright when its percentage is above 50, dim otherwise. */
  function Badges(p: PredictionResult): (r: BadgeColors)
    ensures r.up == "bg-green-500" <==> BadgeLit(p.up)
    ensures r.up == "bg-green-800" <==> !BadgeLit(p.up)
    ensures r.down == "bg-red-500" <==> BadgeLit(p.down)
    ensures r.down == "bg-red-800" <==> !BadgeLit(p.down)
    ensures r.neutral == "bg-blue-500" <==> BadgeLit(p.neutral)
    ensures r.neutral == "bg-blue-800" <==> !BadgeLit(p.neutral)
  {
    BadgeColors(
      if p.up > 50.0 then "bg-green-500" else "bg-green-800",
      if p.down > 50.0 then "bg-red-500" else "bg-red-800",
      if p.neutral > 50.0 then "bg-blue-500" else "bg-blue-800")
  }

  /** The eight `renderIndicator` calls, in the order the card makes them. */
  const CardKinds: seq<Indicator> := [Fibonacci, Fractal, Rsi, Macd, Elliott, Volume, Ichimoku, Harmonic]

  /** The card tries every indicator. */
  lemma EveryKindOnCard(k: Indicator)
    ensures k in CardKinds
  {
    match k
    case Fibonacci => assert CardKinds[0] == k;
    case Fractal => assert CardKinds[1] == k;
    case Rsi => assert CardKinds[2] == k;
    case Macd => assert CardKinds[3] == k;
    case Elliott => assert CardKinds[4] == k;
    case Volume => assert CardKinds[5] == k;
    case Ichimoku => assert CardKinds[6] == k;
    case Harmonic => assert CardKinds[7] == k;
  }

  /** What the card shows. */
  datatype Card = Card(
    symbol: string,
    background: string,
    badges: BadgeColors,
    sections: seq<Section>,
    marketStructure: string)

  /** The card: every indicator whose list is non-empty gets a section, in
      the fixed order, each listing its items in order; the market structure
      is always shown. */
  function Render(symbol: string, p: PredictionResult): (r: Card)
    ensures r.background == BgColor(p) && r.badges == Badges(p) && r.marketStructure == p.marketStructure
    ensures forall k :: ItemsOf(p, k) != [] <==> HasSection(r.sections, k)
    ensures forall i :: 0 <= i < |r.sections| ==> r.sections[i].entries == ItemsOf(p, r.sections[i].kind)
    ensures forall i, j :: 0 <= i < j < |r.sections| ==> Rank(r.sections[i].kind) < Rank(r.sections[j].kind)
  {
    var sections := VisibleSections(p, CardKinds);
    RanksFollowPositions(CardKinds, 0);
    VisibleSectionsInRankOrder(p, CardKinds);
    forall k ensures ItemsOf(p, k) != [] <==> HasSection(sections, k) {
      EveryKindOnCard(k);
      VisibleIffNonEmpty(p, CardKinds, k);
    }
    Card(symbol, BgColor(p), Badges(p), sections, p.marketStructure)
  }
}
