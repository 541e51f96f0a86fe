/**
 * The dominant-trend rule both prediction cards colour themselves by
 * (PredictionDetail.tsx `getBgColor`, StockAnalysis.tsx `getBgGradient`).
 */
module Trend {
  import opened Market

  datatype Trend = Bullish | Bearish | Undecided

  /** `up` beats both other percentages strictly. */
  predicate UpDominates(p: PredictionResult) {
    p.up > p.down && p.up > p.neutral
  }

  /** `down` beats both other percentages strictly. */
  predicate DownDominates(p: PredictionResult) {
    p.down > p.up && p.down > p.neutral
  }

  /** Green when `up` dominates, red when `down` does, blue otherwise. */
  function Classify(p: PredictionResult): (t: Trend)
    ensures t == Bullish <==> UpDominates(p)
    ensures t == Bearish <==> DownDominates(p)
    ensures t == Undecided <==> !UpDominates(p) && !DownDominates(p)
  {
    if p.up > p.down && p.up > p.neutral then Bullish
    else if p.down > p.up && p.down > p.neutral then Bearish
    else Undecided
  }

  /** When two of the three percentages tie for the largest, the card is blue. */
  lemma TieForMaximumIsUndecided(p: PredictionResult)
    requires (p.up == p.down && p.up >= p.neutral) ||
             (p.up == p.neutral && p.up >= p.down) ||
             (p.down == p.neutral && p.down >= p.up)
    ensures Classify(p) == Undecided
  {
  }

  /** A neutral percentage strictly above the other two makes the card blue. */
  lemma NeutralLeadIsUndecided(p: PredictionResult)
    requires p.neutral > p.up && p.neutral > p.down
    ensures Classify(p) == Undecided
  {
  }

  /** A badge is lit when its percentage is strictly above 50. */
  predicate BadgeLit(percentage: real) {
    percentage > 50.0
  }

  /** The colour classes of the up, down and neutral badges. */
  datatype BadgeColors = BadgeColors(up: string, down: string, neutral: string)
}
