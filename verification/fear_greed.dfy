/** The colour scale of the Fear & Greed index (`getFearGreedColor`). */
module FearGreed {

  /** The five bands, from lowest to highest score. */
  datatype Band = ExtremeFear | Fear | Neutral | Greed | ExtremeGreed

  function Rank(b: Band): nat {
    match b
    case ExtremeFear => 0
    case Fear => 1
    case Neutral => 2
    case Greed => 3
    case ExtremeGreed => 4
  }

  function Hex(b: Band): string {
    match b
    case ExtremeFear => "#ef4444"
    case Fear => "#f97316"
    case Neutral => "#eab308"
    case Greed => "#84cc16"
    case ExtremeGreed => "#22c55e"
  }

  /** The score range of each band; every upper bound is inclusive. */
  predicate InBand(score: real, b: Band) {
    match b
    case ExtremeFear => score <= 25.0
    case Fear => 25.0 < score <= 45.0
    case Neutral => 45.0 < score <= 55.0
    case Greed => 55.0 < score <= 75.0
    case ExtremeGreed => 75.0 < score
  }

  /** The cascade of `<=` tests in `getFearGreedColor`. */
  function Classify(score: real): (b: Band)
    ensures InBand(score, b)
  {
    if score <= 25.0 then ExtremeFear
    else if score <= 45.0 then Fear
    else if score <= 55.0 then Neutral
    else if score <= 75.0 then Greed
    else ExtremeGreed
  }

  function FearGreedColor(score: real): (c: string)
    ensures c in {"#ef4444", "#f97316", "#eab308", "#84cc16", "#22c55e"}
  {
    Hex(Classify(score))
  }

  /** Every score lies in exactly one band, the one the cascade picks, and
      each band has its own colour. */
  lemma ExactlyOneBand(score: real, b: Band)
    ensures InBand(score, b) <==> Classify(score) == b
    ensures FearGreedColor(score) == Hex(b) <==> Classify(score) == b
  {
  }

  /** A higher score never gets a lower band. */
  lemma BandMonotone(s: real, t: real)
    requires s <= t
    ensures Rank(Classify(s)) <= Rank(Classify(t))
  {
  }

  lemma BoundaryScores()
    ensures FearGreedColor(25.0) == "#ef4444"
    ensures FearGreedColor(55.0) == "#eab308"
    ensures FearGreedColor(75.0) == "#84cc16"
    ensures FearGreedColor(76.0) == "#22c55e"
  {
  }
}
