/**
 * The three-colour banding every view applies to a 0-100 score. The views
 * return Tailwind class strings (green, yellow or red text, background or bar
 * fill); only the band they pick is modelled.
 */
module Bands {

  datatype Band = Green | Yellow | Red

  /** Orders the bands from worst (red) to best (green). */
  function Rank(b: Band): nat
  {
    match b
    case Red => 0
    case Yellow => 1
    case Green => 2
  }

  /**
   * The text-colour chain (`getScoreColor`, `getQualityColor`,
   * `getAttentionColor`, `getSuitabilityColor`): green from 80 up, yellow
   * from 60 up to 80, red below 60. Both boundaries belong to the better band.
   */
  function ScoreBand(score: real): (b: Band)
    ensures b == Green <==> 80.0 <= score
    ensures b == Yellow <==> 60.0 <= score < 80.0
    ensures b == Red <==> score < 60.0
  {
    if score >= 80.0 then Green
    else if score >= 60.0 then Yellow
    else Red
  }

  /** A higher score never gets a worse band. */
  lemma ScoreBandMonotone(x: real, y: real)
    requires x <= y
    ensures Rank(ScoreBand(x)) <= Rank(ScoreBand(y))
  {
  }

  /** The bar-fill chain (`getBarColor`), written separately in the views. */
  function BarBand(score: real): Band
  {
    if score >= 80.0 then Green
    else if score >= 60.0 then Yellow
    else Red
  }

  /** Bar fill and text colour pick the same band for every score. */
  lemma BarMatchesScore(score: real)
    ensures BarBand(score) == ScoreBand(score)
  {
  }

  /**
   * Fatigue is banded through `getScoreColor(100 - fatigue)`: green up to 20,
   * yellow above 20 up to 40, red above 40.
   */
  lemma FatigueBand(fatigue: real)
    ensures ScoreBand(100.0 - fatigue) == Green <==> fatigue <= 20.0
    ensures ScoreBand(100.0 - fatigue) == Yellow <==> 20.0 < fatigue <= 40.0
    ensures ScoreBand(100.0 - fatigue) == Red <==> fatigue > 40.0
  {
  }
}
