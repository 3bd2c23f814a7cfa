/** The mood gauge (src/app/components/MarketMoodGauge.tsx): the colour chosen for
    a sentiment score and the score's position on the half-circle dial. */
module MarketMoodGauge {

  /** The five sentiment bands, from most bearish to most bullish. */
  datatype Band = Bearish | SomewhatBearish | Neutral | SomewhatBullish | Bullish

  /** Position of a band on the Bearish-to-Bullish scale. */
  function Rank(b: Band): nat
  {
    match b
    case Bearish => 0
    case SomewhatBearish => 1
    case Neutral => 2
    case SomewhatBullish => 3
    case Bullish => 4
  }

  /** The colour token drawn for each band. */
  function BandColor(b: Band): string
  {
    match b
    case Bearish => "#FF0000"
    case SomewhatBearish => "#FFA500"
    case Neutral => "#FFD700"
    case SomewhatBullish => "#ADFF2F"
    case Bullish => "#008000"
  }

  /** The interval of scores each band covers, with the endpoints the colour
      comparisons fix: both outer bands are closed outwards and unbounded, the
      middle band is open at both ends, and each inner endpoint belongs to the
      band nearer the outside. */
  predicate InBand(value: real, b: Band)
  {
    match b
    case Bearish => value <= -0.35
    case SomewhatBearish => -0.35 < value <= -0.15
    case Neutral => -0.15 < value < 0.15
    case SomewhatBullish => 0.15 <= value < 0.35
    case Bullish => 0.35 <= value
  }

  /** The colour of the gauge for a score: a chain of guarded returns that always
      ends in one of the five colour tokens. */
  function GetGaugeColor(value: real): (color: string)
    ensures color in {"#FF0000", "#FFA500", "#FFD700", "#ADFF2F", "#008000"}
  {
    if value <= -0.35 then "#FF0000"
    else if value > -0.35 && value <= -0.15 then "#FFA500"
    else if value > -0.15 && value < 0.15 then "#FFD700"
    else if value >= 0.15 && value < 0.35 then "#ADFF2F"
    else "#008000"
  }

  /** The bands partition the real line: every score lies in one band and in no
      other. */
  lemma BandsPartition(value: real)
    ensures exists b :: InBand(value, b)
    ensures forall b1, b2 :: InBand(value, b1) && InBand(value, b2) ==> b1 == b2
  {
    if value <= -0.35 {
      assert InBand(value, Bearish);
    } else if value <= -0.15 {
      assert InBand(value, SomewhatBearish);
    } else if value < 0.15 {
      assert InBand(value, Neutral);
    } else if value < 0.35 {
      assert InBand(value, SomewhatBullish);
    } else {
      assert InBand(value, Bullish);
    }
  }

  /** The gauge shows a band's colour exactly when the score lies in that band;
      the colour is therefore a function of the band alone. */
  lemma GaugeColorIsBandColor(value: real, b: Band)
    ensures GetGaugeColor(value) == BandColor(b) <==> InBand(value, b)
  {
  }

  /** The boundary scores fall on the side the comparisons put them. */
  lemma BoundaryColors()
    ensures GetGaugeColor(-0.35) == BandColor(Bearish)
    ensures GetGaugeColor(-0.15) == BandColor(SomewhatBearish)
    ensures GetGaugeColor(0.15) == BandColor(SomewhatBullish)
    ensures GetGaugeColor(0.35) == BandColor(Bullish)
  {
  }

  /** Scores outside [-1, 1] are still classified, into the outer bands. */
  lemma OutOfRangeColors(value: real)
    ensures value < -1.0 ==> GetGaugeColor(value) == "#FF0000"
    ensures value > 1.0 ==> GetGaugeColor(value) == "#008000"
  {
  }

  /** A higher score never lands in a more bearish band. */
  lemma BandsMonotone(a: real, b: real, ba: Band, bb: Band)
    requires a <= b && InBand(a, ba) && InBand(b, bb)
    ensures Rank(ba) <= Rank(bb)
  {
  }

  /** Position of a score in [-1, 1] on the dial's [0, 1] axis. */
  function NormalizedValue(value: real): (r: real)
    ensures -1.0 <= value <= 1.0 ==> 0.0 <= r <= 1.0
    ensures 2.0 * r - 1.0 == value
  {
    (value + 1.0) / 2.0
  }

  /** The dial position is strictly increasing in the score and sends -1, 0 and 1
      to the start, the middle and the end of the dial. */
  lemma NormalizedValueOrder(a: real, b: real)
    ensures a < b ==> NormalizedValue(a) < NormalizedValue(b)
    ensures NormalizedValue(-1.0) == 0.0 && NormalizedValue(0.0) == 0.5 && NormalizedValue(1.0) == 1.0
  {
  }
}
