/** The metric cards (src/components/visualizations/PerformanceMetrics.tsx):
    three cards built from the run's metrics, each coloured, labelled and given
    a progress bar by its score. The colour class, the label and the bar colour
    are three separate threshold chains in the view; here they are checked
    against one reference banding. */
module PerformanceMetricsView {
  import opened Types

  // ---------------------------------------------------------------- the reference banding

  datatype Band = Excellent | Good | Fair

  /** Scores of 0.8 and above are excellent, from 0.6 good, below that fair. */
  function BandOf(score: real): (b: Band)
    ensures b == Excellent <==> score >= 0.8
    ensures b == Good <==> 0.6 <= score < 0.8
    ensures b == Fair <==> score < 0.6
  {
    if score < 0.6 then Fair else if score < 0.8 then Good else Excellent
  }

  function BandRank(b: Band): nat {
    match b
    case Fair => 0
    case Good => 1
    case Excellent => 2
  }

  function BandLabel(b: Band): string {
    match b
    case Excellent => "Excellent"
    case Good => "Good"
    case Fair => "Fair"
  }

  function BandColor(b: Band): string {
    match b
    case Excellent => "text-green-600 bg-green-100"
    case Good => "text-yellow-600 bg-yellow-100"
    case Fair => "text-red-600 bg-red-100"
  }

  function BandBar(b: Band): string {
    match b
    case Excellent => "bg-green-500"
    case Good => "bg-yellow-500"
    case Fair => "bg-red-500"
  }

  // ---------------------------------------------------------------- the three chains

  /** `getScoreColor`: the colour class of the score's band. */
  function ScoreColor(score: real): (color: string)
    ensures color == BandColor(BandOf(score))
  {
    if score >= 0.8 then "text-green-600 bg-green-100"
    else if score >= 0.6 then "text-yellow-600 bg-yellow-100"
    else "text-red-600 bg-red-100"
  }

  /** The label in the card's corner: the name of the score's band. */
  function ScoreLabel(score: real): (name: string)
    ensures name == BandLabel(BandOf(score))
  {
    if score >= 0.8 then "Excellent" else if score >= 0.6 then "Good" else "Fair"
  }

  /** The progress bar's colour class, again that of the score's band. */
  function BarColor(score: real): (color: string)
    ensures color == BandBar(BandOf(score))
  {
    if score >= 0.8 then "bg-green-500" else if score >= 0.6 then "bg-yellow-500" else "bg-red-500"
  }

  /** The three bands look different: the label tells the colour and back. */
  lemma BandsDistinct(s1: real, s2: real)
    ensures ScoreLabel(s1) == ScoreLabel(s2) <==> BandOf(s1) == BandOf(s2)
    ensures ScoreColor(s1) == ScoreColor(s2) <==> BandOf(s1) == BandOf(s2)
  {
    assert BandLabel(Excellent)[0] == 'E' && BandLabel(Good)[0] == 'G' && BandLabel(Fair)[0] == 'F';
    assert BandColor(Excellent)[5] == 'g' && BandColor(Good)[5] == 'y' && BandColor(Fair)[5] == 'r';
  }

  // ---------------------------------------------------------------- the cards

  datatype Card = Card(title: string, score: real, isInverted: bool)

  /** `metricCards`: accuracy, R² and MSE in that order; the MSE card is scored
      by `1 - MSE` and marked inverted. */
  function MetricCards(m: PerformanceMetrics): (cards: seq<Card>)
    ensures |cards| == 3
    ensures cards[0].score == m.classificationAccuracy && !cards[0].isInverted
    ensures cards[1].score == m.rSquared && !cards[1].isInverted
    ensures cards[2].score == 1.0 - m.regressionMSE && cards[2].isInverted
  {
    [Card("Classification Accuracy", m.classificationAccuracy, false),
     Card("Regression R²", m.rSquared, false),
     Card("Regression MSE", 1.0 - m.regressionMSE, true)]
  }

  /** The bar width in percent: the inverted card recomputes `1 - MSE`, the
      others use their score. */
  function BarWidth(card: Card, m: PerformanceMetrics): (width: real)
    ensures card in MetricCards(m) ==> width == card.score * 100.0
    ensures !card.isInverted ==> width == card.score * 100.0
  {
    (if card.isInverted then 1.0 - m.regressionMSE else card.score) * 100.0
  }

  /** For every card the bar width is the score times 100, the inverted one
      included; nothing clamps it, so an MSE above 1 or a negative R² gives a
      negative width. */
  lemma BarWidthIsScore(m: PerformanceMetrics)
    ensures forall i :: 0 <= i < 3 ==> BarWidth(MetricCards(m)[i], m) == MetricCards(m)[i].score * 100.0
    ensures m.regressionMSE > 1.0 ==> BarWidth(MetricCards(m)[2], m) < 0.0
    ensures m.rSquared < 0.0 ==> BarWidth(MetricCards(m)[1], m) < 0.0
  {
  }

  /** A lower MSE never gives the MSE card a worse band. */
  lemma LowerMseNoWorse(m1: PerformanceMetrics, m2: PerformanceMetrics)
    requires m1.regressionMSE <= m2.regressionMSE
    ensures BandRank(BandOf(MetricCards(m1)[2].score)) >= BandRank(BandOf(MetricCards(m2)[2].score))
  {
  }
}
