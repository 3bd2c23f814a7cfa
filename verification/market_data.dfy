/** The documents the dashboard reads from the store (src/app/page.tsx:10-29).
    Scores are modelled as reals; the store's floating-point encoding is not modelled. */
module MarketData {

  /** Per-band article counts of one summary. */
  datatype SentimentCounts = SentimentCounts(
    bearish: int,
    somewhatBearish: int,
    neutral: int,
    somewhatBullish: int,
    bullish: int)

  /** One aggregated sentiment summary document. */
  datatype SentimentSummary = SentimentSummary(
    timestamp: string,
    overallSentimentScore: real,
    overallSentimentLabel: string,
    sentimentCounts: SentimentCounts)

  /** One analysed news article. */
  datatype ArticleData = ArticleData(
    url: string,
    sentimentScore: real,
    sentimentLabel: string)
}
