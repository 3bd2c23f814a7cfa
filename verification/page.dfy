/** The dashboard page (src/app/page.tsx): the component state the two fetches
    update, the per-sector quote entries, the article tuples handed to the
    scrolling list, and the choice between the mood gauge and the loading text.
    The quote service and the `/api/fetchData` request are inputs; their
    concurrency (`Promise.all`, effect scheduling) is not modelled. */
module Page {
  import opened Wrappers
  import opened MarketData
  import FetchData
  import MarketMoodGauge

  /** Something the awaited `fetch` or `response.json()` threw. */
  datatype Thrown = Thrown

  // ---------------------------------------------------------------------------
  // Sector quotes
  // ---------------------------------------------------------------------------

  /** A sector entry's numeric field, or the string 'N/A'. */
  datatype Price = Num(amount: real) | NotAvailable

  datatype SectorEntry = SectorEntry(name: string, value: Price, change: Price)

  /** One quote request: the current price `c` and previous close `pc`, or a throw. */
  datatype QuoteResult = Quote(c: real, pc: real) | QuoteThrew

  /** The six sectors and their tickers, in declaration order. */
  const SectorTickers: seq<(string, string)> := [
    ("Technology", "XLK"),
    ("Healthcare", "XLV"),
    ("Financials", "XLF"),
    ("ConsumerDiscretionary", "XLY"),
    ("CommunicationServices", "XLC"),
    ("Industrials", "XLI")
  ]

  /** A quote the percent change can be computed for: the code divides by `pc`
      without a guard. */
  predicate HasNonZeroClose(q: QuoteResult)
  {
    q.Quote? ==> q.pc != 0.0
  }

  /** Percent change from the previous close to the current price; applying it
      to the previous close gives back the current price. */
  function PercentChange(c: real, pc: real): (r: real)
    requires pc != 0.0
    ensures pc * (1.0 + r / 100.0) == c
  {
    var ratio := (c - pc) / pc;
    assert pc * ratio == c - pc;
    ratio * 100.0
  }

  /** For a positive previous close, the change is non-negative (drawn as an up
      arrow) exactly when the price did not fall. */
  lemma ChangeSign(c: real, pc: real)
    requires pc > 0.0
    ensures PercentChange(c, pc) >= 0.0 <==> c >= pc
  {
  }

  /** The entry built for one sector: always named after the sector; price and
      percent change from a quote; 'N/A' for both when the request threw. */
  function SectorEntryFor(sector: string, quote: QuoteResult): (e: SectorEntry)
    requires HasNonZeroClose(quote)
    ensures e.name == sector
    ensures quote.QuoteThrew? <==> e.value == NotAvailable
    ensures quote.QuoteThrew? <==> e.change == NotAvailable
    ensures quote.Quote? ==>
      e.value == Num(quote.c) && quote.pc * (1.0 + e.change.amount / 100.0) == quote.c
  {
    match quote
    case Quote(c, pc) => SectorEntry(sector, Num(c), Num(PercentChange(c, pc)))
    case QuoteThrew => SectorEntry(sector, NotAvailable, NotAvailable)
  }

  /** The sector list: one entry per (sector, ticker) pair, in order, each built
      from that ticker's own quote only. */
  function FetchSectorData(tickers: seq<(string, string)>, quote: string -> QuoteResult): (r: seq<SectorEntry>)
    requires forall i :: 0 <= i < |tickers| ==> HasNonZeroClose(quote(tickers[i].1))
    ensures |r| == |tickers|
    ensures forall i :: 0 <= i < |tickers| ==> r[i] == SectorEntryFor(tickers[i].0, quote(tickers[i].1))
  {
    if tickers == [] then []
    else
      assert HasNonZeroClose(quote(tickers[0].1));
      [SectorEntryFor(tickers[0].0, quote(tickers[0].1))] + FetchSectorData(tickers[1..], quote)
  }

  /** The page's sector list has six entries named after the six sectors, in
      order; a sector whose request threw shows 'N/A' twice. */
  lemma SectorDataShape(quote: string -> QuoteResult)
    requires forall i :: 0 <= i < |SectorTickers| ==> HasNonZeroClose(quote(SectorTickers[i].1))
    ensures var r := FetchSectorData(SectorTickers, quote);
      && |r| == 6
      && (forall i :: 0 <= i < 6 ==> r[i].name == SectorTickers[i].0)
      && (forall i :: 0 <= i < 6 && quote(SectorTickers[i].1).QuoteThrew? ==>
            r[i].value == NotAvailable && r[i].change == NotAvailable)
  {
  }

  /** A failing ticker does not disturb the other sectors: two runs whose quotes
      agree on every ticker but one give the same entries everywhere else. */
  lemma FailureIsolated(tickers: seq<(string, string)>, q1: string -> QuoteResult, q2: string -> QuoteResult, j: nat)
    requires forall i :: 0 <= i < |tickers| ==> HasNonZeroClose(q1(tickers[i].1)) && HasNonZeroClose(q2(tickers[i].1))
    requires forall i :: 0 <= i < |tickers| && i != j ==> q1(tickers[i].1) == q2(tickers[i].1)
    ensures forall i :: 0 <= i < |tickers| && i != j ==>
      FetchSectorData(tickers, q1)[i] == FetchSectorData(tickers, q2)[i]
  {
  }

  // ---------------------------------------------------------------------------
  // Articles for the scrolling list
  // ---------------------------------------------------------------------------

  /** Each article as a (url, score, label) tuple, in the same order. */
  function FormattedArticles(articles: seq<ArticleData>): (r: seq<(string, real, string)>)
    ensures |r| == |articles|
    ensures forall i :: 0 <= i < |articles| ==>
      r[i] == (articles[i].url, articles[i].sentimentScore, articles[i].sentimentLabel)
  {
    if articles == [] then []
    else [(articles[0].url, articles[0].sentimentScore, articles[0].sentimentLabel)] + FormattedArticles(articles[1..])
  }

  /** The projection keeps order: formatting two lists one after the other is
      formatting their concatenation. */
  lemma FormattedArticlesAppend(a: seq<ArticleData>, b: seq<ArticleData>)
    ensures FormattedArticles(a + b) == FormattedArticles(a) + FormattedArticles(b)
  {
  }

  // ---------------------------------------------------------------------------
  // Component state and the two fetches
  // ---------------------------------------------------------------------------

  datatype HomeState = HomeState(
    sectorData: seq<SectorEntry>,
    articleData: seq<ArticleData>,
    latestSentiment: Option<SentimentSummary>)

  /** The state on first render: no sectors and no articles, and the mood
      section shows the loading text rather than a gauge. */
  function InitialState(): (s: HomeState)
    ensures s.sectorData == [] && FormattedArticles(s.articleData) == []
    ensures MoodSection(s) == Loading
  {
    HomeState([], [], None)
  }

  /** The parsed `/api/fetchData` body; either field may be absent. */
  datatype ApiData = ApiData(summary: Option<seq<SentimentSummary>>, analysis: Option<seq<ArticleData>>)

  /** `response.json()` on what the handler sent. The page does not look at the
      status: an error body simply has neither field. */
  function ParseResponse(res: FetchData.Response): (data: ApiData)
    ensures res.body.Data? ==> data.summary == Some(res.body.summary) && data.analysis == Some(res.body.analysis)
    ensures res.body.Failed? ==> !HasItems(data.summary) && !HasItems(data.analysis)
  {
    match res.body
    case Data(summary, analysis) => ApiData(Some(summary), Some(analysis))
    case Failed(_) => ApiData(None, None)
  }

  predicate HasItems<T>(field: Option<seq<T>>)
  {
    field.Some? && |field.value| > 0
  }

  /** The status code plays no part in what the page reads from a response. */
  lemma ParseIgnoresStatus(body: FetchData.Body, status1: int, status2: int)
    ensures ParseResponse(FetchData.Response(status1, body)) == ParseResponse(FetchData.Response(status2, body))
  {
  }

  /** The state after the `/api/fetchData` effect settles. The latest summary is
      replaced by the first summary only when a non-empty summary list arrived,
      and the article list only when a non-empty one arrived; a throw changes
      nothing, and the sector list is never touched. */
  function AfterMongoFetch(s: HomeState, fetched: Result<ApiData, Thrown>): (s': HomeState)
    ensures s'.sectorData == s.sectorData
    ensures fetched.Failure? ==> s' == s
    ensures fetched.Success? && HasItems(fetched.value.summary) ==>
      s'.latestSentiment == Some(fetched.value.summary.value[0])
    ensures !(fetched.Success? && HasItems(fetched.value.summary)) ==>
      s'.latestSentiment == s.latestSentiment
    ensures fetched.Success? && HasItems(fetched.value.analysis) ==>
      s'.articleData == fetched.value.analysis.value
    ensures !(fetched.Success? && HasItems(fetched.value.analysis)) ==>
      s'.articleData == s.articleData
  {
    match fetched
    case Failure(_) => s
    case Success(data) =>
      var s1 := if HasItems(data.summary) then s.(latestSentiment := Some(data.summary.value[0])) else s;
      if HasItems(data.analysis) then s1.(articleData := data.analysis.value) else s1
  }

  /** The state after the sector effect settles: only the sector list changes. */
  function AfterSectorFetch(s: HomeState, fetched: seq<SectorEntry>): (s': HomeState)
    ensures s'.sectorData == fetched
    ensures s'.articleData == s.articleData && s'.latestSentiment == s.latestSentiment
  {
    s.(sectorData := fetched)
  }

  /** A 500 answer from the endpoint leaves the page exactly as it was. */
  lemma ServerErrorKeepsState(s: HomeState)
    ensures AfterMongoFetch(s, Success(ParseResponse(FetchData.ServerError()))) == s
  {
  }

  /** Once a summary has been shown, no later fetch outcome removes it. */
  lemma {:induction false} SentimentNeverCleared(s: HomeState, outcomes: seq<Result<ApiData, Thrown>>)
    requires s.latestSentiment.Some?
    ensures ApplyMongoFetches(s, outcomes).latestSentiment.Some?
    decreases |outcomes|
  {
    if outcomes != [] {
      SentimentNeverCleared(AfterMongoFetch(s, outcomes[0]), outcomes[1..]);
    }
  }

  /** A sequence of fetch outcomes applied in order. */
  function ApplyMongoFetches(s: HomeState, outcomes: seq<Result<ApiData, Thrown>>): HomeState
    decreases |outcomes|
  {
    if outcomes == [] then s else ApplyMongoFetches(AfterMongoFetch(s, outcomes[0]), outcomes[1..])
  }

  // ---------------------------------------------------------------------------
  // Gauge or loading text
  // ---------------------------------------------------------------------------

  /** What the mood section shows: the loading text, or the gauge with its score,
      colour, dial position and update time. */
  datatype MoodView =
    | Loading
    | Gauge(score: real, color: string, dial: real, updatedAt: string)

  /** The gauge is shown exactly when a summary is present, whatever its score;
      its colour is that of the band holding the score, and its dial position is
      the score's normalized value, which lies in [0, 1] for a score in [-1, 1]. */
  function MoodSection(s: HomeState): (v: MoodView)
    ensures v.Gauge? <==> s.latestSentiment.Some?
    ensures v.Gauge? ==>
      && v.score == s.latestSentiment.value.overallSentimentScore
      && v.updatedAt == s.latestSentiment.value.timestamp
      && (forall b :: v.color == MarketMoodGauge.BandColor(b) <==> MarketMoodGauge.InBand(v.score, b))
      && v.dial == MarketMoodGauge.NormalizedValue(v.score)
      && (-1.0 <= v.score <= 1.0 ==> 0.0 <= v.dial <= 1.0)
  {
    match s.latestSentiment
    case None => Loading
    case Some(summary) =>
      var score := summary.overallSentimentScore;
      forall b ensures MarketMoodGauge.GetGaugeColor(score) == MarketMoodGauge.BandColor(b) <==> MarketMoodGauge.InBand(score, b) {
        MarketMoodGauge.GaugeColorIsBandColor(score, b);
      }
      Gauge(score, MarketMoodGauge.GetGaugeColor(score), MarketMoodGauge.NormalizedValue(score), summary.timestamp)
  }

  /** A summary with score 0 is real data: the gauge is shown, in the Neutral
      colour, not the loading text. */
  lemma ZeroScoreShowsGauge(s: HomeState)
    requires s.latestSentiment.Some? && s.latestSentiment.value.overallSentimentScore == 0.0
    ensures MoodSection(s).Gauge?
    ensures MoodSection(s).color == MarketMoodGauge.BandColor(MarketMoodGauge.Neutral)
  {
  }

  /** From the stored compact date to the screen: a summary scored 0.2 and no
      articles give a 200 answer with the date reformatted and no articles; the
      page then shows the gauge in the Somewhat-Bullish colour and keeps its
      previous article list. */
  lemma EndToEnd(s: HomeState, moodLabel: string, counts: SentimentCounts)
    ensures var stored := SentimentSummary("20240315", 0.2, moodLabel, counts);
      var res := FetchData.Respond(true, Success([stored]), Success([]));
      var s' := AfterMongoFetch(s, Success(ParseResponse(res)));
      && res.status == 200
      && res.body == FetchData.Data([stored.(timestamp := "2024-03-15")], [])
      && s'.articleData == s.articleData
      && MoodSection(s') == Gauge(0.2, MarketMoodGauge.BandColor(MarketMoodGauge.SomewhatBullish),
                                  0.6, "2024-03-15")
  {
    var stored := SentimentSummary("20240315", 0.2, moodLabel, counts);
    FetchData.FormatDateOfCompact("20240315");
    assert FetchData.FormatDate("20240315") == "2024-03-15";
    var res := FetchData.Respond(true, Success([stored]), Success([]));
    assert res.body.summary[0] == stored.(timestamp := "2024-03-15");
    assert res.body.summary == [stored.(timestamp := "2024-03-15")];
    MarketMoodGauge.GaugeColorIsBandColor(0.2, MarketMoodGauge.SomewhatBullish);
  }
}
