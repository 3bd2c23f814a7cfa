# Market mood dashboard: a Dafny model

This project models the logic of a small market-sentiment dashboard. The model has four parts.

- **The `/api/fetchData` endpoint.** A database client is connected once per process and then reused. The endpoint reads the latest sentiment summary and all analysed articles. It rewrites the summary's compact `YYYYMMDD` timestamp as `YYYY-MM-DD` and answers 200 with both lists, or 500 with a fixed error body.
- **The mood gauge.** It maps a sentiment score to one of five band colours and to a position on a half-circle dial.
- **The self-scrolling article list.** Each animation frame moves it down by half a pixel unless the pointer hovers over it. Once it reaches the bottom it jumps back to the top.
- **The dashboard page.** It holds the component state that the two fetches update. It also builds the six sector quote entries and the `(url, score, label)` tuples for the article list, and chooses between the gauge and a loading text.

Modules:
- `Wrappers` (wrappers.dfy) holds `Option` and `Result`.
- `MarketData` (market_data.dfy) holds the summary and article records.
- `FetchData` (fetch_data.dfy) is the endpoint: the date helper, the `ConnectionCache` class with its `cachedClient` slot, and the handler.
- `MarketMoodGauge` (market_mood_gauge.dfy) is the gauge.
- `AutoScrollingArticles` (auto_scrolling_articles.dfy) is the scrolling list. It is the `ScrollingArticles` class, with a pure `NextTop`/`Frames` specification of the tick.
- `Page` (page.dfy) is the page state and its projections.

Inputs from outside are parameters of the model:
- the outcome of the database handshake;
- the results of the two collection queries;
- the quote returned for each ticker;
- the parsed response on the page.

The model follows the code as written. Four of its behaviours are worth knowing before reading the contracts:
- **The date reformatting is not idempotent.** One might expect an already canonical `YYYY-MM-DD` date to come back unchanged. It does not: the code always takes characters 0–4, 4–6 and 6–8, so `"2024-03-15"` becomes `"2024--0-3-"`. A canonical date is not a fixed point of the reformatting (`FetchData.FormatDateNotIdempotent`, `FetchData.CanonicalDateNotFixed`).
- **There is no guard against a zero previous close.** The percent change divides by `pc` directly, with no fallback to `'N/A'`. The model therefore requires `pc != 0` for a successful quote.
- **A missing price field is not a failure.** A quote body without `c` or `pc` does not throw. Any throw inside the `try` gives `'N/A'`: from `fetch`, from `json()`, or from reading `c` of a `null` body.
- **The page never checks the HTTP status.** A 500 answer parses to a body with no `summary` and no `analysis`, so the page state stays as it was (`Page.ParseIgnoresStatus`, `Page.ServerErrorKeepsState`).

## Model

| member | source | states |
|---|---|---|
| `FetchData.FormatDate` | pages/api/fetchData.ts:18-23 | The result is `min(|d|, 8) + 2` characters long. It has a hyphen right after the clamped year and right after the clamped month. |
| `FetchData.FormatDateOfCompact` | pages/api/fetchData.ts:19-22 | An 8-character date becomes `d[0..4] + "-" + d[4..6] + "-" + d[6..8]`, a canonical 10-character date with hyphens at indices 4 and 7. |
| `FetchData.FormatDateKeepsCharacters` | pages/api/fetchData.ts:19-22 | For any input, deleting the two inserted hyphens gives back exactly the first `min(|d|, 8)` characters. No character is lost, reordered or altered. |
| `FetchData.CompactAfterFormat` | pages/api/fetchData.ts:19-22 | Round trip: deleting indices 7 and 4 of the reformatted 8-character date gives back the input. |
| `FetchData.FormatAfterCompact` | pages/api/fetchData.ts:19-22 | Reverse round trip: reformatting the compact form of any canonical date gives back that date. |
| `FetchData.FormatDateUsesFirstEight` | pages/api/fetchData.ts:19-22 | Only the first eight characters are read: `FormatDate(s) == FormatDate(s[..8])`. |
| `FetchData.FormatDateNotIdempotent` | pages/api/fetchData.ts:19-22 | `"2024-03-15"` becomes `"2024--0-3-"`, so a canonical date is not a fixed point. |
| `FetchData.CanonicalDateNotFixed` | pages/api/fetchData.ts:19-22 | No canonical date whose character 5 is not a hyphen is left unchanged by the reformatting. |
| `FetchData.MongoClient.constructor` | pages/api/fetchData.ts:11 | A new client carries the configured URI and is not yet connected. |
| `FetchData.MongoClient.Connect` | pages/api/fetchData.ts:12 | The handshake succeeds exactly when the network lets it, and it marks the client connected. |
| `FetchData.ConnectionCache.constructor` | pages/api/fetchData.ts:6-7 | The process starts with an empty cache and no handshake made. |
| `FetchData.ConnectionCache.ConnectToDatabase` | pages/api/fetchData.ts:9-15 | A cached client is returned as is, with no new handshake. Otherwise one new client makes one handshake and is cached only on success. A failed connect returns a connection error and leaves the slot empty for a retry. The cache holds only a connected client. The history of connected clients only grows, and it never holds more than one client. |
| `FetchData.TwoSequentialConnects` | pages/api/fetchData.ts:9-15 | After a successful first call, a second call returns the identical client and only one handshake is made. After a failed first call, the second call retries. |
| `FetchData.Respond` | pages/api/fetchData.ts:26-54 | Status is 200 exactly when the connect and both queries succeed. Then the body holds the summaries with only the first timestamp reformatted, and the articles unchanged. Otherwise the answer is 500 with `{error: "Failed to fetch data"}` and no partial data. |
| `FetchData.Handler` | pages/api/fetchData.ts:25-55 | The handler connects through the cache, rewrites the first summary's timestamp in place, and answers exactly what `Respond` describes. A filled cache stays the same, with no handshake. From an empty cache, one handshake is made, and the cache is filled exactly when it succeeds, even if a query then fails. The cache invariant is preserved, and the history of connected clients only grows. |
| `FetchData.TwoSequentialRequests` | pages/api/fetchData.ts:10-14 | After a first request connects, a second request gets the same answer from the cached client even when the network would now refuse a handshake. Only one handshake is made. |
| `MarketMoodGauge.GetGaugeColor` | src/app/components/MarketMoodGauge.tsx:11-17 | The function is total and always returns one of the five colour tokens. |
| `MarketMoodGauge.BandsPartition` | src/app/components/MarketMoodGauge.tsx:12-16 | The five band intervals cover every real number with no gaps or overlaps. The intervals are (-∞,-0.35], (-0.35,-0.15], (-0.15,0.15), [0.15,0.35) and [0.35,∞). |
| `MarketMoodGauge.GaugeColorIsBandColor` | src/app/components/MarketMoodGauge.tsx:11-17 | The gauge shows a band's colour if and only if the score lies in that band. The redundant lower-bound guards do not change this. |
| `MarketMoodGauge.BoundaryColors` | src/app/components/MarketMoodGauge.tsx:12-16 | -0.35 is red, -0.15 is orange, 0.15 is light green and 0.35 is green. |
| `MarketMoodGauge.OutOfRangeColors` | src/app/components/MarketMoodGauge.tsx:12-16 | A score below -1 is red and a score above 1 is green. |
| `MarketMoodGauge.BandsMonotone` | src/app/components/MarketMoodGauge.tsx:12-16 | A higher score never falls in a lower band, with bands ordered from Bearish to Bullish. |
| `MarketMoodGauge.NormalizedValue` | src/app/components/MarketMoodGauge.tsx:25 | [-1,1] maps into [0,1], and `2r - 1` gives back the score. |
| `MarketMoodGauge.NormalizedValueOrder` | src/app/components/MarketMoodGauge.tsx:8-25 | The map is strictly increasing and sends -1 to 0, 0 to 0.5 and 1 to 1. |
| `AutoScrollingArticles.NextTop` | src/app/components/AutoScrollingArticles.tsx:19-24 | One tick keeps the offset non-negative. |
| `AutoScrollingArticles.Frames` | src/app/components/AutoScrollingArticles.tsx:19-25 | Any number of ticks keeps the offset non-negative. |
| `AutoScrollingArticles.FramesStayInBounds` | src/app/components/AutoScrollingArticles.tsx:20-23 | With fixed heights and `max >= 0`, the invariant `0 <= top < max + 0.5` holds after every number of ticks. |
| `AutoScrollingArticles.FitsViewportStaysAtTop` | src/app/components/AutoScrollingArticles.tsx:22-23 | When the content fits the viewport, the offset is 0 from the first tick on, hovering or not. |
| `AutoScrollingArticles.HoverFreezes` | src/app/components/AutoScrollingArticles.tsx:20-22 | While hovering below the bottom, any number of ticks leave the offset unchanged. |
| `AutoScrollingArticles.PauseThenResume` | src/app/components/AutoScrollingArticles.tsx:20-21 | After any number of paused ticks, the first unpaused tick advances from the frozen offset, not from 0. |
| `AutoScrollingArticles.AdvancesFromTop` | src/app/components/AutoScrollingArticles.tsx:20-21 | Starting at 0 without hover, the offset after `k` ticks is `k * 0.5` as long as the bottom has not been reached. |
| `AutoScrollingArticles.WrapsAtBottom` | src/app/components/AutoScrollingArticles.tsx:20-23 | Ticks strictly increase the offset until the first tick that reaches the bottom. The next tick resets the offset to 0. |
| `AutoScrollingArticles.ScrollIsPeriodic` | src/app/components/AutoScrollingArticles.tsx:20-23 | With fixed heights and no hover, the offsets repeat with period `k + 1`, where `k` is the first tick that reaches the bottom. |
| `AutoScrollingArticles.ScrollingArticles.constructor` | src/app/components/AutoScrollingArticles.tsx:11 | The list starts at the top and not hovered. |
| `AutoScrollingArticles.ScrollingArticles.Scroll` | src/app/components/AutoScrollingArticles.tsx:19-24 | The bottom is computed from the current heights on every tick. Below the bottom and not hovered, the offset advances by 0.5. At or past the bottom it becomes 0, hovered or not. Hovered below the bottom, it stays. The offset stays non-negative, and the bound is preserved under fixed heights. |
| `AutoScrollingArticles.ScrollingArticles.RunFrames` | src/app/components/AutoScrollingArticles.tsx:19-28 | `n` consecutive frames end at `Frames(n, …)` of the starting offset. |
| `AutoScrollingArticles.ScrollingArticles.MouseEnter` | src/app/components/AutoScrollingArticles.tsx:40 | Mouse-enter sets hovering to true. |
| `AutoScrollingArticles.ScrollingArticles.MouseLeave` | src/app/components/AutoScrollingArticles.tsx:41 | Mouse-leave sets hovering to false and leaves the offset alone. |
| `AutoScrollingArticles.ScrollingArticles.Relayout` | src/app/components/AutoScrollingArticles.tsx:20-22 | New content and viewport heights are stored, and the next tick reads them. |
| `AutoScrollingArticles.HoverPauseAndResume` | src/app/components/AutoScrollingArticles.tsx:20-22 | Hovering for `n` frames and then leaving ends one step past the offset where the hover began. The heights are left unchanged. |
| `Page.PercentChange` | src/app/page.tsx:58 | Applying the percent change to the previous close gives back the current price. |
| `Page.ChangeSign` | src/app/page.tsx:124-125 | For a positive previous close, the change is non-negative (an up arrow) exactly when the price did not fall. |
| `Page.SectorEntryFor` | src/app/page.tsx:52-63 | The entry is named after its sector. It has value `c` and the percent change for a quote. It has `'N/A'` for both fields exactly when the request threw. |
| `Page.FetchSectorData` | src/app/page.tsx:50-65 | There is one entry per ticker, in input order, and each entry is built from its own ticker's quote. |
| `Page.SectorDataShape` | src/app/page.tsx:32-39 | The page gets six entries named after the six sectors, in order. A sector whose request threw shows `'N/A'` twice. |
| `Page.FailureIsolated` | src/app/page.tsx:52-63 | If two runs' quotes differ on one ticker only, all other entries are the same. |
| `Page.FormattedArticles` | src/app/page.tsx:91-95 | The result has the same length as the input, and entry `i` is `(url_i, sentiment_score_i, sentiment_label_i)`. |
| `Page.FormattedArticlesAppend` | src/app/page.tsx:91-95 | The projection keeps order: it distributes over concatenation. |
| `Page.InitialState` | src/app/page.tsx:42-44 | On first render there are no sectors and no article tuples, and the mood section shows the loading text. |
| `Page.ParseResponse` | src/app/page.tsx:75-76 | A 200 body yields its summary and article lists as present fields. A 500 error body yields neither field with items. |
| `Page.ParseIgnoresStatus` | src/app/page.tsx:75-82 | The status code plays no part in what the page reads from a response. |
| `Page.AfterMongoFetch` | src/app/page.tsx:74-85 | The latest summary becomes `summary[0]` only for a present, non-empty list; otherwise it is kept. The article list is replaced only by a non-empty list. A throw changes nothing, and the sectors are never touched. |
| `Page.AfterSectorFetch` | src/app/page.tsx:66 | Only the sector list is replaced. |
| `Page.ServerErrorKeepsState` | src/app/page.tsx:76-82 | A 500 answer from the endpoint leaves the page state unchanged. |
| `Page.SentimentNeverCleared` | src/app/page.tsx:77-79 | Once a summary is shown, no sequence of later fetch outcomes removes it. |
| `Page.MoodSection` | src/app/page.tsx:138-151 | The gauge is shown exactly when a summary is present. Its score and time are the summary's. Its colour is the colour of the score's band. Its dial is `NormalizedValue(score)`, i.e. `(score + 1) / 2` as at MarketMoodGauge.tsx:25, and lies in [0,1] for a score in [-1,1]. |
| `Page.ZeroScoreShowsGauge` | src/app/page.tsx:138-141 | A summary with score 0 shows the gauge in the Neutral colour, not the loading text. |
| `Page.EndToEnd` | src/app/page.tsx:76-82 | Take a stored summary dated `"20240315"` with score 0.2, and no articles. The endpoint answers 200 with `"2024-03-15"` and an empty list. The page keeps its previous articles and shows the Somewhat-Bullish gauge at dial 0.6. |

## Left out

- `Page.SectorEntryFor`, `Page.FetchSectorData`, `Page.PercentChange`: these require a non-zero previous close. The code divides without a guard, and the Infinity/NaN it then produces is not modelled.
- `FetchData.Respond`: `formatDate` throws when the first summary's `timestamp` is missing or not a string, and the handler then answers 500. Timestamps are modelled as strings, so this path is not modelled. The claim "200 exactly when the connect and both queries succeed" holds only for string timestamps.
- `FetchData.FormatDate`: JavaScript `substring` counts UTF-16 code units, but a Dafny `string` is a sequence of Unicode scalar values. The model agrees with the code only when no character outside the Basic Multilingual Plane appears in the first eight positions. Dates are digits, so this holds for them.
- `Page.SectorEntryFor`: a quote body without `c` or `pc` does not throw in the code. It would give `undefined`/NaN fields, which are not modelled.
- The database (connecting, `find`/`sort`/`limit`/`toArray`) and the quote service. Their results are parameters; choosing the newest summary is the database's job.
- Concurrency: `Promise.all`, async interleaving, and two requests racing to fill the cached client. Sector fetching is a sequential map over per-ticker outcomes.
- `requestAnimationFrame`/`cancelAnimationFrame` scheduling and the effect's re-run and cleanup. Only the tick body and the hover handlers are modelled.
- Browser behaviour of `scrollTop`: clamping to [0, max] and sub-pixel rounding. Offsets are reals that follow the arithmetic as written.
- Floating point in general. Scores, offsets and percent changes are reals.
- Rendering: JSX, styling, `window.innerWidth` sizing, `toFixed`/`toLocaleString`/`Date` formatting, `console` logging, and the unused `today` variable in the handler.
- The info modal and the `isModalOpen` flag. Both are UI-only state.
