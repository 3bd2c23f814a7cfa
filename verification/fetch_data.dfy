/** The `/api/fetchData` endpoint (pages/api/fetchData.ts): the date reformatting
    helper, the process-wide cached database client, and the response the handler
    shapes from the two collection queries. The database itself is not modelled:
    the connect handshake and the two queries are inputs that succeed or fail. */
module FetchData {
  import opened Wrappers
  import opened MarketData

  // ---------------------------------------------------------------------------
  // formatDate
  // ---------------------------------------------------------------------------

  function Min(a: int, b: int): int { if a <= b then a else b }

  /** Clamps an index into [0, len], as JavaScript's `substring` does. */
  function Clamp(i: int, len: nat): (r: nat)
    ensures r <= len
  {
    if i < 0 then 0 else if i > len then len else i
  }

  /** JavaScript `String.prototype.substring`: both indices are clamped to the
      string, and they are swapped when the start lies after the end. */
  function Substring(s: string, start: int, end: int): (r: string)
    ensures |r| <= |s|
  {
    var a, b := Clamp(start, |s|), Clamp(end, |s|);
    if a <= b then s[a..b] else s[b..a]
  }

  /** Rewrites a compact `YYYYMMDD` date as `YYYY-MM-DD`. The result always holds a
      hyphen right after the (clamped) year and right after the (clamped) month, and
      is two characters longer than the at most eight characters it takes. */
  function FormatDate(mongoDate: string): (r: string)
    ensures |r| == Min(|mongoDate|, 8) + 2
    ensures r[Min(|mongoDate|, 4)] == '-' && r[Min(|mongoDate|, 6) + 1] == '-'
  {
    var year := Substring(mongoDate, 0, 4);
    var month := Substring(mongoDate, 4, 6);
    var day := Substring(mongoDate, 6, 8);
    year + "-" + month + "-" + day
  }

  /** `s` with the character at index `i` removed. */
  function DeleteAt(s: string, i: nat): (r: string)
    requires i < |s|
    ensures |r| == |s| - 1
  {
    s[..i] + s[i + 1..]
  }

  /** A date in canonical form: ten characters with hyphens at indices 4 and 7. */
  predicate IsCanonicalDate(c: string)
  {
    |c| == 10 && c[4] == '-' && c[7] == '-'
  }

  /** The compact encoding of a canonical date: its two hyphens deleted. */
  function CompactDate(c: string): (r: string)
    requires IsCanonicalDate(c)
    ensures |r| == 8
  {
    DeleteAt(DeleteAt(c, 7), 4)
  }

  /** On an eight-character date the result is year, hyphen, month, hyphen, day. */
  lemma FormatDateOfCompact(d: string)
    requires |d| == 8
    ensures FormatDate(d) == d[..4] + "-" + d[4..6] + "-" + d[6..]
    ensures IsCanonicalDate(FormatDate(d))
  {
  }

  /** Deleting the two inserted hyphens gives back the (at most eight) characters
      that were read: no input character is lost, reordered or altered. */
  lemma FormatDateKeepsCharacters(d: string)
    ensures var r := FormatDate(d);
            DeleteAt(DeleteAt(r, Min(|d|, 6) + 1), Min(|d|, 4)) == d[..Min(|d|, 8)]
  {
    var r := FormatDate(d);
    var n := Min(|d|, 8);
    var y, m := Min(|d|, 4), Min(|d|, 6);
    assert r == d[..y] + "-" + d[y..m] + "-" + d[m..n];
    var once := DeleteAt(r, m + 1);
    assert once == d[..y] + "-" + d[y..m] + d[m..n];
    assert DeleteAt(once, y) == d[..y] + d[y..m] + d[m..n];
    assert d[..y] + d[y..m] + d[m..n] == d[..n];
  }

  /** Round trip compact -> canonical -> compact. */
  lemma CompactAfterFormat(d: string)
    requires |d| == 8
    ensures IsCanonicalDate(FormatDate(d)) && CompactDate(FormatDate(d)) == d
  {
    FormatDateKeepsCharacters(d);
    assert d[..8] == d;
  }

  /** Round trip canonical -> compact -> canonical. */
  lemma FormatAfterCompact(c: string)
    requires IsCanonicalDate(c)
    ensures FormatDate(CompactDate(c)) == c
  {
    var d := CompactDate(c);
    assert d == c[..4] + c[5..7] + c[8..];
    FormatDateOfCompact(d);
    assert d[..4] == c[..4] && d[4..6] == c[5..7] && d[6..] == c[8..];
    assert c == c[..4] + "-" + c[5..7] + "-" + c[8..];
  }

  /** Only the first eight characters are read; anything after them is dropped. */
  lemma FormatDateUsesFirstEight(s: string)
    requires |s| >= 8
    ensures FormatDate(s) == FormatDate(s[..8])
  {
  }

  /** The reformatting is not idempotent: an already canonical date is mangled. */
  lemma FormatDateNotIdempotent()
    ensures FormatDate("2024-03-15") == "2024--0-3-"
    ensures FormatDate("2024-03-15") != "2024-03-15"
  {
    FormatDateOfCompact("2024-03-");
    FormatDateUsesFirstEight("2024-03-15");
  }

  /** No canonical date whose month starts with something other than a hyphen is a
      fixed point of the reformatting. */
  lemma CanonicalDateNotFixed(c: string)
    requires IsCanonicalDate(c) && c[5] != '-'
    ensures FormatDate(c) != c
  {
  }

  // ---------------------------------------------------------------------------
  // connectToDatabase and cachedClient
  // ---------------------------------------------------------------------------

  datatype DbError = ConnectionError | QueryError

  /** A database client; `connected` records whether its handshake succeeded. */
  class MongoClient {
    const uri: string
    var connected: bool

    constructor (uri: string)
      ensures this.uri == uri && !connected
    {
      this.uri := uri;
      connected := false;
    }

    /** The connect handshake; its outcome comes from the network, given here as
        `handshakeOk`. */
    method Connect(handshakeOk: bool) returns (ok: bool)
      modifies this
      ensures ok == handshakeOk && connected == ok
    {
      connected := handshakeOk;
      ok := handshakeOk;
    }
  }

  /** The module-level `cachedClient` slot with the `connectToDatabase` helper. */
  class ConnectionCache {
    const uri: string
    var cachedClient: MongoClient?
    /** Number of connect handshakes attempted so far. */
    ghost var handshakes: nat
    /** History of the clients whose handshake succeeded; it only grows. */
    ghost var connectedClients: set<MongoClient>

    /** The cache holds only a connected client, and every client that was ever
        connected is the cached one. */
    ghost predicate Valid()
      reads this, cachedClient
    {
      && (cachedClient != null ==> cachedClient.connected && cachedClient.uri == uri && cachedClient in connectedClients)
      && (forall c :: c in connectedClients ==> c == cachedClient)
    }

    constructor (uri: string)
      ensures Valid() && this.uri == uri && cachedClient == null && handshakes == 0 && connectedClients == {}
    {
      this.uri := uri;
      cachedClient := null;
      handshakes := 0;
      connectedClients := {};
    }

    /** Returns the cached client when there is one, with no new handshake;
        otherwise creates a client and connects it, caching it only when the
        handshake succeeds, so a failed connect leaves the slot empty for a retry. */
    method ConnectToDatabase(handshakeOk: bool) returns (r: Result<MongoClient, DbError>)
      requires Valid()
      modifies this
      ensures Valid() && old(connectedClients) <= connectedClients && |connectedClients| <= 1
      ensures old(cachedClient) != null ==>
        r == Success(old(cachedClient)) && cachedClient == old(cachedClient) && handshakes == old(handshakes)
      ensures old(cachedClient) == null ==> handshakes == old(handshakes) + 1
      ensures old(cachedClient) == null && handshakeOk ==>
        r.Success? && fresh(r.value) && cachedClient == r.value
      ensures old(cachedClient) == null && !handshakeOk ==>
        r == Failure(ConnectionError) && cachedClient == null
    {
      if cachedClient != null {
        assert connectedClients == {cachedClient};
        return Success(cachedClient);
      }
      var client := new MongoClient(uri);
      var ok := client.Connect(handshakeOk);
      handshakes := handshakes + 1;
      if !ok {
        return Failure(ConnectionError);
      }
      cachedClient := client;
      connectedClients := connectedClients + {client};
      r := Success(client);
    }
  }

  /** Two requests served one after the other by the same process: once the first
      connect succeeds, the second gets the very same client and no new handshake
      happens; after a failed first connect, the second call tries again. */
  method TwoSequentialConnects(cache: ConnectionCache, firstOk: bool, secondOk: bool)
    returns (first: Result<MongoClient, DbError>, second: Result<MongoClient, DbError>)
    requires cache.Valid() && cache.cachedClient == null
    modifies cache
    ensures cache.Valid()
    ensures firstOk ==> first.Success? && second == first && cache.handshakes == old(cache.handshakes) + 1
    ensures !firstOk ==> first == Failure(ConnectionError) && cache.handshakes == old(cache.handshakes) + 2
    ensures !firstOk ==> (second.Success? <==> secondOk)
  {
    first := cache.ConnectToDatabase(firstOk);
    second := cache.ConnectToDatabase(secondOk);
  }

  // ---------------------------------------------------------------------------
  // handler
  // ---------------------------------------------------------------------------

  datatype Body =
    | Data(summary: seq<SentimentSummary>, analysis: seq<ArticleData>)
    | Failed(error: string)

  datatype Response = Response(status: int, body: Body)

  /** The fixed answer to any failure while connecting or querying. */
  function ServerError(): Response
  {
    Response(500, Failed("Failed to fetch data"))
  }

  /** `after` is `before` with only the first summary's timestamp reformatted. */
  ghost predicate OnlyFirstTimestampFormatted(before: seq<SentimentSummary>, after: seq<SentimentSummary>)
  {
    && |after| == |before|
    && (|before| > 0 ==> after[0] == before[0].(timestamp := FormatDate(before[0].timestamp)))
    && forall i :: 1 <= i < |before| ==> after[i] == before[i]
  }

  /** The response the handler sends, given whether a connected client was obtained
      and the outcome of each query: 200 with the summaries (first timestamp
      reformatted) and the articles as they came when everything succeeded, and
      the fixed 500 error with no partial data otherwise. */
  function Respond(
    connected: bool,
    summaryQuery: Result<seq<SentimentSummary>, DbError>,
    analysisQuery: Result<seq<ArticleData>, DbError>): (r: Response)
    ensures r.status == 200 <==> connected && summaryQuery.Success? && analysisQuery.Success?
    ensures r.status == 200 ==>
      && r.body.Data?
      && OnlyFirstTimestampFormatted(summaryQuery.value, r.body.summary)
      && r.body.analysis == analysisQuery.value
    ensures r.status != 200 ==> r == ServerError()
  {
    if connected && summaryQuery.Success? && analysisQuery.Success? then
      var s := summaryQuery.value;
      var formatted := if |s| > 0 then [s[0].(timestamp := FormatDate(s[0].timestamp))] + s[1..] else s;
      Response(200, Data(formatted, analysisQuery.value))
    else
      ServerError()
  }

  /** The request handler: connects through the cache, reads the summaries,
      rewrites the first summary's timestamp in place, reads the articles and
      answers with the response `Respond` describes. */
  method Handler(
    cache: ConnectionCache,
    handshakeOk: bool,
    summaryQuery: Result<seq<SentimentSummary>, DbError>,
    analysisQuery: Result<seq<ArticleData>, DbError>) returns (res: Response)
    requires cache.Valid()
    modifies cache
    ensures cache.Valid() && old(cache.connectedClients) <= cache.connectedClients
    ensures old(cache.cachedClient) != null ==>
      cache.cachedClient == old(cache.cachedClient) && cache.handshakes == old(cache.handshakes)
    ensures old(cache.cachedClient) == null ==>
      cache.handshakes == old(cache.handshakes) + 1 && (cache.cachedClient != null <==> handshakeOk)
    ensures res == Respond(old(cache.cachedClient) != null || handshakeOk, summaryQuery, analysisQuery)
  {
    var client := cache.ConnectToDatabase(handshakeOk);
    if client.Failure? || summaryQuery.Failure? {
      return ServerError();
    }
    var rows := summaryQuery.value;
    var summaryData := new SentimentSummary[|rows|](i requires 0 <= i < |rows| => rows[i]);
    if summaryData.Length > 0 {
      summaryData[0] := summaryData[0].(timestamp := FormatDate(summaryData[0].timestamp));
    }
    if analysisQuery.Failure? {
      return ServerError();
    }
    res := Response(200, Data(summaryData[..], analysisQuery.value));
    assert |rows| > 0 ==> summaryData[..] == [rows[0].(timestamp := FormatDate(rows[0].timestamp))] + rows[1..];
  }

  /** Two requests served one after the other: once the first one has connected,
      the second is answered from the cached client whatever the network would do
      now, and no further handshake is made. */
  method TwoSequentialRequests(
    cache: ConnectionCache,
    summaryQuery: Result<seq<SentimentSummary>, DbError>,
    analysisQuery: Result<seq<ArticleData>, DbError>) returns (first: Response, second: Response)
    requires cache.Valid() && cache.cachedClient == null
    modifies cache
    ensures cache.Valid() && cache.cachedClient != null
    ensures first == second == Respond(true, summaryQuery, analysisQuery)
    ensures cache.handshakes == old(cache.handshakes) + 1
  {
    first := Handler(cache, true, summaryQuery, analysisQuery);
    second := Handler(cache, false, summaryQuery, analysisQuery);
  }
}
