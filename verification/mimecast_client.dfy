/**
 * The Mimecast client (src/services/mimecast-client.ts): builds the message-finder request from
 * search parameters and the clock, signs every request, and normalises the provider's reply into
 * email records. The HTTP transport, the HMAC-SHA1/base64 signer and the clock are passed in.
 */
module MimecastApi {
  import opened Wrappers
  import opened Types

  const DayMs := 24 * 60 * 60 * 1000
  const PageSize := 100
  const DefaultWindowDays := 7
  const SearchEndpoint := "/api/message-finder/search"
  const AccountEndpoint := "/api/account/get-account"
  const SearchErrorPrefix := "Mimecast search failed: "
  const NoSubject := "(No Subject)"
  const UnknownStatus := "unknown"
  const UnknownReason := "Unknown"

  /** The Mimecast credentials read from the environment. */
  datatype MimecastConfig = MimecastConfig(baseUrl: string, appId: string, appKey: string, accessKey: string, secretKey: string)

  /** `advancedTrackAndTraceOptions`: always present, with a `route` only for a specific status. */
  datatype TrackAndTraceOptions = TrackAndTraceOptions(route: Option<string>)

  /** One search criterion; `start` and `end` are milliseconds (their ISO formatting is not modelled). */
  datatype SearchData = SearchData(
    start: int,
    end: int,
    searchBy: Option<string>,
    query: Option<string>,
    advancedTrackAndTraceOptions: TrackAndTraceOptions)

  /** `{ meta: { pagination: { pageSize } }, data }` */
  datatype SearchRequest = SearchRequest(pageSize: int, data: seq<SearchData>)

  /** A message object of the provider's reply; `None` is an absent property. */
  datatype ProviderMessage = ProviderMessage(
    id: Option<string>,
    subject: Option<string>,
    from: Option<string>,
    to: Option<string>,
    route: Option<string>,
    detectionLevel: Option<string>,
    received: Option<string>)

  /** The provider's reply body; `data` is `None` when the array is absent. */
  datatype ResponseBody = ResponseBody(data: Option<seq<ProviderMessage>>)

  datatype RequestBody = Search(request: SearchRequest) | AccountInfo

  /** One HTTP POST as it leaves the client: path, headers after signing, body. */
  datatype Post = Post(url: string, headers: map<string, string>, body: RequestBody)

  /** The fresh per-request values: a random request id and the HTTP date. */
  datatype RequestStamp = RequestStamp(requestId: string, date: string)

  /** `params.days || 7` */
  function WindowDays(days: Option<int>): int {
    if TruthyNumber(days) then days.value else DefaultWindowDays
  }

  /** The largest distance from the epoch, in ms, that a JavaScript `Date` can hold. */
  const MaxTimeValue := 8_640_000_000_000_000
  const InvalidTimeError := "Invalid time value"

  /** A time value `toISOString` can format; outside this range it throws a `RangeError`. */
  predicate InDateRange(t: int) {
    -MaxTimeValue <= t <= MaxTimeValue
  }

  /**
   * `buildSearchRequest`: a window ending now and starting `days || 7` days earlier; a truthy
   * sender is searched for exactly and wins over the domain, which is searched as `@domain`;
   * a route only when the status is not `'all'`; one criterion and a page size of 100. Formatting
   * a window end outside the `Date` range throws "Invalid time value".
   */
  function BuildSearchRequest(params: SearchParams, now: int): (r: Result<SearchRequest>)
    ensures r.Err? <==> !InDateRange(now - WindowDays(params.days) * DayMs) || !InDateRange(now)
    ensures r.Err? ==> r.message == InvalidTimeError
    ensures r.Ok? ==> r.value.pageSize == PageSize && |r.value.data| == 1
    ensures r.Ok? ==> r.value.data[0].end == now
    ensures r.Ok? ==> r.value.data[0].end - r.value.data[0].start == WindowDays(params.days) * DayMs
    ensures r.Ok? && Truthy(params.sender) ==>
      r.value.data[0].searchBy == Some("sender") && r.value.data[0].query == params.sender
    ensures r.Ok? && !Truthy(params.sender) && Truthy(params.domain) ==>
      r.value.data[0].searchBy == Some("sender") && r.value.data[0].query == Some("@" + params.domain.value)
    ensures r.Ok? ==> (r.value.data[0].query.None? <==> !Truthy(params.sender) && !Truthy(params.domain))
    ensures r.Ok? ==> (r.value.data[0].searchBy.None? <==> r.value.data[0].query.None?)
    ensures r.Ok? ==> (r.value.data[0].advancedTrackAndTraceOptions.route.Some? <==> params.status != "all")
    ensures r.Ok? && r.value.data[0].advancedTrackAndTraceOptions.route.Some? ==>
      r.value.data[0].advancedTrackAndTraceOptions.route.value == params.status
  {
    var start := now - WindowDays(params.days) * DayMs;
    if !InDateRange(start) || !InDateRange(now) then Err(InvalidTimeError)
    else
      var base := SearchData(start, now, None, None,
        TrackAndTraceOptions(if params.status != "all" then Some(params.status) else None));
      var data :=
        if Truthy(params.sender) then base.(searchBy := Some("sender"), query := params.sender)
        else if Truthy(params.domain) then base.(searchBy := Some("sender"), query := Some("@" + params.domain.value))
        else base;
      Ok(SearchRequest(PageSize, [data]))
  }

  /** A positive day count gives a window of that many days ending now, whenever the request can be built. */
  lemma PositiveWindow(params: SearchParams, now: int)
    requires params.days.Some? && params.days.value > 0
    ensures var r := BuildSearchRequest(params, now);
      r.Ok? ==> (r.value.data[0].start < r.value.data[0].end
                 && r.value.data[0].end - r.value.data[0].start == params.days.value * DayMs)
  {
  }

  /** A negative day count is not corrected: the window starts after it ends. */
  lemma NegativeDaysInvertWindow(params: SearchParams, now: int)
    requires params.days.Some? && params.days.value < 0
    ensures var r := BuildSearchRequest(params, now);
      r.Ok? ==> r.value.data[0].start > r.value.data[0].end
  {
  }

  /**
   * A window of more than two hundred million days reaches back past the earliest date a `Date`
   * can hold from any clock reading in range, so building the request fails.
   */
  lemma HugeWindowFails(params: SearchParams, now: int)
    requires params.days.Some? && params.days.value > 200_000_000 && InDateRange(now)
    ensures BuildSearchRequest(params, now) == Err(InvalidTimeError)
  {
  }

  /** With a clock reading in range and a window of at most a year, the request is always built. */
  lemma YearWindowBuilds(params: SearchParams, now: int)
    requires params.days.Some? && 0 < params.days.value <= 365
    requires 365 * DayMs - MaxTimeValue <= now <= MaxTimeValue
    ensures BuildSearchRequest(params, now).Ok?
  {
  }

  /** `x || fallback` for an optional provider string. */
  function OrDefault(s: Option<string>, fallback: string): string {
    if Truthy(s) then s.value else fallback
  }

  /** One provider message mapped field by field, each field with its own default. */
  function NormaliseMessage(msg: ProviderMessage, now: int): MimecastEmail {
    MimecastEmail(
      OrDefault(msg.id, ""),
      OrDefault(msg.subject, NoSubject),
      OrDefault(msg.from, ""),
      OrDefault(msg.to, ""),
      OrDefault(msg.route, UnknownStatus),
      OrDefault(msg.detectionLevel, UnknownReason),
      if Truthy(msg.received) then ProviderTime(msg.received.value) else ClockTime(now))
  }

  /** `parseSearchResponse`: absent or empty data is no records; otherwise one record per message, in order. */
  function ParseSearchResponse(body: ResponseBody, now: int): (r: seq<MimecastEmail>)
    ensures body.data.None? ==> r == []
    ensures body.data.Some? ==> |r| == |body.data.value|
    ensures body.data.Some? ==> forall i :: 0 <= i < |r| ==> r[i] == NormaliseMessage(body.data.value[i], now)
  {
    if body.data.None? || body.data.value == [] then []
    else
      var msgs := body.data.value;
      seq(|msgs|, i requires 0 <= i < |msgs| => NormaliseMessage(msgs[i], now))
  }

  /** A message that carries every field is copied over unchanged, field by field. */
  lemma CompleteMessageKept(msg: ProviderMessage, now: int)
    requires Truthy(msg.id) && Truthy(msg.subject) && Truthy(msg.from) && Truthy(msg.to)
    requires Truthy(msg.route) && Truthy(msg.detectionLevel) && Truthy(msg.received)
    ensures NormaliseMessage(msg, now) == MimecastEmail(msg.id.value, msg.subject.value, msg.from.value,
      msg.to.value, msg.route.value, msg.detectionLevel.value, ProviderTime(msg.received.value))
  {
  }

  /** A message with no fields at all gets every default. */
  lemma EmptyMessageDefaults(now: int)
    ensures NormaliseMessage(ProviderMessage(None, None, None, None, None, None, None), now)
      == MimecastEmail("", NoSubject, "", "", UnknownStatus, UnknownReason, ClockTime(now))
  {
  }

  /** Changing one provider field changes only the record field it maps to. */
  lemma FieldsFallBackIndependently(msg: ProviderMessage, v: Option<string>, now: int)
    ensures var e := NormaliseMessage(msg, now);
      && NormaliseMessage(msg.(id := v), now) == e.(id := OrDefault(v, ""))
      && NormaliseMessage(msg.(subject := v), now) == e.(subject := OrDefault(v, NoSubject))
      && NormaliseMessage(msg.(from := v), now) == e.(sender := OrDefault(v, ""))
      && NormaliseMessage(msg.(to := v), now) == e.(recipient := OrDefault(v, ""))
      && NormaliseMessage(msg.(route := v), now) == e.(status := OrDefault(v, UnknownStatus))
      && NormaliseMessage(msg.(detectionLevel := v), now) == e.(reason := OrDefault(v, UnknownReason))
      && NormaliseMessage(msg.(received := v), now) == e.(timestamp := if Truthy(v) then ProviderTime(v.value) else ClockTime(now))
  {
  }

  /** Normalising a concatenated reply is normalising each part: order is the provider's. */
  lemma ParseSearchResponseAppends(a: seq<ProviderMessage>, b: seq<ProviderMessage>, now: int)
    ensures ParseSearchResponse(ResponseBody(Some(a + b)), now)
      == ParseSearchResponse(ResponseBody(Some(a)), now) + ParseSearchResponse(ResponseBody(Some(b)), now)
  {
    var whole := ParseSearchResponse(ResponseBody(Some(a + b)), now);
    var left := ParseSearchResponse(ResponseBody(Some(a)), now);
    var right := ParseSearchResponse(ResponseBody(Some(b)), now);
    assert |whole| == |left + right|;
    forall i | 0 <= i < |whole|
      ensures whole[i] == (left + right)[i]
    {
      if i < |a| {
        assert (a + b)[i] == a[i];
      } else {
        assert (a + b)[i] == b[i - |a|];
      }
    }
  }

  /**
   * `searchMessages` after the POST: a failed call is rethrown with the "Mimecast search failed: "
   * prefix and is never read as an empty result; a reply is normalised.
   */
  function SearchOutcome(reply: Result<ResponseBody>, now: int): (r: Result<seq<MimecastEmail>>)
    ensures r.Err? <==> reply.Err?
    ensures reply.Err? ==> r.message == SearchErrorPrefix + reply.message
    ensures reply.Ok? ==> r.value == ParseSearchResponse(reply.value, now)
  {
    match reply
    case Err(m) => Err(SearchErrorPrefix + m)
    case Ok(body) => Ok(ParseSearchResponse(body, now))
  }

  /** The text that is signed: `date:requestId:url:appKey`. */
  function SigningString(date: string, requestId: string, url: string, appKey: string): string {
    date + ":" + requestId + ":" + url + ":" + appKey
  }

  /** The `Authorization` header value: `MC accessKey:signature`. */
  function AuthorizationValue(accessKey: string, signature: string): string {
    "MC " + accessKey + ":" + signature
  }

  lemma SuffixCancels(x: string, y: string, t: string)
    requires x + t == y + t
    ensures x == y
  {
    assert |x| == |y|;
    assert x == (x + t)[..|x|];
    assert y == (y + t)[..|y|];
  }

  lemma PrefixCancels(t: string, x: string, y: string)
    requires t + x == t + y
    ensures x == y
  {
    assert x == (t + x)[|t|..];
    assert y == (t + y)[|t|..];
  }

  /** Two requests signed at the same date with different request ids never share a signing string. */
  lemma SigningStringSeparatesRequests(date: string, id1: string, id2: string, url: string, appKey: string)
    requires SigningString(date, id1, url, appKey) == SigningString(date, id2, url, appKey)
    ensures id1 == id2
  {
    var tail := ":" + url + ":" + appKey;
    assert SigningString(date, id1, url, appKey) == (date + ":") + (id1 + tail);
    assert SigningString(date, id2, url, appKey) == (date + ":") + (id2 + tail);
    PrefixCancels(date + ":", id1 + tail, id2 + tail);
    SuffixCancels(id1, id2, tail);
  }

  /** The headers after `addAuthHeaders` has run on `headers` for a request to `url`. */
  function SignedHeaders(config: MimecastConfig, hmac: (string, string) -> string,
                         headers: map<string, string>, url: string, stamp: RequestStamp): map<string, string> {
    headers
      ["x-mc-req-id" := stamp.requestId]
      ["x-mc-date" := stamp.date]
      ["x-mc-app-id" := config.appId]
      ["Authorization" := AuthorizationValue(config.accessKey,
          hmac(config.secretKey, SigningString(stamp.date, stamp.requestId, url, config.appKey)))]
  }

  /** An axios request configuration whose headers the interceptor fills in place. */
  class RequestConfig {
    const url: string
    var headers: map<string, string>

    constructor (url: string, headers: map<string, string>)
      ensures this.url == url && this.headers == headers
    {
      this.url := url;
      this.headers := headers;
    }
  }

  const ContentTypeHeaders: map<string, string> := map["Content-Type" := "application/json"]

  class MimecastClient {
    const config: MimecastConfig
    /** HMAC-SHA1 keyed with the base64-decoded secret, digest in base64: `hmac(secretKey, data)`. */
    const hmac: (string, string) -> string
    /** Every request that has left the client, in order. */
    ghost var posts: seq<Post>

    constructor (config: MimecastConfig, hmac: (string, string) -> string)
      ensures this.config == config && this.hmac == hmac && posts == []
    {
      this.config := config;
      this.hmac := hmac;
      posts := [];
    }

    /** `addAuthHeaders`: sets the four Mimecast headers on the request, leaving the others alone. */
    method AddAuthHeaders(cfg: RequestConfig, stamp: RequestStamp)
      modifies cfg
      ensures cfg.headers == SignedHeaders(config, hmac, old(cfg.headers), cfg.url, stamp)
      ensures cfg.headers["x-mc-req-id"] == stamp.requestId && cfg.headers["x-mc-date"] == stamp.date
      ensures cfg.headers["x-mc-app-id"] == config.appId
      ensures cfg.headers["Authorization"] == AuthorizationValue(config.accessKey,
        hmac(config.secretKey, SigningString(stamp.date, stamp.requestId, cfg.url, config.appKey)))
      ensures forall h :: h in old(cfg.headers) && h !in {"x-mc-req-id", "x-mc-date", "x-mc-app-id", "Authorization"} ==>
        h in cfg.headers && cfg.headers[h] == old(cfg.headers)[h]
    {
      var dataToSign := SigningString(stamp.date, stamp.requestId, cfg.url, config.appKey);
      var signature := hmac(config.secretKey, dataToSign);
      cfg.headers := cfg.headers["x-mc-req-id" := stamp.requestId];
      cfg.headers := cfg.headers["x-mc-date" := stamp.date];
      cfg.headers := cfg.headers["x-mc-app-id" := config.appId];
      cfg.headers := cfg.headers["Authorization" := AuthorizationValue(config.accessKey, signature)];
    }

    /** The signed POST that carries the search `request`. */
    function SearchPost(request: SearchRequest, stamp: RequestStamp): Post {
      Post(SearchEndpoint, SignedHeaders(config, hmac, ContentTypeHeaders, SearchEndpoint, stamp), Search(request))
    }

    /** The signed POST of the account probe. */
    function AccountPost(stamp: RequestStamp): Post {
      Post(AccountEndpoint, SignedHeaders(config, hmac, ContentTypeHeaders, AccountEndpoint, stamp), AccountInfo)
    }

    /** Sends `post` through the request interceptor and the transport. */
    method Send(post: Post, stamp: RequestStamp, transport: Post -> Result<ResponseBody>) returns (reply: Result<ResponseBody>)
      modifies this
      ensures var signed := post.(headers := SignedHeaders(config, hmac, post.headers, post.url, stamp));
        posts == old(posts) + [signed] && reply == transport(signed)
    {
      var cfg := new RequestConfig(post.url, post.headers);
      AddAuthHeaders(cfg, stamp);
      var signed := Post(cfg.url, cfg.headers, post.body);
      posts := posts + [signed];
      reply := transport(signed);
    }

    /**
     * `searchMessages`: the request is built before the guarded call, so a failure to build it
     * is passed on without the prefix and nothing is sent; otherwise one signed POST to the
     * search endpoint, then normalisation or the error prefix.
     */
    method SearchMessages(params: SearchParams, now: int, stamp: RequestStamp, transport: Post -> Result<ResponseBody>)
      returns (r: Result<seq<MimecastEmail>>)
      modifies this
      ensures var built := BuildSearchRequest(params, now);
        built.Err? ==> posts == old(posts) && r == Err(built.message)
      ensures var built := BuildSearchRequest(params, now);
        built.Ok? ==> (posts == old(posts) + [SearchPost(built.value, stamp)]
                       && r == SearchOutcome(transport(SearchPost(built.value, stamp)), now))
    {
      var requestData := BuildSearchRequest(params, now);
      if requestData.Err? {
        return Err(requestData.message);
      }
      var reply := Send(Post(SearchEndpoint, ContentTypeHeaders, Search(requestData.value)), stamp, transport);
      r := SearchOutcome(reply, now);
    }

    /** `healthCheck`: the account probe succeeds or the failure is swallowed as `false`. */
    method HealthCheck(stamp: RequestStamp, transport: Post -> Result<ResponseBody>) returns (healthy: bool)
      modifies this
      ensures posts == old(posts) + [AccountPost(stamp)]
      ensures healthy == transport(AccountPost(stamp)).Ok?
    {
      var reply := Send(Post(AccountEndpoint, ContentTypeHeaders, AccountInfo), stamp, transport);
      healthy := reply.Ok?;
    }
  }
}
