/**
 * The email auditor (src/agents/email-auditor.ts): a two-state object, uninitialised or ready,
 * that runs the parser and then the Mimecast client on each query and wraps the outcome in a
 * result envelope. The model endpoint, the HTTP transport and the clock are passed in per call.
 */
module Auditor {
  import opened Wrappers
  import opened Types
  import opened QueryParsing
  import opened MimecastApi

  const NotInitializedError := "EmailAuditor not initialized. Call initialize() first."
  const HealthFailedError := "Mimecast client health check failed"
  const ProcessErrorPrefix := "Failed to process query: "

  /** The clock readings of one `processQuery`: at the start, during the search, at the end (ms). */
  datatype Clock = Clock(started: int, searched: int, finished: int)

  /**
   * The envelope `processQuery` builds once the query is parsed: the search outcome's records,
   * their count and the elapsed time, or the search failure with the "Failed to process query: " prefix.
   */
  function Assemble(query: string, params: SearchParams, searched: Result<seq<MimecastEmail>>, clock: Clock): (r: Result<SearchResult>)
    ensures r.Ok? <==> searched.Ok?
    ensures r.Ok? ==> && r.value.query == query
                      && r.value.searchParams == params
                      && r.value.emails == searched.value
                      && r.value.totalCount == |r.value.emails|
                      && r.value.executionTime == clock.finished - clock.started
                      && r.value.timestamp == clock.finished
    ensures r.Err? ==> r.message == ProcessErrorPrefix + searched.message
  {
    match searched
    case Err(m) => Err(ProcessErrorPrefix + m)
    case Ok(emails) => Ok(SearchResult(query, params, emails, |emails|, clock.finished - clock.started, clock.finished))
  }

  class EmailAuditor {
    var initialized: bool
    const queryParser: QueryParser
    const mimecastClient: MimecastClient

    ghost predicate Valid()
      reads this
    {
      queryParser != mimecastClient as object
    }

    constructor (model: string, config: MimecastConfig, hmac: (string, string) -> string)
      ensures Valid() && !initialized
      ensures fresh(queryParser) && fresh(mimecastClient)
      ensures queryParser.model == model && queryParser.sent == []
      ensures mimecastClient.config == config && mimecastClient.hmac == hmac && mimecastClient.posts == []
    {
      initialized := false;
      queryParser := new QueryParser(model);
      mimecastClient := new MimecastClient(config, hmac);
    }

    /** `initialize`: becomes ready exactly when the client's health probe succeeds. */
    method Initialize(stamp: RequestStamp, transport: Post -> Result<ResponseBody>) returns (r: Outcome)
      requires Valid()
      modifies this, mimecastClient
      ensures Valid()
      ensures mimecastClient.posts == old(mimecastClient.posts) + [mimecastClient.AccountPost(stamp)]
      ensures r.Pass? <==> transport(mimecastClient.AccountPost(stamp)).Ok?
      ensures r.Pass? ==> initialized
      ensures r.Fail? ==> initialized == old(initialized) && r.message == HealthFailedError
      ensures unchanged(queryParser)
    {
      var mimecastHealthy := mimecastClient.HealthCheck(stamp, transport);
      if !mimecastHealthy {
        return Fail(HealthFailedError);
      }
      initialized := true;
      r := Pass;
    }

    /**
     * `processQuery`: refused before any call when not initialised; otherwise the parser runs
     * first, the client receives exactly its parameters, and any failure carries the prefix.
     * A window the client cannot format fails with "Invalid time value" before anything is sent.
     */
    method ProcessQuery(query: string, clock: Clock, llm: LlmRequest -> Result<LlmResponse>,
                        stamp: RequestStamp, transport: Post -> Result<ResponseBody>)
      returns (r: Result<SearchResult>)
      requires Valid()
      modifies queryParser, mimecastClient
      ensures !initialized ==> r == Err(NotInitializedError) && unchanged(queryParser, mimecastClient)
      ensures initialized ==> queryParser.sent == old(queryParser.sent) + [BuildLlmRequest(queryParser.model, query)]
      ensures initialized ==>
        var parsed := ParseOutcome(llm(BuildLlmRequest(queryParser.model, query)));
        && (parsed.Err? ==> r == Err(ProcessErrorPrefix + parsed.message) && unchanged(mimecastClient))
        && (parsed.Ok? ==>
              var built := BuildSearchRequest(parsed.value, clock.searched);
              && (built.Err? ==>
                    r == Err(ProcessErrorPrefix + InvalidTimeError) && mimecastClient.posts == old(mimecastClient.posts))
              && (built.Ok? ==>
                    var post := mimecastClient.SearchPost(built.value, stamp);
                    && mimecastClient.posts == old(mimecastClient.posts) + [post]
                    && r == Assemble(query, parsed.value, SearchOutcome(transport(post), clock.searched), clock)))
    {
      if !initialized {
        return Err(NotInitializedError);
      }
      var searchParams := queryParser.ParseQuery(query, llm);
      if searchParams.Err? {
        return Err(ProcessErrorPrefix + searchParams.message);
      }
      var emails := mimecastClient.SearchMessages(searchParams.value, clock.searched, stamp, transport);
      r := Assemble(query, searchParams.value, emails, clock);
    }

    /** `healthCheck`: ready and the client's probe succeeds; the client's probe never throws. */
    method HealthCheck(stamp: RequestStamp, transport: Post -> Result<ResponseBody>) returns (healthy: bool)
      requires Valid()
      modifies mimecastClient
      ensures mimecastClient.posts == old(mimecastClient.posts) + [mimecastClient.AccountPost(stamp)]
      ensures healthy == (initialized && transport(mimecastClient.AccountPost(stamp)).Ok?)
    {
      var mimecastHealthy := mimecastClient.HealthCheck(stamp, transport);
      healthy := initialized && mimecastHealthy;
    }

    /** `shutdown`: back to the uninitialised state, collaborators untouched. */
    method Shutdown()
      modifies this
      ensures !initialized
    {
      initialized := false;
    }
  }

  /**
   * The auditor's life cycle: a query before `initialize` and a query after `shutdown` are both
   * refused; in between, a healthy probe makes it ready.
   */
  method LifecycleScenario(model: string, config: MimecastConfig, hmac: (string, string) -> string,
                           query: string, clock: Clock, llm: LlmRequest -> Result<LlmResponse>,
                           stamp: RequestStamp, transport: Post -> Result<ResponseBody>)
    returns (before: Result<SearchResult>, ready: Outcome, after: Result<SearchResult>)
    ensures before == Err(NotInitializedError) && after == Err(NotInitializedError)
    ensures ready.Pass? <==> transport(Post(AccountEndpoint,
      SignedHeaders(config, hmac, ContentTypeHeaders, AccountEndpoint, stamp), AccountInfo)).Ok?
  {
    var auditor := new EmailAuditor(model, config, hmac);
    before := auditor.ProcessQuery(query, clock, llm, stamp, transport);
    assert auditor.queryParser.sent == [] && auditor.mimecastClient.posts == [];
    ready := auditor.Initialize(stamp, transport);
    auditor.Shutdown();
    after := auditor.ProcessQuery(query, clock, llm, stamp, transport);
  }

  // ---------------------------------------------------------------------------
  // The parser's output as the client's request: properties of the whole pipeline.
  // ---------------------------------------------------------------------------

  /**
   * Whatever the model passes as `sender`, the provider is asked to match the sender field
   * against it: an address exactly, a bare domain as `@domain`; the query always holds an `@`.
   */
  lemma SenderArgumentBecomesQuery(input: ToolInput, now: int)
    requires Truthy(input.sender)
    ensures var b := BuildSearchRequest(ValidateParameters(input), now);
      b.Ok? ==>
        var d := b.value.data[0];
        var s := input.sender.value;
        && d.searchBy == Some("sender")
        && d.query == Some(if '@' in s then s else "@" + s)
        && '@' in d.query.value
  {
  }

  /** Without a sender argument the request carries neither `searchBy` nor `query`. */
  lemma NoSenderArgumentNoQuery(input: ToolInput, now: int)
    requires !Truthy(input.sender)
    ensures var b := BuildSearchRequest(ValidateParameters(input), now);
      b.Ok? ==> b.value.data[0].searchBy.None? && b.value.data[0].query.None?
  {
  }

  /**
   * The window of a validated query is the model's day count when truthy, seven days otherwise,
   * and the request is built exactly when both ends of that window are valid dates; the client's
   * own fallback to seven never fires on validated parameters.
   */
  lemma ValidatedWindow(input: ToolInput, now: int)
    ensures var b := BuildSearchRequest(ValidateParameters(input), now);
      var span := (if TruthyNumber(input.days) then input.days.value else DefaultDays) * DayMs;
      && (b.Ok? <==> InDateRange(now - span) && InDateRange(now))
      && (b.Ok? ==> b.value.data[0].end == now && b.value.data[0].end - b.value.data[0].start == span)
    ensures ValidateParameters(input).days == Some(WindowDays(ValidateParameters(input).days))
  {
  }

  /** A validated query filters on route exactly when the model named a status other than `'all'`. */
  lemma ValidatedRoute(input: ToolInput, now: int)
    ensures var b := BuildSearchRequest(ValidateParameters(input), now);
      b.Ok? ==>
        var route := b.value.data[0].advancedTrackAndTraceOptions.route;
        && (route.Some? <==> Truthy(input.status) && input.status.value != "all")
        && (route.Some? ==> route.value == input.status.value)
  {
  }

  /**
   * An example: `{status: 'blocked', sender: 'test@example.com', days: 3}` and a reply with
   * one message give one record, the sender set, no domain and a three-day window.
   */
  lemma EndToEndExample(msg: ProviderMessage, now: int, clock: Clock)
    ensures var params := ValidateParameters(ToolInput(Some("blocked"), Some("test@example.com"), Some(3)));
      && params == SearchParams("blocked", Some("test@example.com"), None, Some(3))
      && var r := Assemble("Show blocked emails from test@example.com last 3 days", params,
                           SearchOutcome(Ok(ResponseBody(Some([msg]))), now), clock);
         r.Ok? && r.value.totalCount == 1 && r.value.searchParams.domain.None?
  {
    assert '@' in "test@example.com" by {
      assert "test@example.com"[4] == '@';
    }
  }

  /** A reply with an empty `data` array is a result with no records, not a failure. */
  lemma EmptyReplyIsEmptyResult(query: string, params: SearchParams, now: int, clock: Clock)
    ensures var r := Assemble(query, params, SearchOutcome(Ok(ResponseBody(Some([]))), now), clock);
      r.Ok? && r.value.emails == [] && r.value.totalCount == 0
  {
  }
}
