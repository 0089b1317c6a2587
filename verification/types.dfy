/** The records exchanged by the query parser, the Mimecast client and the auditor (src/lib/types.ts). */
module Types {
  import opened Wrappers

  /** JavaScript truthiness of an optional string: `undefined` and `''` are falsy. */
  predicate Truthy(s: Option<string>) {
    s.Some? && s.value != ""
  }

  /** JavaScript truthiness of an optional number: `undefined` and `0` are falsy. */
  predicate TruthyNumber(n: Option<int>) {
    n.Some? && n.value != 0
  }

  /**
   * Search parameters handed from the parser to the client. The declared type of `status`
   * is a four-value union, but the parser copies any truthy string into it, so it is a string here.
   */
  datatype SearchParams = SearchParams(
    status: string,
    sender: Option<string>,
    domain: Option<string>,
    days: Option<int>)

  /**
   * A record's time: the provider's `received` text, whose date parsing is not modelled,
   * or the client's clock in milliseconds when the provider sent none.
   */
  datatype Timestamp = ProviderTime(raw: string) | ClockTime(ms: int)

  /** One normalised message; `status` may be the provider's raw route or `'unknown'`. */
  datatype MimecastEmail = MimecastEmail(
    id: string,
    subject: string,
    sender: string,
    recipient: string,
    status: string,
    reason: string,
    timestamp: Timestamp)

  /** The envelope built once per processed query; times are milliseconds. */
  datatype SearchResult = SearchResult(
    query: string,
    searchParams: SearchParams,
    emails: seq<MimecastEmail>,
    totalCount: int,
    executionTime: int,
    timestamp: int)

  /** What the parser extracts from the language model's tool call. */
  datatype ToolCallResult = ToolCallResult(
    toolName: string,
    parameters: SearchParams,
    rawQuery: string)

  /** One entry of the logger's metrics buffer. */
  datatype PerformanceMetrics = PerformanceMetrics(
    timestamp: int,
    operation: string,
    duration: int,
    success: bool,
    errorMessage: Option<string>)
}
