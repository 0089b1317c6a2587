# Email auditor pipeline — Dafny model

This project models the core of an email-audit bot. The bot turns a free-text request into
a Mimecast message-finder search:

1. The query parser sends the text to a language model and offers it exactly one tool, `search_mimecast`.
2. The parser takes the first `tool_use` block of the reply and validates its arguments into search parameters.
3. The Mimecast client builds a signed search request from those parameters and the clock.
4. The client normalises the provider's reply into email records.
5. The email auditor is a two-state object, uninitialised or ready. It sequences the two steps and wraps the outcome in a result envelope.

Two small pieces are modelled as well: the logger's bounded metrics buffer and the environment lookups of the configuration.

Files, one module each:

- `wrappers.dfy` (`Wrappers`): `Option`, `Result` and `Outcome`. A thrown `Error` is an `Err`/`Fail` carrying its message.
- `types.dfy` (`Types`): the records of `src/lib/types.ts` and JavaScript truthiness for optional strings and numbers.
- `config.dfy` (`Config`): `getEnv`, `getEnvNumber` and a base-10 `parseInt` model.
- `logging.dfy` (`Logging`): the `AppLogger` class with its `metrics` buffer and its write methods.
- `query_parser.dfy` (`QueryParsing`): parameter validation, tool-call extraction, the error prefix and the `QueryParser` class.
- `mimecast_client.dfy` (`MimecastApi`): request construction, response normalisation, the request-signing layout and the `MimecastClient` class.
- `email_auditor.dfy` (`Auditor`): the `EmailAuditor` class, its result envelope and lemmas about the whole pipeline.

Remote services are total functions passed in by the caller:

- `LlmRequest -> Result<LlmResponse>` for the language model;
- `Post -> Result<ResponseBody>` for Mimecast;
- `(string, string) -> string` for HMAC-SHA1 keyed with the decoded secret, with a base64 digest.

Any behaviour of a service is some such function. The collaborator classes keep a ghost log of every request they send (`QueryParser.sent`, `MimecastClient.posts`). Through these logs the auditor's contracts state which calls happen, with which arguments and in which order. Clock readings, the random request id and the HTTP date are integer or string parameters.

The day count falls back to 7 only when it is absent or `0`, that is falsy. A negative count is kept, and the search window then starts after it ends (`MimecastApi.NegativeDaysInvertWindow`). A count so large that the window's start falls outside the range of a JavaScript `Date` makes building the request fail with "Invalid time value" before anything is sent (`MimecastApi.HugeWindowFails`).

Where the code is looser than the types declared in src/lib/types.ts, the model follows the code:

- The parameters' `status` is whatever truthy string the model sent; nothing checks it against the four-value enum.
- A record's `status` is the provider's `route` or `'unknown'`. Both status fields are therefore `string`.

## Model

| member | source | states |
|---|---|---|
| `Config.GetEnv` | src/lib/config.ts:9-16 | a defined key yields its value verbatim, even `''`; only an undefined key falls back to the default; with no default the error names the key |
| `Config.GetEnvNumber` | src/lib/config.ts:18-27 | undefined key: the default unparsed, or the missing-variable error; defined key: succeeds exactly when `parseInt` is not NaN, with that number, else "Invalid number for KEY: value" |
| `Config.GetEnvDefinedIgnoresDefault` | src/lib/config.ts:10-15 | for a defined key the result is the same for every default |
| `Config.GetEnvNumberDefinedIgnoresDefault` | src/lib/config.ts:19-25 | for a defined key the default is never used, even when parsing fails |
| `Config.GetEnvNumberRoundTrip` | src/lib/config.ts:24-26 | a variable holding the base-10 text of n reads back as n, whatever the default |
| `Config.ParseIntDecimalString` | src/lib/config.ts:24 | the `parseInt` model reads back every integer written in base 10 |
| `Config.ParseIntPrefix` | src/lib/config.ts:24 | for every integer n and every text t that does not start with a digit, the base-10 text of n followed by t reads as n: `parseInt` stops at the first non-digit |
| `Config.ParseIntSkipsWhiteSpace` | src/lib/config.ts:24 | any run of leading white space leaves the result unchanged |
| `Config.ParseIntSign` | src/lib/config.ts:24 | for text starting with a digit, a leading '-' negates the number and a leading '+' changes nothing |
| `Config.ParseIntNaNExactly` | src/lib/config.ts:24-25 | the result is NaN exactly when the text, after its white space, starts with neither a digit nor a sign followed by a digit |
| `Config.GetEnvNumberRejectsNonNumeric` | src/lib/config.ts:24-25 | a defined variable whose text does not start numerically gives "Invalid number for KEY: value", whatever the default |
| `Config.ParseIntReadsNumericPrefix` | src/lib/config.ts:24 | example: "80abc" is 80 |
| `Config.ParseIntSkipsSpaceAndSign` | src/lib/config.ts:24 | example: " -42" is -42 |
| `Config.ParseIntRejectsNonNumeric` | src/lib/config.ts:24-25 | example: "abc" is NaN |
| `Logging.Retain` | src/lib/logger.ts:44-47 | the new metric is last; below capacity it is appended and the earlier entries are kept in order; at capacity the oldest is dropped and the length stays; a buffer within 1000 stays within 1000 |
| `Logging.RetainAllKeepsNewest` | src/lib/logger.ts:44-47 | after any number of additions to a buffer within capacity, the buffer is exactly the newest 1000 of everything seen, oldest first |
| `Logging.MetricsFromEmpty` | src/lib/logger.ts:26 | from the empty initial buffer, n additions leave min(n, 1000) entries, the last ones added |
| `Logging.AppLogger.constructor` | src/lib/logger.ts:25-26 | a new logger has an empty metrics buffer, within capacity |
| `Logging.AppLogger.Info` | src/lib/logger.ts:28-30 | writes one info entry; `metrics` is unchanged |
| `Logging.AppLogger.Warn` | src/lib/logger.ts:32-34 | writes one warn entry; `metrics` is unchanged |
| `Logging.AppLogger.Error` | src/lib/logger.ts:36-38 | writes one error entry; `metrics` is unchanged |
| `Logging.AppLogger.Debug` | src/lib/logger.ts:40-42 | writes one debug entry; `metrics` is unchanged |
| `Logging.AppLogger.AddMetric` | src/lib/logger.ts:44-47 | the buffer becomes `Retain(old buffer, metric)` in place and the capacity invariant is preserved |
| `QueryParsing.ValidateParameters` | src/services/query-parser.ts:103-118 | status is the argument when truthy, else 'all'; days is the argument when truthy, else 7; a truthy sender with '@' sets only `sender`, one without sets only `domain`; otherwise neither; never both |
| `QueryParsing.ValidateIdempotent` | src/services/query-parser.ts:103-118 | validating the tool arguments that denote validated parameters gives them back unchanged |
| `QueryParsing.WellFormedIsFixedPoint` | src/services/query-parser.ts:103-118 | a parameter record is left unchanged by validation exactly when it is well formed: a non-empty status, a truthy day count, at most one of sender and domain, the sender with '@', the domain non-empty and without '@' |
| `QueryParsing.FirstToolUse` | src/services/query-parser.ts:87 | finds the first `tool_use` block: none precedes it, and None exactly when there is none |
| `QueryParsing.ExtractToolCall` | src/services/query-parser.ts:80-98 | absent or empty content fails with "No response from LLM"; no `tool_use` block fails with the rephrase message; otherwise the first `tool_use` block's name, unchecked, and its validated input |
| `QueryParsing.ParseOutcome` | src/services/query-parser.ts:37-44 | succeeds exactly when the model call and the extraction do; every failure is "Failed to parse query: " followed by the original message |
| `QueryParsing.PlainTextAsksToRephrase` | src/services/query-parser.ts:87-91 | a plain-text reply is the rephrase failure, not the no-response failure |
| `QueryParsing.QueryParser.constructor` | src/services/query-parser.ts:15-17 | a new parser uses the configured model and has sent nothing |
| `QueryParsing.QueryParser.ParseQuery` | src/services/query-parser.ts:22-45 | sends one request with the model, 1024 tokens, the one tool and the query as the user message; the result is `ParseOutcome` of the reply |
| `QueryParsing.QueryParser.HealthCheck` | src/services/query-parser.ts:123-130 | parses the fixed probe query and is true exactly when that succeeds |
| `MimecastApi.BuildSearchRequest` | src/services/mimecast-client.ts:60-87 | fails with "Invalid time value" exactly when the window's start or end lies outside the ±8.64e15 ms range of a `Date`; otherwise page size 100 and one criterion; end is now and the window is (days or 7) days long; sender matched exactly and winning over domain; domain as '@domain'; no searchBy/query without either; route present exactly when status is not 'all', equal to it |
| `MimecastApi.PositiveWindow` | src/services/mimecast-client.ts:61-63 | a positive day count gives a non-empty window of exactly that many days |
| `MimecastApi.NegativeDaysInvertWindow` | src/services/mimecast-client.ts:61-63 | a negative day count is used as is and the window's start lies after its end |
| `MimecastApi.HugeWindowFails` | src/services/mimecast-client.ts:61-62 | more than 200 000 000 days back from any valid clock reading is outside the `Date` range, so the request cannot be built |
| `MimecastApi.YearWindowBuilds` | src/services/mimecast-client.ts:61-63 | a window of 1 to 365 days from a clock reading at least a year inside the range is always built |
| `MimecastApi.ParseSearchResponse` | src/services/mimecast-client.ts:92-106 | absent data gives no records; otherwise one record per provider message, same length, same order |
| `MimecastApi.CompleteMessageKept` | src/services/mimecast-client.ts:97-105 | a message carrying every field is copied field by field under the record's names |
| `MimecastApi.EmptyMessageDefaults` | src/services/mimecast-client.ts:98-104 | a message with no fields gets '', '(No Subject)', '', '', 'unknown', 'Unknown' and the clock time |
| `MimecastApi.FieldsFallBackIndependently` | src/services/mimecast-client.ts:97-105 | changing one provider field changes only the record field it maps to, with that field's default |
| `MimecastApi.ParseSearchResponseAppends` | src/services/mimecast-client.ts:97 | normalising a concatenated reply is concatenating the normalised parts, so the provider's order is kept |
| `MimecastApi.SearchOutcome` | src/services/mimecast-client.ts:38-54 | a failed call is always an error, "Mimecast search failed: " plus the message, never an empty result; a reply is normalised |
| `MimecastApi.SigningStringSeparatesRequests` | src/services/mimecast-client.ts:112-115 | at one date, two different request ids never produce the same `date:requestId:url:appKey` signing string |
| `MimecastApi.MimecastClient.constructor` | src/services/mimecast-client.ts:16-27 | a new client holds the credentials and the signer and has sent nothing |
| `MimecastApi.MimecastClient.AddAuthHeaders` | src/services/mimecast-client.ts:111-126 | sets x-mc-req-id, x-mc-date, x-mc-app-id and `Authorization = 'MC ' + accessKey + ':' + hmac(secret, date:requestId:url:appKey)` in place, other headers unchanged |
| `MimecastApi.MimecastClient.Send` | src/services/mimecast-client.ts:23-26 | every outgoing request passes through the signing interceptor before the transport sees it |
| `MimecastApi.MimecastClient.SearchMessages` | src/services/mimecast-client.ts:32-55 | when the request cannot be built, nothing is sent and its error passes through without the "Mimecast search failed: " prefix; otherwise sends exactly one signed POST of the built request to the search endpoint, and the result is `SearchOutcome` of the reply |
| `MimecastApi.MimecastClient.HealthCheck` | src/services/mimecast-client.ts:131-139 | sends one signed account probe; true exactly when it succeeds, a failure is swallowed |
| `Auditor.Assemble` | src/agents/email-auditor.ts:58-67 | the envelope holds the query text, the parser's parameters, the client's records unchanged and `totalCount` equal to the number of records; a search failure is "Failed to process query: " plus its message |
| `Auditor.EmailAuditor.constructor` | src/agents/email-auditor.ts:13-20 | a new auditor is not initialised and owns a fresh parser and a fresh client |
| `Auditor.EmailAuditor.Initialize` | src/agents/email-auditor.ts:25-35 | probes the client once; becomes ready exactly when the probe succeeds, else fails with "Mimecast client health check failed" and the flag is unchanged |
| `Auditor.EmailAuditor.ProcessQuery` | src/agents/email-auditor.ts:40-80 | not initialised: the not-initialised error and neither collaborator is called; otherwise the parser runs first, a parse failure skips the client, and the client receives exactly the parser's output; an unbuildable window is "Failed to process query: Invalid time value" with nothing sent; failures carry "Failed to process query: " |
| `Auditor.EmailAuditor.HealthCheck` | src/agents/email-auditor.ts:85-93 | `initialized` and the client's probe succeeded |
| `Auditor.EmailAuditor.Shutdown` | src/agents/email-auditor.ts:98-101 | the auditor is no longer initialised |
| `Auditor.LifecycleScenario` | src/agents/email-auditor.ts:41-43 | a query before `initialize` and a query after `shutdown` both fail with the not-initialised error |
| `Auditor.SenderArgumentBecomesQuery` | src/services/mimecast-client.ts:71-77 | a sender argument reaches the provider as `searchBy 'sender'` with the address exactly or '@' + the bare domain; the query always holds '@' |
| `Auditor.NoSenderArgumentNoQuery` | src/services/mimecast-client.ts:71-77 | without a sender argument the request has neither searchBy nor query |
| `Auditor.ValidatedWindow` | src/services/mimecast-client.ts:61-63 | the window of a validated query is the model's day count when truthy, else 7 days; the request is built exactly when both ends of that window are valid dates; the client's own fallback never fires |
| `Auditor.ValidatedRoute` | src/services/mimecast-client.ts:79-81 | a validated query filters on route exactly when the model named a truthy status other than 'all', with that status |
| `Auditor.EndToEndExample` | src/agents/email-auditor.ts:51-65 | `{status: 'blocked', sender: 'test@example.com', days: 3}` with one provider message gives count 1, that sender, no domain, 3 days |
| `Auditor.EmptyReplyIsEmptyResult` | src/services/mimecast-client.ts:93-95 | a reply with `data: []` gives a successful envelope with no records and count 0 |

## Left out

- The Anthropic SDK call, the axios POSTs and both health probes are not modelled as network calls. Each is a function parameter that returns a value or fails.
- HMAC-SHA1, base64 decoding and `crypto.randomUUID` stay uninterpreted. The signer is a function of the secret and the signing string; the request id and the date are parameters.
- Date formatting and parsing are not modelled: `toISOString`, `toUTCString`, and `new Date(received)` on the provider's text. Times are integer milliseconds, and a provider timestamp is kept as its raw text.
- The source reads the clock separately for a window's start and end, and once per record without `received`. `MimecastApi.BuildSearchRequest` and `MimecastApi.ParseSearchResponse` use one `now` per call instead.
- `MimecastApi.MimecastClient.SearchMessages`: one `now` stands for the clock both when the request is built and when the reply is normalised (src/services/mimecast-client.ts:62-63 and 104), although the source reads the clock again after the POST.
- `Auditor.Assemble`: `executionTime` and `timestamp` both use `clock.finished`, although the source reads the clock twice (src/agents/email-auditor.ts:58 and 66).
- `MimecastApi.BuildSearchRequest`: the window's start is computed exactly. The source multiplies in floating point, which rounds only when the product exceeds 2^53 ms. Such a start is outside the `Date` range anyway for any clock reading within ±3.6e14 ms.
- JavaScript values of unexpected types are not modelled: a non-string `status` or `sender`, a fractional or NaN `days`, a missing `input`, a `null` message, a non-object reply. Their `TypeError` paths are therefore absent too.
- `Config.ParseInt` covers integers only. It does not model the precision loss of `parseInt` past 2^53, the value `-0`, or the Unicode space separators beyond U+00A0.
- `Auditor.EmailAuditor.HealthCheck`: the catch branch is not modelled, because the client's probe never throws (it swallows its own failures).
- Logging is not modelled inside the parser, the client and the auditor. Neither are the winston transports, level filtering, or the metadata and stack formatting of `error`.
- The parse duration that `parseQuery` computes only for its log line is not modelled.
- The tool's description strings are not modelled. The tool keeps its name, property names, status values, required list and default day count.
- The module-load `config` object, `dotenvConfig()` and the winston set-up in `src/lib/logger.ts` are not modelled.
- The chat layer is not part of this model: `src/teams/` (cards, message handler, bot adapter), `src/server.ts` and `src/index.ts`.
- Concurrency is not modelled. Every `await` is a sequential step.
