/**
 * The language-model query parser (src/services/query-parser.ts): one tool is offered to the
 * model, the first `tool_use` block of its reply is taken, and the tool arguments are validated
 * into search parameters. The model endpoint itself is a function passed in by the caller.
 */
module QueryParsing {
  import opened Wrappers
  import opened Types

  /** The tool arguments as far as the tool schema types them; `None` is an absent argument. */
  datatype ToolInput = ToolInput(status: Option<string>, sender: Option<string>, days: Option<int>)

  /** The `type` of a reply block of any kind other than `text` and `tool_use`. */
  type OtherBlockType = t: string | t != "tool_use" && t != "text" witness "image"

  /** A block of the model's reply; only the `tool_use` kind is inspected. */
  datatype ContentBlock =
    | TextBlock(text: string)
    | ToolUseBlock(name: string, input: ToolInput)
    | OtherBlock(blockType: OtherBlockType)

  /** The model's reply; `content` is `None` when the reply carries no content array. */
  datatype LlmResponse = LlmResponse(content: Option<seq<ContentBlock>>)

  datatype Message = Message(role: string, content: string)

  /** The one tool offered to the model (descriptions are not modelled). */
  datatype ToolDefinition = ToolDefinition(
    name: string,
    properties: seq<string>,
    statusValues: seq<string>,
    required: seq<string>,
    defaultDays: int)

  datatype LlmRequest = LlmRequest(model: string, maxTokens: int, tools: seq<ToolDefinition>, messages: seq<Message>)

  const SearchTool := ToolDefinition(
    "search_mimecast",
    ["status", "sender", "days"],
    ["blocked", "held", "rejected", "all"],
    ["status"],
    7)

  const MaxTokens := 1024
  const DefaultStatus := "all"
  const DefaultDays := 7
  const NoResponseError := "No response from LLM"
  const RephraseError := "LLM did not use the search_mimecast tool. Please rephrase your query."
  const ParseErrorPrefix := "Failed to parse query: "
  const HealthProbeQuery := "Show blocked emails from test@example.com"

  /** The request `parseQuery` sends: the configured model, one user message and exactly one tool. */
  function BuildLlmRequest(model: string, query: string): LlmRequest {
    LlmRequest(model, MaxTokens, [SearchTool], [Message("user", query)])
  }

  /** What validated parameters always satisfy. */
  predicate WellFormed(p: SearchParams) {
    && p.status != ""
    && TruthyNumber(p.days)
    && !(p.sender.Some? && p.domain.Some?)
    && (p.sender.Some? ==> '@' in p.sender.value)
    && (p.domain.Some? ==> p.domain.value != "" && '@' !in p.domain.value)
  }

  /**
   * `validateParameters`: status and days fall back only when falsy (no enum check, a negative
   * day count is kept); a truthy sender becomes `sender` when it holds an `@`, `domain` otherwise.
   */
  function ValidateParameters(input: ToolInput): (p: SearchParams)
    ensures p.status == if Truthy(input.status) then input.status.value else DefaultStatus
    ensures p.days == Some(if TruthyNumber(input.days) then input.days.value else DefaultDays)
    ensures p.sender.Some? <==> Truthy(input.sender) && '@' in input.sender.value
    ensures p.domain.Some? <==> Truthy(input.sender) && '@' !in input.sender.value
    ensures p.sender.Some? ==> p.sender == input.sender
    ensures p.domain.Some? ==> p.domain == input.sender
    ensures WellFormed(p)
  {
    var base := SearchParams(
      if Truthy(input.status) then input.status.value else DefaultStatus,
      None,
      None,
      Some(if TruthyNumber(input.days) then input.days.value else DefaultDays));
    if !Truthy(input.sender) then base
    else if '@' in input.sender.value then base.(sender := input.sender)
    else base.(domain := input.sender)
  }

  /** The tool arguments that denote the given parameters: `sender` carries the address or the domain. */
  function AsToolInput(p: SearchParams): ToolInput {
    ToolInput(Some(p.status), if p.sender.Some? then p.sender else p.domain, p.days)
  }

  /** Validating already-validated parameters changes nothing. */
  lemma ValidateIdempotent(input: ToolInput)
    ensures ValidateParameters(AsToolInput(ValidateParameters(input))) == ValidateParameters(input)
  {
  }

  /** Well-formed parameters are exactly the ones validation leaves unchanged. */
  lemma WellFormedIsFixedPoint(p: SearchParams)
    ensures ValidateParameters(AsToolInput(p)) == p <==> WellFormed(p)
  {
  }

  predicate IsToolUse(b: ContentBlock) {
    b.ToolUseBlock?
  }

  /** The index of the first `tool_use` block, as `Array.prototype.find` selects it. */
  function FirstToolUse(blocks: seq<ContentBlock>): (r: Option<nat>)
    ensures r.Some? ==> r.value < |blocks| && IsToolUse(blocks[r.value])
    ensures r.Some? ==> forall j :: 0 <= j < r.value ==> !IsToolUse(blocks[j])
    ensures r.None? <==> forall j :: 0 <= j < |blocks| ==> !IsToolUse(blocks[j])
  {
    if blocks == [] then None
    else if IsToolUse(blocks[0]) then Some(0)
    else match FirstToolUse(blocks[1..])
      case None => None
      case Some(i) => Some(i + 1)
  }

  /**
   * `extractToolCall`: no content is "No response from LLM"; content without a `tool_use` block
   * asks to rephrase; otherwise the first `tool_use` block, whatever its tool name, is validated.
   */
  function ExtractToolCall(response: LlmResponse): (r: Result<ToolCallResult>)
    ensures (response.content.None? || response.content.value == []) ==> r == Err(NoResponseError)
    ensures response.content.Some? && response.content.value != [] ==>
      var blocks := response.content.value;
      && ((forall j :: 0 <= j < |blocks| ==> !IsToolUse(blocks[j])) ==> r == Err(RephraseError))
      && (forall i :: 0 <= i < |blocks| && IsToolUse(blocks[i]) && (forall j :: 0 <= j < i ==> !IsToolUse(blocks[j])) ==>
            r == Ok(ToolCallResult(blocks[i].name, ValidateParameters(blocks[i].input), "")))
    ensures r.Ok? ==> WellFormed(r.value.parameters) && r.value.rawQuery == ""
  {
    if response.content.None? || response.content.value == [] then Err(NoResponseError)
    else
      var blocks := response.content.value;
      match FirstToolUse(blocks)
      case None => Err(RephraseError)
      case Some(i) => Ok(ToolCallResult(blocks[i].name, ValidateParameters(blocks[i].input), ""))
  }

  /**
   * The part of `parseQuery` after the model call: a failed call or a failed extraction is
   * rethrown with the "Failed to parse query: " prefix; success yields the validated parameters.
   */
  function ParseOutcome(reply: Result<LlmResponse>): (r: Result<SearchParams>)
    ensures r.Ok? <==> reply.Ok? && ExtractToolCall(reply.value).Ok?
    ensures r.Ok? ==> r.value == ExtractToolCall(reply.value).value.parameters && WellFormed(r.value)
    ensures reply.Err? ==> r == Err(ParseErrorPrefix + reply.message)
    ensures reply.Ok? && ExtractToolCall(reply.value).Err? ==>
      r == Err(ParseErrorPrefix + ExtractToolCall(reply.value).message)
  {
    match reply
    case Err(m) => Err(ParseErrorPrefix + m)
    case Ok(response) =>
      match ExtractToolCall(response)
      case Err(m) => Err(ParseErrorPrefix + m)
      case Ok(call) => Ok(call.parameters)
  }

  /** A reply in plain text fails as a request to rephrase, not as a missing response. */
  lemma PlainTextAsksToRephrase(text: string)
    ensures ParseOutcome(Ok(LlmResponse(Some([TextBlock(text)])))) == Err(ParseErrorPrefix + RephraseError)
  {
    assert FirstToolUse([TextBlock(text)]) == None;
  }

  /** The parser's client of the language model; `sent` records every request made. */
  class QueryParser {
    const model: string
    ghost var sent: seq<LlmRequest>

    constructor (model: string)
      ensures this.model == model && sent == []
    {
      this.model := model;
      sent := [];
    }

    /** `parseQuery`: one request to the model, then extraction with the error prefix. */
    method ParseQuery(query: string, llm: LlmRequest -> Result<LlmResponse>) returns (r: Result<SearchParams>)
      modifies this
      ensures sent == old(sent) + [BuildLlmRequest(model, query)]
      ensures r == ParseOutcome(llm(BuildLlmRequest(model, query)))
    {
      var request := BuildLlmRequest(model, query);
      sent := sent + [request];
      var reply := llm(request);
      r := ParseOutcome(reply);
    }

    /** `healthCheck`: parses a fixed query and reports whether that succeeded. */
    method HealthCheck(llm: LlmRequest -> Result<LlmResponse>) returns (healthy: bool)
      modifies this
      ensures sent == old(sent) + [BuildLlmRequest(model, HealthProbeQuery)]
      ensures healthy == ParseOutcome(llm(BuildLlmRequest(model, HealthProbeQuery))).Ok?
    {
      var r := ParseQuery(HealthProbeQuery, llm);
      healthy := r.Ok?;
    }
  }
}
