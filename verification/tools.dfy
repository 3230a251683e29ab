/** The tool layer (`DiscordTools` in src/discord_mcp_server.py): it checks the
    message type, builds the message record and turns the webhook's answer
    into the `{success, message}` record the server replies with. */
module Tools {
  import opened Wrappers
  import opened Mcp
  import opened Webhook

  const SuccessText: string := "消息发送成功"
  const FailureText: string := "消息发送失败"
  const UnsupportedTypePrefix: string := "不支持的消息类型: "

  /** The message types the tool accepts. */
  const SupportedKinds: seq<string> := ["text", "markdown"]

  /** The `{"success": ..., "message": ...}` record. */
  datatype ToolResult = ToolResult(success: bool, message: string)

  /** One call of a handler: what it returned or raised, and the request it
      posted to the webhook, if it got that far. */
  datatype Invocation<T> = Invocation(result: Result<T, Exception>, sent: Option<Request>)

  /** Python's `msg_type in ["text", "markdown"]` for a JSON value: only a string
      can equal one of the two names. */
  predicate Supported(msgType: Value) {
    msgType.Str? && msgType.s in SupportedKinds
  }

  function UnsupportedTypeError(msgType: Value): ErrorData
  {
    ErrorData(INVALID_PARAMS, UnsupportedTypePrefix + (if msgType.Str? then msgType.s else ""))
  }

  /** `DiscordTools.send_message`. The type check comes first; the message record
      then refuses a non-string content; only then is anything posted. */
  function SendMessage(hook: DiscordWebhook, content: Value, msgType: Value, outcome: HttpOutcome)
    : (r: Invocation<ToolResult>)
    ensures !Supported(msgType) ==> r.sent.None? && r.result.Failure? && HasCode(r.result.error, INVALID_PARAMS)
    ensures Supported(msgType) && !content.Str? ==> r == Invocation(Failure(ValidationError("content")), None)
    ensures r.sent.Some? <==> Supported(msgType) && content.Str?
    ensures r.sent.Some? ==> r.sent.value == Post(hook.url, map["content" := content])
    ensures r.result.Success? <==> r.sent.Some? && outcome.Response? && outcome.status < 400
    ensures r.result.Success? ==> r.result.value == ToolResult(true, SuccessText)
    ensures r.sent.Some? && r.result.Failure? ==> HasCode(r.result.error, INTERNAL_ERROR)
  {
    if !Supported(msgType) then
      Invocation(Failure(McpError(UnsupportedTypeError(msgType))), None)
    else if !content.Str? then
      Invocation(Failure(ValidationError("content")), None)
    else
      var d := Webhook.SendMessage(hook, DiscordMessage(content.s, msgType.s), outcome);
      var result :=
        match d.result
        case Success(success) => Success(ToolResult(success, if success then SuccessText else FailureText))
        case Failure(e) => Failure(e);
      Invocation(result, Some(d.request))
  }

  /** The webhook never answers `False`, so the failure record is never produced:
      every answer is the success record or an exception. */
  lemma FailureRecordUnreachable(hook: DiscordWebhook, content: Value, msgType: Value, outcome: HttpOutcome)
    ensures SendMessage(hook, content, msgType, outcome).result != Success(ToolResult(false, FailureText))
    ensures forall m :: SendMessage(hook, content, msgType, outcome).result != Success(ToolResult(false, m))
  {
  }
}
