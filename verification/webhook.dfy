/** The webhook client (`DiscordWebhook` in src/discord_mcp_server.py): it
    holds the endpoint URL, builds the JSON body of a post and classifies what
    came back. The HTTP exchange itself is not modelled; its outcome is an
    input. */
module Webhook {
  import opened Wrappers
  import opened Mcp
  import Decimal

  /** A message as the tools layer hands it to the webhook. */
  datatype DiscordMessage = DiscordMessage(content: string, kind: string)

  /** A webhook client; a constructed one always has a non-empty URL. */
  datatype DiscordWebhook = DiscordWebhook(url: string) {
    predicate Valid() {
      url != ""
    }
  }

  /** How the POST to the endpoint ended. */
  datatype HttpOutcome =
    | Response(status: int, text: string)
      /** An httpx `HTTPError`: connection refused, timeout, DNS failure, ... */
    | TransportError(desc: string)
      /** Any other exception raised during the attempt. */
    | OtherError(desc: string)

  /** The POST the webhook issues: target URL and JSON body. */
  datatype Request = Post(url: string, payload: map<string, Value>)

  /** A send: the request that went out and what `send_message` returned or raised. */
  datatype Delivery = Delivery(request: Request, result: Result<bool, Exception>)

  /** What the `try` block can raise before the handlers see it. */
  datatype Thrown =
    | Raised(data: ErrorData)
    | HttpError(desc: string)
    | Unexpected(desc: string)

  const EmptyUrlText: string := "webhook_url不能为空"
  const StatusPrefix: string := "发送消息失败 - 状态码 "
  const BodySeparator: string := ", 响应: "
  const TransportPrefix: string := "发送消息失败: "
  const UnknownPrefix: string := "发送消息时发生未知错误: "

  /** The constructor: it refuses a missing or empty URL and otherwise keeps it as given. */
  function New(url: Option<string>): (r: Result<DiscordWebhook, Exception>)
    ensures r.Success? <==> url.Some? && url.value != ""
    ensures r.Success? ==> r.value.Valid() && r.value.url == url.value
    ensures r.Failure? ==> r.error.ValueError?
  {
    if url.None? || url.value == "" then Failure(ValueError(EmptyUrlText))
    else Success(DiscordWebhook(url.value))
  }

  /** The JSON body of a post: the content under `"content"` and nothing else. */
  function Payload(m: DiscordMessage): (p: map<string, Value>)
    ensures p.Keys == {"content"}
    ensures p["content"] == Str(m.content)
  {
    map["content" := Str(m.content)]
  }

  /** The error a failing status raises inside the `try` block. */
  function StatusError(status: int, text: string): ErrorData
  {
    ErrorData(INTERNAL_ERROR, StatusPrefix + Decimal.IntToString(status) + BodySeparator + text)
  }

  /** The body of the `try` block once the response (or its failure) is known. */
  function Attempt(outcome: HttpOutcome): Result<bool, Thrown>
  {
    match outcome
    case Response(status, text) =>
      if status >= 400 then Failure(Raised(StatusError(status, text))) else Success(true)
    case TransportError(desc) => Failure(HttpError(desc))
    case OtherError(desc) => Failure(Unexpected(desc))
  }

  /** Python's `str(e)` of something the `try` block raised. */
  function Describe(t: Thrown): string
  {
    match t
    case Raised(data) => data.message
    case HttpError(desc) => desc
    case Unexpected(desc) => desc
  }

  /** The two `except` clauses: an `HTTPError` gets the transport prefix; everything
      else, the block's own `McpError` included, is re-wrapped as an unknown error. */
  function Handle(t: Thrown): (e: ErrorData)
    ensures e.code == INTERNAL_ERROR
  {
    match t
    case HttpError(desc) => ErrorData(INTERNAL_ERROR, TransportPrefix + Describe(t))
    case _ => ErrorData(INTERNAL_ERROR, UnknownPrefix + Describe(t))
  }

  /** `DiscordWebhook.send_message`: post the payload, then classify the outcome.
      A status below 400 is the only success, and success is always `true`. */
  function SendMessage(hook: DiscordWebhook, m: DiscordMessage, outcome: HttpOutcome): (d: Delivery)
    ensures d.request == Post(hook.url, Payload(m))
    ensures d.result.Success? <==> outcome.Response? && outcome.status < 400
    ensures d.result.Success? ==> d.result.value
    ensures d.result.Failure? ==> HasCode(d.result.error, INTERNAL_ERROR)
  {
    var result :=
      match Attempt(outcome)
      case Success(ok) => Success(ok)
      case Failure(t) => Failure(McpError(Handle(t)));
    Delivery(Post(hook.url, Payload(m)), result)
  }

  /** The status a failure message reports, read back from the message text:
      the numeral between the fixed prefix and the first comma. */
  function ReportedStatus(message: string): Option<int>
  {
    var prefix := UnknownPrefix + StatusPrefix;
    if |prefix| <= |message| && message[..|prefix|] == prefix
    then Decimal.ParseInt(UpTo(message[|prefix|..], ','))
    else None
  }

  /** `e` is an `INTERNAL_ERROR` whose message reports `status` when read back
      and ends with `text`. */
  predicate ReportsStatusAndBody(e: Exception, status: int, text: string) {
    && HasCode(e, INTERNAL_ERROR)
    && ReportedStatus(e.data.message) == Some(status)
    && |text| <= |e.data.message|
    && e.data.message[|e.data.message| - |text|..] == text
  }

  /** The longest prefix of `s` without `c`. */
  function UpTo(s: string, c: char): (r: string)
    ensures c !in r
    ensures r <= s
  {
    if |s| == 0 || s[0] == c then [] else [s[0]] + UpTo(s[1..], c)
  }

  lemma {:induction false} UpToConcat(a: string, b: string, c: char)
    requires c !in a
    requires |b| > 0 && b[0] == c
    ensures UpTo(a + b, c) == a
    decreases |a|
  {
    if |a| == 0 {
      assert a + b == b;
    } else {
      assert (a + b)[1..] == a[1..] + b;
      UpToConcat(a[1..], b, c);
    }
  }

  /** A rendered integer never contains a comma. */
  lemma NumeralHasNoComma(n: int)
    ensures ',' !in Decimal.IntToString(n)
  {
    var digits := Decimal.IntToString(n);
    forall i | 0 <= i < |digits|
      ensures digits[i] != ','
    {
      if i > 0 {
        assert Decimal.IsDigit(digits[i]);
      }
    }
  }

  /** The status code and the body can both be read back from the message a
      rejected status ends up with. */
  lemma StatusMessageCarriesStatusAndBody(status: int, text: string)
    ensures var msg := UnknownPrefix + StatusError(status, text).message;
      && ReportedStatus(msg) == Some(status)
      && |text| <= |msg|
      && msg[|msg| - |text|..] == text
  {
    var prefix := UnknownPrefix + StatusPrefix;
    var digits := Decimal.IntToString(status);
    var rest := BodySeparator + text;
    var msg := UnknownPrefix + StatusError(status, text).message;
    assert msg == prefix + (digits + rest);
    assert msg[..|prefix|] == prefix;
    assert msg[|prefix|..] == digits + rest;
    NumeralHasNoComma(status);
    UpToConcat(digits, rest, ',');
    Decimal.IntToStringRoundTrip(status);
    assert msg[|msg| - |text|..] == text;
  }

  /** A rejected status (400 or more) surfaces as an `INTERNAL_ERROR` whose message
      ends with the response body and from which the status code can be read back. */
  lemma StatusFailureReportsStatusAndBody(hook: DiscordWebhook, m: DiscordMessage, status: int, text: string)
    requires status >= 400
    ensures var r := SendMessage(hook, m, Response(status, text)).result;
      r.Failure? && ReportsStatusAndBody(r.error, status, text)
  {
    var r := SendMessage(hook, m, Response(status, text)).result;
    assert r.error.data.message == UnknownPrefix + StatusError(status, text).message;
    StatusMessageCarriesStatusAndBody(status, text);
  }

  /** A transport failure surfaces as an `INTERNAL_ERROR` carrying the failure's description. */
  lemma TransportFailureReportsDescription(hook: DiscordWebhook, m: DiscordMessage, desc: string)
    ensures SendMessage(hook, m, TransportError(desc)).result
         == Failure(McpError(ErrorData(INTERNAL_ERROR, TransportPrefix + desc)))
  {
  }

  /** The message type never reaches the wire: two messages with the same content
      produce the same request and the same result. */
  lemma KindNotTransmitted(hook: DiscordWebhook, c: string, k1: string, k2: string, outcome: HttpOutcome)
    ensures SendMessage(hook, DiscordMessage(c, k1), outcome) == SendMessage(hook, DiscordMessage(c, k2), outcome)
  {
  }
}
