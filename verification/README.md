# Discord webhook tool server — request validation and outcome classification

The server exposes one tool, `send_message`, to an RPC client. A call to the
tool passes through three steps. First a dispatch gate (`call_tool`) checks
the tool name and that a `content` argument is present, and supplies
`msg_type = "text"` when it is missing. Next a tools layer
(`DiscordTools.send_message`) accepts only the message types `text` and
`markdown`. Last a webhook client (`DiscordWebhook`) posts `{"content": ...}`
to the configured URL and turns the HTTP outcome into `True` or an
`INTERNAL_ERROR`. At startup, `serve` refuses to run without a non-empty
webhook URL.

The model is written as pure functions:

- `Webhook` holds the constructor (`New`), the payload, and the classification of
  an `HttpOutcome`. An `HttpOutcome` is `Response(status, text)`,
  `TransportError(desc)` (an httpx `HTTPError`) or `OtherError(desc)`. The
  `try` block and its two `except` clauses are modelled separately (`Attempt`,
  `Handle`). The `McpError` raised for a status of 400 or more is caught again by
  the generic `except Exception` clause. That clause wraps it a second time
  with the "unknown error" prefix, and the code stays `INTERNAL_ERROR`.
- `Tools.SendMessage` is `DiscordTools.send_message`. The message-type check comes
  first. After it, the message record refuses a non-string `content` with a
  `ValidationError`.
- `Server.CallTool` is the `call_tool` handler. `Server.Serve` is the URL check in
  `serve`, and `Server.ListTools` is the advertised catalogue.
- `Decimal` renders an integer the way Python's f-string does. It also has the
  parser that inverts this rendering, so the status code can be read back out of
  an error message.

`Tools.SendMessage` and `Server.CallTool` return an `Invocation`. This record
holds what the handler returned or raised, and the request it posted, if any.
That lets properties like "no send happens" be stated directly.
`Webhook.SendMessage` returns a `Delivery`, which is the request it posted and
its result. `Webhook.New` and `Server.Serve` return a `Result`.

Behaviour of the code worth noting:

- An unknown tool name is refused with `INVALID_PARAMS` (-32602). There is no
  separate unknown-tool code.
- `content` is checked for presence only, so an empty string is posted.
- Delivery failures carry `INTERNAL_ERROR` (-32603).
- A missing URL raises `ValueError`.

## Model

| member | source | states |
|---|---|---|
| Webhook.New | src/discord_mcp_server.py:41-44 | construction succeeds exactly when the URL is present and non-empty; the URL is then kept unchanged; otherwise a `ValueError` is raised |
| Webhook.Payload | src/discord_mcp_server.py:62 | the JSON body has the single key `content`, holding the message content unchanged |
| Webhook.Handle | src/discord_mcp_server.py:75-84 | whatever the `try` block raised, both `except` clauses produce an `INTERNAL_ERROR` |
| Webhook.SendMessage | src/discord_mcp_server.py:60-84 | the POST goes to the stored URL with the content-only payload; the result is success exactly for a response with status below 400; success is always `True`; every failure is an `INTERNAL_ERROR` |
| Webhook.StatusMessageCarriesStatusAndBody | src/discord_mcp_server.py:69-84 | the doubly wrapped status message yields the status code back when read and ends with the response body |
| Webhook.StatusFailureReportsStatusAndBody | src/discord_mcp_server.py:69-84 | a status of 400 or more gives an `INTERNAL_ERROR` whose message reports that status and ends with the body |
| Webhook.TransportFailureReportsDescription | src/discord_mcp_server.py:75-79 | a transport error gives an `INTERNAL_ERROR` whose message is the transport prefix followed by the error's description |
| Webhook.KindNotTransmitted | src/discord_mcp_server.py:61-62 | two messages with the same content and different types give the same request and the same result |
| Webhook.NumeralHasNoComma | src/discord_mcp_server.py:72 | a rendered status code has no comma, so the comma before the body ends it |
| Decimal.IntToString | src/discord_mcp_server.py:72 | a status code renders as a non-empty string that starts with a minus sign exactly when the status is negative, with digits after that |
| Decimal.NatToString | src/discord_mcp_server.py:72 | a natural number renders as a non-empty string of digits with no leading zero |
| Decimal.IntToStringRoundTrip | src/discord_mcp_server.py:72 | parsing the rendering of any integer status gives that integer back |
| Decimal.IntToStringInjective | src/discord_mcp_server.py:72 | different status codes render differently |
| Tools.SendMessage | src/discord_mcp_server.py:103-130 | a type outside {text, markdown} is refused with `INVALID_PARAMS` and nothing is sent; a non-string content is then refused by the message record and nothing is sent; otherwise exactly `{"content": content}` is posted; the result is the success record exactly when the status is below 400; a failure after the post is an `INTERNAL_ERROR` |
| Tools.FailureRecordUnreachable | src/discord_mcp_server.py:125-130 | because the webhook never answers `False`, no result carries `success = false`, so the failure text is never produced |
| Server.Serve | src/discord_mcp_server.py:145-154 | startup succeeds exactly when the argument or the environment variable is a non-empty URL; a given argument takes precedence over the environment variable; otherwise a `ValueError` is raised |
| Server.CallTool | src/discord_mcp_server.py:203-220 | an unknown name is refused with `INVALID_PARAMS` before anything else; a missing `content` is refused with `INVALID_PARAMS`; a present but unsupported `msg_type` is refused with `INVALID_PARAMS`; none of these sends anything; any post carries exactly the given content; success is the single text item "消息发送成功" and never the failure text |
| Server.SendsIffConforms | src/discord_mcp_server.py:164-218 | a post is made exactly when the name is the catalogued tool and the arguments conform to its advertised input schema |
| Server.SucceedsIffDelivered | src/discord_mcp_server.py:215-220 | a call succeeds exactly when a post is made and the endpoint answers with a status below 400 |
| Server.FailureCodes | src/discord_mcp_server.py:203-218 | after a post, every failure is an `INTERNAL_ERROR`; without a post, every refusal is `INVALID_PARAMS` or the record's refusal of the content |
| Server.EmptyContentIsSent | src/discord_mcp_server.py:209-213 | an empty-string content passes the gate and is posted unchanged |
| Server.AbsentTypeIsSchemaDefault | src/discord_mcp_server.py:217 | a missing `msg_type` behaves exactly like `"text"`, which is the default the schema advertises |
| Server.TypeNotTransmitted | src/discord_mcp_server.py:215-218 | any two supported message types give the same request and the same reply |
| Server.RefusalIgnoresOutcome | src/discord_mcp_server.py:203-213 | a call refused before posting does not depend on the HTTP outcome |
| Server.RejectedStatusReported | src/discord_mcp_server.py:69-84 | for any call that conforms to the advertised schema, whatever its `msg_type` or extra keys, a rejected status reaches the caller as an `INTERNAL_ERROR` that reports the status and ends with the body |
| Server.TransportFailureReported | src/discord_mcp_server.py:75-79 | for any call that conforms to the advertised schema, a transport error reaches the caller as an `INTERNAL_ERROR` whose message is the transport prefix followed by the error's description |
| Server.StartedServerPostsToUrl | src/discord_mcp_server.py:145-154 | every request a started server posts goes to the non-empty URL chosen at startup, the argument if given and otherwise the environment variable |

## Left out

- The httpx client, the POST itself, its headers and its 30-second timeout are not modelled. The exchange is replaced by the `HttpOutcome` input.
- The RPC server, the stdio transport, handler registration, `server.run` and closing the HTTP client are not modelled. They are I/O and resource handling.
- `main` and the client script are not modelled. They read argv and the environment and start the event loop. `Server.Serve` takes the argument and the environment variable as inputs instead.
- The message record validates fields with a foreign library. The model includes only its refusal of a non-string `content`, as `ValidationError("content")`. Other coercions or error details of that library are not modelled.
- Tool arguments are JSON values with integer numbers only. Floating-point numbers are not modelled.
- Error messages use the source's prefixes. The model keeps exact text only where a property needs it: the status code and body in the status-failure message, the transport description, and the success text. For a non-string `msg_type`, the "unsupported type" message omits Python's rendering of the value.
- `Webhook.Describe` takes the text of the status error after its second wrapping to be that error's message, that is, `str(McpError(data)) == data.message`. This is how the RPC library's error type behaves. That library is not part of this model, and the "ends with the body" lemmas depend on this behaviour.
- `Server.ListTools` is the catalogue as a constant. It has no contract of its own. It is used through `Server.SendsIffConforms` and `Server.AbsentTypeIsSchemaDefault`.
