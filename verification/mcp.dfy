/** The vocabulary the tool server shares with its RPC runtime: JSON values
    for tool arguments, the structured error record, the exceptions a handler
    can raise, and the text content a tool returns. */
module Mcp {

  /** JSON-RPC 2.0 error code for invalid method parameters. */
  const INVALID_PARAMS: int := -32602
  /** JSON-RPC 2.0 error code for an internal error. */
  const INTERNAL_ERROR: int := -32603

  /** A decoded JSON value, as tool arguments arrive. Numbers are integers only. */
  datatype Value =
    | Null
    | Bool(b: bool)
    | Num(n: int)
    | Str(s: string)
    | Arr(items: seq<Value>)
    | Obj(fields: map<string, Value>)

  /** The structured error carried by an `McpError`. */
  datatype ErrorData = ErrorData(code: int, message: string)

  /** What a handler of the server can raise. */
  datatype Exception =
    | McpError(data: ErrorData)
      /** A startup configuration problem (`ValueError`). */
    | ValueError(message: string)
      /** The message record refused a field whose value has the wrong JSON type. */
    | ValidationError(field: string)

  /** One item of a tool's reply. */
  datatype TextContent = TextContent(kind: string, text: string)

  /** True when `e` is an `McpError` with the given code. */
  predicate HasCode(e: Exception, code: int) {
    e.McpError? && e.data.code == code
  }
}
