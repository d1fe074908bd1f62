/** The `{success, data, error}` object every context tool returns, and the error
    codes they share. */
module ToolResults {
  import opened Wrappers
  import opened Text

  /** A tool's answer: `data` is `None` where the object holds `null`. */
  datatype ToolResult = ToolResult(success: bool, data: Option<string>, error: Option<string>)

  function Ok(data: string): ToolResult {
    ToolResult(true, Some(data), None)
  }

  function Fail(error: string): ToolResult {
    ToolResult(false, None, Some(error))
  }

  /** A failure has an error and no data; a success has no error. */
  predicate WellFormed(r: ToolResult) {
    (r.success <==> r.error.None?) && (!r.success ==> r.data.None?)
  }

  /** `"HTTP_" + code`. */
  function HttpError(code: int): (e: string)
    ensures StartsWith(e, "HTTP_") && |e| > 5
  {
    "HTTP_" + IntToString(code)
  }

  /** `"EXCEPTION:" + e.message`. */
  function ExceptionError(message: string): (e: string)
    ensures StartsWith(e, "EXCEPTION:") && e[10..] == message
  {
    "EXCEPTION:" + message
  }
}
