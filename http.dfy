/**
  The error record both external clients return inside their `{errors, data, status, success}`
  envelopes, and JavaScript's `a || b` on strings, which the classifiers use for every default.
 */
module Http {
  import opened Wrappers

  /** `{type, message, userMessage, status}`; the `originalError` payload is not modelled. */
  datatype ErrorInfo = ErrorInfo(kind: string, message: string, userMessage: string, status: int)

  /** The table entry with the status attached. */
  function FromEntry(e: CodeEntry, status: int): ErrorInfo
  {
    ErrorInfo(e.kind, e.message, e.userMessage, status)
  }

  /** `Math.ceil(n / d)` for a positive divisor. */
  function CeilDiv(n: nat, d: nat): (q: nat)
    requires d > 0
    ensures q * d >= n
    ensures q > 0 ==> (q - 1) * d < n
  {
    (n + d - 1) / d
  }

  /** One entry of a status-code table: `{type, message, userMessage}`. */
  datatype CodeEntry = CodeEntry(kind: string, message: string, userMessage: string)

  /** `s || d` for a string that may be `undefined`: the empty string is falsy too. */
  function OrElse(s: Option<string>, d: string): (r: string)
    ensures s.Some? && s.value != "" ==> r == s.value
    ensures s.None? || s.value == "" ==> r == d
  {
    if s.Some? && s.value != "" then s.value else d
  }

  /** `error.response?.status || 0` */
  function StatusOrZero(status: Option<int>): (r: int)
    ensures status.Some? ==> r == status.value
    ensures status.None? ==> r == 0
  {
    if status.Some? then status.value else 0
  }
}
