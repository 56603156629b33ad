/** The exceptions the request pipeline raises or catches, and the result of
    an operation that either returns or raises. */
module Errors {
  import opened PyBuiltins

  /** Exceptions seen inside server.py. `HTTPException` is the web framework's
      exception, which it turns into an HTTP status and a JSON `detail`;
      `StatusError` is what httpx's `raise_for_status` raises for a
      non-success status; `TransportError` is any other exception of the
      fetch (connect failure, timeout, too many redirects, …);
      `CompletionError` is any exception of the model call, and `Unhandled`
      any exception that no `try` of the handler catches (one from the HTML
      parser, template rendering or Markdown, or `encode` on a `None`
      answer), which the framework answers with a bare 500 Internal Server
      Error. All but the first carry their `str(e)`. */
  datatype PyException =
    | HTTPException(statusCode: nat, detail: string)
    | StatusError(message: string)
    | TransportError(message: string)
    | CompletionError(message: string)
    | Unhandled(message: string)

  /** Either the value returned or the exception raised. */
  datatype Outcome<+T> = Ok(value: T) | Raised(error: PyException)

  /** How a call into a library ended: a value, or an exception with its
      `str`. */
  datatype Call<+T> = Returned(value: T) | Threw(message: string)

  /** A library call made outside any `try`: its exception escapes as is. */
  function Unguarded<T>(c: Call<T>): (r: Outcome<T>)
    ensures r.Ok? <==> c.Returned?
    ensures c.Returned? ==> r.value == c.value
    ensures r.Raised? ==> r.error == Unhandled(c.message)
  {
    match c
    case Returned(v) => Ok(v)
    case Threw(m) => Raised(Unhandled(m))
  }

  function DigitChar(d: nat): (c: char)
    requires d < 10
    ensures '0' <= c <= '9'
  {
    ('0' as int + d) as char
  }

  /** Python's `str(n)` for a natural number. */
  function Decimal(n: nat): (s: string)
    ensures |s| > 0
  {
    if n < 10 then [DigitChar(n)] else Decimal(n / 10) + [DigitChar(n % 10)]
  }

  /** `str(e)`; for the framework's HTTPException this is its
      `"<status_code>: <detail>"` rendering. */
  function Str(e: PyException): (r: string)
    ensures e.HTTPException? ==> EndsWith(r, ": " + e.detail) && |r| > |e.detail| + 2
    ensures !e.HTTPException? ==> r == e.message
  {
    match e
    case HTTPException(code, detail) => Decimal(code) + ": " + detail
    case StatusError(m) => m
    case TransportError(m) => m
    case CompletionError(m) => m
    case Unhandled(m) => m
  }

  lemma StrOf413(detail: string)
    ensures Str(HTTPException(413, detail)) == "413: " + detail
  {
    assert DigitChar(4) == '4' && DigitChar(1) == '1' && DigitChar(3) == '3';
    assert Decimal(4) == ['4'];
    assert Decimal(41) == Decimal(4) + [DigitChar(1)] == "41";
    assert Decimal(413) == Decimal(41) + [DigitChar(3)] == "413";
  }
}
