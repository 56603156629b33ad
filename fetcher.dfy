/** `Webpage_scraper.scrape_webpage`: what becomes of one GET of the target
    URL. The request itself (headers, the 15-second timeout, redirects) is
    httpx's business; here it is the `Transport` the request ended in. */
module Fetcher {
  import opened PyBuiltins
  import opened Errors

  /** `10_00_000` in the source: one million bytes, although the message
      speaks of 10 MB. */
  const MaxBodyBytes: nat := 1_000_000
  const TooLargeDetail: string := "page too large (max 10mb)"
  const FetchErrorPrefix: string := "err while sending request to target url: "
  const FetchErrorSuffix: string := ": network issue or url doesn't exist."

  /** The httpx response: its final status, `len(res.content)` in bytes, the
      decoded `res.text`, and the message `raise_for_status` would raise. */
  datatype Response = Response(statusCode: nat, bodyLength: nat, text: string, statusErrorText: string)

  /** How `client.get(...)` ended: with a response, or with an exception
      whose `str` is `message`. */
  datatype Transport = Received(response: Response) | Failed(message: string)

  /** httpx's `Response.is_success`; `raise_for_status` raises otherwise. */
  predicate IsSuccess(statusCode: nat) {
    200 <= statusCode < 300
  }

  /** The body of the `try` block: the GET, `raise_for_status`, then the
      size check, which raises a 413 HTTPException. The status is checked
      before the size, and the 413 is the only HTTPException raised here. */
  function TryFetch(t: Transport): (r: Outcome<Response>)
    ensures r.Ok? <==> t.Received? && IsSuccess(t.response.statusCode) && t.response.bodyLength <= MaxBodyBytes
    ensures r.Ok? ==> r.value == t.response
    ensures t.Failed? ==> r == Raised(TransportError(t.message))
    ensures t.Received? && !IsSuccess(t.response.statusCode) ==> r == Raised(StatusError(t.response.statusErrorText))
    ensures t.Received? && IsSuccess(t.response.statusCode) && t.response.bodyLength > MaxBodyBytes ==>
      r == Raised(HTTPException(413, TooLargeDetail))
    ensures r.Raised? && r.error.HTTPException? ==>
      r.error == HTTPException(413, TooLargeDetail) && t.Received? && t.response.bodyLength > MaxBodyBytes
  {
    match t
    case Failed(m) => Raised(TransportError(m))
    case Received(res) =>
      if !IsSuccess(res.statusCode) then Raised(StatusError(res.statusErrorText))
      else if res.bodyLength > MaxBodyBytes then Raised(HTTPException(413, TooLargeDetail))
      else Ok(res)
  }

  /** `except Exception as e`: every exception of the `try`, the 413
      HTTPException included, is re-raised as a 400 whose detail is the
      exception's `str` between a fixed prefix and suffix. */
  function CatchAll(o: Outcome<Response>): (r: Outcome<Response>)
    ensures o.Ok? ==> r == o
    ensures r.Raised? <==> o.Raised?
    ensures r.Raised? ==>
      r.error.HTTPException? && r.error.statusCode == 400
      && FetchErrorPrefix <= r.error.detail && EndsWith(r.error.detail, FetchErrorSuffix)
      && |r.error.detail| == |FetchErrorPrefix| + |Str(o.error)| + |FetchErrorSuffix|
      && r.error.detail[|FetchErrorPrefix|..|FetchErrorPrefix| + |Str(o.error)|] == Str(o.error)
  {
    match o
    case Ok(res) => Ok(res)
    case Raised(e) => Raised(HTTPException(400, FetchErrorPrefix + Str(e) + FetchErrorSuffix))
  }

  function ClassifyFetch(t: Transport): (r: Outcome<Response>)
    ensures r.Ok? <==> t.Received? && IsSuccess(t.response.statusCode) && t.response.bodyLength <= MaxBodyBytes
    ensures r.Ok? ==> r.value == t.response
    ensures r.Raised? ==> r.error.HTTPException? && r.error.statusCode == 400
    ensures r.Raised? ==> FetchErrorPrefix <= r.error.detail && EndsWith(r.error.detail, FetchErrorSuffix)
  {
    CatchAll(TryFetch(t))
  }

  /** What the 400's detail carries between its fixed prefix and suffix:
      the transport error, else the status error (the status is checked
      before the size, so an oversize error page reports its status), else
      the rendered 413. */
  lemma FailureDetail(t: Transport)
    ensures t.Failed? ==>
      ClassifyFetch(t) == Raised(HTTPException(400, FetchErrorPrefix + t.message + FetchErrorSuffix))
    ensures t.Received? && !IsSuccess(t.response.statusCode) ==>
      ClassifyFetch(t) == Raised(HTTPException(400, FetchErrorPrefix + t.response.statusErrorText + FetchErrorSuffix))
    ensures t.Received? && IsSuccess(t.response.statusCode) && t.response.bodyLength > MaxBodyBytes ==>
      ClassifyFetch(t) == Raised(HTTPException(400, FetchErrorPrefix + "413: " + TooLargeDetail + FetchErrorSuffix))
  {
    if t.Received? && IsSuccess(t.response.statusCode) && t.response.bodyLength > MaxBodyBytes {
      assert TryFetch(t) == Raised(HTTPException(413, TooLargeDetail));
      StrOf413(TooLargeDetail);
    }
  }

  /** The limit is inclusive: a successful response of exactly one million
      bytes is kept, one byte more is refused. */
  lemma SizeLimitBoundary(res: Response)
    requires IsSuccess(res.statusCode)
    ensures ClassifyFetch(Received(res)).Ok? <==> res.bodyLength <= 1_000_000
    ensures res.bodyLength == 1_000_000 ==> ClassifyFetch(Received(res)) == Ok(res)
    ensures res.bodyLength == 1_000_001 ==> ClassifyFetch(Received(res)).Raised?
  {
  }
}
