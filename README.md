# nemon request pipeline, modelled in Dafny

nemon serves one endpoint, `GET /scrape/webpage?url=...`. The handler builds a
`Webpage_scraper` for the URL. It checks that the URL has a scheme and a host,
then fetches the page. A failed fetch becomes a 400. The rest of the page
becomes a record {url, title, description, content}, with a fixed sentinel
string for each missing field and the paragraph text cut to 1000 characters.
That record is sent to a chat-completion model, and the model's Markdown
answer is returned as HTML.

This project models that pipeline as written in `server.py`:

- `PyBuiltins` (py_builtins.dfy): the Python built-ins the pipeline relies on.
  These are string truthiness, `all`, `str.strip()` with Python's whitespace
  set, and `str.join`, each with lemmas that characterise it.
- `Errors` (errors.dfy): the exceptions involved, `str(e)` of each,
  `Outcome` (returned or raised), and `Call`, the way a library call ended.
- `UrlValidator` (url_validator.dfy): `validate_url_manually` over the result
  of `urlparse`.
- `Fetcher` (fetcher.dfy): the `try`/`except` of `scrape_webpage` over the way
  the GET ended.
- `Extractor` (extractor.dfy): the record that `parse_page` assembles from
  what the HTML parser found.
- `Server` (server.dfy): the `WebpageScraper` class, the handler
  `SummarizeWebpage`, and `Summarize`, a function stating what one request
  answers.

The handler gets its library calls as plain values, bundled in
`Collaborators`. These are `urlparse`, the HTTP GET, the HTML parser's view of
a page, prompt rendering, the model call and Markdown rendering. The parser,
the renderer and Markdown may raise; the model says so with `Call`. An
`Outcome` that raised an `HTTPException` stands for the HTTP error response
the framework sends. One that raised `Unhandled` stands for an exception that
no `try` of the handler catches, which the framework answers with a bare 500
Internal Server Error.

Behaviour of the code worth knowing:

- Any non-empty scheme and host pass the URL check. Nothing requires `https`,
  and no host is denied (`PlainHttpAndLoopbackPass`).
- An oversize body is not answered 413. The 413 raised inside the `try` is
  caught by its own `except Exception` and re-raised as a 400, whose detail
  carries the rendered 413 (`OversizePageAnswered400`).
- The paragraph text is collected before the `script`/`style`/... tags are
  removed, so the removal does not change the content. The `<title>` and
  description tags were found before the removal but are read after it, so
  a removal that empties them does reach the title and description.
- Two or more whitespace-only paragraphs give a content of spaces, not the
  no-content sentinel (`EmptyParagraphsGiveSpaces`).
- The size limit is 1,000,000 bytes, although its message says "max 10mb".
- The HTML parse, prompt rendering, Markdown conversion and the `encode` of
  the model's answer all run outside any `try`. A failure in any of them
  escapes as an unhandled exception, not as an HTTPException
  (`ErrorStatuses`).

## Model

| member | source | states |
|---|---|---|
| `PyBuiltins.IsSpace` | server.py:93-94 | on ASCII, the whitespace `strip()` removes is exactly space, tab, line feed, carriage return, vertical tab, form feed and the four separators 0x1C-0x1F |
| `PyBuiltins.AllTruthy` | server.py:57 | `all([...])` over strings is true iff no string in the list is empty |
| `PyBuiltins.SkipSpaces` | server.py:93-94 | the left scan of `strip()` stops at the first non-whitespace position, having passed only whitespace |
| `PyBuiltins.SkipSpacesBack` | server.py:93-94 | the right scan of `strip()` stops after the last non-whitespace character, having passed only whitespace |
| `PyBuiltins.Strip` | server.py:93-94 | `strip()` never lengthens a string, and its result neither starts nor ends with whitespace |
| `PyBuiltins.StripSplits` | server.py:93-94 | the input is the stripped text framed by two runs of whitespace |
| `PyBuiltins.SkipSpacesStopsAt` | server.py:93-94 | the left scan ends exactly at the first non-whitespace position after a run of whitespace |
| `PyBuiltins.SkipSpacesBackStopsAt` | server.py:93-94 | the right scan ends exactly after the last non-whitespace character before a run of whitespace |
| `PyBuiltins.StripUnique` | server.py:93-94 | any unpadded text between two runs of whitespace is what `strip()` returns, so strip is exactly "drop the outer whitespace" |
| `PyBuiltins.StripIdempotent` | server.py:93-94 | stripping twice is stripping once |
| `PyBuiltins.Join` | server.py:83 | joining no parts gives the empty string; otherwise the result starts with the first part |
| `PyBuiltins.JoinSnoc` | server.py:83 | the space-join read from the end: one more paragraph appends a separator and that paragraph |
| `PyBuiltins.JoinLength` | server.py:83 | the joined text is as long as all parts together plus one separator per gap |
| `PyBuiltins.JoinEmptyIff` | server.py:83 | with a non-empty separator the join is empty iff there is no part or exactly one empty part |
| `PyBuiltins.JoinOfEmpties` | server.py:83 | joining n empty strings with a space gives n-1 spaces |
| `UrlValidator.ValidateUrl` | server.py:54-59 | the verdict is true iff the parse did not raise and both scheme and netloc are non-empty; a raise gives false, never an exception |
| `UrlValidator.PlainHttpAndLoopbackPass` | server.py:57 | `http://localhost` and `ftp://127.0.0.1` are accepted: no scheme or host rule beyond presence |
| `Errors.Unguarded` | server.py:79 | a library call outside any `try` (the HTML parse and the reading of the found tags, prompt rendering, Markdown) returns its value or lets its exception escape unchanged, as an unhandled exception with the same text |
| `Errors.Str` | server.py:74 | `str(e)` of an HTTPException ends with ": " and its detail, after a non-empty status; of any other exception it is its message |
| `Errors.StrOf413` | server.py:71-74 | the 413 HTTPException renders as `413: <detail>`, the text that the catch-all embeds |
| `Fetcher.TryFetch` | server.py:65-72 | the `try` body succeeds iff the GET returned a 2xx response of at most 1,000,000 bytes, and yields that response; a transport failure raises its error; a non-2xx status raises the status error before any size check; a 2xx body over 1,000,000 bytes raises the 413 "page too large (max 10mb)", and that 413 is the only HTTPException it raises |
| `Fetcher.CatchAll` | server.py:73-74 | a result passes unchanged; every exception becomes a 400 whose detail is exactly the fetch-error prefix, the exception's `str` and the fetch-error suffix |
| `Fetcher.ClassifyFetch` | server.py:62-76 | the fetch succeeds iff the GET returned, the status is 2xx and the body is at most 1,000,000 bytes, and then it returns that response; every failure is a 400 whose detail starts "err while sending request to target url: " and ends ": network issue or url doesn't exist." |
| `Fetcher.FailureDetail` | server.py:65-74 | the detail wraps the transport error, else the status error (status is checked before size), else "413: page too large (max 10mb)"; none of them stays a 413 |
| `Fetcher.SizeLimitBoundary` | server.py:70 | with a 2xx status, exactly 1,000,000 bytes passes and 1,000,001 fails |
| `Extractor.CutToLimit` | server.py:85-86 | the cut text has at most 1000 characters and is a prefix of the input; it equals the input iff the input has at most 1000 characters, and otherwise has exactly 1000 |
| `Extractor.TitleField` | server.py:93 | the stripped title text when a title was found, else "No title found for this url" |
| `Extractor.DescriptionField` | server.py:94 | the no-description sentinel only when no tag was found; a tag without `content` gives "", one with it gives the stripped attribute |
| `Extractor.ContentField` | server.py:83-95 | the no-content sentinel when the joined text is empty; otherwise the joined text's prefix of length min(length, 1000) |
| `Extractor.BuildRecord` | server.py:91-96 | the record keeps the URL verbatim and has the title, description and content described by the three field rows |
| `Extractor.ContentBounded` | server.py:83-95 | content is never empty and never longer than 1000 characters |
| `Extractor.NoContentOnlyWithoutParagraphText` | server.py:83-95 | no paragraphs, or one empty paragraph, give the sentinel; the sentinel otherwise appears only if the page text itself starts with it |
| `Extractor.EmptyParagraphsGiveSpaces` | server.py:83-95 | two or more empty paragraph texts give content of spaces, one per gap up to the 1000-character limit, not the sentinel |
| `Extractor.LongTextCut` | server.py:85-86 | joined text longer than 1000 characters becomes exactly its first 1000 characters |
| `Extractor.FoundDescriptionIsNotSentinel` | server.py:94 | a found tag gives the sentinel only if its stripped `content` is the sentinel's text; blank `content` gives "" |
| `Extractor.FoundTitleIsTrimmed` | server.py:93 | a title "whitespace + t + whitespace", with t unpadded, yields exactly t |
| `Extractor.EmptyPageSentinels` | server.py:91-96 | a page with no title, no description tag and no paragraphs gets all three sentinels |
| `Server.CallModel` | server.py:101-114 | a completed call returns its message content (possibly `None`); a failed one raises 500 with detail "err: error while making api call to groq: " + the error |
| `Server.AskModel` | server.py:99-114 | the prompt is rendered first, outside the `try`: a rendering failure escapes unhandled with its own text, and an unhandled escape comes only from rendering; a rendered prompt goes to the model call and its `try` |
| `Server.EncodeAnswer` | server.py:136 | storing the answer succeeds iff the model returned text, and keeps that text; a `None` answer raises the unhandled "'NoneType' object has no attribute 'encode'" |
| `Server.Summarize` | server.py:121-139 | an invalid URL is answered 400 "invalid url"; a success implies a valid URL and a successful fetch |
| `Server.WebpageScraper.constructor` | server.py:45-51 | a new scraper holds the URL and no other field, which satisfies the fill-order invariant |
| `Server.WebpageScraper.ValidateUrlManually` | server.py:54-59 | true iff the scraper's URL parses, without raising, into a non-empty scheme and netloc |
| `Server.WebpageScraper.ScrapeWebpage` | server.py:62-76 | returns the classified fetch of the scraper's URL, failing only with a 400; it does not store the response |
| `Server.WebpageScraper.ParsePage` | server.py:78-97 | when the parser returns, the record for the stored response's text, carrying the scraper's URL and content of 1..1000 characters; when the parse, or the reading of the title and description tags at server.py:93-94, raises, that exception escapes unhandled |
| `Server.WebpageScraper.SendReqToGroq` | server.py:99-114 | renders the prompt from the scraper's title, description, content and URL and asks the model; what escapes is a 500 with the model-call prefix or an unhandled rendering failure |
| `Server.WebpageScraper.TurnApiResToHtml` | server.py:116-117 | the Markdown rendering of the stored answer, or its exception escaping unhandled |
| `Server.SummarizeWebpage` | server.py:121-139 | answers `Summarize`; leaves the URL as given. `res` is set only after a valid URL was fetched successfully. Title, description and content are then the record's if the page parsed, and unset if the parser raised. `api_res` holds the model's answer to the prompt built from that record exactly when the model returned text. The request succeeds iff `api_res` is set and its Markdown converts, and the HTML is that conversion; the fields stay filled in order |
| `Server.InvalidUrlRejectedBeforeFetch` | server.py:123-126 | an invalid URL is answered 400 "invalid url", whatever the fetch, parser or model would do |
| `Server.ErrorStatuses` | server.py:121-139 | what escapes the handler is a 400 HTTPException (invalid URL or fetch-error prefix), a 500 HTTPException (model-call prefix), or an unhandled exception, and the last only after a valid URL was fetched; never a 413 |
| `Server.SuccessPath` | server.py:121-139 | a request succeeds iff the URL is valid, the fetch succeeds, the page parses, the prompt renders, the model returns text and its Markdown converts; the answer is then that HTML |
| `Server.OversizePageAnswered400` | server.py:70-74 | a valid URL with a 2xx body over 1,000,000 bytes is answered 400 with the rendered 413 inside the detail |
| `Server.PromptCarriesRequestUrl` | server.py:130-135 | the prompt built from a parsed page carries the request URL verbatim, has every field set, and has content of 1..1000 characters |

## Left out

- The HTTP request itself is not modelled: the `User-Agent` header, the 15-second timeout and redirect following belong to httpx. The model starts from how the GET ended (`Transport`). It takes the text of the status error as a field of the response.
- HTML parsing is not modelled: BeautifulSoup, `get_text(strip=True)` and the choice of the first `<title>` and description tag are the parser's. The model takes what it found as input (`SoupView`).
- The `og:description` fallback passes `attr=` instead of `attrs=`, so what it matches depends on the parser library. The found tag is an opaque optional input.
- The tag-removal loop at server.py:88-89 is not modelled as a step. It runs after the paragraph text was taken, so it cannot change the content. The title and description tags are read after it: what they then hold, and a failure to read a tag the removal destroyed, are part of the parser's result (`SoupView`, or `Threw`).
- The model call is not modelled: the template text, the model name, the request and the choice of `choices[0]` are the client's. The model takes the rendered prompt as the output of `render` and the call's result as a `Completion`.
- `Server.WebpageScraper.TurnApiResToHtml`: Markdown-to-HTML conversion is an input function. The UTF-8 encode and decode of `api_res` keep it a string, because the round trip is the identity on text without lone surrogates, which a Dafny string cannot hold.
- Start-up is not modelled (reading the API key, building the client, reading the prompt file at server.py:16-39). It is I/O and configuration, not per-request.
- Async scheduling is not modelled. Each request is a single sequence of steps.
- `Server.WebpageScraper.constructor`: only the `url` argument is modelled. The handler never passes the other keyword arguments, which default to `None`.
- `Server.SummarizeWebpage`: the Python handler keeps the scraper as a local. The model returns it so that its final fields can be stated.
- `Server.WebpageScraper.ParsePage`: requires `res` to be set. With `res` at `None`, the source fails with an AttributeError that the handler never triggers.
- `Errors.Str`: an HTTPException's `str` is taken in the web framework's `"<status>: <detail>"` form. The texts of other exceptions are inputs.
- main.py is not part of this model. It is an earlier draft of the same title and description logic. The test files only check result types against the live network.
