/** The `Webpage_scraper` object and the `GET /scrape/webpage` handler that
    drives it. Every library call the handler depends on (URL parsing, the
    HTTP client, the HTML parser, the model API, Markdown rendering) is a
    function in `Collaborators`. */
module Server {
  import opened PyBuiltins
  import opened Errors
  import opened UrlValidator
  import opened Fetcher
  import opened Extractor

  const InvalidUrlDetail: string := "invalid url"
  const CompletionErrorPrefix: string := "err: error while making api call to groq: "
  const NoneEncodeMessage: string := "'NoneType' object has no attribute 'encode'"

  /** The values the prompt template is rendered with: `title`, `desc`,
      `page_content` and `url`. */
  datatype Prompt = Prompt(title: Option<string>, desc: Option<string>, pageContent: Option<string>, url: string)

  /** How the chat-completion call on the rendered prompt ended: the first
      choice's message content (which the client types as optional), or an
      exception (its `str`). */
  datatype Completion = Answered(content: Option<string>) | CallFailed(reason: string)

  /** The outside world of one request. */
  datatype Collaborators = Collaborators(
    urlparse: string -> ParseOutcome,
    get: string -> Transport,
    soup: string -> Call<SoupView>,
    render: Prompt -> Call<string>,
    complete: string -> Completion,
    markdown: string -> Call<string>)

  /** The `try`/`except` around the completion call in `send_req_to_groq`. */
  function CallModel(c: Completion): (r: Outcome<Option<string>>)
    ensures r.Ok? <==> c.Answered?
    ensures r.Ok? ==> r.value == c.content
    ensures r.Raised? ==>
      r.error.HTTPException? && r.error.statusCode == 500
      && r.error.detail == CompletionErrorPrefix + c.reason
  {
    match c
    case Answered(m) => Ok(m)
    case CallFailed(m) => Raised(HTTPException(500, CompletionErrorPrefix + Str(CompletionError(m))))
  }

  /** `send_req_to_groq` as a whole: the prompt is rendered outside the
      `try`, so a rendering failure escapes unhandled, and only the model
      call is caught. */
  function AskModel(render: Prompt -> Call<string>, complete: string -> Completion, p: Prompt): (r: Outcome<Option<string>>)
    ensures r.Raised? && r.error.Unhandled? ==> render(p).Threw? && r.error.message == render(p).message
    ensures render(p).Threw? ==> r == Raised(Unhandled(render(p).message))
    ensures render(p).Returned? ==> r == CallModel(complete(render(p).value))
  {
    match Unguarded(render(p))
    case Raised(e) => Raised(e)
    case Ok(text) => CallModel(complete(text))
  }

  /** `api_res.encode('utf-8')`, kept as text: a `None` answer has no
      `encode`, and that AttributeError escapes unhandled. */
  function EncodeAnswer(m: Option<string>): (r: Outcome<string>)
    ensures r.Ok? <==> m.Some?
    ensures r.Ok? ==> r.value == m.value
    ensures r.Raised? ==> r.error == Unhandled(NoneEncodeMessage)
  {
    if m.Some? then Ok(m.value) else Raised(Unhandled(NoneEncodeMessage))
  }

  /** The prompt built from a record. */
  function PromptOf(d: Record): Prompt {
    Prompt(Some(d.title), Some(d.description), Some(d.content), d.url)
  }

  /** What one request to `/scrape/webpage?url=...` answers: the HTML
      summary, or the exception that escapes the handler. */
  function Summarize(url: string, w: Collaborators): (r: Outcome<string>)
    ensures !ValidateUrl(w.urlparse(url)) ==> r == Raised(HTTPException(400, InvalidUrlDetail))
    ensures r.Ok? ==> ValidateUrl(w.urlparse(url)) && ClassifyFetch(w.get(url)).Ok?
  {
    if !ValidateUrl(w.urlparse(url)) then Raised(HTTPException(400, InvalidUrlDetail))
    else
      match ClassifyFetch(w.get(url))
      case Raised(e) => Raised(e)
      case Ok(res) => AnswerFetched(url, w, res)
  }

  /** The rest of the request once the page has been fetched. */
  function AnswerFetched(url: string, w: Collaborators, res: Response): Outcome<string> {
    match Unguarded(w.soup(res.text))
    case Raised(e) => Raised(e)
    case Ok(view) => AnswerRecord(w, BuildRecord(url, view))
  }

  /** The rest of the request once the record has been built. */
  function AnswerRecord(w: Collaborators, d: Record): Outcome<string> {
    match AskModel(w.render, w.complete, PromptOf(d))
    case Raised(e) => Raised(e)
    case Ok(answer) =>
      match EncodeAnswer(answer)
      case Raised(e) => Raised(e)
      case Ok(stored) => Unguarded(w.markdown(stored))
  }

  class WebpageScraper {
    var url: string
    var title: Option<string>
    var content: Option<string>
    var description: Option<string>
    var res: Option<Response>
    var apiRes: Option<string>

    /** The handler fills the fields in the order res, title,
        description, content, api_res: a field is set only once all fields
        before it are. */
    predicate FilledInOrder()
      reads this
    {
      (title.Some? ==> res.Some?)
      && (description.Some? ==> title.Some?)
      && (content.Some? ==> description.Some?)
      && (apiRes.Some? ==> content.Some?)
    }

    constructor (url: string)
      ensures this.url == url
      ensures title == None && content == None && description == None
      ensures res == None && apiRes == None
      ensures FilledInOrder()
    {
      this.url := url;
      title, content, description := None, None, None;
      res, apiRes := None, None;
    }

    method ValidateUrlManually(urlparse: string -> ParseOutcome) returns (ok: bool)
      ensures ok <==> urlparse(url).Parsed? && urlparse(url).scheme != "" && urlparse(url).netloc != ""
    {
      ok := ValidateUrl(urlparse(url));
    }

    /** Returns the response and does not store it: the handler does. */
    method ScrapeWebpage(get: string -> Transport) returns (r: Outcome<Response>)
      ensures r == ClassifyFetch(get(url))
      ensures r.Raised? ==> r.error.HTTPException? && r.error.statusCode == 400
    {
      r := ClassifyFetch(get(url));
    }

    /** Reads `self.res.text`, so `res` must have been set (on `None` the
        source fails with an AttributeError). The parser may raise, and
        nothing catches that. */
    method ParsePage(soup: string -> Call<SoupView>) returns (d: Outcome<Record>)
      requires res.Some?
      ensures d.Ok? <==> soup(res.value.text).Returned?
      ensures d.Ok? ==> d.value == BuildRecord(url, soup(res.value.text).value)
      ensures d.Ok? ==> d.value.url == url && 0 < |d.value.content| <= MaxContentChars
      ensures d.Raised? ==> d.error == Unhandled(soup(res.value.text).message)
    {
      var view := soup(res.value.text);
      if view.Threw? {
        d := Raised(Unhandled(view.message));
        return;
      }
      d := Ok(BuildRecord(url, view.value));
      ContentBounded(url, view.value);
    }

    method SendReqToGroq(render: Prompt -> Call<string>, complete: string -> Completion) returns (r: Outcome<Option<string>>)
      ensures r == AskModel(render, complete, Prompt(title, description, content, url))
      ensures r.Raised? ==>
        (r.error.HTTPException? && r.error.statusCode == 500 && CompletionErrorPrefix <= r.error.detail)
        || r.error.Unhandled?
    {
      var promptFinal := render(Prompt(title, description, content, url));
      if promptFinal.Threw? {
        r := Raised(Unhandled(promptFinal.message));
        return;
      }
      r := CallModel(complete(promptFinal.value));
    }

    /** Converts `self.api_res`, so it must have been set. */
    method TurnApiResToHtml(markdown: string -> Call<string>) returns (html: Outcome<string>)
      requires apiRes.Some?
      ensures html.Ok? <==> markdown(apiRes.value).Returned?
      ensures html.Ok? ==> html.value == markdown(apiRes.value).value
      ensures html.Raised? ==> html.error == Unhandled(markdown(apiRes.value).message)
    {
      html := Unguarded(markdown(apiRes.value));
    }
  }

  /** The route handler. The scraper it works on is returned too, so that
      its final state can be stated. */
  method SummarizeWebpage(url: string, w: Collaborators) returns (resp: Outcome<string>, scraper: WebpageScraper)
    ensures fresh(scraper)
    ensures resp == Summarize(url, w)
    ensures scraper.url == url && scraper.FilledInOrder()
    ensures scraper.res ==
      if ValidateUrl(w.urlparse(url)) && ClassifyFetch(w.get(url)).Ok?
      then Some(ClassifyFetch(w.get(url)).value) else None
    ensures scraper.res.Some? && w.soup(scraper.res.value.text).Threw? ==> scraper.title.None?
    ensures scraper.res.Some? && w.soup(scraper.res.value.text).Returned? ==>
      var d := BuildRecord(url, w.soup(scraper.res.value.text).value);
      scraper.title == Some(d.title) && scraper.description == Some(d.description)
      && scraper.content == Some(d.content)
    ensures scraper.content.Some? ==>
      var a := AskModel(w.render, w.complete, Prompt(scraper.title, scraper.description, scraper.content, url));
      scraper.apiRes == if a.Ok? && a.value.Some? then a.value else None
    ensures scraper.apiRes.Some? ==>
      scraper.res.Some? && w.soup(scraper.res.value.text).Returned?
      && AskModel(w.render, w.complete, PromptOf(BuildRecord(url, w.soup(scraper.res.value.text).value)))
         == Ok(Some(scraper.apiRes.value))
    ensures resp.Ok? <==> scraper.apiRes.Some? && w.markdown(scraper.apiRes.value).Returned?
    ensures resp.Ok? ==> resp.value == w.markdown(scraper.apiRes.value).value
  {
    scraper := new WebpageScraper(url);
    var isValid := scraper.ValidateUrlManually(w.urlparse);
    if !isValid {
      resp := Raised(HTTPException(400, InvalidUrlDetail));
      return;
    }

    var rawWebpage := scraper.ScrapeWebpage(w.get);
    if rawWebpage.Raised? {
      resp := Raised(rawWebpage.error);
      return;
    }
    assert Summarize(url, w) == AnswerFetched(url, w, rawWebpage.value);
    scraper.res := Some(rawWebpage.value);
    var payload := scraper.ParsePage(w.soup);
    if payload.Raised? {
      resp := Raised(payload.error);
      return;
    }
    assert Summarize(url, w) == AnswerRecord(w, payload.value);
    scraper.title := Some(payload.value.title);
    scraper.description := Some(payload.value.description);
    scraper.content := Some(payload.value.content);
    assert scraper.FilledInOrder();
    assert Prompt(scraper.title, scraper.description, scraper.content, url) == PromptOf(payload.value);

    var apiRes := scraper.SendReqToGroq(w.render, w.complete);
    assert payload.value == BuildRecord(url, w.soup(scraper.res.value.text).value);
    assert apiRes == AskModel(w.render, w.complete, PromptOf(payload.value));
    if apiRes.Raised? {
      resp := Raised(apiRes.error);
      return;
    }
    var stored := EncodeAnswer(apiRes.value);
    if stored.Raised? {
      resp := Raised(stored.error);
      return;
    }
    scraper.apiRes := Some(stored.value);
    resp := scraper.TurnApiResToHtml(w.markdown);
  }

  /** An invalid URL is answered with 400 "invalid url" before anything is
      fetched: the answer is the same whatever the rest of the world does. */
  lemma InvalidUrlRejectedBeforeFetch(url: string, w: Collaborators, w': Collaborators)
    requires !ValidateUrl(w.urlparse(url))
    requires w'.urlparse(url) == w.urlparse(url)
    ensures Summarize(url, w) == Raised(HTTPException(400, InvalidUrlDetail))
    ensures Summarize(url, w') == Summarize(url, w)
  {
  }

  /** What escapes the handler is an HTTPException of status 400 or 500,
      never a 413, or an exception nothing caught, which the framework
      answers with a bare 500. A 400 is the invalid-URL answer or a fetch
      error; a 500 HTTPException is a model-call error; an uncaught
      exception is only possible once the page was fetched. */
  lemma ErrorStatuses(url: string, w: Collaborators)
    ensures Summarize(url, w).Raised? ==>
      var e := Summarize(url, w).error;
      (e.HTTPException? && e.statusCode == 400 && (e.detail == InvalidUrlDetail || FetchErrorPrefix <= e.detail))
      || (e.HTTPException? && e.statusCode == 500 && CompletionErrorPrefix <= e.detail)
      || (e.Unhandled? && ValidateUrl(w.urlparse(url)) && ClassifyFetch(w.get(url)).Ok?)
  {
  }

  /** The request succeeds exactly when every step does: the URL is valid,
      the fetch succeeds, the page parses, the prompt renders, the model
      answers with some text, and that text converts to HTML, which is then
      the answer. */
  lemma SuccessPath(url: string, w: Collaborators)
    ensures Summarize(url, w).Ok? <==>
      ValidateUrl(w.urlparse(url)) && ClassifyFetch(w.get(url)).Ok?
      && w.soup(w.get(url).response.text).Returned?
      && var p := PromptOf(BuildRecord(url, w.soup(w.get(url).response.text).value));
         w.render(p).Returned? && w.complete(w.render(p).value).Answered?
         && w.complete(w.render(p).value).content.Some?
         && w.markdown(w.complete(w.render(p).value).content.value).Returned?
    ensures Summarize(url, w).Ok? ==>
      var p := PromptOf(BuildRecord(url, w.soup(w.get(url).response.text).value));
      Summarize(url, w).value == w.markdown(w.complete(w.render(p).value).content.value).value
  {
  }

  /** A valid URL whose page is over the size limit is answered 400, with the
      rendered 413 inside the detail. */
  lemma OversizePageAnswered400(url: string, w: Collaborators)
    requires ValidateUrl(w.urlparse(url))
    requires w.get(url).Received? && IsSuccess(w.get(url).response.statusCode)
    requires w.get(url).response.bodyLength > MaxBodyBytes
    ensures Summarize(url, w) ==
      Raised(HTTPException(400, FetchErrorPrefix + "413: " + TooLargeDetail + FetchErrorSuffix))
  {
    FailureDetail(w.get(url));
  }

  /** The prompt `Summarize` renders for a parsed page asks about the request
      URL verbatim, with every field set and a content of 1 to 1000
      characters. */
  lemma PromptCarriesRequestUrl(url: string, view: SoupView)
    ensures PromptOf(BuildRecord(url, view)).url == url
    ensures PromptOf(BuildRecord(url, view)).title.Some? && PromptOf(BuildRecord(url, view)).desc.Some?
    ensures PromptOf(BuildRecord(url, view)).pageContent.Some?
    ensures 0 < |PromptOf(BuildRecord(url, view)).pageContent.value| <= MaxContentChars
  {
    ContentBounded(url, view);
  }
}
