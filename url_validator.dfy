/** `Webpage_scraper.validate_url_manually`: the only check a target URL
    passes before it is fetched. */
module UrlValidator {
  import opened PyBuiltins

  /** What `urllib.parse.urlparse` gives for the URL: its scheme and network
      location, or an exception (some malformed URLs, such as an unclosed
      IPv6 bracket, make it raise). */
  datatype ParseOutcome = Parsed(scheme: string, netloc: string) | ParseRaised

  /** `all([result.scheme, result.netloc])`, with a raise during parsing
      caught and answered with `False`. */
  function ValidateUrl(p: ParseOutcome): (ok: bool)
    ensures ok <==> p.Parsed? && p.scheme != "" && p.netloc != ""
  {
    match p
    case ParseRaised => false
    case Parsed(scheme, netloc) =>
      var parts := [scheme, netloc];
      assert parts[0] == scheme && parts[1] == netloc;
      AllTruthy(parts)
  }

  /** Nothing beyond presence is checked: any scheme and any host pass,
      plain `http` and loopback hosts included. */
  lemma PlainHttpAndLoopbackPass()
    ensures ValidateUrl(Parsed("http", "localhost")) && ValidateUrl(Parsed("ftp", "127.0.0.1"))
  {
  }
}
