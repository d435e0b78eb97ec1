/**
 * The compliance gate both scrapers run before fetching any listing page:
 * the start URL must parse, have a host, name an allow-listed host, and be
 * allowed by the site's robots.txt for the agent "Mozilla".
 *
 * URL parsing and the robots.txt verdict (fetching robots.txt, an empty
 * text when that fails, and the matcher) are oracles.
 */
module Gate {
  import opened Wrappers
  import opened Pager

  /** Why a scrape ends without results. */
  datatype ScrapeError =
    | InvalidUrl(detail: string)
    | NoHost
    | DomainNotAllowed
    | RobotsDisallowed
    | FetchFailed(reason: string)

  /** The error text both scrapers report (the stream sends it in an `error` event). */
  function Message(e: ScrapeError): string {
    match e
    case InvalidUrl(detail) => detail
    case NoHost => "url has no host"
    case DomainNotAllowed => "domain not in whitelist"
    case RobotsDisallowed => "robots.txt disallows this URL"
    case FetchFailed(reason) => reason
  }

  /** The only hosts the scrapers will visit. */
  const AllowedHosts: set<string> := {"www.njuskalo.hr", "njuskalo.hr"}

  /** `Url::parse`: a URL or the parser's error message. */
  type UrlParser = string -> Result<Url, string>

  /** Whether the robots.txt at the first URL lets "Mozilla" fetch the second. */
  type RobotsVerdict = (string, string) -> bool

  /** Where the robots.txt of a site lives. */
  function RobotsUrl(scheme: string, host: string): string {
    scheme + "://" + host + "/robots.txt"
  }

  /** A start URL that passed the gate, with its host. */
  datatype Target = Target(url: Url, host: string)

  /** The checks in their order: parse, host present, allow-list, robots verdict. */
  function Validate(parse: UrlParser, robots: RobotsVerdict, startUrl: string): (r: Result<Target, ScrapeError>)
    ensures parse(startUrl).Err? <==> r.Err? && r.error.InvalidUrl?
    ensures parse(startUrl).Err? ==> r == Err(InvalidUrl(parse(startUrl).error))
    ensures r == Err(NoHost) <==> parse(startUrl).Ok? && parse(startUrl).value.host.None?
    ensures r == Err(DomainNotAllowed) <==>
              parse(startUrl).Ok? && parse(startUrl).value.host.Some? && parse(startUrl).value.host.value !in AllowedHosts
    ensures r == Err(RobotsDisallowed) <==>
              parse(startUrl).Ok? && parse(startUrl).value.host.Some? && parse(startUrl).value.host.value in AllowedHosts
              && !robots(RobotsUrl(parse(startUrl).value.scheme, parse(startUrl).value.host.value), startUrl)
    ensures r.Ok? ==> r.value.url == parse(startUrl).value && r.value.url.host == Some(r.value.host)
                      && r.value.host in AllowedHosts
                      && robots(RobotsUrl(r.value.url.scheme, r.value.host), startUrl)
    ensures r.Err? ==> !r.error.FetchFailed?
  {
    match parse(startUrl)
    case Err(m) => Err(InvalidUrl(m))
    case Ok(url) =>
      match url.host
      case None => Err(NoHost)
      case Some(host) =>
        if host !in AllowedHosts then Err(DomainNotAllowed)
        else if !robots(RobotsUrl(url.scheme, host), startUrl) then Err(RobotsDisallowed)
        else Ok(Target(url, host))
  }

  /** robots.txt is consulted only for an allow-listed host. */
  lemma RobotsOnlyForAllowedHosts(parse: UrlParser, robots: RobotsVerdict, other: RobotsVerdict, startUrl: string)
    requires parse(startUrl).Err? || parse(startUrl).value.host.None? || parse(startUrl).value.host.value !in AllowedHosts
    ensures Validate(parse, robots, startUrl) == Validate(parse, other, startUrl)
    ensures Validate(parse, robots, startUrl).Err?
  {
  }

  /** Only the two listed hosts pass the gate, and both can. */
  lemma AllowList(parse: UrlParser, robots: RobotsVerdict, startUrl: string)
    requires parse(startUrl).Ok? && parse(startUrl).value.host.Some?
    requires forall u, s :: robots(u, s)
    ensures Validate(parse, robots, startUrl).Ok? <==>
              parse(startUrl).value.host.value == "www.njuskalo.hr" || parse(startUrl).value.host.value == "njuskalo.hr"
  {
  }
}
