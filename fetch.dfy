/**
 * Fetching one listing page: the browser-like request headers
 * (`base_headers`) and the retry loop that alternates between a desktop and
 * a mobile profile (`retry_fetch_html`).
 *
 * The network is an oracle `send` from the attempt number and the request
 * headers to a response; the random user-agent pick is an index `pick`
 * per attempt. Sleeps between attempts are not modelled.
 */
module Fetch {
  import opened Wrappers
  import opened Text

  datatype Profile = Desktop | Mobile

  function Flip(p: Profile): Profile {
    match p
    case Desktop => Mobile
    case Mobile => Desktop
  }

  /** The header names `base_headers` sets (the `reqwest::header` constants). */
  datatype HeaderName =
    | UserAgent | Accept | AcceptLanguage | Referer | UpgradeInsecureRequests | Connection
    | CacheControl | Pragma | Dnt | SecFetchSite | SecFetchMode | SecFetchDest

  /** The name as sent on the wire. */
  function WireName(n: HeaderName): string {
    match n
    case UserAgent => "user-agent"
    case Accept => "accept"
    case AcceptLanguage => "accept-language"
    case Referer => "referer"
    case UpgradeInsecureRequests => "upgrade-insecure-requests"
    case Connection => "connection"
    case CacheControl => "cache-control"
    case Pragma => "pragma"
    case Dnt => "dnt"
    case SecFetchSite => "sec-fetch-site"
    case SecFetchMode => "sec-fetch-mode"
    case SecFetchDest => "sec-fetch-dest"
  }

  /** The user agents the scraper impersonates. */
  datatype UserAgent = ChromeLinux | ChromeWindows | SafariMac | ChromeAndroid | SafariIPhone

  function AgentString(a: UserAgent): string {
    match a
    case ChromeLinux =>
      "Mozilla/5.0 (X11; Linux x86_64) AppleWebKit/537.36 (KHTML, like Gecko) Chrome/124.0 Safari/537.36"
    case ChromeWindows =>
      "Mozilla/5.0 (Windows NT 10.0; Win64; x64) AppleWebKit/537.36 (KHTML, like Gecko) Chrome/123.0 Safari/537.36"
    case SafariMac =>
      "Mozilla/5.0 (Macintosh; Intel Mac OS X 10_15_7) AppleWebKit/605.1.15 (KHTML, like Gecko) Version/17.5 Safari/605.1.15"
    case ChromeAndroid =>
      "Mozilla/5.0 (Linux; Android 14; Pixel 7) AppleWebKit/537.36 (KHTML, like Gecko) Chrome/124.0 Mobile Safari/537.36"
    case SafariIPhone =>
      "Mozilla/5.0 (iPhone; CPU iPhone OS 17_5 like Mac OS X) AppleWebKit/605.1.15 (KHTML, like Gecko) Version/17.5 Mobile/15E148 Safari/604.1"
  }

  const DesktopAgents: seq<UserAgent> := [ChromeLinux, ChromeWindows, SafariMac]
  const MobileAgents: seq<UserAgent> := [ChromeAndroid, SafariIPhone]

  function Agents(p: Profile): (agents: seq<UserAgent>)
    ensures |agents| > 0
  {
    match p
    case Desktop => DesktopAgents
    case Mobile => MobileAgents
  }

  /** The user agent a profile sends for a random pick (`random_desktop_ua`, `random_mobile_ua`). */
  function PickAgent(p: Profile, pick: nat): (ua: UserAgent)
    ensures ua in Agents(p)
  {
    Agents(p)[pick % |Agents(p)|]
  }

  /** The fixed value `base_headers` gives a header that depends neither on the profile nor on the referer. */
  function StandardText(n: HeaderName): string {
    match n
    case Accept => "text/html,application/xhtml+xml,application/xml;q=0.9,*/*;q=0.8"
    case AcceptLanguage => "hr-HR,hr;q=0.9,en-US;q=0.8,en;q=0.7"
    case UpgradeInsecureRequests => "1"
    case Connection => "keep-alive"
    case CacheControl => "max-age=0"
    case Pragma => "no-cache"
    case Dnt => "1"
    case SecFetchSite => "same-origin"
    case SecFetchMode => "navigate"
    case SecFetchDest => "document"
    case UserAgent => ""
    case Referer => ""
  }

  /** A header value: a user agent, the referer URL, or the name's standard text. */
  datatype HeaderValue = Agent(ua: UserAgent) | RefererUrl(url: string) | Standard(name: HeaderName)

  /** The value as sent on the wire. */
  function ValueText(v: HeaderValue): string {
    match v
    case Agent(ua) => AgentString(ua)
    case RefererUrl(url) => url
    case Standard(n) => StandardText(n)
  }

  /** A header map: `HeaderMap::insert` with distinct names is a map update. */
  type Headers = map<HeaderName, HeaderValue>

  const AllNames: set<HeaderName> := {
    UserAgent, Accept, AcceptLanguage, Referer, UpgradeInsecureRequests, Connection,
    CacheControl, Pragma, Dnt, SecFetchSite, SecFetchMode, SecFetchDest }

  /** The value `base_headers` inserts under one name. */
  function HeaderFor(profile: Profile, referer: string, pick: nat, n: HeaderName): HeaderValue {
    match n
    case UserAgent => Agent(PickAgent(profile, pick))
    case Referer => RefererUrl(referer)
    case _ => Standard(n)
  }

  /** `base_headers`: the headers of one request. */
  function BaseHeaders(profile: Profile, referer: string, pick: nat): Headers {
    map n | n in AllNames :: HeaderFor(profile, referer, pick, n)
  }

  /**
   * Every header name is set once; the user agent is one of the profile's,
   * the referer is the one given, and every other header has its standard
   * value whatever the profile.
   */
  lemma BaseHeadersShape(profile: Profile, referer: string, pick: nat)
    ensures var h := BaseHeaders(profile, referer, pick);
            (forall n: HeaderName :: n in h)
            && h[UserAgent] == Agent(PickAgent(profile, pick)) && PickAgent(profile, pick) in Agents(profile)
            && h[Referer] == RefererUrl(referer)
            && (forall n :: n != UserAgent && n != Referer ==> h[n] == Standard(n))
  {
    forall n: HeaderName ensures n in AllNames {
      match n
      case UserAgent =>
      case Accept =>
      case AcceptLanguage =>
      case Referer =>
      case UpgradeInsecureRequests =>
      case Connection =>
      case CacheControl =>
      case Pragma =>
      case Dnt =>
      case SecFetchSite =>
      case SecFetchMode =>
      case SecFetchDest =>
    }
  }

  /** Requests ask for Croatian first, then English, whatever the profile. */
  lemma CroatianFirst(profile: Profile, referer: string, pick: nat)
    ensures ValueText(BaseHeaders(profile, referer, pick)[AcceptLanguage]) == "hr-HR,hr;q=0.9,en-US;q=0.8,en;q=0.7"
  {
  }

  // ---------------------------------------------------------------------
  // retry_fetch_html
  // ---------------------------------------------------------------------

  /** What one request yields: a transport error, or a body (possibly empty). */
  datatype Response = TransportError(message: string) | Received(text: string)

  const AttemptLimit: nat := 5
  const PageMarker: string := "EntityList-item"
  const ExhaustedMessage: string := "failed to fetch page after retries"

  /** A body is taken when it is longer than 4000 UTF-8 bytes and names a listing item. */
  predicate Accepted(r: Response) {
    r.Received? && Utf8Len(r.text) > 4000 && Contains(r.text, PageMarker)
  }

  /**
   * One attempt: the profile used, the user agent it sent (the other
   * headers follow from the profile and the referer) and the response.
   */
  datatype Attempt = Attempt(profile: Profile, agent: UserAgent, response: Response)

  type Sender = (nat, Headers) -> Response

  /** The profile for the attempt after `a`: a rejected body flips it, a transport error does not. */
  function NextProfile(a: Attempt): Profile {
    if a.response.Received? then Flip(a.profile) else a.profile
  }

  /** Attempt number `k` with `profile` in force: pick a user agent, build the headers and send them. */
  function Step(send: Sender, referer: string, pick: nat -> nat, k: nat, profile: Profile): Attempt {
    Attempt(profile, PickAgent(profile, pick(k)), send(k, BaseHeaders(profile, referer, pick(k))))
  }

  /** Attempt `b` may follow attempt `a`: `a` was rejected and `b` uses the profile `a` leaves behind. */
  predicate Follows(a: Attempt, b: Attempt) {
    !Accepted(a.response) && b.profile == NextProfile(a)
  }

  /**
   * The first attempts of a run: each is attempt number `i` sent with the
   * profile in force, the first on the desktop profile, each later one
   * following the one before.
   */
  predicate RunPrefix(send: Sender, referer: string, pick: nat -> nat, t: seq<Attempt>) {
    |t| <= AttemptLimit
    && (t != [] ==> t[0].profile == Desktop)
    && (forall i :: 0 <= i < |t| ==> t[i] == Step(send, referer, pick, i, t[i].profile))
    && (forall i :: 0 <= i < |t| - 1 ==> Follows(t[i], t[i + 1]))
  }

  /**
   * The attempts `retry_fetch_html` makes: a run that stops at the first
   * accepted body or after five attempts.
   */
  predicate IsRun(send: Sender, referer: string, pick: nat -> nat, t: seq<Attempt>) {
    RunPrefix(send, referer, pick, t) && t != []
    && (Accepted(t[|t| - 1].response) || |t| == AttemptLimit)
  }

  /** Two runs agree on every attempt both have made. */
  lemma {:induction false} RunsAgree(send: Sender, referer: string, pick: nat -> nat, t: seq<Attempt>, u: seq<Attempt>, i: nat)
    requires RunPrefix(send, referer, pick, t) && RunPrefix(send, referer, pick, u)
    requires i < |t| && i < |u|
    ensures t[i] == u[i]
  {
    if i > 0 {
      RunsAgree(send, referer, pick, t, u, i - 1);
      assert Follows(t[i - 1], t[i]) && Follows(u[i - 1], u[i]);
    }
  }

  /** A run grows by the attempt made with the profile its last attempt leaves behind. */
  lemma RunPrefixSnoc(send: Sender, referer: string, pick: nat -> nat, t: seq<Attempt>, profile: Profile)
    requires RunPrefix(send, referer, pick, t) && |t| < AttemptLimit
    requires t == [] ==> profile == Desktop
    requires t != [] ==> !Accepted(t[|t| - 1].response) && profile == NextProfile(t[|t| - 1])
    ensures RunPrefix(send, referer, pick, t + [Step(send, referer, pick, |t|, profile)])
  {
    var u := t + [Step(send, referer, pick, |t|, profile)];
    assert forall i :: 0 <= i < |t| ==> u[i] == t[i];
    if t != [] {
      assert Follows(u[|t| - 1], u[|t|]);
    }
  }

  /** Every attempt of a run sends a user agent of the profile in force, with the headers `base_headers` builds. */
  lemma RunAgents(send: Sender, referer: string, pick: nat -> nat, t: seq<Attempt>, i: nat)
    requires RunPrefix(send, referer, pick, t) && i < |t|
    ensures t[i].agent == PickAgent(t[i].profile, pick(i)) && t[i].agent in Agents(t[i].profile)
    ensures t[i].response == send(i, BaseHeaders(t[i].profile, referer, pick(i)))
  {
    assert t[i] == Step(send, referer, pick, i, t[i].profile);
  }

  /** In a run, each attempt but the last is followed by the next. */
  lemma FollowsAt(send: Sender, referer: string, pick: nat -> nat, t: seq<Attempt>, i: nat)
    requires RunPrefix(send, referer, pick, t) && i + 1 < |t|
    ensures !Accepted(t[i].response) && t[i + 1].profile == NextProfile(t[i])
  {
    assert Follows(t[i], t[i + 1]);
  }

  /** Nothing continues a run: a sequence of attempts is at most as long as a finished run. */
  lemma RunIsMaximal(send: Sender, referer: string, pick: nat -> nat, t: seq<Attempt>, u: seq<Attempt>)
    requires IsRun(send, referer, pick, t) && RunPrefix(send, referer, pick, u)
    ensures |u| <= |t|
  {
    if |u| > |t| {
      RunsAgree(send, referer, pick, t, u, |t| - 1);
      FollowsAt(send, referer, pick, u, |t| - 1);
    }
  }

  /** The attempts are determined by the oracle, the referer and the picks. */
  lemma RunIsUnique(send: Sender, referer: string, pick: nat -> nat, t: seq<Attempt>, u: seq<Attempt>)
    requires IsRun(send, referer, pick, t) && IsRun(send, referer, pick, u)
    ensures t == u
  {
    RunIsMaximal(send, referer, pick, t, u);
    RunIsMaximal(send, referer, pick, u, t);
    forall i | 0 <= i < |t| ensures t[i] == u[i] {
      RunsAgree(send, referer, pick, t, u, i);
    }
  }

  /** The message of the most recent transport error, if any. */
  function LastTransportError(t: seq<Attempt>): Option<string> {
    if t == [] then None
    else if t[|t| - 1].response.TransportError? then Some(t[|t| - 1].response.message)
    else LastTransportError(t[..|t| - 1])
  }

  /** What the attempts come to: the accepted body, else the last transport error, else a fixed message. */
  function Outcome(t: seq<Attempt>): Result<string, string> {
    if t != [] && Accepted(t[|t| - 1].response) then Ok(t[|t| - 1].response.text)
    else match LastTransportError(t)
         case Some(m) => Err(m)
         case None => Err(ExhaustedMessage)
  }

  /**
   * The most recent transport error: none when no attempt failed in
   * transport, otherwise the message of a failed attempt after which every
   * attempt received a body.
   */
  lemma {:induction false} LastTransportErrorSpec(t: seq<Attempt>)
    ensures LastTransportError(t).None? <==> forall i :: 0 <= i < |t| ==> t[i].response.Received?
    ensures LastTransportError(t).Some? ==>
              exists j :: 0 <= j < |t| && t[j].response == TransportError(LastTransportError(t).value)
                          && forall i :: j < i < |t| ==> t[i].response.Received?
  {
    if t != [] {
      var front := t[..|t| - 1];
      LastTransportErrorSpec(front);
      if t[|t| - 1].response.Received? {
        assert forall i :: 0 <= i < |front| ==> front[i] == t[i];
        if LastTransportError(t).Some? {
          var j :| 0 <= j < |front| && front[j].response == TransportError(LastTransportError(front).value)
                   && forall i :: j < i < |front| ==> front[i].response.Received?;
          assert t[j] == front[j];
        }
      }
    }
  }

  /**
   * The retry succeeds exactly when some attempt is accepted, and then it is
   * the last one and its body is the result; a failure means five attempts,
   * none accepted.
   */
  lemma RetryOutcome(send: Sender, referer: string, pick: nat -> nat, t: seq<Attempt>)
    requires IsRun(send, referer, pick, t)
    ensures Outcome(t).Ok? <==> exists i :: 0 <= i < |t| && Accepted(t[i].response)
    ensures Outcome(t).Ok? ==> Outcome(t).value == t[|t| - 1].response.text
    ensures Outcome(t).Err? ==> |t| == AttemptLimit && forall i :: 0 <= i < |t| ==> !Accepted(t[i].response)
  {
    forall i | 0 <= i < |t| - 1 ensures !Accepted(t[i].response) {
      assert Follows(t[i], t[i + 1]);
    }
  }

  /**
   * A failed retry reports the message of the last transport error, or the
   * fixed exhaustion message when every attempt received a rejected body.
   */
  lemma RetryErrorMessage(t: seq<Attempt>)
    requires Outcome(t).Err?
    ensures (forall i :: 0 <= i < |t| ==> t[i].response.Received?) ==> Outcome(t) == Err(ExhaustedMessage)
    ensures (exists i :: 0 <= i < |t| && t[i].response.TransportError?) ==>
              exists j :: 0 <= j < |t| && t[j].response == TransportError(Outcome(t).error)
                          && forall i :: j < i < |t| ==> t[i].response.Received?
  {
    LastTransportErrorSpec(t);
  }

  /**
   * While no transport error occurs the profiles alternate desktop, mobile,
   * desktop, ...
   */
  lemma {:induction false} ProfilesAlternate(send: Sender, referer: string, pick: nat -> nat, t: seq<Attempt>, n: nat)
    requires RunPrefix(send, referer, pick, t) && n < |t|
    requires forall i :: 0 <= i < n ==> t[i].response.Received?
    ensures t[n].profile == if n % 2 == 0 then Desktop else Mobile
  {
    if n > 0 {
      ProfilesAlternate(send, referer, pick, t, n - 1);
      assert Follows(t[n - 1], t[n]);
    }
  }

  /** A transport error keeps the profile: a run of errors stays on the desktop profile. */
  lemma {:induction false} ErrorsKeepDesktop(send: Sender, referer: string, pick: nat -> nat, t: seq<Attempt>, n: nat)
    requires RunPrefix(send, referer, pick, t) && n < |t|
    requires forall i :: 0 <= i < n ==> t[i].response.TransportError?
    ensures t[n].profile == Desktop
  {
    if n > 0 {
      ErrorsKeepDesktop(send, referer, pick, t, n - 1);
      assert Follows(t[n - 1], t[n]);
    }
  }

  /**
   * `retry_fetch_html`: up to five attempts, returning the first accepted
   * body; the profile starts on desktop and flips after each rejected body.
   */
  method RetryFetch(send: Sender, referer: string, pick: nat -> nat) returns (result: Result<string, string>, trace: seq<Attempt>)
    ensures IsRun(send, referer, pick, trace)
    ensures result == Outcome(trace)
  {
    var attempts: nat := 0;
    var lastErr: Option<string> := None;
    var profile := Desktop;
    trace := [];
    while attempts < AttemptLimit
      invariant attempts <= AttemptLimit && |trace| == attempts
      invariant RunPrefix(send, referer, pick, trace)
      invariant trace != [] ==> !Accepted(trace[|trace| - 1].response) && profile == NextProfile(trace[|trace| - 1])
      invariant trace == [] ==> profile == Desktop
      invariant lastErr == LastTransportError(trace)
    {
      var a := Step(send, referer, pick, attempts, profile);
      RunPrefixSnoc(send, referer, pick, trace, profile);
      ghost var before := trace;
      trace := trace + [a];
      assert trace[..|trace| - 1] == before;
      if Accepted(a.response) {
        return Ok(a.response.text), trace;
      }
      if a.response.TransportError? {
        lastErr := Some(a.response.message);
      }
      profile := NextProfile(a);
      attempts := attempts + 1;
    }
    result := match lastErr
      case Some(m) => Err(m)
      case None => Err(ExhaustedMessage);
  }
}
