/**
 * `scrape_prices`: the batch scraper. After the gate it visits the pages
 * start, start + 1, ... of the normalized search URL, registers each page's
 * hits through the duplicate filter, and stops at the page cap or at the
 * first page that registers nothing new.
 */
module Batch {
  import opened Wrappers
  import opened Pager
  import opened Card
  import opened Dedup
  import opened Gate
  import opened Engine

  /** The summary returned with the hits. */
  datatype Meta = Meta(pageCount: nat, totalHits: nat, nextUrl: Option<Url>)

  /**
   * The state after one page: the listed cards are registered; when none of
   * them was new, every item card of the page is offered as well.
   */
  function PageHits(k: Kept, listCards: seq<Option<PriceHit>>, allCards: seq<Option<PriceHit>>): (r: Kept)
    ensures k.hits <= r.hits
  {
    var primary := AppendHits(k, Hits(listCards));
    if |primary.hits| == |k.hits| then AppendHits(primary, Hits(allCards)) else primary
  }

  /**
   * The item cards are offered exactly when every hit among the listed
   * cards has a non-empty id already seen; otherwise only the listed cards
   * are.
   */
  lemma PageHitsFallback(k: Kept, listCards: seq<Option<PriceHit>>, allCards: seq<Option<PriceHit>>)
    ensures PageHits(k, listCards, allCards)
            == if forall x :: x in Hits(listCards) ==> x.id != "" && x.id in k.seen
               then AppendHits(k, Hits(allCards)) else AppendHits(k, Hits(listCards))
  {
    NothingAdded(k, Hits(listCards));
  }

  /** A page keeps the seen ids those of the hits, and keeps their non-empty ids distinct. */
  lemma PageHitsTracks(k: Kept, listCards: seq<Option<PriceHit>>, allCards: seq<Option<PriceHit>>)
    requires Tracks(k)
    ensures Tracks(PageHits(k, listCards, allCards))
    ensures IdsDistinct(k.hits) ==> IdsDistinct(PageHits(k, listCards, allCards).hits)
  {
    var primary := AppendHits(k, Hits(listCards));
    AppendHitsTracks(k, Hits(listCards));
    AppendHitsTracks(primary, Hits(allCards));
  }

  /**
   * How the state changes with a page's listed and item cards. The crawl is
   * written once over it; `scrape_prices` registers with `PageHits`.
   */
  type PageRegister = (Kept, seq<Option<PriceHit>>, seq<Option<PriceHit>>) -> Kept

  /** A registration only appends to the hits. */
  ghost predicate Appends(register: PageRegister) {
    forall k: Kept, listCards, allCards :: k.hits <= register(k, listCards, allCards).hits
  }

  /** A registration keeps the seen ids those of the hits, and their non-empty ids distinct. */
  ghost predicate KeepsTrack(register: PageRegister) {
    forall k: Kept, listCards, allCards :: Tracks(k) && IdsDistinct(k.hits) ==>
      Tracks(register(k, listCards, allCards)) && IdsDistinct(register(k, listCards, allCards).hits)
  }

  /** `PageHits` is a registration of both kinds. */
  lemma PageHitsRegisters()
    ensures Appends(PageHits) && KeepsTrack(PageHits)
  {
    forall k, listCards, allCards | Tracks(k) && IdsDistinct(k.hits)
      ensures Tracks(PageHits(k, listCards, allCards)) && IdsDistinct(PageHits(k, listCards, allCards).hits)
    {
      PageHitsTracks(k, listCards, allCards);
    }
  }

  /** A page visited: its URL, the referer sent, and how many hits it registered. */
  datatype Visit = Visit(url: Url, referer: Referer, added: nat)

  /** Where a crawl ends: the pages visited, the registry state, the next page's URL, and the fetch error if one stopped it. */
  datatype Crawl = Crawl(visits: seq<Visit>, kept: Kept, next: Option<Url>, failure: Option<string>)

  /**
   * The crawl from page number `page`, with `budget` pages left, after the
   * pages `visits` that left the registry state `kept`, `prev` as the last page and `next` as
   * the URL after it.
   */
  function CrawlFrom(env: Env, register: PageRegister, base: Url, origin: string, page: nat, prev: Option<Url>, kept: Kept,
                     visits: seq<Visit>, next: Option<Url>, budget: nat): Crawl
    requires Appends(register)
    decreases budget, 1
  {
    if budget == 0 then Crawl(visits, kept, next, None)
    else Turn(env, register, base, origin, page, prev, kept, visits, next, budget)
  }

  /**
   * One turn of the crawl with pages left: fetch page number `page`, stop
   * at a fetch error, register its cards, stop when that added nothing, and
   * otherwise go on from the next page.
   */
  function Turn(env: Env, register: PageRegister, base: Url, origin: string, page: nat, prev: Option<Url>, kept: Kept,
                visits: seq<Visit>, next: Option<Url>, budget: nat): Crawl
    requires Appends(register) && budget > 0
    decreases budget, 0
  {
    var url := BuildPageUrl(base, page);
    var referer := RefererFor(origin, prev);
    match env.site(url, referer)
    case Unavailable(reason) => Crawl(visits, kept, next, Some(reason))
    case Fetched(listCards, allCards) =>
      var after := register(kept, listCards, allCards);
      var visits' := visits + [Visit(url, referer, |after.hits| - |kept.hits|)];
      if |after.hits| == |kept.hits| then Crawl(visits', after, None, None)
      else CrawlFrom(env, register, base, origin, page + 1, Some(url), after, visits', Some(BuildPageUrl(base, page + 1)), budget - 1)
  }

  /** The crawl `scrape_prices` makes once the start URL `url` with host `host` passed the gate. */
  function CrawlOf(env: Env, url: Url, host: string, pageRange: Option<nat>): Crawl {
    var base := url.(query := WithoutPage(url.query));
    PageHitsRegisters();
    CrawlFrom(env, PageHits, base, Origin(base.scheme, host), StartPage(url.query), None, Kept([], {}), [], None, MaxPages(pageRange))
  }

  /** What a crawl returns: the fetch error, or the hits and the summary. */
  function Summary(c: Crawl): Result<(seq<PriceHit>, Meta), ScrapeError> {
    if c.failure.Some? then Err(FetchFailed(c.failure.value))
    else Ok((c.kept.hits, Meta(|c.visits|, |c.kept.hits|, c.next)))
  }

  /** What `scrape_prices` returns. */
  function Scrape(env: Env, startUrl: string, pageRange: Option<nat>): Result<(seq<PriceHit>, Meta), ScrapeError> {
    match Validate(env.parse, env.robots, startUrl)
    case Err(e) => Err(e)
    case Ok(target) => Summary(CrawlOf(env, target.url, target.host, pageRange))
  }

  /**
   * One turn of the crawl, with pages left: the page fetch fails and ends
   * the crawl (`v` is None), or the page is visited as `v`, leaving `after`;
   * a visit that registered nothing ends the crawl, any other goes on from
   * the next page, with this page as the previous one and the next page's
   * URL as the next one.
   */
  lemma CrawlStep(env: Env, register: PageRegister, base: Url, origin: string, page: nat, prev: Option<Url>, kept: Kept,
                  visits: seq<Visit>, next: Option<Url>, budget: nat)
    returns (v: Option<Visit>, after: Kept)
    requires Appends(register)
    requires budget > 0
    ensures var fetched := env.site(BuildPageUrl(base, page), RefererFor(origin, prev));
            && (v.None? <==> fetched.Unavailable?)
            && (v.None? ==> CrawlFrom(env, register, base, origin, page, prev, kept, visits, next, budget)
                              == Crawl(visits, kept, next, Some(fetched.reason)))
            && (v.Some? ==> after == register(kept, fetched.listCards, fetched.allCards)
                            && v.value == Visit(BuildPageUrl(base, page), RefererFor(origin, prev), |after.hits| - |kept.hits|))
    ensures v.Some? && v.value.added == 0 ==>
              CrawlFrom(env, register, base, origin, page, prev, kept, visits, next, budget) == Crawl(visits + [v.value], after, None, None)
    ensures v.Some? && v.value.added > 0 ==>
              CrawlFrom(env, register, base, origin, page, prev, kept, visits, next, budget)
              == CrawlFrom(env, register, base, origin, page + 1, Some(BuildPageUrl(base, page)), after, visits + [v.value],
                           Some(BuildPageUrl(base, page + 1)), budget - 1)
  {
    var url := BuildPageUrl(base, page);
    var referer := RefererFor(origin, prev);
    var fetched := env.site(url, referer);
    if fetched.Unavailable? {
      v, after := None, kept;
    } else {
      after := register(kept, fetched.listCards, fetched.allCards);
      v := Some(Visit(url, referer, |after.hits| - |kept.hits|));
    }
  }

  /** A turn whose page fetch fails ends the crawl with the fetch error. */
  lemma CrawlFails(env: Env, register: PageRegister, base: Url, origin: string, page: nat, prev: Option<Url>,
                   kept: Kept, visits: seq<Visit>, next: Option<Url>, budget: nat)
    requires Appends(register) && budget > 0
    requires env.site(BuildPageUrl(base, page), RefererFor(origin, prev)).Unavailable?
    ensures CrawlFrom(env, register, base, origin, page, prev, kept, visits, next, budget)
            == Crawl(visits, kept, next, Some(env.site(BuildPageUrl(base, page), RefererFor(origin, prev)).reason))
  {
  }

  /** A turn whose page registers nothing ends the crawl after that page, with no next URL. */
  lemma CrawlStops(env: Env, register: PageRegister, base: Url, origin: string, page: nat, prev: Option<Url>,
                   kept: Kept, visits: seq<Visit>, next: Option<Url>, budget: nat, after: Kept)
    requires Appends(register) && budget > 0
    requires env.site(BuildPageUrl(base, page), RefererFor(origin, prev)).Fetched?
    requires after == register(kept, env.site(BuildPageUrl(base, page), RefererFor(origin, prev)).listCards,
                               env.site(BuildPageUrl(base, page), RefererFor(origin, prev)).allCards)
    requires |after.hits| == |kept.hits|
    ensures CrawlFrom(env, register, base, origin, page, prev, kept, visits, next, budget)
            == Crawl(visits + [Visit(BuildPageUrl(base, page), RefererFor(origin, prev), 0)], after, None, None)
  {
  }

  /** A turn whose page registers something goes on from the next page. */
  lemma CrawlContinues(env: Env, register: PageRegister, base: Url, origin: string, page: nat, prev: Option<Url>,
                       kept: Kept, visits: seq<Visit>, next: Option<Url>, budget: nat, after: Kept)
    requires Appends(register) && budget > 0
    requires env.site(BuildPageUrl(base, page), RefererFor(origin, prev)).Fetched?
    requires after == register(kept, env.site(BuildPageUrl(base, page), RefererFor(origin, prev)).listCards,
                               env.site(BuildPageUrl(base, page), RefererFor(origin, prev)).allCards)
    requires |after.hits| > |kept.hits|
    ensures CrawlFrom(env, register, base, origin, page, prev, kept, visits, next, budget)
            == CrawlFrom(env, register, base, origin, page + 1, Some(BuildPageUrl(base, page)), after,
                         visits + [Visit(BuildPageUrl(base, page), RefererFor(origin, prev), |after.hits| - |kept.hits|)],
                         Some(BuildPageUrl(base, page + 1)), budget - 1)
  {
  }

  // ---------------------------------------------------------------------
  // Properties of the crawl
  // ---------------------------------------------------------------------

  /** How many hits the visits registered in all. */
  function AddedTotal(visits: seq<Visit>): nat {
    if visits == [] then 0 else AddedTotal(visits[..|visits| - 1]) + visits[|visits| - 1].added
  }

  /** The last page of the visits made from page `start`, if any. */
  function PrevOf(base: Url, start: nat, visits: seq<Visit>): Option<Url> {
    if visits == [] then None else Some(BuildPageUrl(base, start + |visits| - 1))
  }

  /** Visit `i` is to page number `start + i`, referred by page `start + i - 1`, or by the origin for the first. */
  predicate VisitAt(base: Url, origin: string, start: nat, visits: seq<Visit>, i: nat)
    requires i < |visits|
  {
    visits[i].url == BuildPageUrl(base, start + i)
    && visits[i].referer == (if i == 0 then OriginReferer(origin) else PreviousPage(BuildPageUrl(base, start + i - 1)))
  }

  /** The pages were visited in order from `start`, each referred by the one before. */
  predicate PagesInOrder(base: Url, origin: string, start: nat, visits: seq<Visit>) {
    forall i: nat :: i < |visits| ==> VisitAt(base, origin, start, visits, i)
  }

  /** Every visit but the last registered something. */
  predicate KeptGoing(visits: seq<Visit>) {
    forall i :: 0 <= i < |visits| - 1 ==> visits[i].added > 0
  }

  /** Every visit registered something. */
  predicate AllAdded(visits: seq<Visit>) {
    forall i :: 0 <= i < |visits| ==> visits[i].added > 0
  }

  /** One more visit keeps the pages in order. */
  lemma PagesInOrderSnoc(base: Url, origin: string, start: nat, visits: seq<Visit>, v: Visit)
    requires PagesInOrder(base, origin, start, visits)
    requires v.url == BuildPageUrl(base, start + |visits|) && v.referer == RefererFor(origin, PrevOf(base, start, visits))
    ensures PagesInOrder(base, origin, start, visits + [v])
  {
    var w := visits + [v];
    forall i: nat | i < |w| ensures VisitAt(base, origin, start, w, i) {
      if i < |visits| {
        assert VisitAt(base, origin, start, visits, i);
      }
    }
  }

  lemma AddedTotalSnoc(visits: seq<Visit>, v: Visit)
    ensures AddedTotal(visits + [v]) == AddedTotal(visits) + v.added
  {
    assert (visits + [v])[..|visits|] == visits;
  }

  /**
   * A crawl only adds to the visits and the hits, visits at most `budget`
   * more pages, and a fetch error leaves at least one page of the budget
   * unvisited (the failed page is not among the visits).
   */
  lemma {:induction false} CrawlGrows(env: Env, register: PageRegister, base: Url, origin: string, page: nat, prev: Option<Url>,
                                      kept: Kept, visits: seq<Visit>, next: Option<Url>, budget: nat)
    requires Appends(register)
    ensures var c := CrawlFrom(env, register, base, origin, page, prev, kept, visits, next, budget);
            visits <= c.visits && kept.hits <= c.kept.hits && |c.visits| <= |visits| + budget
            && (c.failure.Some? ==> |c.visits| < |visits| + budget)
    decreases budget
  {
    if budget > 0 {
      var v, after := CrawlStep(env, register, base, origin, page, prev, kept, visits, next, budget);
      if v.Some? && v.value.added > 0 {
        CrawlGrows(env, register, base, origin, page + 1, Some(BuildPageUrl(base, page)), after, visits + [v.value],
                   Some(BuildPageUrl(base, page + 1)), budget - 1);
      }
    }
  }

  /**
   * The crawl visits the pages in order: visit `i` is to page `start + i`,
   * and the referer of each is the page before it, or the origin for the
   * first.
   */
  lemma {:induction false} CrawlPagesInOrder(env: Env, register: PageRegister, base: Url, origin: string, start: nat, page: nat, prev: Option<Url>,
                                             kept: Kept, visits: seq<Visit>, next: Option<Url>, budget: nat)
    requires Appends(register)
    requires page == start + |visits| && prev == PrevOf(base, start, visits)
    requires PagesInOrder(base, origin, start, visits)
    ensures PagesInOrder(base, origin, start, CrawlFrom(env, register, base, origin, page, prev, kept, visits, next, budget).visits)
    decreases budget
  {
    if budget > 0 {
      var v, after := CrawlStep(env, register, base, origin, page, prev, kept, visits, next, budget);
      if v.Some? {
        PagesInOrderSnoc(base, origin, start, visits, v.value);
        if v.value.added > 0 {
          CrawlPagesInOrder(env, register, base, origin, start, page + 1, Some(BuildPageUrl(base, page)), after, visits + [v.value],
                            Some(BuildPageUrl(base, page + 1)), budget - 1);
        }
      }
    }
  }

  /** A crawl from pages that all registered something: every visit but the last registered something. */
  lemma {:induction false} CrawlKeptGoing(env: Env, register: PageRegister, base: Url, origin: string, page: nat, prev: Option<Url>,
                                          kept: Kept, visits: seq<Visit>, next: Option<Url>, budget: nat)
    requires Appends(register)
    requires AllAdded(visits)
    ensures KeptGoing(CrawlFrom(env, register, base, origin, page, prev, kept, visits, next, budget).visits)
    decreases budget
  {
    if budget > 0 {
      var v, after := CrawlStep(env, register, base, origin, page, prev, kept, visits, next, budget);
      if v.Some? {
        var visits' := visits + [v.value];
        assert forall i :: 0 <= i < |visits| ==> visits'[i] == visits[i];
        if v.value.added > 0 {
          CrawlKeptGoing(env, register, base, origin, page + 1, Some(BuildPageUrl(base, page)), after, visits',
                         Some(BuildPageUrl(base, page + 1)), budget - 1);
        }
      }
    }
  }

  /**
   * A crawl that stops before its budget is spent, without a fetch error,
   * stopped at a page that registered nothing.
   */
  lemma {:induction false} CrawlStopsEarly(env: Env, register: PageRegister, base: Url, origin: string, page: nat, prev: Option<Url>,
                                           kept: Kept, visits: seq<Visit>, next: Option<Url>, budget: nat)
    requires Appends(register)
    ensures var c := CrawlFrom(env, register, base, origin, page, prev, kept, visits, next, budget);
            c.failure.None? && |c.visits| < |visits| + budget ==>
              |c.visits| > |visits| && c.visits[|c.visits| - 1].added == 0
    decreases budget
  {
    if budget > 0 {
      var v, after := CrawlStep(env, register, base, origin, page, prev, kept, visits, next, budget);
      if v.Some? && v.value.added > 0 {
        CrawlStopsEarly(env, register, base, origin, page + 1, Some(BuildPageUrl(base, page)), after, visits + [v.value],
                        Some(BuildPageUrl(base, page + 1)), budget - 1);
      }
    }
  }

  /** A crawl whose last new page registered nothing has no next URL. */
  lemma {:induction false} CrawlStopClearsNext(env: Env, register: PageRegister, base: Url, origin: string, page: nat, prev: Option<Url>,
                                               kept: Kept, visits: seq<Visit>, next: Option<Url>, budget: nat)
    requires Appends(register)
    ensures var c := CrawlFrom(env, register, base, origin, page, prev, kept, visits, next, budget);
            c.failure.None? && |c.visits| > |visits| && c.visits[|c.visits| - 1].added == 0 ==> c.next == None
    decreases budget
  {
    if budget > 0 {
      var v, after := CrawlStep(env, register, base, origin, page, prev, kept, visits, next, budget);
      if v.Some? && v.value.added > 0 {
        CrawlStopClearsNext(env, register, base, origin, page + 1, Some(BuildPageUrl(base, page)), after, visits + [v.value],
                            Some(BuildPageUrl(base, page + 1)), budget - 1);
        CrawlGrows(env, register, base, origin, page + 1, Some(BuildPageUrl(base, page)), after, visits + [v.value],
                   Some(BuildPageUrl(base, page + 1)), budget - 1);
      }
    }
  }

  /**
   * A crawl that spent its whole budget, the last page registering
   * something, names the page after the last one as the next URL.
   */
  lemma {:induction false} CrawlRunsOut(env: Env, register: PageRegister, base: Url, origin: string, page: nat, prev: Option<Url>,
                                        kept: Kept, visits: seq<Visit>, next: Option<Url>, budget: nat)
    requires Appends(register)
    ensures var c := CrawlFrom(env, register, base, origin, page, prev, kept, visits, next, budget);
            c.failure.None? && budget > 0 && |c.visits| == |visits| + budget && c.visits[|c.visits| - 1].added > 0 ==>
              c.next == Some(BuildPageUrl(base, page + budget))
    decreases budget
  {
    if budget > 1 {
      var v, after := CrawlStep(env, register, base, origin, page, prev, kept, visits, next, budget);
      if v.Some? && v.value.added > 0 {
        CrawlRunsOut(env, register, base, origin, page + 1, Some(BuildPageUrl(base, page)), after, visits + [v.value],
                     Some(BuildPageUrl(base, page + 1)), budget - 1);
      }
    } else if budget == 1 {
      var v, after := CrawlStep(env, register, base, origin, page, prev, kept, visits, next, budget);
    }
  }

  /**
   * The hits of a crawl are as many as its visits registered, and their
   * non-empty ids stay distinct.
   */
  lemma {:induction false} CrawlCounts(env: Env, register: PageRegister, base: Url, origin: string, page: nat, prev: Option<Url>,
                                       kept: Kept, visits: seq<Visit>, next: Option<Url>, budget: nat)
    requires Appends(register)
    requires KeepsTrack(register)
    requires Tracks(kept) && |kept.hits| == AddedTotal(visits) && IdsDistinct(kept.hits)
    ensures var c := CrawlFrom(env, register, base, origin, page, prev, kept, visits, next, budget);
            Tracks(c.kept) && |c.kept.hits| == AddedTotal(c.visits) && IdsDistinct(c.kept.hits)
    decreases budget
  {
    if budget > 0 {
      var v, after := CrawlStep(env, register, base, origin, page, prev, kept, visits, next, budget);
      if v.Some? {
        AddedTotalSnoc(visits, v.value);
        if v.value.added > 0 {
          CrawlCounts(env, register, base, origin, page + 1, Some(BuildPageUrl(base, page)), after, visits + [v.value],
                      Some(BuildPageUrl(base, page + 1)), budget - 1);
        }
      }
    }
  }

  /**
   * What the page loop of `scrape_prices` comes to. It visits pages start,
   * start + 1, ..., at most `budget` of them; each request after the first
   * is referred by the page before; every visited page but the last
   * registered a new hit; a fetch error leaves part of the budget unused;
   * the hit total equals what the pages registered, with distinct ids;
   * without a fetch error the next URL is None exactly when no page was
   * visited or the last page registered nothing, and a last page that
   * registered something means the budget is spent and the next URL names
   * the page after it.
   */
  lemma CrawlOutcome(env: Env, register: PageRegister, base: Url, origin: string, start: nat, budget: nat)
    requires Appends(register) && KeepsTrack(register)
    ensures var c := CrawlFrom(env, register, base, origin, start, None, Kept([], {}), [], None, budget);
            |c.visits| <= budget
            && PagesInOrder(base, origin, start, c.visits)
            && KeptGoing(c.visits)
            && Tracks(c.kept) && |c.kept.hits| == AddedTotal(c.visits) && IdsDistinct(c.kept.hits)
            && (c.failure.Some? ==> |c.visits| < budget)
            && (c.failure.None? ==>
                  (c.next.None? <==> c.visits == [] || c.visits[|c.visits| - 1].added == 0)
                  && (c.visits != [] && c.visits[|c.visits| - 1].added > 0 ==>
                        |c.visits| == budget && c.next == Some(BuildPageUrl(base, start + |c.visits|))))
  {
    var c := CrawlFrom(env, register, base, origin, start, None, Kept([], {}), [], None, budget);
    assert Tracks(Kept([], {}));
    CrawlGrows(env, register, base, origin, start, None, Kept([], {}), [], None, budget);
    CrawlPagesInOrder(env, register, base, origin, start, start, None, Kept([], {}), [], None, budget);
    CrawlKeptGoing(env, register, base, origin, start, None, Kept([], {}), [], None, budget);
    CrawlStopsEarly(env, register, base, origin, start, None, Kept([], {}), [], None, budget);
    CrawlStopClearsNext(env, register, base, origin, start, None, Kept([], {}), [], None, budget);
    CrawlRunsOut(env, register, base, origin, start, None, Kept([], {}), [], None, budget);
    CrawlCounts(env, register, base, origin, start, None, Kept([], {}), [], None, budget);
    if budget == 0 {
      assert c == Crawl([], Kept([], {}), None, None);
    }
  }

  /**
   * The gate runs before any page fetch: when it refuses the start URL,
   * `scrape_prices` returns its error whatever the site would have served.
   */
  lemma GateBeforeFetch(env: Env, site: Site, startUrl: string, pageRange: Option<nat>)
    requires Validate(env.parse, env.robots, startUrl).Err?
    ensures Scrape(env, startUrl, pageRange) == Err(Validate(env.parse, env.robots, startUrl).error)
    ensures Scrape(env.(site := site), startUrl, pageRange) == Scrape(env, startUrl, pageRange)
  {
  }

  /**
   * `scrape_prices` visits at most the requested number of pages, 200
   * without a range, and its summary counts the hits it returns; a range of
   * 0 fetches nothing and returns no hits, no pages and no next URL.
   */
  lemma ScrapeWithinPageRange(env: Env, startUrl: string, pageRange: Option<nat>)
    ensures var r := Scrape(env, startUrl, pageRange);
            r.Ok? ==> r.value.1.pageCount <= (if pageRange.Some? then pageRange.value else HardPageCap)
                      && r.value.1.totalHits == |r.value.0|
    ensures Validate(env.parse, env.robots, startUrl).Ok? && pageRange == Some(0)
            ==> Scrape(env, startUrl, pageRange) == Ok(([], Meta(0, 0, None)))
  {
    var g := Validate(env.parse, env.robots, startUrl);
    if g.Ok? {
      var url := g.value.url;
      var base := url.(query := WithoutPage(url.query));
      PageHitsRegisters();
      CrawlOutcome(env, PageHits, base, Origin(base.scheme, g.value.host), StartPage(url.query), MaxPages(pageRange));
    }
  }

  // ---------------------------------------------------------------------
  // The loop
  // ---------------------------------------------------------------------

  /** Offers the hits among `cards` to `register_hit` in order, returning how many were new. */
  method RegisterCards(registry: Registry, cards: seq<Option<PriceHit>>) returns (count: nat)
    requires registry.Valid()
    modifies registry
    ensures registry.Valid()
    ensures registry.State() == AppendHits(old(registry.State()), Hits(cards))
    ensures count == |registry.hits| - |old(registry.hits)|
  {
    count := 0;
    var i := 0;
    while i < |cards|
      invariant i <= |cards| && registry.Valid()
      invariant registry.State() == AppendHits(old(registry.State()), Hits(cards[..i]))
      invariant count == |registry.hits| - |old(registry.hits)|
    {
      HitsSnoc(cards, i);
      if cards[i].Some? {
        AppendHitsSnoc(old(registry.State()), Hits(cards[..i]), cards[i].value);
        var added := registry.RegisterHit(cards[i].value);
        if added {
          count := count + 1;
        }
      } else {
        assert Hits(cards[..i]) + [] == Hits(cards[..i]);
      }
      i := i + 1;
    }
    assert cards[..i] == cards;
  }

  /** Registers a page's cards: the fallback pass runs when the listed cards added nothing. */
  method RegisterPage(registry: Registry, listCards: seq<Option<PriceHit>>, allCards: seq<Option<PriceHit>>)
    returns (count: nat)
    requires registry.Valid()
    modifies registry
    ensures registry.Valid()
    ensures registry.State() == PageHits(old(registry.State()), listCards, allCards)
    ensures count == |registry.hits| - |old(registry.hits)|
  {
    count := RegisterCards(registry, listCards);
    if count == 0 {
      assert registry.State() == old(registry.State());
      count := RegisterCards(registry, allCards);
    }
  }

  /** What visiting one page came to: the fetch error, or how many hits it registered. */
  datatype PageStep = StepFailed(reason: string) | StepRegistered(count: nat)

  /** One turn of the page loop: fetch page number `page` and register its hits. */
  method VisitPage(env: Env, base: Url, origin: string, registry: Registry, page: nat, prev: Option<Url>)
    returns (step: PageStep)
    requires registry.Valid()
    modifies registry
    ensures registry.Valid()
    ensures var fetched := env.site(BuildPageUrl(base, page), RefererFor(origin, prev));
            && (step.StepFailed? <==> fetched.Unavailable?)
            && (step.StepFailed? ==> step.reason == fetched.reason && registry.State() == old(registry.State()))
            && (step.StepRegistered? ==>
                  |registry.hits| == |old(registry.hits)| + step.count
                  && registry.State() == PageHits(old(registry.State()), fetched.listCards, fetched.allCards))
  {
    var pageUrl := BuildPageUrl(base, page);
    var fetched := env.site(pageUrl, RefererFor(origin, prev));
    if fetched.Unavailable? {
      return StepFailed(fetched.reason);
    }
    var count := RegisterPage(registry, fetched.listCards, fetched.allCards);
    return StepRegistered(count);
  }

  /**
   * One turn of the page loop, stated against the crawl: the crawl from the
   * registry's state before the turn fails, stops after this page, or goes
   * on from the next page with the registry's new state.
   */
  method CrawlTurn(env: Env, base: Url, origin: string, registry: Registry, page: nat, prev: Option<Url>,
                   ghost visits: seq<Visit>, ghost next: Option<Url>, ghost budget: nat)
    returns (step: PageStep)
    requires budget > 0 && registry.Valid()
    modifies registry
    ensures registry.Valid()
    ensures Appends(PageHits)
    ensures step.StepFailed? ==>
              registry.State() == old(registry.State())
              && CrawlFrom(env, PageHits, base, origin, page, prev, old(registry.State()), visits, next, budget)
                 == Crawl(visits, registry.State(), next, Some(step.reason))
    ensures step.StepRegistered? && step.count == 0 ==>
              CrawlFrom(env, PageHits, base, origin, page, prev, old(registry.State()), visits, next, budget)
              == Crawl(visits + [Visit(BuildPageUrl(base, page), RefererFor(origin, prev), 0)], registry.State(), None, None)
    ensures step.StepRegistered? && step.count > 0 ==>
              CrawlFrom(env, PageHits, base, origin, page, prev, old(registry.State()), visits, next, budget)
              == CrawlFrom(env, PageHits, base, origin, page + 1, Some(BuildPageUrl(base, page)), registry.State(),
                           visits + [Visit(BuildPageUrl(base, page), RefererFor(origin, prev), step.count)],
                           Some(BuildPageUrl(base, page + 1)), budget - 1)
  {
    PageHitsRegisters();
    ghost var kept := registry.State();
    step := VisitPage(env, base, origin, registry, page, prev);
    if step.StepFailed? {
      CrawlFails(env, PageHits, base, origin, page, prev, kept, visits, next, budget);
    } else if step.count == 0 {
      CrawlStops(env, PageHits, base, origin, page, prev, kept, visits, next, budget, registry.State());
    } else {
      CrawlContinues(env, PageHits, base, origin, page, prev, kept, visits, next, budget, registry.State());
    }
  }

  /** The page loop of `scrape_prices`, from page `start` with at most `maxPages` pages. */
  method CrawlPages(env: Env, base: Url, origin: string, start: nat, maxPages: nat)
    returns (r: Result<(seq<PriceHit>, Meta), ScrapeError>)
    ensures r == Summary(CrawlFrom(env, PageHits, base, origin, start, None, Kept([], {}), [], None, maxPages))
  {
    PageHitsRegisters();
    var registry := new Registry();
    var pages: nat := 0;
    var page := start;
    var lastNextUrl: Option<Url> := None;
    var prevPageUrl: Option<Url> := None;
    ghost var visits: seq<Visit> := [];
    ghost var left: nat := maxPages;
    while pages < maxPages
      invariant pages + left == maxPages && pages == |visits| && registry.Valid()
      invariant CrawlFrom(env, PageHits, base, origin, page, prevPageUrl, registry.State(), visits, lastNextUrl, left)
                == CrawlFrom(env, PageHits, base, origin, start, None, Kept([], {}), [], None, maxPages)
      decreases left
    {
      var pageUrl := BuildPageUrl(base, page);
      var step := CrawlTurn(env, base, origin, registry, page, prevPageUrl, visits, lastNextUrl, left);
      if step.StepFailed? {
        return Err(FetchFailed(step.reason));
      }
      pages := pages + 1;
      visits := visits + [Visit(pageUrl, RefererFor(origin, prevPageUrl), step.count)];
      if step.count == 0 {
        return Ok((registry.hits, Meta(pages, |registry.hits|, None)));
      }
      left := left - 1;
      lastNextUrl := Some(BuildPageUrl(base, page + 1));
      prevPageUrl := Some(pageUrl);
      page := page + 1;
    }
    return Ok((registry.hits, Meta(pages, |registry.hits|, lastNextUrl)));
  }

  /** `scrape_prices`: the gate, the pager normalization, then the page loop. */
  method ScrapePrices(env: Env, startUrl: string, pageRange: Option<nat>) returns (r: Result<(seq<PriceHit>, Meta), ScrapeError>)
    ensures r == Scrape(env, startUrl, pageRange)
  {
    var target := Validate(env.parse, env.robots, startUrl);
    if target.Err? {
      return Err(target.error);
    }
    var base, page := NormalizePager(target.value.url);
    r := CrawlPages(env, base, Origin(base.scheme, target.value.host), page, MaxPages(pageRange));
  }
}
