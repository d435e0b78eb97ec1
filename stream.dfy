/**
 * `scrape_stream`: the streaming scraper. It runs the same gate and pager
 * normalization as the batch scraper, then reports each page as an event
 * on a channel: a `start` event, one `page` event per page fetched, and a
 * final `done` event, or an `error` event that ends the stream. Unlike the
 * batch scraper it has no duplicate filter: each page reports every hit
 * its cards yield, and the all-items pass runs only when the listed cards
 * yield no hit at all.
 *
 * The channel is the sequence of events sent, in order; the JSON and
 * `event:`/`data:` framing of each event is not modelled.
 */
module Stream {
  import opened Wrappers
  import opened Pager
  import opened Card
  import opened Gate
  import opened Engine

  /** What the stream sends: `start`, `page`, `done` and `error` events with their fields. */
  datatype Event =
    | Start(origin: string, maxPages: nat)
    | PageEvent(page: nat, url: Url, count: nat, hits: seq<PriceHit>, totalSoFar: nat)
    | Done(pages: nat, totalHits: nat)
    | Error(message: string)

  /** The events that end a stream. */
  predicate Terminal(e: Event) {
    e.Done? || e.Error?
  }

  /** The hits a page reports: those of the listed cards, else, when there are none, those of all items. */
  function StreamPageHits(listCards: seq<Option<PriceHit>>, allCards: seq<Option<PriceHit>>): seq<PriceHit> {
    var primary := Hits(listCards);
    if primary == [] then Hits(allCards) else primary
  }

  /**
   * The events from page number `page` on, after `pages` pages and `total`
   * hits, with `budget` pages left: `done` when the budget is spent,
   * otherwise a turn.
   */
  function EventsFrom(env: Env, base: Url, origin: string, page: nat, prev: Option<Url>, pages: nat, total: nat, budget: nat)
    : (r: seq<Event>)
    ensures r != []
    decreases budget, 1
  {
    if budget == 0 then [Done(pages, total)]
    else PageTurn(env, base, origin, page, prev, pages, total, budget)
  }

  /**
   * One turn: fetch the page (an `error` event ends the stream), report its
   * hits with the running total, then `done` after a page without hits, or
   * go on from the next page.
   */
  function PageTurn(env: Env, base: Url, origin: string, page: nat, prev: Option<Url>, pages: nat, total: nat, budget: nat)
    : (r: seq<Event>)
    requires budget > 0
    ensures r != []
    decreases budget, 0
  {
    var url := BuildPageUrl(base, page);
    match env.site(url, RefererFor(origin, prev))
    case Unavailable(reason) => [Error(reason)]
    case Fetched(listCards, allCards) =>
      var hits := StreamPageHits(listCards, allCards);
      var total' := total + |hits|;
      [PageEvent(page, url, |hits|, hits, total')]
      + (if hits == [] then [Done(pages + 1, total')]
         else EventsFrom(env, base, origin, page + 1, Some(url), pages + 1, total', budget - 1))
  }

  /** What `scrape_stream` sends for a start URL and an optional page range. */
  function Events(env: Env, startUrl: string, pageRange: Option<nat>): seq<Event> {
    match Validate(env.parse, env.robots, startUrl)
    case Err(e) => [Error(Message(e))]
    case Ok(target) =>
      var base := target.url.(query := WithoutPage(target.url.query));
      var origin := Origin(base.scheme, target.host);
      [Start(origin, MaxPages(pageRange))]
      + EventsFrom(env, base, origin, StartPage(target.url.query), None, 0, 0, MaxPages(pageRange))
  }

  // ---------------------------------------------------------------------
  // Properties
  // ---------------------------------------------------------------------

  /** The hits the `page` events reported, in all. */
  function CountSum(events: seq<Event>): nat {
    if events == [] then 0
    else (if events[0].PageEvent? then events[0].count else 0) + CountSum(events[1..])
  }

  /**
   * A turn with pages left: a fetch error sends only the error; otherwise
   * the `page` event carries every hit of the page, repeated ids included,
   * and is followed by `done` when there was none, or by the events from
   * the next page.
   */
  lemma StreamStep(env: Env, base: Url, origin: string, page: nat, prev: Option<Url>, pages: nat, total: nat, budget: nat)
    requires budget > 0
    ensures var fetched := env.site(BuildPageUrl(base, page), RefererFor(origin, prev));
            var r := EventsFrom(env, base, origin, page, prev, pages, total, budget);
            && (fetched.Unavailable? ==> r == [Error(fetched.reason)])
            && (fetched.Fetched? ==>
                  var hits := StreamPageHits(fetched.listCards, fetched.allCards);
                  && r[0] == PageEvent(page, BuildPageUrl(base, page), |hits|, hits, total + |hits|)
                  && (hits == [] ==> r == [r[0], Done(pages + 1, total + |hits|)])
                  && (hits != [] ==>
                        r == [r[0]] + EventsFrom(env, base, origin, page + 1, Some(BuildPageUrl(base, page)),
                                                 pages + 1, total + |hits|, budget - 1)))
  {
  }

  /** The page hits are those of the listed cards, unless they yield none. */
  lemma StreamPageHitsFallback(listCards: seq<Option<PriceHit>>, allCards: seq<Option<PriceHit>>)
    ensures StreamPageHits(listCards, allCards) ==
              if forall i :: 0 <= i < |listCards| ==> listCards[i].None? then Hits(allCards) else Hits(listCards)
  {
    HitsEmpty(listCards);
  }

  /** Every event but the last reports page `page + i` in order, with as many hits as it counts. */
  predicate PagesInOrder(base: Url, page: nat, r: seq<Event>) {
    forall i :: 0 <= i < |r| - 1 ==>
      r[i].PageEvent? && r[i].page == page + i && r[i].url == BuildPageUrl(base, page + i) && r[i].count == |r[i].hits|
  }

  /** Each `page` event's running total is `total` plus the hits reported up to it. */
  predicate RunningTotals(total: nat, r: seq<Event>) {
    forall i :: 0 <= i < |r| && r[i].PageEvent? ==> r[i].totalSoFar == total + CountSum(r[..i + 1])
  }

  /** A final `done` reports the pages before it, after `pages`, and all hits reported, after `total`. */
  predicate DoneReports(pages: nat, total: nat, r: seq<Event>) {
    r != [] && r[|r| - 1].Done? ==> r[|r| - 1] == Done(pages + |r| - 1, total + CountSum(r))
  }

  /** Every `page` event before the last one had hits. */
  predicate EarlierPagesHadHits(r: seq<Event>) {
    forall i :: 0 <= i < |r| - 2 && r[i].PageEvent? ==> r[i].count > 0
  }

  lemma CountSumCons(e: Event, rest: seq<Event>)
    ensures CountSum([e] + rest) == (if e.PageEvent? then e.count else 0) + CountSum(rest)
  {
    assert ([e] + rest)[1..] == rest;
  }

  lemma PagesInOrderCons(base: Url, page: nat, e: Event, rest: seq<Event>)
    requires rest != [] && PagesInOrder(base, page + 1, rest)
    requires e.PageEvent? && e.page == page && e.url == BuildPageUrl(base, page) && e.count == |e.hits|
    ensures PagesInOrder(base, page, [e] + rest)
  {
    var r := [e] + rest;
    forall i | 1 <= i < |r| - 1
      ensures r[i].PageEvent? && r[i].page == page + i && r[i].url == BuildPageUrl(base, page + i) && r[i].count == |r[i].hits|
    {
      assert r[i] == rest[i - 1];
    }
  }

  lemma RunningTotalsCons(total: nat, e: Event, rest: seq<Event>)
    requires e.PageEvent? && e.totalSoFar == total + e.count && RunningTotals(total + e.count, rest)
    ensures RunningTotals(total, [e] + rest)
  {
    var r := [e] + rest;
    CountSumCons(e, rest);
    forall i | 0 <= i < |r| && r[i].PageEvent? ensures r[i].totalSoFar == total + CountSum(r[..i + 1]) {
      if i == 0 {
        assert r[..1] == [e] + [];
        CountSumCons(e, []);
      } else {
        assert r[..i + 1] == [e] + rest[..i];
        CountSumCons(e, rest[..i]);
        assert r[i] == rest[i - 1];
      }
    }
  }

  lemma DoneReportsCons(pages: nat, total: nat, e: Event, rest: seq<Event>)
    requires e.PageEvent? && rest != [] && DoneReports(pages + 1, total + e.count, rest)
    ensures DoneReports(pages, total, [e] + rest)
  {
    CountSumCons(e, rest);
  }

  /**
   * The stream from a page has at most `budget` page events and ends with
   * exactly one `done` or `error` event.
   */
  lemma {:induction false} EventsEnd(env: Env, base: Url, origin: string, page: nat, prev: Option<Url>, pages: nat, total: nat,
                                     budget: nat)
    ensures var r := EventsFrom(env, base, origin, page, prev, pages, total, budget);
            |r| <= budget + 1 && Terminal(r[|r| - 1]) && forall i :: 0 <= i < |r| - 1 ==> !Terminal(r[i])
    decreases budget
  {
    if budget > 0 {
      StreamStep(env, base, origin, page, prev, pages, total, budget);
      var fetched := env.site(BuildPageUrl(base, page), RefererFor(origin, prev));
      if fetched.Fetched? && StreamPageHits(fetched.listCards, fetched.allCards) != [] {
        var hits := StreamPageHits(fetched.listCards, fetched.allCards);
        EventsEnd(env, base, origin, page + 1, Some(BuildPageUrl(base, page)), pages + 1, total + |hits|, budget - 1);
        var rest := EventsFrom(env, base, origin, page + 1, Some(BuildPageUrl(base, page)), pages + 1, total + |hits|, budget - 1);
        var r := EventsFrom(env, base, origin, page, prev, pages, total, budget);
        assert forall i :: 1 <= i < |r| ==> r[i] == rest[i - 1];
      }
    }
  }

  /** The page events report the pages `page`, `page + 1`, ... in order, each counting its hits. */
  lemma {:induction false} EventsPagesInOrder(env: Env, base: Url, origin: string, page: nat, prev: Option<Url>, pages: nat,
                                              total: nat, budget: nat)
    ensures PagesInOrder(base, page, EventsFrom(env, base, origin, page, prev, pages, total, budget))
    decreases budget
  {
    if budget > 0 {
      StreamStep(env, base, origin, page, prev, pages, total, budget);
      var fetched := env.site(BuildPageUrl(base, page), RefererFor(origin, prev));
      if fetched.Fetched? && StreamPageHits(fetched.listCards, fetched.allCards) != [] {
        var hits := StreamPageHits(fetched.listCards, fetched.allCards);
        var rest := EventsFrom(env, base, origin, page + 1, Some(BuildPageUrl(base, page)), pages + 1, total + |hits|, budget - 1);
        EventsPagesInOrder(env, base, origin, page + 1, Some(BuildPageUrl(base, page)), pages + 1, total + |hits|, budget - 1);
        PagesInOrderCons(base, page, PageEvent(page, BuildPageUrl(base, page), |hits|, hits, total + |hits|), rest);
      }
    }
  }

  /** The running total of each `page` event is the hits reported so far. */
  lemma {:induction false} EventsRunningTotals(env: Env, base: Url, origin: string, page: nat, prev: Option<Url>, pages: nat,
                                               total: nat, budget: nat)
    ensures RunningTotals(total, EventsFrom(env, base, origin, page, prev, pages, total, budget))
    decreases budget
  {
    var r := EventsFrom(env, base, origin, page, prev, pages, total, budget);
    if budget > 0 {
      var fetched := env.site(BuildPageUrl(base, page), RefererFor(origin, prev));
      if fetched.Fetched? {
        var hits := StreamPageHits(fetched.listCards, fetched.allCards);
        var e := PageEvent(page, BuildPageUrl(base, page), |hits|, hits, total + |hits|);
        var rest := if hits == [] then [Done(pages + 1, total)]
                    else EventsFrom(env, base, origin, page + 1, Some(BuildPageUrl(base, page)), pages + 1, total + |hits|, budget - 1);
        assert r == [e] + rest by {
          StreamStep(env, base, origin, page, prev, pages, total, budget);
        }
        assert RunningTotals(total + |hits|, rest) by {
          if hits != [] {
            EventsRunningTotals(env, base, origin, page + 1, Some(BuildPageUrl(base, page)), pages + 1, total + |hits|, budget - 1);
          }
        }
        RunningTotalsCons(total, e, rest);
      } else {
        assert r == [Error(fetched.reason)] by {
          StreamStep(env, base, origin, page, prev, pages, total, budget);
        }
      }
    }
  }

  /** A final `done` reports the pages fetched and the hits reported in all. */
  lemma {:induction false} EventsDoneReports(env: Env, base: Url, origin: string, page: nat, prev: Option<Url>, pages: nat,
                                             total: nat, budget: nat)
    ensures DoneReports(pages, total, EventsFrom(env, base, origin, page, prev, pages, total, budget))
    decreases budget
  {
    if budget > 0 {
      StreamStep(env, base, origin, page, prev, pages, total, budget);
      var fetched := env.site(BuildPageUrl(base, page), RefererFor(origin, prev));
      if fetched.Fetched? {
        var hits := StreamPageHits(fetched.listCards, fetched.allCards);
        var e := PageEvent(page, BuildPageUrl(base, page), |hits|, hits, total + |hits|);
        if hits != [] {
          EventsDoneReports(env, base, origin, page + 1, Some(BuildPageUrl(base, page)), pages + 1, total + |hits|, budget - 1);
          DoneReportsCons(pages, total, e,
            EventsFrom(env, base, origin, page + 1, Some(BuildPageUrl(base, page)), pages + 1, total + |hits|, budget - 1));
        } else {
          assert CountSum([Done(pages + 1, total)]) == 0;
          DoneReportsCons(pages, total, e, [Done(pages + 1, total)]);
        }
      }
    }
  }

  /** Every page event before the last one had hits: the stream goes on only after a page with hits. */
  lemma {:induction false} EventsEarlierPagesHadHits(env: Env, base: Url, origin: string, page: nat, prev: Option<Url>,
                                                     pages: nat, total: nat, budget: nat)
    ensures EarlierPagesHadHits(EventsFrom(env, base, origin, page, prev, pages, total, budget))
    decreases budget
  {
    if budget > 0 {
      StreamStep(env, base, origin, page, prev, pages, total, budget);
      var fetched := env.site(BuildPageUrl(base, page), RefererFor(origin, prev));
      if fetched.Fetched? && StreamPageHits(fetched.listCards, fetched.allCards) != [] {
        var hits := StreamPageHits(fetched.listCards, fetched.allCards);
        var rest := EventsFrom(env, base, origin, page + 1, Some(BuildPageUrl(base, page)), pages + 1, total + |hits|, budget - 1);
        EventsEarlierPagesHadHits(env, base, origin, page + 1, Some(BuildPageUrl(base, page)), pages + 1, total + |hits|, budget - 1);
        EarlierPagesHadHitsCons(PageEvent(page, BuildPageUrl(base, page), |hits|, hits, total + |hits|), rest);
      }
    }
  }

  lemma EarlierPagesHadHitsCons(e: Event, rest: seq<Event>)
    requires e.PageEvent? && e.count > 0 && EarlierPagesHadHits(rest)
    ensures EarlierPagesHadHits([e] + rest)
  {
    var r := [e] + rest;
    forall i | 1 <= i < |r| - 2 && r[i].PageEvent? ensures r[i].count > 0 {
      assert r[i] == rest[i - 1];
    }
  }

  /**
   * How the stream ended: a page without hits is followed by `done`, a
   * `done` before the budget is spent follows a page without hits, and an
   * error leaves part of the budget unused.
   */
  lemma {:induction false} EventsStopReason(env: Env, base: Url, origin: string, page: nat, prev: Option<Url>, pages: nat,
                                            total: nat, budget: nat)
    ensures var r := EventsFrom(env, base, origin, page, prev, pages, total, budget);
            && (|r| >= 2 && r[|r| - 2].PageEvent? && r[|r| - 2].count == 0 ==> r[|r| - 1].Done?)
            && (r[|r| - 1].Done? && |r| - 1 < budget ==> |r| >= 2 && r[|r| - 2].PageEvent? && r[|r| - 2].count == 0)
            && (r[|r| - 1].Error? ==> |r| - 1 < budget)
    decreases budget
  {
    if budget > 0 {
      StreamStep(env, base, origin, page, prev, pages, total, budget);
      var fetched := env.site(BuildPageUrl(base, page), RefererFor(origin, prev));
      if fetched.Fetched? && StreamPageHits(fetched.listCards, fetched.allCards) != [] {
        var hits := StreamPageHits(fetched.listCards, fetched.allCards);
        var rest := EventsFrom(env, base, origin, page + 1, Some(BuildPageUrl(base, page)), pages + 1, total + |hits|, budget - 1);
        EventsStopReason(env, base, origin, page + 1, Some(BuildPageUrl(base, page)), pages + 1, total + |hits|, budget - 1);
        LastTwoOfCons(PageEvent(page, BuildPageUrl(base, page), |hits|, hits, total + |hits|), rest);
      }
    }
  }

  lemma LastTwoOfCons(e: Event, rest: seq<Event>)
    requires rest != []
    ensures var r := [e] + rest;
            |r| == |rest| + 1 && r[|r| - 1] == rest[|rest| - 1] && (|rest| >= 2 ==> r[|r| - 2] == rest[|rest| - 2])
            && (|rest| == 1 ==> r[|r| - 2] == e)
  {
  }

  /**
   * There is no duplicate filter: when the next page serves the same cards
   * as a page with hits, both `page` events report the same hits, and the
   * running total counts them twice.
   */
  lemma RepeatsAreReported(env: Env, base: Url, origin: string, page: nat, prev: Option<Url>, pages: nat, total: nat,
                           budget: nat)
    requires budget >= 2
    requires env.site(BuildPageUrl(base, page), RefererFor(origin, prev)).Fetched?
    requires env.site(BuildPageUrl(base, page + 1), RefererFor(origin, Some(BuildPageUrl(base, page))))
             == env.site(BuildPageUrl(base, page), RefererFor(origin, prev))
    requires var f := env.site(BuildPageUrl(base, page), RefererFor(origin, prev));
             StreamPageHits(f.listCards, f.allCards) != []
    ensures var r := EventsFrom(env, base, origin, page, prev, pages, total, budget);
            |r| >= 2 && r[0].PageEvent? && r[1].PageEvent? && r[1].hits == r[0].hits
            && r[1].totalSoFar == total + 2 * |r[0].hits|
  {
    var f := env.site(BuildPageUrl(base, page), RefererFor(origin, prev));
    var hits := StreamPageHits(f.listCards, f.allCards);
    StreamStep(env, base, origin, page, prev, pages, total, budget);
    StreamStep(env, base, origin, page + 1, Some(BuildPageUrl(base, page)), pages + 1, total + |hits|, budget - 1);
  }

  /**
   * What `scrape_stream` sends: the gate's error alone, whatever the site
   * would serve; otherwise `start` with the origin and the page cap, then
   * the events from the normalized start page.
   */
  lemma StreamGate(env: Env, site: Site, startUrl: string, pageRange: Option<nat>)
    ensures var g := Validate(env.parse, env.robots, startUrl);
            && (g.Err? ==> Events(env, startUrl, pageRange) == [Error(Message(g.error))]
                           && Events(env.(site := site), startUrl, pageRange) == Events(env, startUrl, pageRange))
            && (g.Ok? ==> Events(env, startUrl, pageRange)[0] == Start(Origin(g.value.url.scheme, g.value.host), MaxPages(pageRange)))
  {
  }

  /**
   * `scrape_stream` sends at most one `page` event per page of the range
   * (200 pages without one) between `start` and the final event; a range
   * of 0 sends `start` and `done` with nothing fetched.
   */
  lemma StreamWithinPageRange(env: Env, startUrl: string, pageRange: Option<nat>)
    ensures |Events(env, startUrl, pageRange)| <= (if pageRange.Some? then pageRange.value else HardPageCap) + 2
    ensures var g := Validate(env.parse, env.robots, startUrl);
            g.Ok? && pageRange == Some(0) ==>
              Events(env, startUrl, pageRange) == [Start(Origin(g.value.url.scheme, g.value.host), 0), Done(0, 0)]
  {
    var g := Validate(env.parse, env.robots, startUrl);
    if g.Ok? {
      var base := g.value.url.(query := WithoutPage(g.value.url.query));
      EventsEnd(env, base, Origin(base.scheme, g.value.host), StartPage(g.value.url.query), None, 0, 0, MaxPages(pageRange));
    }
  }

  // ---------------------------------------------------------------------
  // The loop
  // ---------------------------------------------------------------------

  /** Collects the hits among the results of `parse_card`, in order (the `if let Some(hit)` loops). */
  method CollectHits(cards: seq<Option<PriceHit>>) returns (hits: seq<PriceHit>)
    ensures hits == Hits(cards)
  {
    hits := [];
    var i := 0;
    while i < |cards|
      invariant i <= |cards|
      invariant hits == Hits(cards[..i])
    {
      HitsSnoc(cards, i);
      if cards[i].Some? {
        hits := hits + [cards[i].value];
      }
      i := i + 1;
    }
    assert cards[..i] == cards;
  }

  /** A page's hits: the listed cards', and all items' when the listed cards yield none. */
  method CollectPageHits(listCards: seq<Option<PriceHit>>, allCards: seq<Option<PriceHit>>) returns (pageHits: seq<PriceHit>)
    ensures pageHits == StreamPageHits(listCards, allCards)
  {
    pageHits := CollectHits(listCards);
    if pageHits == [] {
      pageHits := CollectHits(allCards);
    }
  }

  /** The page loop of `scrape_stream`, from page `start` with at most `maxPages` pages, sending to `events`. */
  method StreamPages(env: Env, base: Url, origin: string, start: nat, maxPages: nat) returns (events: seq<Event>)
    ensures events == EventsFrom(env, base, origin, start, None, 0, 0, maxPages)
  {
    events := [];
    var pages: nat := 0;
    var totalHits: nat := 0;
    var page := start;
    var prevPageUrl: Option<Url> := None;
    ghost var left: nat := maxPages;
    while true
      invariant pages + left == maxPages
      invariant events + EventsFrom(env, base, origin, page, prevPageUrl, pages, totalHits, left)
                == EventsFrom(env, base, origin, start, None, 0, 0, maxPages)
      decreases left
    {
      if pages >= maxPages {
        events := events + [Done(pages, totalHits)];
        return;
      }
      var pageUrl := BuildPageUrl(base, page);
      pages := pages + 1;
      StreamStep(env, base, origin, page, prevPageUrl, pages - 1, totalHits, left);
      var fetched := env.site(pageUrl, RefererFor(origin, prevPageUrl));
      if fetched.Unavailable? {
        events := events + [Error(fetched.reason)];
        return;
      }
      var pageHits := CollectPageHits(fetched.listCards, fetched.allCards);
      totalHits := totalHits + |pageHits|;
      ghost var before := events;
      events := events + [PageEvent(page, pageUrl, |pageHits|, pageHits, totalHits)];
      if pageHits == [] {
        events := events + [Done(pages, totalHits)];
        assert events == before + [PageEvent(page, pageUrl, 0, [], totalHits), Done(pages, totalHits)];
        return;
      }
      assert events + EventsFrom(env, base, origin, page + 1, Some(pageUrl), pages, totalHits, left - 1)
             == before + ([PageEvent(page, pageUrl, |pageHits|, pageHits, totalHits)]
                          + EventsFrom(env, base, origin, page + 1, Some(pageUrl), pages, totalHits, left - 1));
      left := left - 1;
      prevPageUrl := Some(pageUrl);
      page := page + 1;
    }
  }

  /** `scrape_stream`: the gate, the pager normalization, the `start` event, then the page loop. */
  method ScrapeStream(env: Env, startUrl: string, pageRange: Option<nat>) returns (events: seq<Event>)
    ensures events == Events(env, startUrl, pageRange)
  {
    var target := Validate(env.parse, env.robots, startUrl);
    if target.Err? {
      return [Error(Message(target.error))];
    }
    var base, page := NormalizePager(target.value.url);
    var origin := Origin(base.scheme, target.value.host);
    var maxPages := MaxPages(pageRange);
    var rest := StreamPages(env, base, origin, page, maxPages);
    events := [Start(origin, maxPages)] + rest;
  }
}
