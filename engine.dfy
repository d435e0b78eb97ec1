/**
 * What the batch and the streaming scraper share: the page cap, the origin
 * and referer of each page request, the page oracle, and the hits kept
 * from a page's cards.
 *
 * Fetching a page (a fresh client, the warm-up request to the origin and
 * `retry_fetch_html`, modelled in Fetch), finding the cards in its HTML and
 * running `parse_card` on each (modelled in Card) are one oracle: it yields
 * the result of `parse_card` for every card, or the retry's error.
 */
module Engine {
  import opened Wrappers
  import opened Pager
  import opened Card
  import opened Gate

  /** The default page count of a scrape. */
  const HardPageCap: nat := 200

  /** How many pages a scrape may visit: the requested range, else the cap. */
  function MaxPages(pageRange: Option<nat>): nat
  {
    match pageRange
    case None => HardPageCap
    case Some(n) => n
  }

  /** The site's origin: scheme and host. */
  function Origin(scheme: string, host: string): string {
    scheme + "://" + host
  }

  /** The referer of a page request: the origin for the first page, else the previous page. */
  datatype Referer = OriginReferer(origin: string) | PreviousPage(url: Url)

  function RefererFor(origin: string, prev: Option<Url>): Referer
  {
    match prev
    case None => OriginReferer(origin)
    case Some(u) => PreviousPage(u)
  }

  /**
   * One page fetched and its cards parsed: what `parse_card` made of each
   * `li.EntityList-item` under `section.EntityList ul.EntityList-items`,
   * and of each `li.EntityList-item` of the whole document, in document
   * order; or the error of the retry.
   */
  datatype PageFetch = Unavailable(reason: string) | Fetched(listCards: seq<Option<PriceHit>>, allCards: seq<Option<PriceHit>>)

  type Site = (Url, Referer) -> PageFetch

  /** The collaborators of a scrape: URL parsing, the robots verdict and the site. */
  datatype Env = Env(parse: UrlParser, robots: RobotsVerdict, site: Site)

  /** `parse_card` on each card of a page, in order: what a site yields for the cards its selectors find. */
  function ParseCards(cards: seq<CardInput>, pageUrl: Url, join: (Url, string) -> Option<string>): (r: seq<Option<PriceHit>>)
    ensures |r| == |cards|
    ensures forall i :: 0 <= i < |cards| ==> r[i] == ParseCard(cards[i], pageUrl, join)
  {
    if cards == [] then [] else [ParseCard(cards[0], pageUrl, join)] + ParseCards(cards[1..], pageUrl, join)
  }

  /** The hits among the results of `parse_card`, in order (the `if let Some(hit)` of both loops). */
  function Hits(cards: seq<Option<PriceHit>>): (r: seq<PriceHit>)
    ensures |r| <= |cards|
  {
    if cards == [] then []
    else Hits(cards[..|cards| - 1]) + (if cards[|cards| - 1].Some? then [cards[|cards| - 1].value] else [])
  }

  lemma HitsSnoc(cards: seq<Option<PriceHit>>, i: nat)
    requires i < |cards|
    ensures Hits(cards[..i + 1]) == Hits(cards[..i]) + (if cards[i].Some? then [cards[i].value] else [])
  {
    assert cards[..i + 1][..i] == cards[..i];
  }

  /** A page has no hit exactly when `parse_card` rejected each of its cards. */
  lemma {:induction false} HitsEmpty(cards: seq<Option<PriceHit>>)
    ensures Hits(cards) == [] <==> forall i :: 0 <= i < |cards| ==> cards[i].None?
  {
    if cards != [] {
      var front := cards[..|cards| - 1];
      HitsEmpty(front);
      assert forall i :: 0 <= i < |front| ==> front[i] == cards[i];
    }
  }

  /** The hits are the cards' results that are there, in their order. */
  lemma {:induction false} HitsFromCards(cards: seq<Option<PriceHit>>)
    ensures forall h :: h in Hits(cards) <==> Some(h) in cards
  {
    if cards != [] {
      var front := cards[..|cards| - 1];
      HitsFromCards(front);
      assert cards == front + [cards[|cards| - 1]];
    }
  }

  /**
   * Every hit made from a page's cards keeps the listing invariant: its id
   * comes from its listing URL, that URL and its price text are not empty,
   * and its price per m2 is there exactly when the price and a positive area
   * are, as their ratio.
   */
  lemma ParsedHitsConsistent(cards: seq<CardInput>, pageUrl: Url, join: (Url, string) -> Option<string>)
    ensures forall h :: h in Hits(ParseCards(cards, pageUrl, join)) ==>
              h.id == ExtractId(h.listingUrl) && h.listingUrl != "" && h.rawPrice != "" && ConsistentHit(h)
  {
    var results := ParseCards(cards, pageUrl, join);
    HitsFromCards(results);
    forall h | h in Hits(results)
      ensures h.id == ExtractId(h.listingUrl) && h.listingUrl != "" && h.rawPrice != "" && ConsistentHit(h)
    {
      var i :| 0 <= i < |results| && results[i] == Some(h);
      assert ParseCard(cards[i], pageUrl, join) == Some(h);
    }
  }
}
