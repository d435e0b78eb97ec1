# Listing-price scraper: a Dafny model of its scraping engine

This project models the scraping engine in `src/main.rs`. The engine collects
real-estate listing prices from njuskalo.hr category pages. It has two
drivers:

- `scrape_prices`, the batch scraper. It returns the hits it kept after a
  duplicate filter (`register_hit`), with a summary (`Meta`).
- `scrape_stream`, the streaming scraper. It sends `start`, `page`, `done`
  and `error` events on a channel, with no duplicate filter.

Both drivers share three stages:

- **Compliance gate.** The start URL must parse and have a host. The host
  must be one of the two allowed ones. The site's robots.txt must allow the
  URL for the agent "Mozilla".
- **Pager.** `normalize_pager` reads the start page from `page=N`, and
  `build_page_url` appends `page=N` for each page.
- **Page fetch.** Each page is fetched with browser-like headers
  (`base_headers`) through a retry loop that alternates desktop and mobile
  profiles (`retry_fetch_html`). Then every listing card is parsed
  (`parse_card`, with `extract_id`, `normalize_price` and
  `extract_sqm_from_li`).

## Layout

| file | module | what it models |
|---|---|---|
| `wrappers.dfy` | `Wrappers` | `Option` and `Result` |
| `text.dfy` | `Text` | The standard-library string operations the engine relies on: `trim`, `split`, `split_whitespace`, `replace('.', "")`, `contains`, `usize::to_string`, `usize::from_str`, `f64::from_str` on digit/point tokens, UTF-8 byte length |
| `card.dfy` | `Card` | `extract_id`, `normalize_price`, `extract_sqm_from_li`, `parse_card` and `PriceHit` |
| `dedup.dfy` | `Dedup` | `register_hit`, as a class `Registry` holding the two collections it mutates, specified by the value-level state `Kept` |
| `pager.dfy` | `Pager` | `Url`, `normalize_pager` (two loop methods) and `build_page_url` |
| `gate.dfy` | `Gate` | The compliance gate and the error messages |
| `fetch.dfy` | `Fetch` | `base_headers`, the user-agent lists and `retry_fetch_html` |
| `engine.dfy` | `Engine` | What both drivers share: the page cap, origin and referer, the page oracle, and the hits among the cards' results |
| `batch.dfy` | `Batch` | The page loop of `scrape_prices` |
| `stream.dfy` | `Stream` | The event loop of `scrape_stream` |

## How each loop is specified

Each loop of the source is a method. Each method is proved equal to a
recursive specification function, and the properties are lemmas about that
function:

- `Pager.ReadStartPage` and `Pager.DropPagePairs` against `StartPage` and
  `WithoutPage`;
- `Batch.RegisterCards` against `Dedup.AppendHits`;
- `Batch.CrawlPages` against `Batch.CrawlFrom`;
- `Fetch.RetryFetch` against the run predicate `IsRun` and `Outcome`;
- `Stream.CollectHits` against `Engine.Hits`;
- `Stream.StreamPages` against `Stream.EventsFrom`.

The batch crawl is written once, over any page registration that only
appends (`Batch.Appends`). `scrape_prices` instantiates it with
`Batch.PageHits`. The lemmas about the crawl therefore do not depend on how
a page's cards are deduplicated.

## Model

| member | source | states |
|---|---|---|
| Text.Trim | src/main.rs:879-889 | The trimmed text is the slice of the input left after its leading and trailing whitespace. It neither starts nor ends with whitespace, everything after it is whitespace, and it is empty exactly when the input is all whitespace. |
| Text.TrimEnds | src/main.rs:882 | Slicing off leading and trailing whitespace leaves a text whose ends are not whitespace, when anything is left. |
| Text.Split | src/main.rs:947 | `split` yields at least one piece, and no piece contains a separator. |
| Text.SplitAt | src/main.rs:947 | A text split at its first separator yields the part before it, then the pieces of the rest. |
| Text.SplitWithoutSeparator | src/main.rs:947 | A text without separators splits into itself alone. |
| Text.NonEmpty | src/main.rs:981 | `split_whitespace` keeps only non-empty pieces. |
| Text.NonEmptyConcat | src/main.rs:981 | Dropping empty pieces works piece by piece: it keeps exactly the non-empty pieces, in order. |
| Text.DeletePeriods | src/main.rs:948 | `replace('.', "")` leaves no period and never lengthens the text. |
| Text.DeletePeriodsKeeps | src/main.rs:948 | Deleting periods keeps every other character. |
| Text.DeletePeriodsConcat | src/main.rs:948 | Deleting periods distributes over concatenation. |
| Text.ContainsOccurs | src/main.rs:845 | `contains` holds exactly when the pattern occurs at some position. |
| Text.NatToStringSpec | src/main.rs:1023 | `usize::to_string` writes a non-empty digit string, without a leading zero, that denotes the number. |
| Text.ParseUsizeSpec | src/main.rs:996-999 | `usize::from_str` accepts an optional `+` and then digits below 2^64, and yields their value. A digit string that fits parses to its value. |
| Text.ParseDecimal | src/main.rs:949 | A token over digits and at most one point, with a digit, parses, and only such a token does. The value is never negative. |
| Text.Utf8Len | src/main.rs:838 | The UTF-8 length of a text lies between its character count and four times that count. |
| Card.FindLast | src/main.rs:928 | `rfind` yields the start of an occurrence with no occurrence after it, or nothing when the pattern never occurs. |
| Card.ExtractId | src/main.rs:927-940 | The id is all ASCII digits. After the last `-oglas-` it is the maximal digit run that starts right after the marker. Without the marker it is the maximal digit run that ends the URL. |
| Card.DetectCurrency | src/main.rs:957-962 | EUR exactly when the text has a euro sign. Otherwise HRK exactly when its lower case contains "kn" (K, k and the Kelvin sign lower to k). Otherwise none. |
| Card.KeepNumberChars | src/main.rs:968-977 | Every character other than a digit, a comma or a period becomes a space, in place. |
| Card.CommaToPoint | src/main.rs:979 | Every comma becomes a point, in place. |
| Card.FirstNumber | src/main.rs:980-982 | `find_map` over `parse`: there is no number exactly when no token parses. Otherwise the number is that of a token before which none parses. |
| Card.NormalizePrice | src/main.rs:956-984 | The currency is the one detected, whatever the digits. There is no amount without an ASCII digit. An amount is never negative. |
| Card.PriceIgnoresPeriods | src/main.rs:968-979 | Periods are thousands separators: deleting them from the price text beforehand leaves the amount unchanged. |
| Card.PriceOfInteger | src/main.rs:956-984 | A price written as a plain integer reads back as that integer, with no currency. |
| Card.DigitsAreTheirOwnNumeral | src/main.rs:968-982 | A digit string survives the character mapping and the period and comma replacements, is one token, and parses to its value. |
| Card.PriceOfWholeNumeral | src/main.rs:956-984 | After text without digits, commas or periods, a price whose first numeral is digits with thousands periods reads as that numeral with its periods deleted, whatever follows it. The currency is the one detected. |
| Card.DecimalValue | src/main.rs:980-982 | Integer digits, a point and fraction digits parse to the integer plus the fraction over its power of ten. |
| Card.PriceWithDecimalComma | src/main.rs:956-984 | A price whose first numeral has thousands periods, a decimal comma and fraction digits reads as the integer part without its periods plus the fraction. |
| Card.EuroPriceExample | src/main.rs:956-984 | "1.234,50 €" reads as 1234.5 euros. |
| Card.KunaPriceExample | src/main.rs:956-984 | "650 kn" reads as 650 kuna. |
| Card.CleanTokens | src/main.rs:948 | Each area token has its periods deleted and its commas made points. |
| Card.ExtractSqm | src/main.rs:942-954 | There is no area without a description element. An area is never negative. |
| Card.AreaIsWhole | src/main.rs:947-950 | The area is always a whole number: commas split tokens and periods are deleted, so no decimal mark survives. |
| Card.CleanTokenHasNoPoint | src/main.rs:948 | A token without commas has no point once cleaned, so it parses as a whole number. |
| Card.AreaFromFirstNumber | src/main.rs:942-954 | The area is the first token that parses: after tokens that do not parse, a token of digits with thousands periods gives its value with the periods deleted. |
| Card.AreaExample | src/main.rs:942-954 | "1.200 m2" reads as 1200 m2. |
| Card.AreaPeriodExample | src/main.rs:942-954 | A period in an area is deleted before parsing: "62.5 m2" reads as 625. |
| Card.AreaDecimalCommaExample | src/main.rs:947-950 | "62,5 m2" reads as 62 m2, because the comma splits the token. |
| Card.PricePerM2 | src/main.rs:910-913 | The price per m2 is present exactly when the price and a positive area are, and times the area it gives the price. |
| Card.ParseCard | src/main.rs:870-925 | A card is dropped exactly when its listing URL or its trimmed price text is empty. Otherwise the hit takes its id from the listing URL, its title, its normalized price and currency, and the area from the item's description, else from the scope's. Its price per m2 agrees with the price and the area. |
| Card.TitleHrefWins | src/main.rs:891-896 | With a title link that has an href, the href is joined and `data-href` is never consulted, even when the join fails. |
| Card.RequiredFields | src/main.rs:898-905 | When joins never yield an empty URL, a card is dropped exactly when it has no href, its href does not join, or its price text is missing or all whitespace. |
| Dedup.Registered | src/main.rs:732-738 | Offering a hit appends it exactly when it is new (empty id, or id not seen). Otherwise the state is unchanged. |
| Dedup.RegisteredTracks | src/main.rs:732-738 | Offering a hit keeps the seen ids equal to the non-empty ids of the kept hits, and keeps those ids distinct. |
| Dedup.Registry.RegisterHit | src/main.rs:732-738 | `register_hit` returns true exactly when the hit is new. The new fields are the registered state, and the seen ids stay those of the kept hits, which stay distinct (`Valid`). |
| Dedup.Registry.constructor | src/main.rs:629-630 | The registry starts with no hits and no seen ids, which satisfies `Valid`. |
| Dedup.AppendHits | src/main.rs:678-690 | Offering cards in order only appends, at most one hit per card. Appending nothing leaves the state unchanged. |
| Dedup.AppendHitsTracks | src/main.rs:678-690 | Offering cards keeps the seen ids those of the kept hits, now including the cards' ids, and keeps them distinct. |
| Dedup.AppendHitsKeepsFirstOccurrences | src/main.rs:678-690 | Offering cards appends exactly, in card order, the cards without an id and the first card carrying each id not seen before. |
| Dedup.AppendHitsStep | src/main.rs:680-687 | Card by card: once the earlier cards are offered, a card is appended exactly when it has no id, or its id was not seen and no earlier card carries it. |
| Dedup.LaterDuplicateRefused | src/main.rs:732-735 | A later card with the same non-empty id as an earlier one changes nothing. |
| Dedup.AppendedFromCards | src/main.rs:681-686 | Every appended hit is one of the offered cards. |
| Dedup.EmptyIdsAppended | src/main.rs:733 | Every card without an id is appended. |
| Dedup.NothingAdded | src/main.rs:692 | Nothing is appended exactly when every offered card has a non-empty id that was already seen. |
| Dedup.RegisterAcceptsFirstOccurrence | src/main.rs:732-738 | The first hit with a fresh id is kept, and offering it again is refused. |
| Dedup.EmptyIdAlwaysAccepted | src/main.rs:733 | A hit without an id is appended and leaves the seen ids unchanged. |
| Pager.LastPagePair | src/main.rs:995-1001 | The pair found is in the query and its `page` value parses. |
| Pager.LastPagePairSpec | src/main.rs:995-1001 | No pair is found only when no `page` value parses, and no later `page` value parses. |
| Pager.StartPageSpec | src/main.rs:993-1002 | The start page is at least 1. It is the last parsing `page` value raised to 1, and 1 when no value parses. |
| Pager.WithoutPageSpec | src/main.rs:1004-1009 | Dropping `page` pairs keeps every other pair and only those, leaves no `page` key, and changes nothing in a query without one. |
| Pager.WithoutPageConcat | src/main.rs:1004-1009 | Dropping `page` pairs works pair by pair, so the order of the kept pairs is the query's order. |
| Pager.ReadStartPage | src/main.rs:993-1002 | The loop computes the start page. |
| Pager.DropPagePairs | src/main.rs:1004-1009 | The loop computes the query without its `page` pairs. |
| Pager.NormalizePager | src/main.rs:990-1015 | `normalize_pager` changes only the query, dropping its `page` pairs, and returns the start page. |
| Pager.BuildPageUrlSpec | src/main.rs:1017-1028 | Building a page URL changes only the query. It keeps every earlier pair, appends one, and reading the page back gives the number, raised to at least 1. |
| Pager.NormalizeBuiltUrl | src/main.rs:990-1028 | Normalizing a page URL built from a normalized base gives back the base and the page (at least 1). |
| Pager.NormalizeIsStable | src/main.rs:990-1015 | Normalizing twice is normalizing once, and a normalized URL starts at page 1. |
| Gate.Validate | src/main.rs:597-616 | The checks run in order: parse, host present, allowed host, robots verdict. Each error is returned exactly when the earlier checks pass and its own fails. A pass yields the parsed URL and its allowed, robots-approved host. |
| Gate.RobotsOnlyForAllowedHosts | src/main.rs:602-614 | robots.txt is consulted only for an allowed host. Before that, the verdict cannot change the outcome. |
| Gate.AllowList | src/main.rs:602-605 | When robots allows everything, exactly the two listed hosts pass. |
| Fetch.PickAgent | src/main.rs:1034-1051 | The user agent picked is one of the profile's list. |
| Fetch.BaseHeadersShape | src/main.rs:750-806 | Every header name is set. The user agent is one of the profile's. The referer is the one given. Every other header has its fixed value whatever the profile. |
| Fetch.CroatianFirst | src/main.rs:764-767 | Requests ask for Croatian first, then English. |
| Fetch.RunsAgree | src/main.rs:827-861 | Two runs agree on every attempt both made. |
| Fetch.RunAgents | src/main.rs:829-830 | Every attempt sends a user agent of its profile, with the headers `base_headers` builds for it. |
| Fetch.FollowsAt | src/main.rs:845-859 | An attempt followed by another was not accepted, and the next attempt uses the profile it left behind. |
| Fetch.RunIsMaximal | src/main.rs:827-847 | No sequence of attempts goes past a finished run. |
| Fetch.RunIsUnique | src/main.rs:818-864 | The attempts are determined by the responses, the referer and the random picks. |
| Fetch.LastTransportErrorSpec | src/main.rs:856-858 | There is no last error exactly when every attempt received a body. Otherwise it is the message of an error after which every attempt received a body. |
| Fetch.RetryOutcome | src/main.rs:845-863 | The retry succeeds exactly when some attempt is accepted, and then with the last attempt's body. A failure means five attempts, none accepted. |
| Fetch.RetryErrorMessage | src/main.rs:863 | A failure reports the last transport error, or the fixed message when every attempt received a rejected body. |
| Fetch.ProfilesAlternate | src/main.rs:849-853 | While no transport error occurs, the profiles alternate desktop, mobile, desktop, and so on. |
| Fetch.ErrorsKeepDesktop | src/main.rs:856-859 | Transport errors do not flip the profile, so a run of errors stays on desktop. |
| Fetch.RetryFetch | src/main.rs:818-864 | `retry_fetch_html` makes a run of the retry and returns that run's outcome. |
| Engine.ParseCards | src/main.rs:678-690 | The cards' results are `parse_card` of each card, in order. |
| Engine.HitsEmpty | src/main.rs:681-692 | A page has no hit exactly when `parse_card` rejected every card. |
| Engine.HitsFromCards | src/main.rs:681-683 | The hits are exactly the results that are present. |
| Engine.ParsedHitsConsistent | src/main.rs:870-925 | Every hit from a page has its id from its listing URL, a non-empty URL and price text, and a consistent price per m2. |
| Batch.PageHits | src/main.rs:677-702 | Registering a page only appends to the kept hits. |
| Batch.PageHitsFallback | src/main.rs:677-702 | The all-items pass runs exactly when every listed card is a known duplicate. Otherwise only the listed cards are offered. |
| Batch.PageHitsTracks | src/main.rs:677-702 | Registering a page keeps the seen ids those of the kept hits, and keeps them distinct. |
| Batch.PageHitsRegisters | src/main.rs:677-702 | `PageHits` only appends, and keeps the seen ids tracked and distinct. |
| Batch.CrawlStep | src/main.rs:638-722 | One turn: a failed fetch ends the crawl with its error. A page that registered nothing ends it with no next URL. Any other page continues from the next page, referred by this one. |
| Batch.CrawlGrows | src/main.rs:638-722 | A crawl only appends visits and hits, visits at most the budget, and a fetch error leaves budget unused. |
| Batch.CrawlPagesInOrder | src/main.rs:644-659 | The pages visited are start, start+1, and so on, each referred by the page before it, the first by the origin. |
| Batch.CrawlKeptGoing | src/main.rs:712-718 | Every page visited but the last registered something. |
| Batch.CrawlStopsEarly | src/main.rs:638-722 | A crawl that ends under budget without an error ended at a page that registered nothing. |
| Batch.CrawlStopClearsNext | src/main.rs:712-714 | When the last page registered nothing, there is no next URL. |
| Batch.CrawlRunsOut | src/main.rs:639-642 | When the whole budget is spent and the last page registered something, the next URL names the page after it. |
| Batch.CrawlCounts | src/main.rs:684-726 | The total hits equal what the pages registered, and the kept ids stay distinct. |
| Batch.CrawlOutcome | src/main.rs:638-729 | The whole loop: pages in order within the budget; every page but the last registered something; the hit count matches, with distinct ids. Without an error, the next URL is absent exactly when no page was visited or the last added nothing. Otherwise the budget was spent and the next URL names the following page. |
| Batch.GateBeforeFetch | src/main.rs:597-618 | When the gate refuses, `scrape_prices` returns its error whatever the site would serve. |
| Batch.ScrapeWithinPageRange | src/main.rs:636-729 | A scrape visits at most the requested number of pages, 200 without a range, and its total counts the hits returned. A range of 0 returns no hits, no pages and no next URL. |
| Batch.RegisterCards | src/main.rs:678-690 | The card loop leaves the registry in the state `AppendHits` describes, and counts the hits it added. |
| Batch.RegisterPage | src/main.rs:677-702 | A page's two passes leave the registry in the `PageHits` state, and count the hits added. |
| Batch.VisitPage | src/main.rs:644-702 | A failed fetch leaves the registry unchanged. Otherwise the page's hits are registered. |
| Batch.CrawlTurn | src/main.rs:639-721 | One loop turn realizes one turn of the crawl. |
| Batch.CrawlPages | src/main.rs:629-729 | The page loop returns the summary of the crawl. |
| Batch.ScrapePrices | src/main.rs:593-730 | `scrape_prices` returns the gate's error, or the summary of the crawl from the normalized start page. |
| Stream.EventsFrom | src/main.rs:195-297 | The stream from any point sends at least one event. |
| Stream.PageTurn | src/main.rs:206-297 | One turn sends at least one event. |
| Stream.StreamPageHitsFallback | src/main.rs:251-271 | The page's hits are those of the listed cards unless they yield none. |
| Stream.EventsEnd | src/main.rs:195-297 | A stream sends at most the budget of page events and then exactly one done or error event, last. |
| Stream.EventsPagesInOrder | src/main.rs:273-294 | The page events report pages start, start+1, and so on, with their URLs, each counting its hits. |
| Stream.EventsRunningTotals | src/main.rs:273-280 | Each page event's running total is the hits reported so far. |
| Stream.EventsDoneReports | src/main.rs:196-204 | A final done reports the pages fetched and all the hits reported. |
| Stream.EventsEarlierPagesHadHits | src/main.rs:283-294 | Every page event but the last had hits. |
| Stream.EventsStopReason | src/main.rs:196-291 | A page without hits is followed by done. A done under budget follows a page without hits. An error leaves budget unused. |
| Stream.RepeatsAreReported | src/main.rs:251-279 | With no duplicate filter, a next page serving the same cards reports the same hits again and counts them twice. |
| Stream.StreamGate | src/main.rs:126-181 | A gate error is the only event, whatever the site serves. Otherwise the stream starts with the origin and the page cap. |
| Stream.StreamWithinPageRange | src/main.rs:176-204 | The stream sends at most one page event per page of the range, 200 without one, between `start` and its last event. A range of 0 sends `start` and then `done` with nothing fetched. |
| Stream.CollectHits | src/main.rs:252-270 | The card loop collects the hits among the cards' results, in order. |
| Stream.CollectPageHits | src/main.rs:251-271 | A page's hits come from the listed cards, and from all items when those yield none. |
| Stream.StreamPages | src/main.rs:192-297 | The event loop sends the events `EventsFrom` describes. |
| Stream.ScrapeStream | src/main.rs:120-299 | `scrape_stream` sends the gate's error, or the start event followed by the page loop's events. |

## Left out

- HTTP handlers, the dashboard page, `main`, the JSON and SSE framing, and logging are not modelled. The engine's results and events are modelled as values.
- The tokio task and the mpsc channel are not modelled. The stream is the sequence of events sent. A closed receiver, which the source ignores, is not modelled.
- Networking is an oracle: `reqwest`, the per-page client build, the warm-up request to the origin, and fetching robots.txt. The page oracle yields `parse_card`'s result for every card, or the retry's error. A client build failure, which ends either driver with an error, is not modelled.
- HTML parsing and CSS selectors are not modelled. A card is its parts: the title link, price text, `data-href` and description texts.
- The robots.txt matcher, `Url::parse`, `Url::join` and URL serialization are oracles.
- Sleeps, `yield_now` and the random picks are not modelled. A random user-agent pick is an index per attempt.
- Prices and areas are exact reals, not `f64`: there is no rounding. `f64::from_str` is modelled only on tokens of digits with at most one point. Such tokens parse; every other token is taken not to parse. For price tokens this is exact: they hold only digits and points. Area tokens can hold anything but separators, and `f64::from_str` also accepts a sign, an exponent, `inf`, `infinity` and `nan`. So the source reads "-50 m2" as -50, "1e3" as 1000 and "inf" as infinity; the model reads none of these tokens as a number. A period in an area is deleted before parsing, in the source and in the model alike, so both read "62.5 m2" as 625 (Card.AreaPeriodExample).
- Card.ExtractSqm: "never negative" holds only because of that restriction; the source returns -50 for "-50 m2".
- Card.AreaIsWhole: "a whole number" holds only because of that restriction; the source reads "5e-1" as 0.5, and "inf" and "NaN" as non-whole values.
- Card.AreaIsWhole: a decimal comma in an area ("62,5 m2") splits the token, so the area read is 62. This is the code's behaviour and the model keeps it.
- Card.NormalizePrice: deleting periods makes "1234.5" read as 12345. Reading a price back is stable only for integers (Card.PriceOfInteger), not for every amount.
- Pager.NormalizePager: a query is its sequence of decoded pairs. `normalize_pager` reads the start page by splitting the raw query on `&` and looking for `page=`. The model reads the same decoded pairs as the second loop, which agrees when the query has no percent-escapes and no `+`.
- Pager.BuildPageUrl: `build_page_url` cannot fail, so the source's error branches after it are never taken. The `usize` overflow of `page + 1` at 2^64 - 1 is not modelled.
- Batch.CrawlPages: `next_url` is the page URL rather than its serialization.
- Batch.CrawlPages: `pages += 1` before a failed fetch cannot be observed, because the batch returns only the error then.
- Gate.Message: `scrape_prices` attaches the context "invalid url" to a parse error, while the stream sends the parser's own message. The model keeps the parser's message in `InvalidUrl` and does not model anyhow's rendering.
- Fetch.RetryFetch: the acceptance test uses the body's UTF-8 byte length (`text.len()`), as the code does, and not its character count. A body that fails to decode counts as an empty body.
- Fetch.BaseHeadersShape: a referer that is not a valid header value makes `HeaderValue::from_str(..).unwrap()` panic. This is not modelled.
