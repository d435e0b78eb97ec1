/**
 * One listing card turned into a price hit (`parse_card` and its helpers
 * `extract_id`, `normalize_price`, `extract_sqm_from_li`).
 *
 * HTML parsing is not modelled: a card arrives as the strings its CSS
 * selectors would pick out. Numbers are exact reals.
 */
module Card {
  import opened Wrappers
  import opened Text
  import opened Pager

  datatype Currency = EUR | HRK

  /** A parsed listing. */
  datatype PriceHit = PriceHit(
    id: string,
    listingUrl: string,
    title: string,
    priceNumeric: Option<real>,
    currency: Option<Currency>,
    rawPrice: string,
    sqm: Option<real>,
    pricePerM2: Option<real>)

  /** The title link `h3.entity-title > a.link`: its text and its `href`, if any. */
  datatype TitleLink = TitleLink(text: string, href: Option<string>)

  /**
   * What the selectors find in one `li.EntityList-item`, searched inside its
   * `article.entity-body` when it has one (the scope), else in the item:
   * the first title link in the scope, the text of the first price element
   * in the scope, the item's own `data-href` attribute, and the text of the
   * first `.entity-description-main` element in the item and in the scope.
   */
  datatype CardInput = CardInput(
    titleLink: Option<TitleLink>,
    priceText: Option<string>,
    dataHref: Option<string>,
    itemDescription: Option<string>,
    scopeDescription: Option<string>)

  function CurrencyCode(c: Currency): string {
    match c
    case EUR => "EUR"
    case HRK => "HRK"
  }

  // ---------------------------------------------------------------------
  // extract_id
  // ---------------------------------------------------------------------

  const ListingMarker: string := "-oglas-"

  /** Start of the last occurrence of `pat` that begins below `k`. */
  function FindLastBelow(s: string, pat: string, k: nat): (r: Option<nat>)
    ensures r.Some? ==> r.value < k && OccursAt(s, pat, r.value)
                        && forall j :: r.value < j < k ==> !OccursAt(s, pat, j)
    ensures r.None? ==> forall j :: 0 <= j < k ==> !OccursAt(s, pat, j)
  {
    if k == 0 then None
    else if OccursAt(s, pat, k - 1) then Some(k - 1)
    else FindLastBelow(s, pat, k - 1)
  }

  /** `str::rfind`: start of the last occurrence of `pat` in `s`. */
  function FindLast(s: string, pat: string): (r: Option<nat>)
    ensures r.Some? ==> OccursAt(s, pat, r.value) && forall j :: r.value < j ==> !OccursAt(s, pat, j)
    ensures r.None? ==> forall j :: !OccursAt(s, pat, j)
  {
    FindLastBelow(s, pat, |s| + 1)
  }

  /** Length of the run of ASCII digits that starts `s`. */
  function DigitPrefixLen(s: string): (n: nat)
    ensures n <= |s| && AllDigits(s[..n])
    ensures n < |s| ==> !IsAsciiDigit(s[n])
  {
    if s == [] || !IsAsciiDigit(s[0]) then 0
    else
      var n := 1 + DigitPrefixLen(s[1..]);
      assert s[..n] == [s[0]] + s[1..][..n - 1];
      n
  }

  /** Length of the run of ASCII digits that ends `s`. */
  function DigitSuffixLen(s: string): (n: nat)
    ensures n <= |s| && AllDigits(s[|s| - n..])
    ensures n < |s| ==> !IsAsciiDigit(s[|s| - n - 1])
  {
    if s == [] || !IsAsciiDigit(s[|s| - 1]) then 0
    else
      var front := s[..|s| - 1];
      var n := 1 + DigitSuffixLen(front);
      assert s[|s| - n..] == front[|front| - (n - 1)..] + [s[|s| - 1]];
      n
  }

  /**
   * `extract_id`: the digits right after the last `-oglas-` in the URL, and
   * without that marker the digits that end the URL. Always ASCII digits,
   * possibly none.
   */
  function ExtractId(url: string): (id: string)
    ensures AllDigits(id)
    ensures match FindLast(url, ListingMarker)
            case Some(p) =>
              var start := p + |ListingMarker|;
              start + |id| <= |url| && id == url[start..start + |id|]
              && (start + |id| == |url| || !IsAsciiDigit(url[start + |id|]))
            case None =>
              |id| <= |url| && id == url[|url| - |id|..]
              && (|id| == |url| || !IsAsciiDigit(url[|url| - |id| - 1]))
  {
    match FindLast(url, ListingMarker)
    case Some(p) =>
      var tail := url[p + |ListingMarker|..];
      var n := DigitPrefixLen(tail);
      assert tail[..n] == url[p + |ListingMarker|..p + |ListingMarker| + n];
      tail[..n]
    case None =>
      var n := DigitSuffixLen(url);
      url[|url| - n..]
  }

  // ---------------------------------------------------------------------
  // normalize_price
  // ---------------------------------------------------------------------

  /** Characters whose lower case (`char::to_lowercase`) is `k`: K, k and the Kelvin sign. */
  predicate LowersToK(c: char) {
    c == 'k' || c == 'K' || c == '\U{212A}'
  }

  predicate LowersToN(c: char) {
    c == 'n' || c == 'N'
  }

  /** `s.to_lowercase().contains("kn")`. */
  predicate MentionsKuna(s: string) {
    exists i :: 0 <= i < |s| - 1 && LowersToK(s[i]) && LowersToN(s[i + 1])
  }

  /** The currency a price text names: a euro sign wins over "kn". */
  function DetectCurrency(s: string): (c: Option<Currency>)
    ensures c == Some(EUR) <==> '€' in s
    ensures c == Some(HRK) <==> '€' !in s && MentionsKuna(s)
    ensures c == None <==> '€' !in s && !MentionsKuna(s)
  {
    if '€' in s then Some(EUR)
    else if MentionsKuna(s) then Some(HRK)
    else None
  }

  /** The characters `normalize_price` keeps: ASCII digits, commas and periods. */
  predicate IsNumberChar(c: char) {
    IsAsciiDigit(c) || c == ',' || c == '.'
  }

  /** Every character other than a digit, a comma or a period becomes a space. */
  function KeepNumberChars(s: string): (r: string)
    ensures |r| == |s|
    ensures forall i :: 0 <= i < |r| ==> r[i] == (if IsNumberChar(s[i]) then s[i] else ' ')
  {
    if s == [] then []
    else [if IsNumberChar(s[0]) then s[0] else ' '] + KeepNumberChars(s[1..])
  }

  /** `s.replace(',', ".")`. */
  function CommaToPoint(s: string): (r: string)
    ensures |r| == |s|
    ensures forall i :: 0 <= i < |r| ==> r[i] == (if s[i] == ',' then '.' else s[i])
  {
    if s == [] then [] else [if s[0] == ',' then '.' else s[0]] + CommaToPoint(s[1..])
  }

  /** The first token that parses as a number, scanning in order. */
  function FirstNumber(tokens: seq<string>): (r: Option<real>)
    ensures r.None? <==> forall i :: 0 <= i < |tokens| ==> ParseDecimal(tokens[i]).None?
    ensures r.Some? ==> exists i :: 0 <= i < |tokens| && ParseDecimal(tokens[i]) == r
                                    && forall j :: 0 <= j < i ==> ParseDecimal(tokens[j]).None?
  {
    if tokens == [] then None
    else if ParseDecimal(tokens[0]).Some? then ParseDecimal(tokens[0])
    else
      var r := FirstNumber(tokens[1..]);
      assert forall i :: 1 <= i < |tokens| ==> tokens[i] == tokens[1..][i - 1];
      r
  }

  /** The numeral normalize_price parses: thousands periods gone, the decimal comma a point. */
  function PriceNumeral(s: string): string {
    CommaToPoint(DeletePeriods(KeepNumberChars(s)))
  }

  /**
   * `normalize_price`: the amount and the currency of a price text. There
   * is no amount when the text has no ASCII digit; the currency is found
   * either way.
   */
  function NormalizePrice(s: string): (r: (Option<real>, Option<Currency>))
    ensures r.1 == DetectCurrency(s)
    ensures !HasDigit(s) ==> r.0 == None
    ensures r.0.Some? ==> r.0.value >= 0.0
  {
    var cur := DetectCurrency(s);
    if !HasDigit(s) then (None, cur)
    else (FirstNumber(SplitWhitespace(PriceNumeral(s))), cur)
  }

  // ---------------------------------------------------------------------
  // extract_sqm_from_li
  // ---------------------------------------------------------------------

  predicate IsAreaSeparator(c: char) {
    IsWhitespace(c) || c == ',' || c == ';' || c == '\n'
  }

  /** Each token with its periods deleted and its commas made points. */
  function CleanTokens(tokens: seq<string>): (r: seq<string>)
    ensures |r| == |tokens|
    ensures forall i :: 0 <= i < |r| ==> r[i] == CommaToPoint(DeletePeriods(tokens[i]))
  {
    if tokens == [] then [] else [CommaToPoint(DeletePeriods(tokens[0]))] + CleanTokens(tokens[1..])
  }

  /**
   * `extract_sqm_from_li`: nothing without a description element; else the
   * first token (split at whitespace, `,` and `;`) that parses once its
   * periods are deleted.
   */
  function ExtractSqm(description: Option<string>): (r: Option<real>)
    ensures description.None? ==> r.None?
    ensures r.Some? ==> r.value >= 0.0
  {
    match description
    case None => None
    case Some(text) => FirstNumber(CleanTokens(Split(text, IsAreaSeparator)))
  }

  // ---------------------------------------------------------------------
  // parse_card
  // ---------------------------------------------------------------------

  /** The price per square metre, when both are known and the area is positive. */
  function PricePerM2(price: Option<real>, sqm: Option<real>): (r: Option<real>)
    ensures r.Some? <==> price.Some? && sqm.Some? && sqm.value > 0.0
    ensures r.Some? ==> r.value * sqm.value == price.value
  {
    if price.Some? && sqm.Some? && sqm.value > 0.0 then Some(price.value / sqm.value) else None
  }

  /** The link a card points at: the title link's href, else the item's `data-href`. */
  function CardHref(card: CardInput): Option<string> {
    match card.titleLink
    case Some(TitleLink(_, Some(h))) => Some(h)
    case _ => card.dataHref
  }

  /** The listing URL: the href joined onto the page URL, or "" when there is none or the join fails. */
  function ListingUrl(card: CardInput, pageUrl: Url, join: (Url, string) -> Option<string>): string {
    match CardHref(card)
    case None => ""
    case Some(h) =>
      match join(pageUrl, h)
      case None => ""
      case Some(u) => u
  }

  function RawPrice(card: CardInput): string {
    match card.priceText
    case None => ""
    case Some(t) => Trim(t)
  }

  function Title(card: CardInput): string {
    match card.titleLink
    case None => ""
    case Some(link) => Trim(link.text)
  }

  /** The area: from the item's description, else from the scope's. */
  function CardSqm(card: CardInput): Option<real> {
    var itemSqm := ExtractSqm(card.itemDescription);
    if itemSqm.Some? then itemSqm else ExtractSqm(card.scopeDescription)
  }

  /**
   * The invariant every hit keeps: the price per m2 is there exactly when
   * the price and a positive area are, and is their ratio (see PricePerM2).
   */
  predicate ConsistentHit(h: PriceHit) {
    h.pricePerM2 == PricePerM2(h.priceNumeric, h.sqm)
  }

  /**
   * `parse_card`: nothing when the listing URL or the trimmed price text is
   * empty; else the hit with its id taken from the listing URL, the title
   * (empty when there is no title link), the normalized price and the area
   * from the item's description, else from the scope's.
   */
  function ParseCard(card: CardInput, pageUrl: Url, join: (Url, string) -> Option<string>): (r: Option<PriceHit>)
    ensures r.None? <==> ListingUrl(card, pageUrl, join) == "" || RawPrice(card) == ""
    ensures r.Some? ==>
              var h := r.value;
              h.listingUrl == ListingUrl(card, pageUrl, join) && h.id == ExtractId(h.listingUrl)
              && h.rawPrice == RawPrice(card) && h.title == Title(card)
              && h.priceNumeric == NormalizePrice(h.rawPrice).0 && h.currency == NormalizePrice(h.rawPrice).1
              && h.sqm == CardSqm(card)
              && ConsistentHit(h)
  {
    var rawPrice := RawPrice(card);
    var listingUrl := ListingUrl(card, pageUrl, join);
    if listingUrl == "" || rawPrice == "" then None
    else
      var price := NormalizePrice(rawPrice);
      var sqm := CardSqm(card);
      Some(PriceHit(ExtractId(listingUrl), listingUrl, Title(card), price.0, price.1, rawPrice, sqm,
                    PricePerM2(price.0, sqm)))
  }

  // ---------------------------------------------------------------------
  // Properties
  // ---------------------------------------------------------------------

  lemma {:induction false} KeepNumberCharsAfterDelete(s: string)
    ensures DeletePeriods(KeepNumberChars(DeletePeriods(s))) == DeletePeriods(KeepNumberChars(s))
  {
    if s != [] {
      KeepNumberCharsAfterDelete(s[1..]);
      var k := KeepNumberChars(s);
      assert k[1..] == KeepNumberChars(s[1..]);
      if s[0] == '.' {
        assert k[0] == '.';
        assert DeletePeriods(k) == DeletePeriods(k[1..]);
        assert DeletePeriods(s) == DeletePeriods(s[1..]);
      } else {
        var d := DeletePeriods(s[1..]);
        assert DeletePeriods(s) == [s[0]] + d;
        var kd := KeepNumberChars([s[0]] + d);
        assert kd[1..] == KeepNumberChars(d) by { assert ([s[0]] + d)[1..] == d; }
        assert kd[0] == k[0] != '.';
        assert DeletePeriods(kd) == [kd[0]] + DeletePeriods(kd[1..]);
        assert DeletePeriods(k) == [k[0]] + DeletePeriods(k[1..]);
      }
    }
  }

  lemma HasDigitAfterDelete(s: string)
    ensures HasDigit(DeletePeriods(s)) <==> HasDigit(s)
  {
    var d := DeletePeriods(s);
    if HasDigit(s) {
      var i :| 0 <= i < |s| && IsAsciiDigit(s[i]);
      assert s[i] in s;
      DeletePeriodsKeeps(s, s[i]);
      var j :| 0 <= j < |d| && d[j] == s[i];
    }
    if HasDigit(d) {
      var i :| 0 <= i < |d| && IsAsciiDigit(d[i]);
      assert d[i] in d;
      DeletePeriodsKeeps(s, d[i]);
      var j :| 0 <= j < |s| && s[j] == d[i];
    }
  }

  /**
   * Periods are thousands separators to `normalize_price`: deleting them
   * from the text beforehand does not change the amount.
   */
  lemma PriceIgnoresPeriods(s: string)
    ensures NormalizePrice(DeletePeriods(s)).0 == NormalizePrice(s).0
  {
    HasDigitAfterDelete(s);
    KeepNumberCharsAfterDelete(s);
  }

  lemma {:induction false} DeletePeriodsWithoutPeriods(s: string)
    requires '.' !in s
    ensures DeletePeriods(s) == s
  {
    if s != [] {
      assert s == [s[0]] + s[1..];
      DeletePeriodsWithoutPeriods(s[1..]);
    }
  }

  /**
   * A price already written as a plain integer (as `usize::to_string`
   * writes it) reads back as that integer, with no currency.
   */
  lemma PriceOfInteger(n: nat)
    ensures NormalizePrice(NatToString(n)) == (Some(n as real), None)
  {
    var d := NatToString(n);
    NatToStringSpec(n);
    assert HasDigit(d) by { assert IsAsciiDigit(d[0]); }
    DigitsAreTheirOwnNumeral(d);
    DigitsNameNoCurrency(d);
  }

  lemma DigitsNameNoCurrency(d: string)
    requires AllDigits(d)
    ensures DetectCurrency(d) == None
  {
    assert '€' !in d by {
      forall k | 0 <= k < |d| ensures d[k] != '€' { assert IsAsciiDigit(d[k]); }
    }
    forall i | 0 <= i < |d| - 1 ensures !LowersToK(d[i]) { assert IsAsciiDigit(d[i]); }
  }

  lemma DigitsHaveNoPeriod(d: string)
    requires AllDigits(d)
    ensures '.' !in d
  {
    forall k | 0 <= k < |d| ensures d[k] != '.' { assert IsAsciiDigit(d[k]); }
  }

  lemma DigitsAreNumberChars(d: string)
    requires AllDigits(d)
    ensures PriceNumeral(d) == d
  {
    assert KeepNumberChars(d) == d;
    DigitsHaveNoPeriod(d);
    DeletePeriodsWithoutPeriods(d);
    assert CommaToPoint(d) == d;
  }

  lemma DigitsAreOneToken(d: string)
    requires d != [] && AllDigits(d)
    ensures SplitWhitespace(d) == [d]
  {
    SplitWithoutSeparator(d, IsWhitespace);
    assert NonEmpty([d]) == [[d][0]] + NonEmpty([d][1..]);
  }

  lemma DigitsParse(d: string)
    requires d != [] && AllDigits(d)
    ensures ParseDecimal(d) == Some(DigitsValue(d) as real)
  {
    assert IsDecimalNumeral(d) by {
      DigitsHaveNoPeriod(d);
      CountOfAbsent(d, '.');
      assert IsAsciiDigit(d[0]);
    }
  }

  /** A non-empty digit string is already in normal form, and is one token. */
  lemma DigitsAreTheirOwnNumeral(d: string)
    requires d != [] && AllDigits(d)
    ensures FirstNumber(SplitWhitespace(PriceNumeral(d))) == Some(DigitsValue(d) as real)
  {
    DigitsAreNumberChars(d);
    DigitsAreOneToken(d);
    DigitsParse(d);
  }

  lemma {:induction false} CountOfAbsent(s: string, c: char)
    requires c !in s
    ensures CountChar(s, c) == 0
  {
    if s != [] {
      CountOfAbsent(s[1..], c);
    }
  }

  /**
   * `extract_sqm_from_li` only ever yields whole numbers: periods are deleted
   * and commas split tokens, so no decimal mark survives.
   */
  lemma AreaIsWhole(description: Option<string>)
    ensures ExtractSqm(description).Some? ==> ExtractSqm(description).value == ExtractSqm(description).value.Floor as real
  {
    if ExtractSqm(description).Some? {
      var pieces := Split(description.value, IsAreaSeparator);
      var tokens := CleanTokens(pieces);
      var i :| 0 <= i < |tokens| && ParseDecimal(tokens[i]) == ExtractSqm(description);
      assert ',' !in pieces[i] by {
        forall k | 0 <= k < |pieces[i]| ensures pieces[i][k] != ',' {
          assert !IsAreaSeparator(pieces[i][k]);
        }
      }
      CleanTokenHasNoPoint(pieces[i]);
    }
  }

  /** A piece without commas has no decimal point once cleaned, so it reads as a whole number. */
  lemma CleanTokenHasNoPoint(piece: string)
    requires ',' !in piece
    ensures var t := CommaToPoint(DeletePeriods(piece));
            '.' !in t && (ParseDecimal(t).Some? ==> ParseDecimal(t).value == DigitsValue(t) as real)
  {
    var d := DeletePeriods(piece);
    var t := CommaToPoint(d);
    forall k | 0 <= k < |t| ensures t[k] != '.' {
      assert t[k] == (if d[k] == ',' then '.' else d[k]);
      assert d[k] in d;
      DeletePeriodsKeeps(piece, ',');
    }
  }

  /**
   * The title link's href is preferred: when it is there, `data-href` is not
   * looked at, even when joining the href fails.
   */
  lemma TitleHrefWins(card: CardInput, other: Option<string>, pageUrl: Url, join: (Url, string) -> Option<string>)
    requires card.titleLink.Some? && card.titleLink.value.href.Some?
    ensures ListingUrl(card, pageUrl, join) ==
              (match join(pageUrl, card.titleLink.value.href.value) case None => "" case Some(u) => u)
    ensures ParseCard(card.(dataHref := other), pageUrl, join) == ParseCard(card, pageUrl, join)
  {
    var changed := card.(dataHref := other);
    assert CardHref(changed) == CardHref(card);
    assert ListingUrl(changed, pageUrl, join) == ListingUrl(card, pageUrl, join);
    assert RawPrice(changed) == RawPrice(card);
    assert Title(changed) == Title(card);
    assert CardSqm(changed) == CardSqm(card);
  }

  /** Without a title link, or one without an href, the item's `data-href` is used. */
  lemma DataHrefFallback(card: CardInput, pageUrl: Url, join: (Url, string) -> Option<string>)
    requires card.titleLink.None? || card.titleLink.value.href.None?
    ensures CardHref(card) == card.dataHref
  {
  }

  /**
   * The two required fields: when joined URLs are never empty (a serialized
   * URL always has a scheme), a card is dropped exactly when it has no href,
   * its href does not join onto the page URL, or its price text is missing
   * or all whitespace.
   */
  lemma RequiredFields(card: CardInput, pageUrl: Url, join: (Url, string) -> Option<string>)
    requires forall h :: join(pageUrl, h) != Some("")
    ensures ParseCard(card, pageUrl, join).None? <==>
              CardHref(card).None? || join(pageUrl, CardHref(card).value).None?
              || card.priceText.None? || AllWhitespace(card.priceText.value)
  {
    assert ListingUrl(card, pageUrl, join) == "" <==>
             CardHref(card).None? || join(pageUrl, CardHref(card).value).None?;
    assert RawPrice(card) == "" <==> card.priceText.None? || AllWhitespace(card.priceText.value);
  }

  // ---------------------------------------------------------------------
  // How a price and an area are read
  // ---------------------------------------------------------------------

  /** Digits written with thousands periods, as in "1.234" or "650". */
  predicate GroupedDigits(t: string) {
    forall k :: 0 <= k < |t| ==> IsAsciiDigit(t[k]) || t[k] == '.'
  }

  /** Text without any character `normalize_price` keeps. */
  predicate NoNumberChars(s: string) {
    forall k :: 0 <= k < |s| ==> !IsNumberChar(s[k])
  }

  /** Deleting the thousands periods of grouped digits leaves digits, and a digit when there was one. */
  lemma DeletePeriodsOfGrouped(t: string)
    requires GroupedDigits(t)
    ensures AllDigits(DeletePeriods(t))
    ensures HasDigit(t) ==> DeletePeriods(t) != []
  {
    var d := DeletePeriods(t);
    forall k | 0 <= k < |d| ensures IsAsciiDigit(d[k]) {
      assert d[k] in d && d[k] != '.';
      DeletePeriodsKeeps(t, d[k]);
    }
    if HasDigit(t) {
      var k :| 0 <= k < |t| && IsAsciiDigit(t[k]);
      assert t[k] in t;
      DeletePeriodsKeeps(t, t[k]);
    }
  }

  /** The value of digits written with thousands periods: "1.234" is 1234. */
  function GroupedValue(t: string): nat
    requires GroupedDigits(t)
  {
    DeletePeriodsOfGrouped(t);
    DigitsValue(DeletePeriods(t))
  }

  lemma KeepNumberCharsConcat(a: string, b: string)
    ensures KeepNumberChars(a + b) == KeepNumberChars(a) + KeepNumberChars(b)
  {
    var l := KeepNumberChars(a + b);
    var r := KeepNumberChars(a) + KeepNumberChars(b);
    forall i | 0 <= i < |l| ensures l[i] == r[i] {
      if i < |a| { assert (a + b)[i] == a[i]; } else { assert (a + b)[i] == b[i - |a|]; }
    }
  }

  lemma CommaToPointConcat(a: string, b: string)
    ensures CommaToPoint(a + b) == CommaToPoint(a) + CommaToPoint(b)
  {
    var l := CommaToPoint(a + b);
    var r := CommaToPoint(a) + CommaToPoint(b);
    forall i | 0 <= i < |l| ensures l[i] == r[i] {
      if i < |a| { assert (a + b)[i] == a[i]; } else { assert (a + b)[i] == b[i - |a|]; }
    }
  }

  lemma PriceNumeralConcat(a: string, b: string)
    ensures PriceNumeral(a + b) == PriceNumeral(a) + PriceNumeral(b)
  {
    KeepNumberCharsConcat(a, b);
    DeletePeriodsConcat(KeepNumberChars(a), KeepNumberChars(b));
    CommaToPointConcat(DeletePeriods(KeepNumberChars(a)), DeletePeriods(KeepNumberChars(b)));
  }

  /** Text without digits, commas or periods becomes spaces. */
  lemma PriceNumeralOfText(pre: string)
    requires NoNumberChars(pre)
    ensures AllWhitespace(PriceNumeral(pre))
  {
    var sp := KeepNumberChars(pre);
    assert forall k :: 0 <= k < |sp| ==> sp[k] == ' ';
    DeletePeriodsWithoutPeriods(sp);
    assert CommaToPoint(sp) == sp;
  }

  /** A numeral keeps its characters: only its periods go and its commas become points. */
  lemma PriceNumeralOfNumeral(t: string)
    requires forall k :: 0 <= k < |t| ==> IsNumberChar(t[k])
    ensures PriceNumeral(t) == CommaToPoint(DeletePeriods(t))
    ensures forall k :: 0 <= k < |PriceNumeral(t)| ==> !IsWhitespace(PriceNumeral(t)[k])
  {
    assert KeepNumberChars(t) == t;
    var d := DeletePeriods(t);
    forall k | 0 <= k < |d| ensures !IsWhitespace(d[k]) {
      if d[k] != '.' {
        assert d[k] in d;
        DeletePeriodsKeeps(t, d[k]);
      }
    }
  }

  /** A character that is not kept becomes a space. */
  lemma PriceNumeralApart(rest: string)
    requires rest != [] && !IsNumberChar(rest[0])
    ensures PriceNumeral(rest) == [' '] + PriceNumeral(rest[1..])
  {
    assert rest == [rest[0]] + rest[1..];
    PriceNumeralConcat([rest[0]], rest[1..]);
    assert KeepNumberChars([rest[0]]) == [' '];
  }

  /** Leading whitespace only adds empty pieces, which `split_whitespace` drops. */
  lemma {:induction false} SplitAfterSpace(sp: string, x: string)
    requires AllWhitespace(sp)
    ensures NonEmpty(Split(sp + x, IsWhitespace)) == NonEmpty(Split(x, IsWhitespace))
  {
    if sp != [] {
      var s := sp + x;
      assert s[0] == sp[0] && s[1..] == sp[1..] + x;
      SplitAfterSpace(sp[1..], x);
      var z := Split(s[1..], IsWhitespace);
      assert IsWhitespace(s[0]);
      assert Split(s, IsWhitespace) == [[]] + z;
      NonEmptyConcat([[]], z);
    } else {
      assert sp + x == x;
    }
  }

  /** A token without whitespace, then nothing or whitespace, is the first piece. */
  lemma SplitWhitespaceToken(c: string, pr: string)
    requires c != [] && forall k :: 0 <= k < |c| ==> !IsWhitespace(c[k])
    requires pr == [] || IsWhitespace(pr[0])
    ensures NonEmpty(Split(c + pr, IsWhitespace)) == [c] + NonEmpty(Split(pr, IsWhitespace))
  {
    if pr == [] {
      assert c + pr == c;
      SplitWithoutSeparator(c, IsWhitespace);
      NonEmptyConcat([c], []);
      assert Split(pr, IsWhitespace) == [[]];
      NonEmptyConcat([[]], []);
    } else {
      var y := pr[1..];
      assert c + pr == c + [pr[0]] + y;
      SplitAt(c, pr[0], y, IsWhitespace);
      NonEmptyConcat([c], Split(y, IsWhitespace));
      assert Split(pr, IsWhitespace) == [[]] + Split(y, IsWhitespace);
      NonEmptyConcat([[]], Split(y, IsWhitespace));
    }
  }

  lemma PriceNumeralOfThree(a: string, b: string, c: string)
    ensures PriceNumeral(a + b + c) == PriceNumeral(a) + (PriceNumeral(b) + PriceNumeral(c))
  {
    var x, y, z := PriceNumeral(a), PriceNumeral(b), PriceNumeral(c);
    assert PriceNumeral(a + b) == x + y by { PriceNumeralConcat(a, b); }
    assert PriceNumeral(a + b + c) == x + y + z by { PriceNumeralConcat(a + b, c); }
    assert x + y + z == x + (y + z);
  }

  /**
   * After text without digits, commas or periods, a numeral followed by
   * nothing or by a character that is not kept is the first token
   * `normalize_price` sees, rewritten as it rewrites it.
   */
  lemma NumeralIsFirstToken(pre: string, t: string, rest: string)
    requires NoNumberChars(pre) && (rest == [] || !IsNumberChar(rest[0]))
    requires forall k :: 0 <= k < |t| ==> IsNumberChar(t[k])
    requires CommaToPoint(DeletePeriods(t)) != []
    ensures SplitWhitespace(PriceNumeral(pre + t + rest))
            == [CommaToPoint(DeletePeriods(t))] + SplitWhitespace(PriceNumeral(rest))
  {
    var sp := PriceNumeral(pre);
    var c := PriceNumeral(t);
    var pr := PriceNumeral(rest);
    PriceNumeralOfThree(pre, t, rest);
    assert NonEmpty(Split(sp + (c + pr), IsWhitespace)) == NonEmpty(Split(c + pr, IsWhitespace)) by {
      PriceNumeralOfText(pre);
      SplitAfterSpace(sp, c + pr);
    }
    assert NonEmpty(Split(c + pr, IsWhitespace)) == [c] + NonEmpty(Split(pr, IsWhitespace)) by {
      PriceNumeralOfNumeral(t);
      if rest != [] {
        PriceNumeralApart(rest);
      }
      SplitWhitespaceToken(c, pr);
    }
    PriceNumeralOfNumeral(t);
  }

  /**
   * A price whose first numeral has no decimals reads as that numeral with
   * its thousands periods deleted, whatever text follows it ("650 kn" is 650,
   * "1.234 €" is 1234); the text before it holds no digit, comma or period.
   */
  lemma PriceOfWholeNumeral(pre: string, t: string, rest: string)
    requires NoNumberChars(pre) && GroupedDigits(t) && HasDigit(t) && (rest == [] || !IsNumberChar(rest[0]))
    ensures NormalizePrice(pre + t + rest) == (Some(GroupedValue(t) as real), DetectCurrency(pre + t + rest))
  {
    var d := DeletePeriods(t);
    DeletePeriodsOfGrouped(t);
    assert CommaToPoint(d) == d by { DigitsHaveNoComma(d); }
    NumeralIsFirstToken(pre, t, rest);
    DigitsParse(d);
    assert HasDigit(pre + t + rest) by {
      var k :| 0 <= k < |t| && IsAsciiDigit(t[k]);
      assert (pre + t + rest)[|pre| + k] == t[k];
    }
  }

  /** Grouped digits, a decimal comma and fraction digits are rewritten to a decimal numeral. */
  lemma CleanDecimal(t: string, f: string)
    requires GroupedDigits(t) && AllDigits(f)
    ensures CommaToPoint(DeletePeriods(t + "," + f)) == DeletePeriods(t) + "." + f
  {
    var i := DeletePeriods(t);
    assert DeletePeriods(t + ",") == i + "," by {
      DeletePeriodsConcat(t, ",");
      assert DeletePeriods(",") == ",";
    }
    assert DeletePeriods(t + "," + f) == i + "," + f by {
      DeletePeriodsConcat(t + ",", f);
      DigitsHaveNoPeriod(f);
      DeletePeriodsWithoutPeriods(f);
    }
    assert CommaToPoint(i + ",") == i + "." by {
      CommaToPointConcat(i, ",");
      DeletePeriodsOfGrouped(t);
      DigitsHaveNoComma(i);
    }
    assert CommaToPoint(i + "," + f) == i + "." + f by {
      CommaToPointConcat(i + ",", f);
      DigitsHaveNoComma(f);
    }
  }

  lemma DigitsHaveNoComma(d: string)
    requires AllDigits(d)
    ensures CommaToPoint(d) == d
  {
    assert forall k :: 0 <= k < |d| ==> d[k] != ',' by {
      forall k | 0 <= k < |d| ensures d[k] != ',' { assert IsAsciiDigit(d[k]); }
    }
  }

  /** `f64::from_str` on integer digits, a point and fraction digits. */
  lemma DecimalValue(i: string, f: string)
    requires AllDigits(i) && AllDigits(f) && f != []
    ensures ParseDecimal(i + "." + f) == Some(DecimalOf(i, f))
  {
    var c := i + "." + f;
    assert IsDecimalNumeral(c) by {
      assert CountChar(c, '.') == 1 by {
        DigitsHaveNoPeriod(i);
        CountOfAbsent(i, '.');
        DigitsHaveNoPeriod(f);
        CountOfAbsent(f, '.');
        CountCharConcat(i + ".", f, '.');
        CountCharConcat(i, ".", '.');
      }
      forall j | 0 <= j < |c| ensures IsAsciiDigit(c[j]) || c[j] == '.' {
        if j < |i| { assert c[j] == i[j]; } else if j > |i| { assert c[j] == f[j - |i| - 1]; }
      }
      assert IsAsciiDigit(c[|i| + 1]);
    }
    assert '.' in c by { assert c[|i|] == '.'; }
    var k := IndexOf(c, '.');
    assert k == |i| by {
      DigitsHaveNoPeriod(i);
      assert c[..|i|] == i;
      assert c[|i|] == '.';
    }
    assert c[..k] == i && c[k + 1..] == f;
  }

  /** The value of grouped digits with a decimal fraction: "1.234" and "50" make 1234.5. */
  function GroupedDecimal(t: string, f: string): real
    requires GroupedDigits(t) && AllDigits(f)
  {
    DeletePeriodsOfGrouped(t);
    DecimalOf(DeletePeriods(t), f)
  }

  /**
   * A price whose first numeral has a decimal comma reads as its integer
   * part, thousands periods deleted, plus its fraction ("1.234,50 €" is
   * 1234.5); the text before it holds no digit, comma or period.
   */
  lemma PriceWithDecimalComma(pre: string, t: string, f: string, rest: string)
    requires NoNumberChars(pre) && GroupedDigits(t) && f != [] && AllDigits(f) && (rest == [] || !IsNumberChar(rest[0]))
    ensures NormalizePrice(pre + t + "," + f + rest) == (Some(GroupedDecimal(t, f)), DetectCurrency(pre + t + "," + f + rest))
  {
    var n := t + "," + f;
    var s := pre + n + rest;
    assert pre + t + "," + f + rest == s;
    DeletePeriodsOfGrouped(t);
    assert SplitWhitespace(PriceNumeral(s)) == [DeletePeriods(t) + "." + f] + SplitWhitespace(PriceNumeral(rest)) by {
      CleanDecimal(t, f);
      assert forall k :: 0 <= k < |n| ==> IsNumberChar(n[k]);
      NumeralIsFirstToken(pre, n, rest);
    }
    DecimalValue(DeletePeriods(t), f);
    assert HasDigit(s) by {
      assert s[|pre| + |t| + 1] == f[0];
    }
  }

  lemma {:induction false} CountCharConcat(a: string, b: string, c: char)
    ensures CountChar(a + b, c) == CountChar(a, c) + CountChar(b, c)
  {
    if a == [] {
      assert a + b == b;
    } else {
      assert (a + b)[1..] == a[1..] + b;
      CountCharConcat(a[1..], b, c);
    }
  }

  /** "1.234,50 €" is 1234.50 euro. */
  lemma EuroPriceExample()
    ensures NormalizePrice("1.234,50 €") == (Some(1234.5), Some(EUR))
  {
    ThousandsDeleted();
    DecimalOfExample();
    assert "1.234,50 €"[9] == '€';
    assert "" + "1.234" + "," + "50" + " €" == "1.234,50 €";
    PriceWithDecimalComma("", "1.234", "50", " €");
  }

  lemma ThousandsDeleted()
    ensures GroupedDigits("1.234") && DeletePeriods("1.234") == "1234"
  {
    assert "1" + "." + "234" == "1.234" && "1" + "234" == "1234";
    OnePeriodDeleted("1", "234");
  }

  /** Deleting the one period between two period-free texts joins them. */
  lemma OnePeriodDeleted(a: string, b: string)
    requires '.' !in a && '.' !in b
    ensures DeletePeriods(a + "." + b) == a + b
  {
    var p := ".";
    assert DeletePeriods(p) == [] by {
      assert p[0] == '.' && p[1..] == [];
    }
    assert DeletePeriods(a + p) == a by {
      DeletePeriodsConcat(a, p);
      DeletePeriodsWithoutPeriods(a);
      assert a + [] == a;
    }
    assert DeletePeriods(a + p + b) == a + b by {
      DeletePeriodsConcat(a + p, b);
      DeletePeriodsWithoutPeriods(b);
    }
  }

  lemma DecimalOfExample()
    ensures AllDigits("1234") && AllDigits("50") && DecimalOf("1234", "50") == 1234.5
  {
    DigitsValueSnoc("", '1');
    DigitsValueSnoc("1", '2');
    DigitsValueSnoc("12", '3');
    DigitsValueSnoc("123", '4');
    assert "" + ['1'] == "1" && "1" + ['2'] == "12" && "12" + ['3'] == "123" && "123" + ['4'] == "1234";
    DigitsValueSnoc("", '5');
    DigitsValueSnoc("5", '0');
    assert "" + ['5'] == "5" && "5" + ['0'] == "50";
    assert Pow10(2) == 100;
  }

  /** "650 kn" is 650 kuna. */
  lemma KunaPriceExample()
    ensures NormalizePrice("650 kn") == (Some(650.0), Some(HRK))
  {
    ValueOf650();
    KunaCurrency();
    assert "" + "650" + " kn" == "650 kn";
    assert IsAsciiDigit("650"[0]);
    PriceOfWholeNumeral("", "650", " kn");
  }

  lemma ValueOf650()
    ensures GroupedDigits("650") && GroupedValue("650") == 650
  {
    assert DeletePeriods("650") == "650" by {
      assert '.' !in "650";
      DeletePeriodsWithoutPeriods("650");
    }
    DigitsValueSnoc("", '6');
    DigitsValueSnoc("6", '5');
    DigitsValueSnoc("65", '0');
    assert "" + ['6'] == "6" && "6" + ['5'] == "65" && "65" + ['0'] == "650";
  }

  lemma KunaCurrency()
    ensures DetectCurrency("650 kn") == Some(HRK)
  {
    var s := "650 kn";
    assert '€' !in s by {
      forall k | 0 <= k < |s| ensures s[k] != '€' { }
    }
    assert LowersToK(s[4]) && LowersToN(s[5]);
  }

  /** `str::split` on a text that ends with a separator: its pieces, then those of what follows. */
  lemma {:induction false} SplitAfterSeparator(a: string, x: string, isSep: char -> bool)
    requires a != [] && isSep(a[|a| - 1])
    ensures |Split(a, isSep)| >= 2
    ensures Split(a + x, isSep) == Split(a, isSep)[..|Split(a, isSep)| - 1] + Split(x, isSep)
  {
    var c, a' := a[0], a[1..];
    assert a == [c] + a';
    assert a + x == [c] + (a' + x);
    if a' == [] {
      assert a' + x == x;
      SplitCons(c, x, isSep);
      SplitCons(c, [], isSep);
    } else {
      SplitAfterSeparator(a', x, isSep);
      SplitCons(c, a' + x, isSep);
      SplitCons(c, a', isSep);
      JoinFirstPiece(c, isSep(c), Split(a', isSep), Split(a' + x, isSep), Split(x, isSep));
    }
  }

  /** `str::split` on a text of one more character than `s`. */
  lemma SplitCons(c: char, s: string, isSep: char -> bool)
    ensures Split([c] + s, isSep)
            == if isSep(c) then [[]] + Split(s, isSep) else [[c] + Split(s, isSep)[0]] + Split(s, isSep)[1..]
  {
    assert ([c] + s)[1..] == s;
  }

  /** The piece algebra behind SplitAfterSeparator's step. */
  lemma JoinFirstPiece(c: char, sep: bool, sa: seq<string>, r: seq<string>, sx: seq<string>)
    requires |sa| >= 2 && r == sa[..|sa| - 1] + sx && |sx| >= 1
    ensures var sa' := if sep then [[]] + sa else [[c] + sa[0]] + sa[1..];
            var r' := if sep then [[]] + r else [[c] + r[0]] + r[1..];
            |sa'| >= 2 && r' == sa'[..|sa'| - 1] + sx
  {
    if !sep {
      assert r[0] == sa[0];
      assert r[1..] == sa[1..|sa| - 1] + sx;
      assert ([[c] + sa[0]] + sa[1..])[..|sa| - 1] == [[c] + sa[0]] + sa[1..|sa| - 1];
    } else {
      assert ([[]] + sa)[..|sa|] == [[]] + sa[..|sa| - 1];
    }
  }

  /** A token followed by a separator or by nothing is the first piece. */
  lemma SplitTokenFirst(t: string, rest: string) returns (after: seq<string>)
    requires forall k :: 0 <= k < |t| ==> !IsAreaSeparator(t[k])
    requires rest == [] || IsAreaSeparator(rest[0])
    ensures Split(t + rest, IsAreaSeparator) == [t] + after
  {
    if rest == [] {
      after := [];
      assert t + rest == t;
      SplitWithoutSeparator(t, IsAreaSeparator);
    } else {
      after := Split(rest[1..], IsAreaSeparator);
      assert t + rest == t + [rest[0]] + rest[1..];
      SplitAt(t, rest[0], rest[1..], IsAreaSeparator);
    }
  }

  /** The pieces of a text around a token: those of the text before it, the token, then the rest's. */
  lemma SplitAroundToken(pre: string, t: string, rest: string) returns (earlier: seq<string>, after: seq<string>)
    requires pre == [] || IsAreaSeparator(pre[|pre| - 1])
    requires forall k :: 0 <= k < |t| ==> !IsAreaSeparator(t[k])
    requires rest == [] || IsAreaSeparator(rest[0])
    ensures Split(pre + t + rest, IsAreaSeparator) == earlier + [t] + after
    ensures forall p :: p in earlier ==> p in Split(pre, IsAreaSeparator)
  {
    after := SplitTokenFirst(t, rest);
    var tr := Split(t + rest, IsAreaSeparator);
    assert pre + t + rest == pre + (t + rest);
    if pre == [] {
      earlier := [];
      assert pre + (t + rest) == t + rest;
    } else {
      var ps := Split(pre, IsAreaSeparator);
      earlier := ps[..|ps| - 1];
      SplitAfterSeparator(pre, t + rest, IsAreaSeparator);
      assert earlier + tr == earlier + [t] + after;
    }
  }

  /** The first token that parses is the one `find_map` takes. */
  lemma FirstNumberAt(tokens: seq<string>, m: nat)
    requires m < |tokens| && ParseDecimal(tokens[m]).Some?
    requires forall j :: 0 <= j < m ==> ParseDecimal(tokens[j]).None?
    ensures FirstNumber(tokens) == ParseDecimal(tokens[m])
  {
    var i :| 0 <= i < |tokens| && ParseDecimal(tokens[i]) == FirstNumber(tokens)
             && forall j :: 0 <= j < i ==> ParseDecimal(tokens[j]).None?;
  }

  lemma GroupedHasNoSeparator(t: string)
    requires GroupedDigits(t)
    ensures forall k :: 0 <= k < |t| ==> !IsAreaSeparator(t[k])
  {
    forall k | 0 <= k < |t| ensures !IsAreaSeparator(t[k]) {
      assert IsAsciiDigit(t[k]) || t[k] == '.';
    }
  }

  /**
   * The area is read from the first token that parses: after text whose
   * tokens do not parse and that ends with a separator, a token of digits
   * with thousands periods, followed by a separator or by nothing, gives
   * that token with its periods deleted ("1.200 m2" is 1200).
   */
  lemma AreaFromFirstNumber(pre: string, t: string, rest: string)
    requires pre == [] || IsAreaSeparator(pre[|pre| - 1])
    requires forall p :: p in Split(pre, IsAreaSeparator) ==> ParseDecimal(CommaToPoint(DeletePeriods(p))).None?
    requires GroupedDigits(t) && HasDigit(t)
    requires rest == [] || IsAreaSeparator(rest[0])
    ensures ExtractSqm(Some(pre + t + rest)) == Some(GroupedValue(t) as real)
  {
    var d := DeletePeriods(t);
    assert ParseDecimal(CommaToPoint(d)) == Some(GroupedValue(t) as real) by {
      DeletePeriodsOfGrouped(t);
      DigitsHaveNoComma(d);
      DigitsParse(d);
    }
    GroupedHasNoSeparator(t);
    var earlier, after := SplitAroundToken(pre, t, rest);
    var pieces := earlier + [t] + after;
    var tokens := CleanTokens(pieces);
    var m := |earlier|;
    assert tokens[m] == CommaToPoint(d) by { assert pieces[m] == t; }
    forall j | 0 <= j < m ensures ParseDecimal(tokens[j]).None? {
      assert pieces[j] == earlier[j];
      assert earlier[j] in earlier;
    }
    FirstNumberAt(tokens, m);
  }

  /** "1.200 m2" is 1200 square metres. */
  lemma AreaExample()
    ensures ExtractSqm(Some("1.200 m2")) == Some(1200.0)
  {
    ValueOf1200();
    assert IsAsciiDigit("1.200"[0]);
    assert Split("", IsAreaSeparator) == [[]];
    assert "" + "1.200" + " m2" == "1.200 m2";
    AreaFromFirstNumber("", "1.200", " m2");
  }

  lemma ValueOf1200()
    ensures GroupedDigits("1.200") && GroupedValue("1.200") == 1200
  {
    assert DeletePeriods("1.200") == "1200" by {
      assert "1" + "." + "200" == "1.200" && "1" + "200" == "1200";
      OnePeriodDeleted("1", "200");
    }
    DigitsValueSnoc("", '1');
    DigitsValueSnoc("1", '2');
    DigitsValueSnoc("12", '0');
    DigitsValueSnoc("120", '0');
    assert "" + ['1'] == "1" && "1" + ['2'] == "12" && "12" + ['0'] == "120" && "120" + ['0'] == "1200";
  }

  /** A period in an area is deleted as a thousands separator: "62.5 m2" is read as 625. */
  lemma AreaPeriodExample()
    ensures ExtractSqm(Some("62.5 m2")) == Some(625.0)
  {
    ValueOf625();
    assert IsAsciiDigit("62.5"[0]);
    assert Split("", IsAreaSeparator) == [[]];
    assert "" + "62.5" + " m2" == "62.5 m2";
    AreaFromFirstNumber("", "62.5", " m2");
  }

  lemma ValueOf625()
    ensures GroupedDigits("62.5") && GroupedValue("62.5") == 625
  {
    assert DeletePeriods("62.5") == "625" by {
      assert "62" + "." + "5" == "62.5" && "62" + "5" == "625";
      OnePeriodDeleted("62", "5");
    }
    DigitsValueSnoc("", '6');
    DigitsValueSnoc("6", '2');
    DigitsValueSnoc("62", '5');
    assert "" + ['6'] == "6" && "6" + ['2'] == "62" && "62" + ['5'] == "625";
  }

  /** A decimal comma splits the area: "62,5 m2" is read as 62. */
  lemma AreaDecimalCommaExample()
    ensures ExtractSqm(Some("62,5 m2")) == Some(62.0)
  {
    ValueOf62();
    assert IsAsciiDigit("62"[0]);
    assert Split("", IsAreaSeparator) == [[]];
    assert "" + "62" + ",5 m2" == "62,5 m2";
    AreaFromFirstNumber("", "62", ",5 m2");
  }

  lemma ValueOf62()
    ensures GroupedDigits("62") && GroupedValue("62") == 62
  {
    assert '.' !in "62";
    DeletePeriodsWithoutPeriods("62");
    DigitsValueSnoc("", '6');
    DigitsValueSnoc("6", '2');
    assert "" + ['6'] == "6" && "6" + ['2'] == "62";
  }
}
