/**
 * The page=N pagination scheme: reading the start page from a category URL,
 * stripping the page parameter, and appending it again for each page
 * (`normalize_pager`, `build_page_url`).
 *
 * A URL is kept as its parts; its query is the sequence of decoded
 * key/value pairs in their original order.
 */
module Pager {
  import opened Wrappers
  import opened Text

  type Query = seq<(string, string)>

  datatype Url = Url(scheme: string, host: Option<string>, path: string, query: Query)

  const PageKey: string := "page"

  function Max(a: nat, b: nat): nat {
    if a < b then b else a
  }

  /** The page number one query pair names: its value parsed as a `usize` when its key is `page`. */
  function PageValue(pair: (string, string)): Option<nat> {
    if pair.0 == PageKey then ParseUsize(pair.1) else None
  }

  /** Index of the last pair whose `page` value parses, if any. */
  function LastPagePair(q: Query): (r: Option<nat>)
    ensures r.Some? ==> r.value < |q| && PageValue(q[r.value]).Some?
  {
    if q == [] then None
    else if PageValue(q[|q| - 1]).Some? then Some(|q| - 1)
    else LastPagePair(q[..|q| - 1])
  }

  /** The pair found is the last one whose `page` value parses, and none is found only when no value parses. */
  lemma {:induction false} LastPagePairSpec(q: Query)
    ensures var r := LastPagePair(q);
            && (r.None? ==> forall i :: 0 <= i < |q| ==> PageValue(q[i]).None?)
            && (r.Some? ==> forall j :: r.value < j < |q| ==> PageValue(q[j]).None?)
  {
    if q != [] && PageValue(q[|q| - 1]).None? {
      var front := q[..|q| - 1];
      LastPagePairSpec(front);
      assert forall i :: 0 <= i < |front| ==> front[i] == q[i];
    }
  }

  /**
   * The start page the query names: the last `page` value that parses,
   * raised to at least 1, and 1 when there is none.
   */
  function StartPage(q: Query): nat {
    match LastPagePair(q)
    case None => 1
    case Some(i) => Max(PageValue(q[i]).value, 1)
  }

  /**
   * The start page is at least 1 and fits a `usize`; it is 1 when no `page`
   * value parses, and otherwise the value of a pair after which no `page`
   * value parses, raised to at least 1.
   */
  lemma StartPageSpec(q: Query)
    ensures var p := StartPage(q);
            && 1 <= p < UsizeLimit
            && ((forall i :: 0 <= i < |q| ==> PageValue(q[i]).None?) ==> p == 1)
            && ((exists i :: 0 <= i < |q| && PageValue(q[i]).Some?) ==>
                  exists i :: 0 <= i < |q| && PageValue(q[i]).Some? && p == Max(PageValue(q[i]).value, 1)
                              && forall j :: i < j < |q| ==> PageValue(q[j]).None?)
  {
    LastPagePairSpec(q);
    var r := LastPagePair(q);
    if r.Some? {
      ParseUsizeSpec(q[r.value].1);
    }
  }

  /** Reading one more pair: a `page` value that parses replaces the start page found so far. */
  lemma StartPageSnoc(q: Query, pair: (string, string))
    ensures StartPage(q + [pair]) == if PageValue(pair).Some? then Max(PageValue(pair).value, 1) else StartPage(q)
  {
    assert (q + [pair])[..|q|] == q;
  }

  /** The query without any `page` pair, the other pairs in their order. */
  function WithoutPage(q: Query): Query {
    if q == [] then []
    else if q[|q| - 1].0 == PageKey then WithoutPage(q[..|q| - 1])
    else WithoutPage(q[..|q| - 1]) + [q[|q| - 1]]
  }

  /**
   * Dropping the `page` pairs keeps every other pair and only those, and
   * changes nothing in a query without them.
   */
  lemma {:induction false} WithoutPageSpec(q: Query)
    ensures var r := WithoutPage(q);
            && |r| <= |q|
            && (forall i :: 0 <= i < |r| ==> r[i].0 != PageKey)
            && (forall pair :: pair in r <==> pair in q && pair.0 != PageKey)
            && ((forall i :: 0 <= i < |q| ==> q[i].0 != PageKey) ==> r == q)
  {
    if q != [] {
      var front := q[..|q| - 1];
      assert q == front + [q[|q| - 1]];
      WithoutPageSpec(front);
      assert forall i :: 0 <= i < |front| ==> front[i] == q[i];
    }
  }

  /**
   * Dropping `page` pairs distributes over concatenation, so the kept pairs
   * keep their order and their repetitions.
   */
  lemma {:induction false} WithoutPageConcat(a: Query, b: Query)
    ensures WithoutPage(a + b) == WithoutPage(a) + WithoutPage(b)
  {
    if b == [] {
      assert a + b == a;
    } else {
      var front := b[..|b| - 1];
      assert a + b == (a + front) + [b[|b| - 1]];
      assert (a + b)[..|a + b| - 1] == a + front;
      WithoutPageConcat(a, front);
    }
  }

  /** Reading one more pair: it is kept unless its key is `page`. */
  lemma WithoutPageSnoc(q: Query, pair: (string, string))
    ensures WithoutPage(q + [pair]) == if pair.0 == PageKey then WithoutPage(q) else WithoutPage(q) + [pair]
  {
    assert (q + [pair])[..|q|] == q;
  }

  /** The first pass of `normalize_pager`: the start page named by the query. */
  method ReadStartPage(q: Query) returns (startPage: nat)
    ensures startPage == StartPage(q)
  {
    startPage := 1;
    var i := 0;
    while i < |q|
      invariant 0 <= i <= |q|
      invariant startPage == StartPage(q[..i])
    {
      assert q[..i + 1] == q[..i] + [q[i]];
      StartPageSnoc(q[..i], q[i]);
      if q[i].0 == PageKey {
        var n := ParseUsize(q[i].1);
        if n.Some? {
          startPage := Max(n.value, 1);
        }
      }
      i := i + 1;
    }
    assert q[..i] == q;
  }

  /** The second pass of `normalize_pager`: the query pairs whose key is not `page`. */
  method DropPagePairs(q: Query) returns (qp: Query)
    ensures qp == WithoutPage(q)
  {
    qp := [];
    var i := 0;
    while i < |q|
      invariant 0 <= i <= |q|
      invariant qp == WithoutPage(q[..i])
    {
      assert q[..i + 1] == q[..i] + [q[i]];
      WithoutPageSnoc(q[..i], q[i]);
      if q[i].0 != PageKey {
        qp := qp + [q[i]];
      }
      i := i + 1;
    }
    assert q[..i] == q;
  }

  /**
   * `normalize_pager`: the URL without its page parameter and the page to
   * start from.
   */
  method NormalizePager(url: Url) returns (base: Url, startPage: nat)
    ensures base == url.(query := WithoutPage(url.query))
    ensures startPage == StartPage(url.query)
  {
    startPage := ReadStartPage(url.query);
    var qp := DropPagePairs(url.query);
    base := url.(query := qp);
  }

  /** `build_page_url`: the base URL with `page=<p>` appended after its own query pairs. */
  function BuildPageUrl(base: Url, p: nat): Url {
    base.(query := base.query + [(PageKey, NatToString(p))])
  }

  /**
   * Building a page URL cannot fail, changes nothing but the query, keeps
   * every other pair whatever `p` is, and reading the page back gives `p`
   * (at least 1).
   */
  lemma BuildPageUrlSpec(base: Url, p: nat)
    ensures var r := BuildPageUrl(base, p);
            r.(query := []) == base.(query := [])
            && |r.query| == |base.query| + 1 && r.query[..|base.query|] == base.query
            && WithoutPage(r.query) == WithoutPage(base.query)
            && (p < UsizeLimit ==> StartPage(r.query) == Max(p, 1))
  {
    var q := BuildPageUrl(base, p).query;
    assert q[..|q| - 1] == base.query;
    NatToStringSpec(p);
    ParseUsizeSpec(NatToString(p));
    StartPageSnoc(base.query, (PageKey, NatToString(p)));
    WithoutPageSnoc(base.query, (PageKey, NatToString(p)));
  }

  /**
   * Normalizing a URL that `BuildPageUrl` made from a page-free base gives
   * back that base and the page (at least 1).
   */
  lemma NormalizeBuiltUrl(base: Url, p: nat)
    requires forall i :: 0 <= i < |base.query| ==> base.query[i].0 != PageKey
    requires p < UsizeLimit
    ensures BuildPageUrl(base, p).(query := WithoutPage(BuildPageUrl(base, p).query)) == base
    ensures StartPage(BuildPageUrl(base, p).query) == Max(p, 1)
  {
    BuildPageUrlSpec(base, p);
    WithoutPageSpec(base.query);
  }

  /**
   * Rebuilding the page URL from a normalized URL names the same page as
   * the original, and normalizing twice changes nothing more.
   */
  lemma {:induction false} NormalizeIsStable(q: Query)
    ensures StartPage(WithoutPage(q)) == 1
    ensures WithoutPage(WithoutPage(q)) == WithoutPage(q)
    ensures var b := Url("", None, "", WithoutPage(q));
            StartPage(BuildPageUrl(b, StartPage(q)).query) == StartPage(q)
  {
    var w := WithoutPage(q);
    WithoutPageSpec(q);
    WithoutPageSpec(w);
    StartPageSpec(q);
    forall i | 0 <= i < |w| ensures PageValue(w[i]).None? {
    }
    StartPageSpec(w);
    BuildPageUrlSpec(Url("", None, "", w), StartPage(q));
  }
}
