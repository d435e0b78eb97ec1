/**
 * Character classes and string helpers that the scraper takes from Rust's
 * standard library: `char::is_ascii_digit`, `char::is_whitespace`,
 * `str::trim`, `str::split`, `str::split_whitespace`, `str::replace`,
 * `usize::to_string`, `usize::from_str` and `f64::from_str` (restricted to
 * the strings of digits and periods the scraper feeds it).
 */
module Text {
  import opened Wrappers

  /** Exclusive upper bound of a 64-bit `usize`. */
  const UsizeLimit: nat := 0x1_0000_0000_0000_0000

  predicate IsAsciiDigit(c: char) {
    '0' <= c <= '9'
  }

  /** `char::is_whitespace`: the Unicode White_Space property. */
  predicate IsWhitespace(c: char) {
    ('\t' <= c <= '\r') || c == ' ' || c == '\U{85}' || c == '\U{A0}' || c == '\U{1680}'
    || ('\U{2000}' <= c <= '\U{200A}') || c == '\U{2028}' || c == '\U{2029}'
    || c == '\U{202F}' || c == '\U{205F}' || c == '\U{3000}'
  }

  predicate AllDigits(s: string) {
    forall i :: 0 <= i < |s| ==> IsAsciiDigit(s[i])
  }

  predicate HasDigit(s: string) {
    exists i :: 0 <= i < |s| && IsAsciiDigit(s[i])
  }

  predicate AllWhitespace(s: string) {
    forall i :: 0 <= i < |s| ==> IsWhitespace(s[i])
  }

  // ---------------------------------------------------------------------
  // Trimming
  // ---------------------------------------------------------------------

  /** How many whitespace characters `str::trim_start` removes. */
  function LeadingSpace(s: string): (n: nat)
    ensures n <= |s|
    ensures forall k :: 0 <= k < n ==> IsWhitespace(s[k])
    ensures n < |s| ==> !IsWhitespace(s[n])
  {
    if s == [] || !IsWhitespace(s[0]) then 0 else 1 + LeadingSpace(s[1..])
  }

  /** How many whitespace characters `str::trim_end` removes. */
  function TrailingSpace(s: string): (n: nat)
    ensures n <= |s|
    ensures forall k :: |s| - n <= k < |s| ==> IsWhitespace(s[k])
    ensures n < |s| ==> !IsWhitespace(s[|s| - n - 1])
  {
    if s == [] || !IsWhitespace(s[|s| - 1]) then 0 else 1 + TrailingSpace(s[..|s| - 1])
  }

  /** `str::trim`: the text without its leading and trailing whitespace. */
  function Trim(s: string): (r: string)
    ensures LeadingSpace(s) + |r| <= |s| && r == s[LeadingSpace(s)..LeadingSpace(s) + |r|]
    ensures r == [] || (!IsWhitespace(r[0]) && !IsWhitespace(r[|r| - 1]))
    ensures forall k :: LeadingSpace(s) + |r| <= k < |s| ==> IsWhitespace(s[k])
    ensures r == [] <==> AllWhitespace(s)
  {
    var i := LeadingSpace(s);
    var n := TrailingSpace(s[i..]);
    TrimEnds(s, i, n);
    TrailingOfSuffix(s, i, n);
    s[i..|s| - n]
  }

  lemma TrimEnds(s: string, i: nat, n: nat)
    requires i == LeadingSpace(s) && n == TrailingSpace(s[i..])
    ensures i + n <= |s|
    ensures var r := s[i..|s| - n];
            (r == [] || (!IsWhitespace(r[0]) && !IsWhitespace(r[|r| - 1])))
            && (r == [] <==> AllWhitespace(s))
  {
    var t := s[i..];
    if i < |s| {
      assert t[0] == s[i];
      assert n < |t|;
      assert t[|t| - n - 1] == s[|s| - n - 1];
      assert !AllWhitespace(s) by { assert !IsWhitespace(s[i]); }
    } else {
      assert AllWhitespace(s);
    }
  }

  /** What `str::trim_end` removes from a suffix is whitespace of the whole text. */
  lemma TrailingOfSuffix(s: string, i: nat, n: nat)
    requires i <= |s| && n == TrailingSpace(s[i..])
    ensures forall k :: |s| - n <= k < |s| ==> IsWhitespace(s[k])
  {
    var t := s[i..];
    forall k | |s| - n <= k < |s| ensures IsWhitespace(s[k]) {
      assert s[k] == t[k - i];
    }
  }

  // ---------------------------------------------------------------------
  // Splitting and rewriting
  // ---------------------------------------------------------------------

  /**
   * `str::split` with a character predicate: the pieces between separators,
   * empty pieces included, so there is always one more piece than there are
   * separators.
   */
  function Split(s: string, isSep: char -> bool): (r: seq<string>)
    ensures |r| >= 1
    ensures forall k, i :: 0 <= k < |r| && 0 <= i < |r[k]| ==> !isSep(r[k][i])
  {
    if s == [] then [[]]
    else
      var rest := Split(s[1..], isSep);
      if isSep(s[0]) then [[]] + rest
      else [[s[0]] + rest[0]] + rest[1..]
  }

  /** A separator ends the first piece and the rest is split on its own. */
  lemma {:induction false} SplitAt(d: string, c: char, rest: string, isSep: char -> bool)
    requires forall i :: 0 <= i < |d| ==> !isSep(d[i])
    requires isSep(c)
    ensures Split(d + [c] + rest, isSep) == [d] + Split(rest, isSep)
  {
    var s := d + [c] + rest;
    if d == [] {
      assert s[1..] == rest;
    } else {
      assert s[1..] == d[1..] + [c] + rest;
      SplitAt(d[1..], c, rest, isSep);
      assert [s[0]] + d[1..] == d;
    }
  }

  /** A string without separators is a single piece. */
  lemma {:induction false} SplitWithoutSeparator(s: string, isSep: char -> bool)
    requires forall i :: 0 <= i < |s| ==> !isSep(s[i])
    ensures Split(s, isSep) == [s]
  {
    if s != [] {
      SplitWithoutSeparator(s[1..], isSep);
      assert [s[0]] + s[1..] == s;
    }
  }

  /** The non-empty pieces, in order. */
  function NonEmpty(pieces: seq<string>): (r: seq<string>)
    ensures forall k :: 0 <= k < |r| ==> r[k] != []
  {
    if pieces == [] then []
    else if pieces[0] == [] then NonEmpty(pieces[1..])
    else [pieces[0]] + NonEmpty(pieces[1..])
  }

  /**
   * Dropping empty pieces distributes over concatenation: every non-empty
   * piece is kept, in order, and an empty one is dropped.
   */
  lemma {:induction false} NonEmptyConcat(a: seq<string>, b: seq<string>)
    ensures NonEmpty(a + b) == NonEmpty(a) + NonEmpty(b)
    ensures forall p :: NonEmpty([p]) == if p == [] then [] else [p]
  {
    if a == [] {
      assert a + b == b;
    } else {
      assert (a + b)[0] == a[0] && (a + b)[1..] == a[1..] + b;
      NonEmptyConcat(a[1..], b);
    }
    forall p ensures NonEmpty([p]) == if p == [] then [] else [p] {
      assert [p][1..] == [];
    }
  }

  /** `str::split_whitespace`. */
  function SplitWhitespace(s: string): seq<string> {
    NonEmpty(Split(s, IsWhitespace))
  }

  /** `s.replace('.', "")`. */
  function DeletePeriods(s: string): (r: string)
    ensures '.' !in r
    ensures |r| <= |s|
  {
    if s == [] then []
    else (if s[0] == '.' then [] else [s[0]]) + DeletePeriods(s[1..])
  }

  /** Deleting periods keeps every other character that occurs. */
  lemma {:induction false} DeletePeriodsKeeps(s: string, c: char)
    requires c != '.'
    ensures c in DeletePeriods(s) <==> c in s
  {
    if s != [] {
      DeletePeriodsKeeps(s[1..], c);
      assert s == [s[0]] + s[1..];
    }
  }

  lemma {:induction false} DeletePeriodsConcat(a: string, b: string)
    ensures DeletePeriods(a + b) == DeletePeriods(a) + DeletePeriods(b)
  {
    if a == [] {
      assert a + b == b;
    } else {
      var h := if a[0] == '.' then [] else [a[0]];
      assert (a + b)[0] == a[0];
      assert (a + b)[1..] == a[1..] + b;
      DeletePeriodsConcat(a[1..], b);
      calc {
        DeletePeriods(a + b);
        h + DeletePeriods(a[1..] + b);
        h + (DeletePeriods(a[1..]) + DeletePeriods(b));
        (h + DeletePeriods(a[1..])) + DeletePeriods(b);
      }
    }
  }

  /** `str::contains` with a string pattern, as a scan from the left. */
  predicate Contains(s: string, pat: string) {
    OccursAt(s, pat, 0) || (s != [] && Contains(s[1..], pat))
  }

  /** `pat` occurs in `s` starting at index `i`. */
  predicate OccursAt(s: string, pat: string, i: int) {
    0 <= i <= |s| - |pat| && s[i..i + |pat|] == pat
  }

  /** The scan finds the pattern exactly when it occurs somewhere. */
  lemma {:induction false} ContainsOccurs(s: string, pat: string)
    ensures Contains(s, pat) <==> exists i :: OccursAt(s, pat, i)
  {
    if s != [] {
      ContainsOccurs(s[1..], pat);
      if exists i :: OccursAt(s[1..], pat, i) {
        var i :| OccursAt(s[1..], pat, i);
        assert s[1..][i..i + |pat|] == s[i + 1..i + 1 + |pat|];
        assert OccursAt(s, pat, i + 1);
      }
      if exists i :: OccursAt(s, pat, i) {
        var i :| OccursAt(s, pat, i);
        if i > 0 {
          assert s[1..][i - 1..i - 1 + |pat|] == s[i..i + |pat|];
          assert OccursAt(s[1..], pat, i - 1);
        }
      }
    } else {
      if exists i :: OccursAt(s, pat, i) {
        var i :| OccursAt(s, pat, i);
        assert i == 0;
      }
    }
  }

  // ---------------------------------------------------------------------
  // Decimal numerals
  // ---------------------------------------------------------------------

  function DigitValue(c: char): nat
    requires IsAsciiDigit(c)
  {
    (c - '0') as nat
  }

  function DigitChar(d: nat): (c: char)
    requires d < 10
    ensures IsAsciiDigit(c) && DigitValue(c) == d
  {
    ('0' as int + d) as char
  }

  /** The number a string of ASCII digits denotes (0 for the empty string). */
  function DigitsValue(s: string): nat
    requires AllDigits(s)
  {
    if s == [] then 0 else 10 * DigitsValue(s[..|s| - 1]) + DigitValue(s[|s| - 1])
  }

  lemma DigitsValueSnoc(a: string, c: char)
    requires AllDigits(a) && IsAsciiDigit(c)
    ensures AllDigits(a + [c]) && DigitsValue(a + [c]) == 10 * DigitsValue(a) + DigitValue(c)
  {
    assert (a + [c])[..|a|] == a;
  }

  function Pow10(n: nat): (r: nat)
    ensures r >= 1
  {
    if n == 0 then 1 else 10 * Pow10(n - 1)
  }

  /** `usize::to_string`: decimal digits, no leading zero. */
  function NatToString(n: nat): string {
    if n < 10 then [DigitChar(n)] else NatToString(n / 10) + [DigitChar(n % 10)]
  }

  /** The decimal form of `n` is a non-empty digit string without a leading zero that denotes `n`. */
  lemma {:induction false} NatToStringSpec(n: nat)
    ensures var r := NatToString(n);
            r != [] && AllDigits(r) && DigitsValue(r) == n && (|r| > 1 ==> r[0] != '0')
  {
    if n >= 10 {
      NatToStringSpec(n / 10);
      var r := NatToString(n);
      assert r[..|r| - 1] == NatToString(n / 10);
    }
  }

  /**
   * `usize::from_str` on a 64-bit target: an optional `+`, then at least one
   * ASCII digit, and a value below 2^64; anything else is an error.
   */
  function ParseUsize(v: string): Option<nat> {
    var d := if |v| > 0 && v[0] == '+' then v[1..] else v;
    if d != [] && AllDigits(d) && DigitsValue(d) < UsizeLimit then Some(DigitsValue(d)) else None
  }

  /**
   * A parsed value is below 2^64 and is the value of the digits after an
   * optional `+`; a digit string whose value fits parses to that value.
   */
  lemma ParseUsizeSpec(v: string)
    ensures var r := ParseUsize(v);
            && (r.Some? ==> r.value < UsizeLimit)
            && (r.Some? ==> exists d :: AllDigits(d) && d != [] && (v == d || v == "+" + d) && r.value == DigitsValue(d))
            && (AllDigits(v) && v != [] && DigitsValue(v) < UsizeLimit ==> r == Some(DigitsValue(v)))
  {
    var d := if |v| > 0 && v[0] == '+' then v[1..] else v;
    if ParseUsize(v).Some? {
      assert v == d || v == "+" + d;
    }
  }


  function CountChar(s: string, c: char): nat {
    if s == [] then 0 else (if s[0] == c then 1 else 0) + CountChar(s[1..], c)
  }

  /**
   * The strings of digits and periods that `f64::from_str` accepts: at least
   * one digit and at most one period ("12", "12.", ".5", "1.25").
   */
  predicate IsDecimalNumeral(t: string) {
    (forall i :: 0 <= i < |t| ==> IsAsciiDigit(t[i]) || t[i] == '.')
    && CountChar(t, '.') <= 1 && HasDigit(t)
  }

  function IndexOf(s: string, c: char): (k: nat)
    requires c in s
    ensures k < |s| && s[k] == c && c !in s[..k]
  {
    if s[0] == c then 0 else 1 + IndexOf(s[1..], c)
  }

  /**
   * `f64::from_str`, taken exactly rather than rounded, on a string of digits
   * and periods: the integer part plus the fraction digits over a power of ten.
   */
  function ParseDecimal(t: string): (r: Option<real>)
    ensures r.Some? <==> IsDecimalNumeral(t)
    ensures r.Some? ==> r.value >= 0.0
  {
    if !IsDecimalNumeral(t) then None
    else if '.' in t then
      var k := IndexOf(t, '.');
      assert AllDigits(t[..k]) && AllDigits(t[k + 1..]) by {
        assert forall i :: 0 <= i < k ==> t[..k][i] == t[i];
        DotIsUnique(t, k);
      }
      Some(DecimalOf(t[..k], t[k + 1..]))
    else
      Some(DigitsValue(t) as real)
  }

  /** The value of integer digits, a point and fraction digits. */
  function DecimalOf(whole: string, fraction: string): (r: real)
    requires AllDigits(whole) && AllDigits(fraction)
    ensures r >= 0.0
  {
    DigitsValue(whole) as real + DigitsValue(fraction) as real / Pow10(|fraction|) as real
  }

  lemma DotIsUnique(t: string, k: nat)
    requires k < |t| && t[k] == '.' && CountChar(t, '.') <= 1
    ensures forall i :: k < i < |t| ==> t[i] != '.'
  {
    if k == 0 {
      assert CountChar(t[1..], '.') == 0;
      CountZero(t[1..], '.');
    } else {
      DotIsUnique(t[1..], k - 1);
    }
  }

  lemma CountZero(s: string, c: char)
    requires CountChar(s, c) == 0
    ensures c !in s
  {
    if s != [] { CountZero(s[1..], c); }
  }

  // ---------------------------------------------------------------------
  // UTF-8 length
  // ---------------------------------------------------------------------

  /** Number of bytes of a character in UTF-8. */
  function Utf8Width(c: char): nat {
    if c < '\U{80}' then 1 else if c < '\U{800}' then 2 else if c < '\U{10000}' then 3 else 4
  }

  /** `String::len`: the length of the text in UTF-8 bytes. */
  function Utf8Len(s: string): (n: nat)
    ensures |s| <= n <= 4 * |s|
  {
    if s == [] then 0 else Utf8Width(s[0]) + Utf8Len(s[1..])
  }
}
