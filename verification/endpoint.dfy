/**
 * The request URL the fetch effect builds from the search term and the page
 * with a template string, and a parser that recovers both from it.
 */
module Endpoint {
  import opened Options

  const PathBase: string := "https://hn.algolia.com/api/v1"
  const PathSearch: string := "/search"
  const ParamSearch: string := "query="
  const ParamPage: string := "page="

  /** Everything in front of the search term. */
  function SearchPrefix(): string {
    PathBase + PathSearch + "?" + ParamSearch
  }

  predicate IsDigit(c: char) {
    '0' <= c <= '9'
  }

  predicate AllDigits(s: string) {
    forall i :: 0 <= i < |s| ==> IsDigit(s[i])
  }

  function DigitChar(d: nat): (c: char)
    requires d < 10
    ensures IsDigit(c)
  {
    (48 + d) as char
  }

  function DigitValue(c: char): (d: nat)
    requires IsDigit(c)
    ensures d < 10
  {
    c as int - 48
  }

  /** How a template string renders a non-negative page number: decimal
      digits, no leading zero. */
  function Decimal(n: nat): (r: string)
    ensures |r| > 0 && AllDigits(r)
    ensures r[0] == '0' ==> n == 0 && r == "0"
    decreases n
  {
    if n < 10 then [DigitChar(n)] else Decimal(n / 10) + [DigitChar(n % 10)]
  }

  /** The value of a string of decimal digits. */
  function ParseDigits(s: string): nat
    requires AllDigits(s)
    decreases |s|
  {
    if s == [] then 0 else ParseDigits(s[..|s| - 1]) * 10 + DigitValue(s[|s| - 1])
  }

  lemma {:induction false} ParseDecimal(n: nat)
    ensures ParseDigits(Decimal(n)) == n
    decreases n
  {
    var d := Decimal(n);
    if n < 10 {
      assert d[..0] == [];
    } else {
      ParseDecimal(n / 10);
      assert d[..|d| - 1] == Decimal(n / 10);
    }
  }

  /** The request URL: base, path, `?query=`, the raw term, `&page=` and the
      page in decimal. The term is inserted as it is, without percent-encoding. */
  function SearchUrl(term: string, page: nat): (u: string)
    ensures |u| > |SearchPrefix()| + |term|
    ensures u[..|SearchPrefix()|] == SearchPrefix()
    ensures u[|SearchPrefix()|..|SearchPrefix()| + |term|] == term
  {
    SearchPrefix() + term + "&" + ParamPage + Decimal(page)
  }

  /** The last position of `c` in `s`, if any. */
  function LastIndexOf(s: string, c: char): (r: Option<nat>)
    ensures r.Some? ==> r.value < |s| && s[r.value] == c &&
                        forall i :: r.value < i < |s| ==> s[i] != c
    ensures r.None? ==> forall i :: 0 <= i < |s| ==> s[i] != c
    decreases |s|
  {
    if s == [] then None
    else if s[|s| - 1] == c then Some(|s| - 1)
    else LastIndexOf(s[..|s| - 1], c)
  }

  /** The page part after the last `&`: `page=` and the canonical digits of a
      page number. */
  function ParsePagePart(tail: string): (r: Option<nat>)
  {
    if |tail| <= |ParamPage| || tail[..|ParamPage|] != ParamPage then None
    else
      var digits := tail[|ParamPage|..];
      if !AllDigits(digits) then None
      else
        var n := ParseDigits(digits);
        if Decimal(n) != digits then None else Some(n)
  }

  /** Splits what follows the prefix: the term runs up to the last `&`, which
      `page=` and the digits after it cannot contain. */
  function SplitQuery(rest: string): (r: Option<(string, nat)>)
  {
    match LastIndexOf(rest, '&')
    case None => None
    case Some(k) =>
      match ParsePagePart(rest[k + 1..])
      case None => None
      case Some(n) => Some((rest[..k], n))
  }

  /** Splits a search URL back into its term and its page. Only the canonical
      rendering of a page number is accepted. */
  function ParseSearchUrl(u: string): (r: Option<(string, nat)>)
  {
    var p := SearchPrefix();
    if |u| < |p| || u[..|p|] != p then None else SplitQuery(u[|p|..])
  }

  lemma PagePartRoundTrip(page: nat)
    ensures ParsePagePart(ParamPage + Decimal(page)) == Some(page)
    ensures forall i :: 0 <= i < |ParamPage + Decimal(page)| ==> (ParamPage + Decimal(page))[i] != '&'
  {
    var tail := ParamPage + Decimal(page);
    assert tail[..|ParamPage|] == ParamPage;
    assert tail[|ParamPage|..] == Decimal(page);
    ParseDecimal(page);
  }

  lemma {:induction false} LastIndexOfSplit(a: string, c: char, b: string)
    requires forall i :: 0 <= i < |b| ==> b[i] != c
    ensures LastIndexOf(a + [c] + b, c) == Some(|a|)
    decreases |b|
  {
    var s := a + [c] + b;
    if b != [] {
      var b' := b[..|b| - 1];
      assert s[|s| - 1] == b[|b| - 1];
      assert s[..|s| - 1] == a + [c] + b';
      LastIndexOfSplit(a, c, b');
    } else {
      assert s[|s| - 1] == c;
    }
  }

  lemma SplitQueryRoundTrip(term: string, page: nat)
    ensures SplitQuery(term + "&" + ParamPage + Decimal(page)) == Some((term, page))
  {
    var tail := ParamPage + Decimal(page);
    var rest := term + "&" + ParamPage + Decimal(page);
    assert rest == term + ['&'] + tail;
    PagePartRoundTrip(page);
    LastIndexOfSplit(term, '&', tail);
    assert rest[|term| + 1..] == tail;
    assert rest[..|term|] == term;
  }

  /** The parser recovers exactly the term and page the URL was built from. */
  lemma ParseSearchUrlRoundTrip(term: string, page: nat)
    ensures ParseSearchUrl(SearchUrl(term, page)) == Some((term, page))
  {
    var p := SearchPrefix();
    var rest := term + "&" + ParamPage + Decimal(page);
    var u := SearchUrl(term, page);
    assert u == p + rest;
    assert u[..|p|] == p;
    assert u[|p|..] == rest;
    SplitQueryRoundTrip(term, page);
  }

  /** Whatever the parser accepts is the URL `SearchUrl` builds from the term
      and page it returns. */
  lemma ParseSearchUrlSound(u: string, term: string, page: nat)
    requires ParseSearchUrl(u) == Some((term, page))
    ensures u == SearchUrl(term, page)
  {
    var p := SearchPrefix();
    var rest := u[|p|..];
    var k := LastIndexOf(rest, '&').value;
    var tail := rest[k + 1..];
    var digits := tail[|ParamPage|..];
    assert tail == ParamPage + digits;
    assert rest == rest[..k] + "&" + tail;
    assert u == p + rest;
  }

  /** Distinct (term, page) pairs give distinct URL strings handed to `fetch`. */
  lemma SearchUrlInjective(t1: string, p1: nat, t2: string, p2: nat)
    requires SearchUrl(t1, p1) == SearchUrl(t2, p2)
    ensures t1 == t2 && p1 == p2
  {
    ParseSearchUrlRoundTrip(t1, p1);
    ParseSearchUrlRoundTrip(t2, p2);
  }
}
