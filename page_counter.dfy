/** `count_pages`: the page number in the first match of the regular expression
    `index(\d+?).html` in a URL, plus one. The quantifier is lazy and the '.' is not
    escaped, so it stands for any one character except a newline. */
module PageCounter {
  import opened Outcomes
  import opened PyText
  import UrlJoin

  /** The pattern matches at `p` with exactly `k` digits in its group:
      "index", `k` digits, one character other than '\n', then "html". */
  predicate MatchesAt(s: string, p: nat, k: nat) {
    1 <= k && p + 10 + k <= |s| &&
    s[p..p + 5] == "index" &&
    (forall j :: p + 5 <= j < p + 5 + k ==> IsDigit(s[j])) &&
    s[p + 5 + k] != '\n' &&
    s[p + 6 + k..p + 10 + k] == "html"
  }

  /** The lazy `\d+?`: having matched `k - 1` digits, try to finish with `k`, then `k + 1`, ... */
  function LazyDigits(s: string, p: nat, k: nat): (r: Option<nat>)
    requires 1 <= k && p + 4 + k <= |s| && s[p..p + 5] == "index"
    requires forall j :: p + 5 <= j < p + 4 + k ==> IsDigit(s[j])
    ensures r.Some? ==> k <= r.value && MatchesAt(s, p, r.value)
    ensures r.Some? ==> forall j :: k <= j < r.value ==> !MatchesAt(s, p, j)
    ensures r.None? ==> forall j :: k <= j ==> !MatchesAt(s, p, j)
    decreases |s| - k
  {
    if p + 5 + k > |s| || !IsDigit(s[p + 4 + k]) then None
    else if p + 10 + k <= |s| && s[p + 5 + k] != '\n' && s[p + 6 + k..p + 10 + k] == "html" then Some(k)
    else LazyDigits(s, p, k + 1)
  }

  /** The number of digits the pattern's group takes when matching at `p`, if it matches there. */
  function MatchAt(s: string, p: nat): (r: Option<nat>)
    ensures r.Some? ==> MatchesAt(s, p, r.value)
    ensures r.Some? ==> forall j :: 1 <= j < r.value ==> !MatchesAt(s, p, j)
    ensures r.None? ==> forall k :: !MatchesAt(s, p, k)
  {
    if p + 5 <= |s| && s[p..p + 5] == "index" then LazyDigits(s, p, 1) else None
  }

  /** A match: where it starts and how many digits its group holds. */
  datatype Match = Match(start: nat, digits: nat)

  /** The leftmost match starting at or after `p`. */
  function FindFrom(s: string, p: nat): (r: Option<Match>)
    ensures r.Some? ==> p <= r.value.start && MatchesAt(s, r.value.start, r.value.digits)
    ensures r.Some? ==> forall j :: 1 <= j < r.value.digits ==> !MatchesAt(s, r.value.start, j)
    ensures r.Some? ==> forall q, k :: p <= q < r.value.start ==> !MatchesAt(s, q, k)
    ensures r.None? ==> forall q, k :: p <= q ==> !MatchesAt(s, q, k)
    decreases |s| - p
  {
    if p > |s| then None
    else match MatchAt(s, p)
      case Some(k) => Some(Match(p, k))
      case None => FindFrom(s, p + 1)
  }

  /** `re.findall('index(\d+?).html', url)[0]`, or None where the list is empty. */
  function FirstToken(url: string): (r: Option<string>)
    ensures r.Some? ==> |r.value| >= 1 && AllDigits(r.value)
  {
    match FindFrom(url, 0)
    case None => None
    case Some(m) => Some(url[m.start + 5..m.start + 5 + m.digits])
  }

  /** The value `count_pages` stores in `total_pages` for `url`, or the IndexError it raises. */
  function PageCount(url: string): (r: Result<nat>)
    ensures r.Ok? <==> FirstToken(url).Some?
    ensures r.Ok? ==> r.value == DecimalValue(FirstToken(url).value) + 1
    ensures r.Err? ==> r.error == NoPageNumber
  {
    match FirstToken(url)
    case None => Err(NoPageNumber)
    case Some(token) => Ok(DecimalValue(token) + 1)
  }

  /** `count_pages` read against the pattern itself: it raises only when the pattern
      matches nowhere in `url`, and otherwise stores one more than the value of the digits of
      the leftmost match, taken lazily (the shortest digit group that completes there). */
  lemma PageCountSpec(url: string)
    ensures PageCount(url).Err? ==> forall p: nat, k: nat :: !MatchesAt(url, p, k)
    ensures PageCount(url).Ok? ==> exists p: nat, k: nat ::
      && MatchesAt(url, p, k)
      && (forall q: nat, j: nat :: q < p ==> !MatchesAt(url, q, j))
      && (forall j: nat :: 1 <= j < k ==> !MatchesAt(url, p, j))
      && PageCount(url).value == DecimalValue(url[p + 5..p + 5 + k]) + 1
  {
    match FindFrom(url, 0)
    case None =>
      assert PageCount(url) == Err(NoPageNumber);
    case Some(m) =>
      var p, k := m.start, m.digits;
      assert FirstToken(url) == Some(url[p + 5..p + 5 + k]);
      assert PageCount(url).value == DecimalValue(url[p + 5..p + 5 + k]) + 1;
      assert MatchesAt(url, p, k);
  }

  /** The index page URL of a board page: "https://www.ptt.cc/bbs/movie/index" + digits + ".html". */
  function IndexUrl(digits: string): string {
    UrlJoin.Origin + UrlJoin.BoardDir + "index" + digits + ".html"
  }

  /** The site-absolute link "/bbs/movie/index" + d + ".html" joins to the index URL of d. */
  lemma IndexLinkResolves(d: string)
    ensures UrlJoin.Resolve(UrlJoin.BoardDir + "index" + d + ".html") == IndexUrl(d)
  {
    var href := UrlJoin.BoardDir + "index" + d + ".html";
    assert href[0] == '/' && href[1] == 'b';
    UrlJoin.ResolveSpec(href);
  }

  /** Nothing before the board directory can begin a match. */
  lemma NoMatchInPrefix(s: string, q: nat, k: nat)
    requires |s| >= 29 && s[..29] == UrlJoin.Origin + UrlJoin.BoardDir
    requires q < 29
    ensures !MatchesAt(s, q, k)
  {
    var prefix := UrlJoin.Origin + UrlJoin.BoardDir;
    assert forall j :: 0 <= j < 29 && prefix[j] == 'i' ==> j == 26;
    assert prefix[27] == 'e';
    assert s[q] == prefix[q];
  }

  /** The page number written in a board index URL is the one `count_pages` reads:
      for "…/index" + d + ".html" the group is exactly d, so the count is int(d) + 1. */
  lemma {:induction false} IndexUrlPageCount(d: string)
    requires |d| >= 1 && AllDigits(d)
    ensures FirstToken(IndexUrl(d)) == Some(d)
    ensures PageCount(IndexUrl(d)) == Ok(DecimalValue(d) + 1)
  {
    var s := IndexUrl(d);
    var n := |d|;
    assert |s| == 39 + n;
    assert s[..29] == UrlJoin.Origin + UrlJoin.BoardDir;
    assert s[29..34] == "index";
    assert s[34..34 + n] == d;
    assert s[34 + n..39 + n] == ".html";
    assert MatchesAt(s, 29, n);
    forall j | 1 <= j < n
      ensures !MatchesAt(s, 29, j)
    {
      if j < n - 1 {
        assert s[35 + j] == d[j + 1];
      } else {
        assert s[35 + j] == '.';
      }
    }
    forall q, k | 0 <= q < 29
      ensures !MatchesAt(s, q, k)
    {
      NoMatchInPrefix(s, q, k);
    }
    var m := FindFrom(s, 0);
    assert m == Some(Match(29, n));
  }

  lemma DecimalValue123()
    ensures DecimalValue("123") == 123
  {
    assert "123"[..2] == "12" && "12"[..1] == "1" && "1"[..0] == "";
  }

  /** `total_pages` for the URL of page 123 is 124. */
  lemma PageCountExample()
    ensures PageCount("https://www.ptt.cc/bbs/movie/index123.html") == Ok(124)
  {
    var url := "https://www.ptt.cc/bbs/movie/index123.html";
    assert url == IndexUrl("123");
    IndexUrlPageCount("123");
    DecimalValue123();
  }

  /** The board's first index URL, "…/index.html", has no page number: counting pages
      while it is still `next_url` raises. */
  lemma BoardUrlHasNoPageCount()
    ensures PageCount(UrlJoin.BoardUrl) == Err(NoPageNumber)
  {
    var s := UrlJoin.BoardUrl;
    UrlJoin.BoardUrlShape();
    forall q, k ensures !MatchesAt(s, q, k) {
      if q < 29 {
        NoMatchInPrefix(s, q, k);
      }
    }
  }
}
