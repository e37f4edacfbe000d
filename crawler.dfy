/** `PTTCrawler`: the board index walker. It keeps the posts gathered so far, the paging
    buttons of the last page read, the URL of the next (older) page and a page-count
    estimate, and `get_recent_page` drives fetch + extract + follow-the-older-link. */
module Crawler {
  import opened Outcomes
  import opened IndexPage
  import UrlJoin
  import PageCounter
  import PyText

  /** `requests.get` followed by BeautifulSoup parsing: URL to parsed page, or None when
      the request raises. */
  type Fetcher = string -> Option<Page>

  /** `get_next_url` for the paging buttons `ctrl`: the second button's href, joined to
      the board URL. */
  function NextUrl(ctrl: Option<seq<Anchor>>): (r: Result<string>)
    ensures r.Ok? <==> ctrl.Some? && |ctrl.value| >= 2 && ctrl.value[1].href.Some?
  {
    if ctrl.None? then Err(NoPagingButtons)
    else if |ctrl.value| < 2 then Err(TooFewButtons)
    else if ctrl.value[1].href.None? then Err(NoHref)
    else Ok(UrlJoin.Resolve(ctrl.value[1].href.value))
  }

  /** The next URL always carries a scheme, an absolute-path href is put on the PTT
      origin, and fewer than two buttons is an IndexError. */
  lemma NextUrlSpec(ctrl: Option<seq<Anchor>>)
    ensures var r := NextUrl(ctrl);
      && (r.Ok? ==> UrlJoin.HasScheme(r.value))
      && (r.Ok? && UrlJoin.IsAbsolutePath(ctrl.value[1].href.value) ==>
            r.value == UrlJoin.Origin + ctrl.value[1].href.value)
      && (ctrl.Some? && |ctrl.value| < 2 ==> r == Err(TooFewButtons))
  {
    if NextUrl(ctrl).Ok? {
      UrlJoin.ResolveSpec(ctrl.value[1].href.value);
    }
  }

  /** A PTT "older page" button, whose href is "/bbs/movie/index" + d + ".html", leads to
      the index URL of page d, on which `count_pages` reads int(d) and stores int(d) + 1. */
  lemma OlderLinkPageCount(ctrl: Option<seq<Anchor>>, d: string)
    requires |d| >= 1 && PyText.AllDigits(d)
    requires ctrl.Some? && |ctrl.value| >= 2
    requires ctrl.value[1].href == Some(UrlJoin.BoardDir + "index" + d + ".html")
    ensures NextUrl(ctrl) == Ok(PageCounter.IndexUrl(d))
    ensures PageCounter.PageCount(NextUrl(ctrl).value) == Ok(PyText.DecimalValue(d) + 1)
  {
    PageCounter.IndexLinkResolves(d);
    PageCounter.IndexUrlPageCount(d);
  }

  /** The fields of a `PTTCrawler` object. */
  datatype CrawlerState = CrawlerState(posts: seq<Post>, ctrl: Option<seq<Anchor>>, nextUrl: string, totalPages: int)

  /** The state `__init__` sets up. */
  const Initial: CrawlerState := CrawlerState([], None, UrlJoin.BoardUrl, 0)

  /** The state a call leaves behind, and the exception it raised, if any. A raising call
      keeps whatever it changed before the exception. */
  datatype Run = Run(state: CrawlerState, failure: Option<Error>)

  /** `count_pages`. */
  function CountPagesStep(st: CrawlerState): Run {
    match PageCounter.PageCount(st.nextUrl)
    case Ok(n) => Run(st.(totalPages := n), None)
    case Err(e) => Run(st, Some(e))
  }

  /** `get_posts_list(url)`: `ctrl` is replaced before the entries are read, and the posts
      of the entries before a failing one stay appended. */
  function PostsListStep(st: CrawlerState, url: string, fetch: Fetcher): Run {
    match fetch(url)
    case None => Run(st, Some(FetchFailed))
    case Some(page) =>
      if page.paging.None? then Run(st, Some(NoPagingGroup))
      else
        var scan := ScanEntries(page.entries);
        Run(st.(posts := st.posts + scan.posts, ctrl := page.paging), scan.failure)
  }

  /** `self.next_url = self.get_next_url()`. */
  function NextUrlStep(st: CrawlerState): Run {
    match NextUrl(st.ctrl)
    case Ok(u) => Run(st.(nextUrl := u), None)
    case Err(e) => Run(st, Some(e))
  }

  /** Iteration `i` of the loop in `get_recent_page`. */
  function Iteration(st: CrawlerState, i: int, fetch: Fetcher): Run {
    var counted := if i == 1 then CountPagesStep(st) else Run(st, None);
    if counted.failure.Some? then counted
    else
      var listed := PostsListStep(counted.state, counted.state.nextUrl, fetch);
      if listed.failure.Some? then listed
      else NextUrlStep(listed.state)
  }

  /** Iterations `i`, `i + 1`, ..., `pages - 1` of that loop, stopping at the first exception. */
  function WalkFrom(st: CrawlerState, i: int, pages: int, fetch: Fetcher): Run
    decreases pages - i
  {
    if i >= pages then Run(st, None)
    else
      var r := Iteration(st, i, fetch);
      if r.failure.Some? then r else WalkFrom(r.state, i + 1, pages, fetch)
  }

  /** The index pages met by following the older-page link `n` times from `url`: the URLs
      fetched (and the one after them) and the pages they gave. */
  datatype Trail = Trail(urls: seq<string>, pages: seq<Page>)

  /** Reference definition of a successful walk over `n` pages from `url`, independent of
      the crawler's fields: every page is fetched, all its entries yield posts, and its
      second paging button gives the next URL. None when any of that fails. */
  function Follow(url: string, n: nat, fetch: Fetcher): (t: Option<Trail>)
    ensures t.Some? ==> |t.value.pages| == n && |t.value.urls| == n + 1 && t.value.urls[0] == url
    ensures t.Some? && n > 0 ==> fetch(url) == Some(t.value.pages[0])
    decreases n
  {
    if n == 0 then Some(Trail([url], []))
    else match fetch(url)
      case None => None
      case Some(page) =>
        if ScanEntries(page.entries).failure.Some? then None
        else match NextUrl(page.paging)
          case Err(_) => None
          case Ok(next) =>
            match Follow(next, n - 1, fetch)
            case None => None
            case Some(t) => Some(Trail([url] + t.urls, [page] + t.pages))
  }

  /** The posts of one page. */
  function PagePosts(page: Page): seq<Post> {
    ScanEntries(page.entries).posts
  }

  /** The posts of several pages, in page order. */
  function Flatten(pages: seq<Page>): seq<Post> {
    if pages == [] then [] else PagePosts(pages[0]) + Flatten(pages[1..])
  }

  /** The number of entry blocks on several pages. */
  function EntryCount(pages: seq<Page>): nat {
    if pages == [] then 0 else |pages[0].entries| + EntryCount(pages[1..])
  }

  /** `ctrl` after reading `pages`: the last page's buttons, or `ctrl` itself if none was read. */
  function LastCtrl(ctrl: Option<seq<Anchor>>, pages: seq<Page>): Option<seq<Anchor>> {
    if pages == [] then ctrl else pages[|pages| - 1].paging
  }

  /** The number of iterations left when the loop is at iteration `i`. */
  function Remaining(i: int, pages: int): nat {
    if pages > i then pages - i else 0
  }

  /** Whether `count_pages` is still to run, at iteration 1, position `1 - i` of the trail
      followed from iteration `i`. */
  predicate CountAhead(i: int, pages: int) {
    0 <= 1 - i < Remaining(i, pages)
  }

  /** The trail from iteration `i` can be followed and the count on it succeeds. */
  predicate TrailSucceeds(st: CrawlerState, i: int, pages: int, fetch: Fetcher) {
    var t := Follow(st.nextUrl, Remaining(i, pages), fetch);
    t.Some? && (CountAhead(i, pages) ==> PageCounter.PageCount(t.value.urls[1 - i]).Ok?)
  }

  /** The state after a successful walk from iteration `i`, read off the trail. */
  function TrailState(st: CrawlerState, i: int, pages: int, fetch: Fetcher): CrawlerState
    requires TrailSucceeds(st, i, pages, fetch)
  {
    var n := Remaining(i, pages);
    var t := Follow(st.nextUrl, n, fetch).value;
    CrawlerState(
      st.posts + Flatten(t.pages),
      LastCtrl(st.ctrl, t.pages),
      t.urls[n],
      if CountAhead(i, pages) then PageCounter.PageCount(t.urls[1 - i]).value else st.totalPages)
  }

  /** What running iterations `i .. pages - 1` does, stated against `Follow`. */
  predicate WalkMatchesTrail(st: CrawlerState, i: int, pages: int, fetch: Fetcher, run: Run) {
    && (run.failure.None? <==> TrailSucceeds(st, i, pages, fetch))
    && (run.failure.None? ==> run.state == TrailState(st, i, pages, fetch))
  }

  lemma AppendAssoc<T>(a: seq<T>, b: seq<T>, c: seq<T>)
    ensures a + (b + c) == (a + b) + c
  {
  }

  /** `Flatten` over a page followed by more pages. */
  lemma FlattenCons(page: Page, rest: seq<Page>)
    ensures Flatten([page] + rest) == PagePosts(page) + Flatten(rest)
    ensures EntryCount([page] + rest) == |page.entries| + EntryCount(rest)
  {
    assert ([page] + rest)[1..] == rest;
  }

  /** `LastCtrl` over a page followed by more pages. */
  lemma LastCtrlCons(ctrl: Option<seq<Anchor>>, page: Page, rest: seq<Page>)
    ensures LastCtrl(ctrl, [page] + rest) == LastCtrl(page.paging, rest)
  {
    if rest != [] {
      assert ([page] + rest)[|rest|] == rest[|rest| - 1];
    }
  }

  /** The state a successful iteration leaves when it read `page` from `next_url`. */
  predicate IteratedOnto(st: CrawlerState, i: int, page: Page, st1: CrawlerState) {
    && NextUrl(page.paging).Ok?
    && (i == 1 ==> PageCounter.PageCount(st.nextUrl).Ok?)
    && st1 == CrawlerState(
         st.posts + PagePosts(page),
         page.paging,
         NextUrl(page.paging).value,
         if i == 1 then PageCounter.PageCount(st.nextUrl).value else st.totalPages)
  }

  /** One iteration succeeds exactly when its count (on iteration 1), its fetch, all its
      entries and its older link succeed; it then appends the page's posts, takes its
      buttons and moves `next_url` to the older page. */
  lemma IterationSpec(st: CrawlerState, i: int, fetch: Fetcher)
    ensures var r := Iteration(st, i, fetch);
      && (r.failure.None? <==>
            && (i == 1 ==> PageCounter.PageCount(st.nextUrl).Ok?)
            && fetch(st.nextUrl).Some?
            && ScanEntries(fetch(st.nextUrl).value.entries).failure.None?
            && NextUrl(fetch(st.nextUrl).value.paging).Ok?)
      && (r.failure.None? ==> IteratedOnto(st, i, fetch(st.nextUrl).value, r.state))
  {
  }

  /** An iteration that raises ends the walk, and the trail from it cannot be followed
      (or its count is the step that raised). */
  lemma WalkStopsWithIteration(st: CrawlerState, i: int, pages: int, fetch: Fetcher)
    requires 0 <= i < pages && Iteration(st, i, fetch).failure.Some?
    ensures WalkMatchesTrail(st, i, pages, fetch, WalkFrom(st, i, pages, fetch))
  {
    IterationSpec(st, i, fetch);
    var n := Remaining(i, pages);
    var t := Follow(st.nextUrl, n, fetch);
    if i == 1 && PageCounter.PageCount(st.nextUrl).Err? {
      assert t.Some? ==> t.value.urls[0] == st.nextUrl;
    } else {
      assert t.None?;
    }
  }

  /** The trail from a page is that page followed by the trail from its older page. */
  lemma FollowStep(url: string, n: nat, fetch: Fetcher)
    requires n > 0 && fetch(url).Some?
    requires ScanEntries(fetch(url).value.entries).failure.None?
    requires NextUrl(fetch(url).value.paging).Ok?
    ensures var page := fetch(url).value;
      var t1 := Follow(NextUrl(page.paging).value, n - 1, fetch);
      && (t1.None? ==> Follow(url, n, fetch).None?)
      && (t1.Some? ==> Follow(url, n, fetch) == Some(Trail([url] + t1.value.urls, [page] + t1.value.pages)))
  {
  }

  /** The trail from a page that was read is that page and the trail from the new state's
      next URL, one iteration further on. */
  lemma TrailAfterIteration(st: CrawlerState, i: int, pages: int, fetch: Fetcher, page: Page, st1: CrawlerState)
    requires 0 <= i < pages && fetch(st.nextUrl) == Some(page)
    requires ScanEntries(page.entries).failure.None? && IteratedOnto(st, i, page, st1)
    ensures var t1 := Follow(st1.nextUrl, Remaining(i + 1, pages), fetch);
      && (t1.None? ==> Follow(st.nextUrl, Remaining(i, pages), fetch).None?)
      && (t1.Some? ==> Follow(st.nextUrl, Remaining(i, pages), fetch) ==
                         Some(Trail([st.nextUrl] + t1.value.urls, [page] + t1.value.pages)))
  {
    assert Remaining(i + 1, pages) == Remaining(i, pages) - 1;
    FollowStep(st.nextUrl, Remaining(i, pages), fetch);
  }

  /** After a successful iteration, the trail from here succeeds exactly when the trail
      from the older page does. */
  lemma TrailStepSucceeds(st: CrawlerState, i: int, pages: int, fetch: Fetcher, page: Page, st1: CrawlerState)
    requires 0 <= i < pages && fetch(st.nextUrl) == Some(page)
    requires ScanEntries(page.entries).failure.None? && IteratedOnto(st, i, page, st1)
    ensures TrailSucceeds(st, i, pages, fetch) <==> TrailSucceeds(st1, i + 1, pages, fetch)
  {
    TrailAfterIteration(st, i, pages, fetch, page, st1);
    var t1 := Follow(st1.nextUrl, Remaining(i + 1, pages), fetch);
    if t1.Some? && CountAhead(i, pages) {
      var t := Follow(st.nextUrl, Remaining(i, pages), fetch);
      if i == 1 {
        assert t.value.urls[0] == st.nextUrl;
      } else {
        assert t.value.urls[1 - i] == t1.value.urls[1 - (i + 1)];
      }
    }
  }

  /** After a successful iteration, a trail that succeeds from here ends in the same state
      as the trail from the older page. */
  lemma TrailStepState(st: CrawlerState, i: int, pages: int, fetch: Fetcher, page: Page, st1: CrawlerState)
    requires 0 <= i < pages && fetch(st.nextUrl) == Some(page)
    requires ScanEntries(page.entries).failure.None? && IteratedOnto(st, i, page, st1)
    requires TrailSucceeds(st, i, pages, fetch) && TrailSucceeds(st1, i + 1, pages, fetch)
    ensures TrailState(st, i, pages, fetch) == TrailState(st1, i + 1, pages, fetch)
  {
    TrailStepPosts(st, i, pages, fetch, page, st1);
    TrailStepCtrl(st, i, pages, fetch, page, st1);
    TrailStepNextUrl(st, i, pages, fetch, page, st1);
    TrailStepCount(st, i, pages, fetch, page, st1);
  }

  /** The posts part of `TrailStepState`. */
  lemma TrailStepPosts(st: CrawlerState, i: int, pages: int, fetch: Fetcher, page: Page, st1: CrawlerState)
    requires 0 <= i < pages && fetch(st.nextUrl) == Some(page)
    requires ScanEntries(page.entries).failure.None? && IteratedOnto(st, i, page, st1)
    requires TrailSucceeds(st, i, pages, fetch) && TrailSucceeds(st1, i + 1, pages, fetch)
    ensures TrailState(st, i, pages, fetch).posts == TrailState(st1, i + 1, pages, fetch).posts
  {
    TrailAfterIteration(st, i, pages, fetch, page, st1);
    var t1 := Follow(st1.nextUrl, Remaining(i + 1, pages), fetch).value;
    FlattenCons(page, t1.pages);
    AppendAssoc(st.posts, PagePosts(page), Flatten(t1.pages));
  }

  /** The buttons part of `TrailStepState`. */
  lemma TrailStepCtrl(st: CrawlerState, i: int, pages: int, fetch: Fetcher, page: Page, st1: CrawlerState)
    requires 0 <= i < pages && fetch(st.nextUrl) == Some(page)
    requires ScanEntries(page.entries).failure.None? && IteratedOnto(st, i, page, st1)
    requires TrailSucceeds(st, i, pages, fetch) && TrailSucceeds(st1, i + 1, pages, fetch)
    ensures TrailState(st, i, pages, fetch).ctrl == TrailState(st1, i + 1, pages, fetch).ctrl
  {
    TrailAfterIteration(st, i, pages, fetch, page, st1);
    var t1 := Follow(st1.nextUrl, Remaining(i + 1, pages), fetch).value;
    LastCtrlCons(st.ctrl, page, t1.pages);
  }

  /** The next URL part of `TrailStepState`. */
  lemma TrailStepNextUrl(st: CrawlerState, i: int, pages: int, fetch: Fetcher, page: Page, st1: CrawlerState)
    requires 0 <= i < pages && fetch(st.nextUrl) == Some(page)
    requires ScanEntries(page.entries).failure.None? && IteratedOnto(st, i, page, st1)
    requires TrailSucceeds(st, i, pages, fetch) && TrailSucceeds(st1, i + 1, pages, fetch)
    ensures TrailState(st, i, pages, fetch).nextUrl == TrailState(st1, i + 1, pages, fetch).nextUrl
  {
    TrailAfterIteration(st, i, pages, fetch, page, st1);
    var t1 := Follow(st1.nextUrl, Remaining(i + 1, pages), fetch).value;
    ConsIndex(st.nextUrl, t1.urls, |t1.urls|);
  }

  /** Indexing past the element put in front of a sequence. */
  lemma ConsIndex<T>(x: T, s: seq<T>, k: nat)
    requires 0 < k <= |s|
    ensures ([x] + s)[k] == s[k - 1]
  {
  }

  /** The page count part of `TrailStepState`. */
  lemma TrailStepCount(st: CrawlerState, i: int, pages: int, fetch: Fetcher, page: Page, st1: CrawlerState)
    requires 0 <= i < pages && fetch(st.nextUrl) == Some(page)
    requires ScanEntries(page.entries).failure.None? && IteratedOnto(st, i, page, st1)
    requires TrailSucceeds(st, i, pages, fetch) && TrailSucceeds(st1, i + 1, pages, fetch)
    ensures TrailState(st, i, pages, fetch).totalPages == TrailState(st1, i + 1, pages, fetch).totalPages
  {
    TrailAfterIteration(st, i, pages, fetch, page, st1);
    if CountAhead(i, pages) && i == 0 {
      var t1 := Follow(st1.nextUrl, Remaining(i + 1, pages), fetch).value;
      ConsIndex(st.nextUrl, t1.urls, 1);
    }
  }

  /** An iteration that succeeds hands over to the walk from the older page. */
  lemma WalkStep(st: CrawlerState, i: int, pages: int, fetch: Fetcher)
    requires 0 <= i < pages && Iteration(st, i, fetch).failure.None?
    requires var st1 := Iteration(st, i, fetch).state;
      WalkMatchesTrail(st1, i + 1, pages, fetch, WalkFrom(st1, i + 1, pages, fetch))
    ensures WalkMatchesTrail(st, i, pages, fetch, WalkFrom(st, i, pages, fetch))
  {
    IterationSpec(st, i, fetch);
    var page := fetch(st.nextUrl).value;
    var st1 := Iteration(st, i, fetch).state;
    TrailStepSucceeds(st, i, pages, fetch, page, st1);
    if TrailSucceeds(st, i, pages, fetch) {
      TrailStepState(st, i, pages, fetch, page, st1);
    }
  }

  /** Running the loop from iteration `i` is following the trail of older-page links. */
  lemma {:induction false} WalkFollowsTrail(st: CrawlerState, i: int, pages: int, fetch: Fetcher)
    requires i >= 0
    ensures WalkMatchesTrail(st, i, pages, fetch, WalkFrom(st, i, pages, fetch))
    decreases pages - i
  {
    if i < pages {
      var r := Iteration(st, i, fetch);
      if r.failure.Some? {
        WalkStopsWithIteration(st, i, pages, fetch);
      } else {
        WalkFollowsTrail(r.state, i + 1, pages, fetch);
        WalkStep(st, i, pages, fetch);
      }
    }
  }

  /** The whole of `get_recent_page(pages)` against `Follow`: it succeeds exactly when
      `pages` older-link steps succeed from `next_url` and, for two pages or more, the
      second URL carries a page number; then `posts` gains the posts of those pages in
      order, `next_url` is the URL after the last of them, and `total_pages` is the second
      URL's page number plus one. */
  lemma WalkFromStart(st: CrawlerState, pages: int, fetch: Fetcher)
    ensures WalkMatchesTrail(st, 0, pages, fetch, WalkFrom(st, 0, pages, fetch))
  {
    WalkFollowsTrail(st, 0, pages, fetch);
  }

  /** `get_recent_page` never drops or reorders the posts already gathered, whether it
      returns or raises. */
  lemma {:induction false} WalkKeepsEarlierPosts(st: CrawlerState, i: int, pages: int, fetch: Fetcher)
    ensures st.posts <= WalkFrom(st, i, pages, fetch).state.posts
    decreases pages - i
  {
    if i < pages {
      var r := Iteration(st, i, fetch);
      assert st.posts <= r.state.posts;
      if r.failure.None? {
        WalkKeepsEarlierPosts(r.state, i + 1, pages, fetch);
      }
    }
  }

  /** With at most one page, `count_pages` never runs and `total_pages` keeps its value. */
  lemma OnePageLeavesTotalPages(st: CrawlerState, pages: int, fetch: Fetcher)
    requires pages <= 1
    ensures WalkFrom(st, 0, pages, fetch).state.totalPages == st.totalPages
  {
    if pages == 1 {
      var r := Iteration(st, 0, fetch);
      assert r.state.totalPages == st.totalPages;
    }
  }

  /** A successful walk returns one post per entry block of the pages it read. */
  lemma {:induction false} FlattenCountsEntries(pages: seq<Page>)
    requires forall k :: 0 <= k < |pages| ==> ScanEntries(pages[k].entries).failure.None?
    ensures |Flatten(pages)| == EntryCount(pages)
  {
    if pages != [] {
      ScanEntriesSpec(pages[0].entries);
      FlattenCountsEntries(pages[1..]);
    }
  }

  /** Every page on a trail yields all its posts. */
  lemma {:induction false} TrailPagesScan(url: string, n: nat, fetch: Fetcher)
    requires Follow(url, n, fetch).Some?
    ensures forall k :: 0 <= k < n ==>
      ScanEntries(Follow(url, n, fetch).value.pages[k].entries).failure.None?
    decreases n
  {
    if n > 0 {
      var page := fetch(url).value;
      var next := NextUrl(page.paging).value;
      TrailPagesScan(next, n - 1, fetch);
      var t1 := Follow(next, n - 1, fetch).value;
      assert Follow(url, n, fetch).value.pages == [page] + t1.pages;
    }
  }

  /** A walk that returns has gathered exactly one post per entry block of the pages it
      fetched, after the posts it started with. */
  lemma WalkCountsEntries(st: CrawlerState, pages: int, fetch: Fetcher)
    requires WalkFrom(st, 0, pages, fetch).failure.None?
    ensures Follow(st.nextUrl, Remaining(0, pages), fetch).Some?
    ensures |WalkFrom(st, 0, pages, fetch).state.posts| ==
            |st.posts| + EntryCount(Follow(st.nextUrl, Remaining(0, pages), fetch).value.pages)
  {
    WalkFromStart(st, pages, fetch);
    var n := Remaining(0, pages);
    TrailPagesScan(st.nextUrl, n, fetch);
    FlattenCountsEntries(Follow(st.nextUrl, n, fetch).value.pages);
  }

  /** A walk of two pages or more from a page whose older button links to
      "/bbs/movie/index" + d + ".html" sets `total_pages` to int(d) + 1 when it returns. */
  lemma CountFromOlderLink(st: CrawlerState, pages: int, fetch: Fetcher, d: string)
    requires pages >= 2 && |d| >= 1 && PyText.AllDigits(d)
    requires fetch(st.nextUrl).Some? && fetch(st.nextUrl).value.paging.Some?
    requires var ctrl := fetch(st.nextUrl).value.paging.value;
      |ctrl| >= 2 && ctrl[1].href == Some(UrlJoin.BoardDir + "index" + d + ".html")
    requires WalkFrom(st, 0, pages, fetch).failure.None?
    ensures WalkFrom(st, 0, pages, fetch).state.totalPages == PyText.DecimalValue(d) + 1
  {
    OlderLinkPageCount(fetch(st.nextUrl).value.paging, d);
    WalkFromStart(st, pages, fetch);
    TrailSecondUrl(st.nextUrl, pages, fetch);
  }

  /** The second URL of a trail is the first page's older link. */
  lemma TrailSecondUrl(url: string, n: nat, fetch: Fetcher)
    requires n >= 1 && Follow(url, n, fetch).Some?
    ensures fetch(url).Some? && NextUrl(fetch(url).value.paging).Ok?
    ensures Follow(url, n, fetch).value.urls[1] == NextUrl(fetch(url).value.paging).value
  {
    var next := NextUrl(fetch(url).value.paging).value;
    var t1 := Follow(next, n - 1, fetch).value;
    ConsIndex(url, t1.urls, 1);
  }

  class PTTCrawler {
    var posts: seq<Post>
    var ctrl: Option<seq<Anchor>>
    var nextUrl: string
    var totalPages: int

    function State(): CrawlerState
      reads this
    {
      CrawlerState(posts, ctrl, nextUrl, totalPages)
    }

    /** `__init__`: no posts, no buttons, the board URL next, no page count. */
    constructor ()
      ensures State() == Initial
    {
      posts := [];
      ctrl := None;
      nextUrl := UrlJoin.BoardUrl;
      totalPages := 0;
    }

    /** `count_pages`: `total_pages` becomes the page number in `next_url` plus one, or
        nothing changes and the IndexError is reported. */
    method CountPages() returns (failure: Option<Error>)
      modifies this
      ensures PageCounter.PageCount(old(nextUrl)).Ok? ==>
                failure.None? && totalPages == PageCounter.PageCount(old(nextUrl)).value
      ensures PageCounter.PageCount(old(nextUrl)).Err? ==>
                failure == Some(NoPageNumber) && totalPages == old(totalPages)
      ensures posts == old(posts) && ctrl == old(ctrl) && nextUrl == old(nextUrl)
      ensures Run(State(), failure) == CountPagesStep(old(State()))
    {
      var count := PageCounter.PageCount(nextUrl);
      if count.Err? {
        return Some(count.error);
      }
      totalPages := count.value;
      return None;
    }

    /** `get_posts_list(url)`: replaces `ctrl` with the page's paging buttons and appends one
        post per entry block, in document order, stopping at the first entry that raises.
        A failed fetch or a page without a paging group changes nothing. */
    method GetPostsList(url: string, fetch: Fetcher) returns (failure: Option<Error>)
      modifies this
      ensures fetch(url).None? ==> failure == Some(FetchFailed) && State() == old(State())
      ensures fetch(url).Some? && fetch(url).value.paging.None? ==>
                failure == Some(NoPagingGroup) && State() == old(State())
      ensures fetch(url).Some? && fetch(url).value.paging.Some? ==>
                var page := fetch(url).value;
                var scan := ScanEntries(page.entries);
                && failure == scan.failure
                && posts == old(posts) + scan.posts
                && ctrl == page.paging
                && nextUrl == old(nextUrl) && totalPages == old(totalPages)
      ensures Run(State(), failure) == PostsListStep(old(State()), url, fetch)
    {
      var response := fetch(url);
      if response.None? {
        return Some(FetchFailed);
      }
      var page := response.value;
      if page.paging.None? {
        return Some(NoPagingGroup);
      }
      ctrl := page.paging;
      ghost var es := page.entries;
      var k := 0;
      while k < |page.entries|
        invariant 0 <= k <= |es|
        invariant old(posts) + ScanEntries(es).posts == posts + ScanFrom(es, k).posts
        invariant ScanEntries(es).failure == ScanFrom(es, k).failure
        invariant ctrl == page.paging && nextUrl == old(nextUrl) && totalPages == old(totalPages)
      {
        var post := ExtractPost(page.entries[k]);
        if post.Err? {
          return Some(post.error);
        }
        assert ScanFrom(es, k).posts == [post.value] + ScanFrom(es, k + 1).posts;
        AppendAssoc(posts, [post.value], ScanFrom(es, k + 1).posts);
        posts := posts + [post.value];
        k := k + 1;
      }
      return None;
    }

    /** `get_recent_page(pages)`: `pages` iterations of count (on the second only), fetch
        and extract, follow the older link; the result is the value of `self.posts` at
        return. On an exception the object keeps what the iterations changed before it. */
    method GetRecentPage(pages: int, fetch: Fetcher) returns (r: Result<seq<Post>>)
      modifies this
      ensures var run := WalkFrom(old(State()), 0, pages, fetch);
        && State() == run.state
        && (run.failure.None? ==> r == Ok(posts))
        && (run.failure.Some? ==> r == Err(run.failure.value))
    {
      var i := 0;
      while i < pages
        invariant 0 <= i && (pages >= 0 ==> i <= pages)
        invariant WalkFrom(State(), i, pages, fetch) == WalkFrom(old(State()), 0, pages, fetch)
        decreases pages - i
      {
        ghost var st := State();
        if i == 1 {
          var failure := CountPages();
          if failure.Some? {
            return Err(failure.value);
          }
        }
        var failure := GetPostsList(nextUrl, fetch);
        if failure.Some? {
          return Err(failure.value);
        }
        var next := NextUrl(ctrl);
        if next.Err? {
          return Err(next.error);
        }
        nextUrl := next.value;
        assert Iteration(st, i, fetch) == Run(State(), None);
        i := i + 1;
      }
      return Ok(posts);
    }
  }
}
