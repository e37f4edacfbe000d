# PTT board crawler — a Dafny model

This project models the core of a crawler for the PTT `movie` board
(`src/_soup-based/crawler_8.py`).

The class `PTTCrawler` walks the board's index pages from the newest one,
`https://www.ptt.cc/bbs/movie/index.html`, to older ones. On every page it does three things:

- It appends one post record (link, title, date, author) per entry block.
- It remembers the page's paging buttons.
- It follows the second button, the "older page" link, joined to the board URL.

On the second iteration it also estimates the number of pages from the page number in the
URL it is about to fetch. Two free functions, `get_article` and `get_articles`, then
download the article behind every gathered post, through a process pool, and pair each
post with its text.

The model is split into modules that follow that structure:

- `Outcomes` (outcomes.dfy): `Option`, `Result`, and the errors the crawler raises. Each
  error variant is one Python exception at one point in the code, except `FetchFailed`.
  It stands for `requests.get` raising at either of its two call sites: the index page
  fetch in `get_posts_list` and the article fetch in `get_article`.
- `PyText` (pytext.dfy): `str.strip()` and `int()` on ASCII digits.
- `UrlJoin` (urljoin.dfy): `urllib.parse.urljoin` against the fixed board URL
  (reference resolution, section 5.2 of RFC 3986, as Python implements it).
- `PageCounter` (page_counter.dfy): `count_pages`. This is the first match of the
  regular expression `index(\d+?).html`, with its lazy quantifier and its unescaped `.`.
- `IndexPage` (index_page.dfy): a parsed index page, seen only through the queries the
  crawler makes of it. It also holds the per-entry post extraction and the loop over a
  page's entries.
- `Crawler` (crawler.dfy):
  - the class `PTTCrawler`, with its four fields and its methods;
  - a functional account of `get_recent_page`, iteration by iteration (`WalkFrom`);
  - an independent reference definition of a successful walk (`Follow`, the trail of
    older-page links);
  - the lemmas that tie the two together.
- `Articles` (articles.dfy): `get_article`, `get_articles`, and the process pool's
  index-keyed delivery of results.

### Exceptions and partial state

Every exception the crawler's own code raises is an `Error` value, except some
`ValueError`s. The model does not raise the ones `urljoin` raises for malformed host
names, or the one `int()` raises for a page number of more than 4300 digits; see
"## Left out". A method that raises keeps
whatever it changed on the object before the exception. For example, `get_posts_list`
replaces `ctrl` before it reads the entries, and the posts of the entries before a failing
one stay appended. `Crawler.Run` carries the state and the error together.

### Error and edge behaviour

The model does what the code does:

- A URL without a page number makes `count_pages` raise `IndexError`. That ends
  `get_recent_page`; it is not ignored.
- An entry without a date or author div raises `AttributeError`; it does not fail soft.
- `count_pages` runs at the start of the second iteration, before that page is fetched.
- One failing article download makes the whole of `get_articles` raise. `pool.map`
  re-raises it.
- `get_article` on the empty link of a deleted article fetches the board's index page.

## Model

| member | source | states |
|---|---|---|
| UrlJoin.BoardUrl | src/_soup-based/crawler_8.py:10 | `PTTCrawler.url`, `https://www.ptt.cc/bbs/movie/index.html`: the start URL and the base of every join; `BoardUrlShape` shows it is the site origin plus the board path. |
| IndexPage.NotExist | src/_soup-based/crawler_8.py:12 | `NOT_EXIST`: an `<a>` with no href whose `.string` is `本文已被刪除`; `RemovedMarkerIsStripped` and `DeletedEntry` state what a post built from it holds. |
| PyText.Strip | src/_soup-based/crawler_8.py:70 | `str.strip()`: its contract is `StripSpec` (a slice whose cut ends are whitespace and whose own ends are not) and `StripIdempotent`. |
| PyText.StripSpec | src/_soup-based/crawler_8.py:70 | `strip()` leaves no whitespace at either end, and it removes only whitespace, from the two ends. |
| PyText.StripIdempotent | src/_soup-based/crawler_8.py:70 | Stripping a stripped title changes nothing. |
| PyText.DecimalValue | src/_soup-based/crawler_8.py:48 | `int()` of a digit string: its contract is `DecimalRoundTrip`, which reads back every decimal spelling. |
| PyText.DecimalRoundTrip | src/_soup-based/crawler_8.py:48 | `int(str(n)) == n` for the digit reading used by `int(prev_page_counter[0])`. |
| UrlJoin.Resolve | src/_soup-based/crawler_8.py:41 | `urljoin(PTTCrawler.url, ref)`, used here and for articles on line 89: its contract is `ResolveSpec`, `ResolveIdempotent` and `ResolveStaysOnSite`. |
| UrlJoin.ResolveSpec | src/_soup-based/crawler_8.py:41 | The join always yields a URL with a scheme. The empty reference gives the board URL. An absolute path is put on `https://www.ptt.cc`. A URL with another scheme comes back unchanged. A `//host…` reference gets the `https` scheme. A `//` with an empty authority keeps the base's host: the path after it goes on `https://www.ptt.cc`, and a query, a fragment or nothing goes on the board URL. |
| UrlJoin.ResolveIdempotent | src/_soup-based/crawler_8.py:41 | Joining an already joined URL again gives the same URL. |
| UrlJoin.ResolveStaysOnSite | src/_soup-based/crawler_8.py:41 | A reference with no scheme and no non-empty authority resolves to a URL under `https://www.ptt.cc/`. |
| PageCounter.MatchAt | src/_soup-based/crawler_8.py:47 | At a given position, the pattern matches with the fewest digits that let it finish (lazy `\d+?`), or does not match there at all. |
| PageCounter.FindFrom | src/_soup-based/crawler_8.py:47 | The leftmost match: no match starts earlier, and its digit group is the shortest that completes. |
| PageCounter.FirstToken | src/_soup-based/crawler_8.py:47 | `re.findall(...)[0]`: a non-empty digit string when the pattern matches, taken from the leftmost lazy match that `FindFrom` finds; see `PageCountSpec`. |
| PageCounter.PageCount | src/_soup-based/crawler_8.py:47-48 | `total_pages` is the first token's value plus one exactly when the pattern matches; otherwise the error is the `IndexError` of `[0]`. |
| PageCounter.PageCountSpec | src/_soup-based/crawler_8.py:47-48 | Stated against the pattern itself: the count raises only when the pattern matches nowhere in the URL. Otherwise it is one more than the value of the leftmost match's digits, where the digit group is the shortest that completes. |
| PageCounter.IndexUrlPageCount | src/_soup-based/crawler_8.py:47-48 | For `…/bbs/movie/index` + d + `.html`, the token is exactly d and the count is int(d) + 1. |
| PageCounter.IndexLinkResolves | src/_soup-based/crawler_8.py:40-41 | The older-page href `/bbs/movie/index` + d + `.html` joins to the index URL of page d. |
| PageCounter.PageCountExample | src/_soup-based/crawler_8.py:47-48 | `…/index123.html` gives 124. |
| PageCounter.BoardUrlHasNoPageCount | src/_soup-based/crawler_8.py:10 | The start URL `…/index.html` carries no page number, so counting on it raises. |
| IndexPage.ExtractPost | src/_soup-based/crawler_8.py:64-72 | Building a post succeeds exactly when the title div, the title text, the meta div, the date div and the author div are all present. |
| IndexPage.ExtractPostFields | src/_soup-based/crawler_8.py:64-72 | The post holds the title anchor's href (or `''`) and its stripped text, plus the date and author strings as they are. A title div without an anchor gives link `''` and title `本文已被刪除`. |
| IndexPage.RemovedMarkerIsStripped | src/_soup-based/crawler_8.py:12 | The `NOT_EXIST` text has no surrounding whitespace, so `strip()` keeps it. |
| IndexPage.DeletedEntry | src/_soup-based/crawler_8.py:64-70 | A deleted article (title div without `<a>`) yields link `''` and the removed marker as title, without error. |
| IndexPage.ScanFrom | src/_soup-based/crawler_8.py:62-73 | The `for article in articles` loop from entry k on: its contract is `ScanFromSpec`. |
| IndexPage.ScanEntries | src/_soup-based/crawler_8.py:62-73 | The loop over a whole page: its contract is `ScanEntriesSpec` and `ScanWellFormed`. |
| IndexPage.ScanFromSpec | src/_soup-based/crawler_8.py:62-73 | From entry k on, the loop appends one post per entry in order, each built from its own entry. It stops at the first entry that raises, with that entry's error. |
| IndexPage.ScanEntriesSpec | src/_soup-based/crawler_8.py:62-73 | The same for a whole page: the posts of a prefix of the entries, and either all of them or the first failing entry's error. |
| IndexPage.ScanWellFormed | src/_soup-based/crawler_8.py:62-73 | A page whose entries are all well formed yields exactly one post per entry and no error. |
| Crawler.NextUrl | src/_soup-based/crawler_8.py:36-41 | `get_next_url` succeeds exactly when there are at least two buttons and the second has an href. |
| Crawler.NextUrlSpec | src/_soup-based/crawler_8.py:40-41 | The next URL always carries a scheme. An absolute-path href lands on the PTT origin. Fewer than two buttons is an `IndexError`. |
| Crawler.OlderLinkPageCount | src/_soup-based/crawler_8.py:40-48 | An older button linking to `/bbs/movie/index` + d + `.html` makes `next_url` page d's URL, on which `count_pages` stores int(d) + 1. |
| Crawler.Follow | src/_soup-based/crawler_8.py:26-32 | The reference trail from a URL has n pages and n + 1 URLs. It starts at that URL, and its first page is what that URL gives. |
| Crawler.CountPagesStep | src/_soup-based/crawler_8.py:43-48 | `count_pages` on a state: `total_pages` becomes `PageCount(next_url)`, or `IndexError` with the state unchanged; see `PTTCrawler.CountPages`, which is proved equal to it. |
| Crawler.PostsListStep | src/_soup-based/crawler_8.py:50-73 | `get_posts_list(url)` on a state; see `PTTCrawler.GetPostsList`, which is proved equal to it. |
| Crawler.NextUrlStep | src/_soup-based/crawler_8.py:32 | `self.next_url = self.get_next_url()` on a state: `next_url` becomes `NextUrl(ctrl)`, or the error with the state unchanged; see `NextUrlSpec`. |
| Crawler.Iteration | src/_soup-based/crawler_8.py:26-32 | One pass of the loop body: its contract is `IterationSpec`. |
| Crawler.WalkFrom | src/_soup-based/crawler_8.py:26-32 | The loop from iteration i on, stopping at the first exception: its contract is `WalkFollowsTrail`, `WalkKeepsEarlierPosts` and `WalkCountsEntries`. |
| Crawler.IterationSpec | src/_soup-based/crawler_8.py:26-32 | One iteration succeeds exactly when its count (at i == 1), fetch, entries and older link all succeed. It then appends the page's posts, takes its buttons and moves `next_url` to the older page. |
| Crawler.WalkFollowsTrail | src/_soup-based/crawler_8.py:26-32 | Running the loop from iteration i succeeds exactly when the trail of older links can be followed and, if iteration 1 is ahead, the second URL has a page number. Then the new state is read off the trail: the posts of its pages appended in page order, the last page's buttons, the URL after the last page, and the page count. |
| Crawler.WalkFromStart | src/_soup-based/crawler_8.py:21-34 | The same for the whole of `get_recent_page(pages)`. |
| Crawler.WalkKeepsEarlierPosts | src/_soup-based/crawler_8.py:30 | `get_recent_page` never drops or reorders posts already gathered, whether it returns or raises. |
| Crawler.OnePageLeavesTotalPages | src/_soup-based/crawler_8.py:27-28 | With at most one page, `count_pages` never runs and `total_pages` is unchanged. |
| Crawler.CountFromOlderLink | src/_soup-based/crawler_8.py:27-28 | On a walk of two pages or more, `total_pages` is int(d) + 1 for the first page's older link `/bbs/movie/index` + d + `.html`. |
| Crawler.FlattenCountsEntries | src/_soup-based/crawler_8.py:62-73 | Pages whose entries all yield posts give one post per entry block. |
| Crawler.TrailPagesScan | src/_soup-based/crawler_8.py:30 | Every page on a successful trail yields all its posts. |
| Crawler.WalkCountsEntries | src/_soup-based/crawler_8.py:21-34 | A walk that returns has added exactly as many posts as the fetched pages have entry blocks. |
| Crawler.TrailSecondUrl | src/_soup-based/crawler_8.py:32 | The second URL of a trail is the first page's older link. |
| Crawler.PTTCrawler.constructor | src/_soup-based/crawler_8.py:14-19 | A new crawler has no posts, no buttons, the board URL as `next_url` and `total_pages` 0. |
| Crawler.PTTCrawler.CountPages | src/_soup-based/crawler_8.py:43-48 | `total_pages` becomes the page count of `next_url`. Otherwise nothing changes and `IndexError` is reported. |
| Crawler.PTTCrawler.GetPostsList | src/_soup-based/crawler_8.py:50-73 | A failed fetch or a page without a paging group changes nothing. Otherwise `ctrl` becomes the page's buttons and `posts` gains the scan's posts, with the scan's error if any. |
| Crawler.PTTCrawler.GetRecentPage | src/_soup-based/crawler_8.py:21-34 | The object ends in the state `WalkFrom` gives, and the result is the value of `self.posts` at return, or the exception. |
| Articles.GetArticle | src/_soup-based/crawler_8.py:85-91 | `get_article(link)`: its contract is `GetArticleFetches`. |
| Articles.GetArticleFetches | src/_soup-based/crawler_8.py:85-91 | An article is fetched from its joined URL. An empty link fetches the board URL; an absolute-path link is fetched from the PTT origin. |
| Articles.Links | src/_soup-based/crawler_8.py:80 | One link per post, in order. |
| Articles.MapArticles | src/_soup-based/crawler_8.py:81 | `pool.map` succeeds exactly when every download does. The contents are in link order, and the only error is a failed fetch. |
| Articles.Zip | src/_soup-based/crawler_8.py:82 | `zip` pairs by position, as many pairs as the shorter input. |
| Articles.GetArticles | src/_soup-based/crawler_8.py:76-82 | `get_articles(ptt)`: its contract is `GetArticlesPairs`. |
| Articles.GetArticlesPairs | src/_soup-based/crawler_8.py:76-82 | `get_articles` succeeds exactly when every post's article downloads. Then it pairs every post, in order, with the text fetched from its own link. |
| Articles.Deliver | src/_soup-based/crawler_8.py:81 | The pool filing each finished task's result under its task index, in a given completion order: its contract is `DeliverSlots` and `PoolMapKeepsPairing`. |
| Articles.DeliverSlots | src/_soup-based/crawler_8.py:81 | Whatever order the tasks finish in, each result slot holds the outcome of its own task. |
| Articles.PoolMapKeepsPairing | src/_soup-based/crawler_8.py:81 | When every task has finished, slot i holds `get_article` of link i, in any completion order. Reading the slots in order gives the sequential map. |

## Left out

- HTTP: `requests.get` is a parameter of the model, a function from URL to parsed page
  (`Crawler.Fetcher`) or to body text (`Articles.BodyFetcher`). None stands for a request
  that raises. A non-success HTTP status does not raise, so it is not an error here either.
- HTML parsing: BeautifulSoup and lxml are not modelled. A page is given as the results of
  the `find`/`find_all` queries the crawler makes: entry blocks, title and meta divs, the
  first `<a>`, `.string`, `href` and the paging buttons.
- `.string` is None for an element that does not hold exactly one text node. The model
  takes that as given in `Anchor.text` and `TextDiv.text`.
- Concurrency: `multiprocessing.Pool` is modelled as a sequential map, plus a lemma that
  index-keyed delivery in any completion order gives the same result. `Articles.Deliver`
  takes as given that `pool.map` files each task's result under that task's index, as its
  documentation promises. `Articles.DeliverSlots` and `Articles.PoolMapKeepsPairing`
  derive the ordered result from that, not the index-keeping itself. Worker processes,
  pickling and the pool width of 8 are not modelled.
- The `pool` that `get_articles` uses is a global created only under `__main__`.
  `get_articles` takes the posts list (`ptt.posts`) directly.
- The `__main__` block (timing, printing) is out of scope.
- UrlJoin.Resolve: these urljoin behaviours are not modelled:
  - removal of `.` and `..` segments;
  - collapsing empty path segments;
  - `;params`;
  - `urlunsplit` dropping an empty `?` or `#`;
  - the stripping of leading C0 control characters and spaces that `urlsplit` performs
    (it leaves trailing ones in place, as the model does);
  - the removal of tab, CR and LF characters from anywhere in the reference, which
    `urlsplit` also performs.
  Links PTT serves contain none of these. The cases the crawler meets are exact: empty
  reference, other scheme, `https` scheme, `//` with or without an authority, absolute
  path, `?`/`#` and a plain relative path.
- UrlJoin.Resolve: `urlsplit` raises `ValueError` in two cases the model does not
  raise in:
  - an authority with an unbalanced `[` or `]`, or an invalid bracketed host;
  - a non-ASCII authority whose NFKC normalisation contains `/`, `?`, `#`, `@` or `:`.
    For example, in `//a℀b/x` the `℀` normalises to `a/c`.

  The model joins such a reference as if it were well formed. PTT's links carry neither
  bracketed nor non-ASCII hosts.
- PyText.DecimalValue and PageCounter.PageCount: Python's `int()` raises `ValueError` on
  a string of more than 4300 digits, the default limit of `sys.set_int_max_str_digits`.
  The model reads any length and gives `Ok` there. That limit is not modelled; PTT page
  numbers have a handful of digits.
- PageCounter.FindFrom: `\d` is taken as ASCII digits, and `PyText.DecimalValue` reads
  only ASCII digits. Python's `\d` and `int()` also accept other Unicode decimal digits.
- Articles.Zip: Python's `zip` returns a lazy iterator; the model returns the list it would
  yield.
- Articles.MapArticles: when several downloads fail, `pool.map` raises the exception of the
  one that fails first in time. Every download error here is the same `FetchFailed`, so
  this choice is not modelled.
- Crawler.PTTCrawler.GetRecentPage: Python returns the list object `self.posts` itself,
  so the caller and the crawler share one list. The model returns the value of `posts` at
  return. Later appends through the object do not show in the result, and aliasing is not
  modelled.
