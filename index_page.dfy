/** `PTTCrawler.get_posts_list`'s per-entry work: a parsed index page, seen only through
    the queries the crawler makes of it, and the post record built from each entry. */
module IndexPage {
  import opened Outcomes
  import PyText

  /** An `<a>` element: its `href` attribute, if present, and its `.string`, which
      BeautifulSoup gives as None unless the element has exactly one child, which is a
      string or itself has a `.string`. */
  datatype Anchor = Anchor(href: Option<string>, text: Option<string>)

  /** A `div.title`, with the first `<a>` inside it if it has one. */
  datatype TitleDiv = TitleDiv(anchor: Option<Anchor>)

  /** A `div.date` or `div.author`, with its `.string`. */
  datatype TextDiv = TextDiv(text: Option<string>)

  /** A `div.meta`, with its first `div.date` and first `div.author`. */
  datatype MetaDiv = MetaDiv(date: Option<TextDiv>, author: Option<TextDiv>)

  /** A `div.r-ent` entry block, with its first `div.title` and first `div.meta`. */
  datatype Entry = Entry(title: Option<TitleDiv>, meta: Option<MetaDiv>)

  /** An index page: its `div.r-ent` blocks in document order and the `a.btn` buttons of
      its first `div.btn-group-paging`, or None when there is no such group. */
  datatype Page = Page(entries: seq<Entry>, paging: Option<seq<Anchor>>)

  /** The dict built for each entry; `date` and `author` hold Python None when the
      div's `.string` is None. */
  datatype Post = Post(link: string, title: string, date: Option<string>, author: Option<string>)

  /** The text PTT shows for a deleted article. */
  const RemovedMarker: string := "本文已被刪除"

  /** `PTTCrawler.NOT_EXIST`: an `<a>` without href whose text is the removed marker. */
  const NotExist: Anchor := Anchor(None, Some(RemovedMarker))

  /** The anchor the title is read from: the title div's `<a>`, or `NOT_EXIST`. */
  function TitleAnchor(t: TitleDiv): Anchor {
    t.anchor.GetOr(NotExist)
  }

  /** The attributes whose absence makes building the post raise. */
  predicate WellFormed(e: Entry) {
    && e.title.Some? && TitleAnchor(e.title.value).text.Some?
    && e.meta.Some? && e.meta.value.date.Some? && e.meta.value.author.Some?
  }

  /** The loop body of `get_posts_list` for one entry, failing where Python raises, in the
      order Python evaluates the lookups. */
  function ExtractPost(e: Entry): (r: Result<Post>)
    ensures r.Ok? <==> WellFormed(e)
  {
    if e.title.None? then Err(NoTitleDiv)
    else
      var a := TitleAnchor(e.title.value);
      var link := a.href.GetOr("");
      if a.text.None? then Err(NoTitleText)
      else if e.meta.None? then Err(NoMetaDiv)
      else if e.meta.value.date.None? then Err(NoDateDiv)
      else if e.meta.value.author.None? then Err(NoAuthorDiv)
      else
        Ok(Post(link, PyText.Strip(a.text.value), e.meta.value.date.value.text, e.meta.value.author.value.text))
  }

  /** What a built post holds: the title anchor's href (or '') and its stripped text, with
      the removed marker and an empty link for a deleted article, and the raw date and
      author strings. */
  lemma ExtractPostFields(e: Entry)
    requires WellFormed(e)
    ensures var p := ExtractPost(e).value;
      && PyText.IsStripped(p.title)
      && p.date == e.meta.value.date.value.text
      && p.author == e.meta.value.author.value.text
      && (e.title.value.anchor.Some? ==>
            p.link == e.title.value.anchor.value.href.GetOr("") &&
            p.title == PyText.Strip(e.title.value.anchor.value.text.value))
      && (e.title.value.anchor.None? ==> p.link == "" && p.title == RemovedMarker)
  {
    PyText.StripSpec(TitleAnchor(e.title.value).text.value);
    if e.title.value.anchor.None? {
      RemovedMarkerIsStripped();
    }
  }

  /** The removed marker has no surrounding whitespace, so stripping leaves it as it is. */
  lemma RemovedMarkerIsStripped()
    ensures PyText.IsStripped(RemovedMarker) && PyText.Strip(RemovedMarker) == RemovedMarker
  {
    PyText.StripKeepsStripped(RemovedMarker);
  }

  /** A deleted article (a title div without an anchor) gives a post with an empty link
      and the removed marker as title, and no error. */
  lemma DeletedEntry(date: TextDiv, author: TextDiv)
    ensures ExtractPost(Entry(Some(TitleDiv(None)), Some(MetaDiv(Some(date), Some(author)))))
         == Ok(Post("", RemovedMarker, date.text, author.text))
  {
    RemovedMarkerIsStripped();
  }

  /** The posts extracted from a run of entries before the first one that raises, and that
      error if one did. */
  datatype Scan = Scan(posts: seq<Post>, failure: Option<Error>)

  /** The `for article in articles` loop from entry `k` on: one post per entry, in
      document order, stopping at the first entry whose post cannot be built. */
  function ScanFrom(es: seq<Entry>, k: nat): Scan
    requires k <= |es|
    decreases |es| - k
  {
    if k == |es| then Scan([], None)
    else match ExtractPost(es[k])
      case Err(e) => Scan([], Some(e))
      case Ok(p) =>
        var rest := ScanFrom(es, k + 1);
        Scan([p] + rest.posts, rest.failure)
  }

  /** The whole loop over a page's entries. */
  function ScanEntries(es: seq<Entry>): Scan {
    ScanFrom(es, 0)
  }

  /** What a scan from entry `k` holds: the posts of the entries from `k` on up to some
      point, each built from its entry in order, and either all those entries converted or
      the error of the first that was not. */
  predicate ScanDescribesFrom(es: seq<Entry>, k: nat, r: Scan)
    requires k <= |es|
  {
    && |r.posts| <= |es| - k
    && (forall j :: 0 <= j < |r.posts| ==> ExtractPost(es[k + j]) == Ok(r.posts[j]))
    && (r.failure.None? <==> |r.posts| == |es| - k)
    && (r.failure.Some? ==> ExtractPost(es[k + |r.posts|]) == Err(r.failure.value))
  }

  /** `ScanFrom` is the scan that `ScanDescribesFrom` describes. */
  lemma {:induction false} ScanFromSpec(es: seq<Entry>, k: nat)
    requires k <= |es|
    ensures ScanDescribesFrom(es, k, ScanFrom(es, k))
    decreases |es| - k
  {
    if k < |es| && ExtractPost(es[k]).Ok? {
      var p := ExtractPost(es[k]).value;
      var rest := ScanFrom(es, k + 1);
      ScanFromSpec(es, k + 1);
      var r := ScanFrom(es, k);
      assert r.posts == [p] + rest.posts;
      forall j | 1 <= j < |r.posts|
        ensures ExtractPost(es[k + j]) == Ok(r.posts[j])
      {
        assert ExtractPost(es[(k + 1) + (j - 1)]) == Ok(rest.posts[j - 1]);
      }
    }
  }

  /** `ScanEntries` is the scan that `ScanDescribesFrom` describes from the first entry:
      the posts of a prefix of the entries, and either all of them or the first failing
      entry's error. */
  lemma ScanEntriesSpec(es: seq<Entry>)
    ensures ScanDescribesFrom(es, 0, ScanEntries(es))
  {
    ScanFromSpec(es, 0);
  }

  /** The posts of a page whose every entry is well formed: exactly one per entry. */
  lemma ScanWellFormed(es: seq<Entry>)
    requires forall j :: 0 <= j < |es| ==> WellFormed(es[j])
    ensures ScanEntries(es).failure.None? && |ScanEntries(es).posts| == |es|
  {
    ScanEntriesSpec(es);
  }
}
