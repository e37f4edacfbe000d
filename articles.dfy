/** The free functions `get_article` and `get_articles`: download the article behind
    every gathered post and pair each post with its page text. */
module Articles {
  import opened Outcomes
  import opened IndexPage
  import UrlJoin

  /** `requests.get(url).text`: the body of the page at `url`, or None when the request
      raises. */
  type BodyFetcher = string -> Option<string>

  /** `get_article(link)`: the link joined to the board URL, then fetched. */
  function GetArticle(link: string, fetch: BodyFetcher): Result<string> {
    match fetch(UrlJoin.Resolve(link))
    case None => Err(FetchFailed)
    case Some(text) => Ok(text)
  }

  /** A post link is fetched from its resolved URL: an empty link (a deleted article)
      fetches the board's index page itself, and a site-absolute link is fetched from the
      PTT origin. */
  lemma GetArticleFetches(link: string, fetch: BodyFetcher)
    ensures GetArticle(link, fetch).Ok? <==> fetch(UrlJoin.Resolve(link)).Some?
    ensures link == [] ==>
      GetArticle(link, fetch) == if fetch(UrlJoin.BoardUrl).Some? then Ok(fetch(UrlJoin.BoardUrl).value) else Err(FetchFailed)
    ensures UrlJoin.IsAbsolutePath(link) ==>
      (GetArticle(link, fetch).Ok? <==> fetch(UrlJoin.Origin + link).Some?)
    ensures UrlJoin.IsAbsolutePath(link) && GetArticle(link, fetch).Ok? ==>
      GetArticle(link, fetch).value == fetch(UrlJoin.Origin + link).value
  {
    UrlJoin.ResolveSpec(link);
  }

  /** `[post['link'] for post in ptt.posts]`. */
  function Links(posts: seq<Post>): (r: seq<string>)
    ensures |r| == |posts| && forall i :: 0 <= i < |posts| ==> r[i] == posts[i].link
  {
    if posts == [] then [] else [posts[0].link] + Links(posts[1..])
  }

  /** `pool.map(get_article, links)` as the sequential map it is equivalent to: the contents
      in the order of the links, or the error when any download raises. */
  function MapArticles(links: seq<string>, fetch: BodyFetcher): (r: Result<seq<string>>)
    ensures r.Ok? <==> forall i :: 0 <= i < |links| ==> GetArticle(links[i], fetch).Ok?
    ensures r.Ok? ==> |r.value| == |links|
    ensures r.Ok? ==> forall i :: 0 <= i < |links| ==> r.value[i] == GetArticle(links[i], fetch).value
    ensures r.Err? ==> r.error == FetchFailed
  {
    if links == [] then Ok([])
    else match GetArticle(links[0], fetch)
      case Err(e) => Err(e)
      case Ok(text) =>
        match MapArticles(links[1..], fetch)
        case Err(e) => Err(e)
        case Ok(rest) =>
          assert forall i :: 1 <= i < |links| ==> links[1..][i - 1] == links[i];
          Ok([text] + rest)
  }

  /** Python's `zip`: pairs by position, as many as the shorter argument has. */
  function Zip<A, B>(a: seq<A>, b: seq<B>): (r: seq<(A, B)>)
    ensures |r| == if |a| <= |b| then |a| else |b|
    ensures forall i :: 0 <= i < |r| ==> r[i] == (a[i], b[i])
  {
    if a == [] || b == [] then [] else [(a[0], b[0])] + Zip(a[1..], b[1..])
  }

  /** `get_articles(ptt)` on `ptt.posts`: each post with the text of its own article. */
  function GetArticles(posts: seq<Post>, fetch: BodyFetcher): Result<seq<(Post, string)>> {
    match MapArticles(Links(posts), fetch)
    case Err(e) => Err(e)
    case Ok(contents) => Ok(Zip(posts, contents))
  }

  /** `get_articles` succeeds exactly when every post's article downloads, and then pairs
      every post, in order, with the text fetched from its own link. */
  lemma GetArticlesPairs(posts: seq<Post>, fetch: BodyFetcher)
    ensures GetArticles(posts, fetch).Ok? <==>
      forall i :: 0 <= i < |posts| ==> GetArticle(posts[i].link, fetch).Ok?
    ensures GetArticles(posts, fetch).Ok? ==>
      var r := GetArticles(posts, fetch).value;
      && |r| == |posts|
      && forall i :: 0 <= i < |posts| ==> r[i] == (posts[i], GetArticle(posts[i].link, fetch).value)
    ensures GetArticles(posts, fetch).Err? ==> GetArticles(posts, fetch).error == FetchFailed
  {
    var links := Links(posts);
    assert forall i :: 0 <= i < |posts| ==> links[i] == posts[i].link;
  }

  /** The pool's result slots after workers finish the tasks numbered in `order`, one
      after another in that order: each finished task writes its own article's outcome into
      the slot of its own index. That keying by task index is what `pool.map` documents and
      is taken as given here; the lemmas below derive the ordered result from it. */
  function Deliver(order: seq<nat>, links: seq<string>, fetch: BodyFetcher, slots: map<nat, Result<string>>)
    : map<nat, Result<string>>
    requires forall k :: 0 <= k < |order| ==> order[k] < |links|
  {
    if order == [] then slots
    else
      var task := order[0];
      Deliver(order[1..], links, fetch, slots[task := GetArticle(links[task], fetch)])
  }

  /** A slot holds the outcome of the last task written to it, or what it held before. */
  lemma {:induction false} DeliverSlots(order: seq<nat>, links: seq<string>, fetch: BodyFetcher,
                                        slots: map<nat, Result<string>>)
    requires forall k :: 0 <= k < |order| ==> order[k] < |links|
    ensures var r := Deliver(order, links, fetch, slots);
      && (forall i :: i in order ==> i in r && r[i] == GetArticle(links[i], fetch))
      && (forall i :: i !in order && i in slots ==> i in r && r[i] == slots[i])
  {
    if order != [] {
      var task := order[0];
      var slots' := slots[task := GetArticle(links[task], fetch)];
      DeliverSlots(order[1..], links, fetch, slots');
      forall i | i in order
        ensures i in Deliver(order, links, fetch, slots)
      {
        if i != task {
          assert i in order[1..];
        }
      }
    }
  }

  /** `pool.map` keeps the pairing whatever order its workers finish in: when every task
      index below `|links|` is finished, slot `i` holds the outcome of `get_article` on link
      `i`, so reading the slots in index order gives the sequential map. */
  lemma PoolMapKeepsPairing(order: seq<nat>, links: seq<string>, fetch: BodyFetcher)
    requires forall k :: 0 <= k < |order| ==> order[k] < |links|
    requires forall i :: 0 <= i < |links| ==> i in order
    ensures var r := Deliver(order, links, fetch, map[]);
      && (forall i :: 0 <= i < |links| ==> i in r && r[i] == GetArticle(links[i], fetch))
      && (MapArticles(links, fetch).Ok? <==> forall i :: 0 <= i < |links| ==> r[i].Ok?)
      && (MapArticles(links, fetch).Ok? ==>
            forall i :: 0 <= i < |links| ==> r[i] == Ok(MapArticles(links, fetch).value[i]))
  {
    DeliverSlots(order, links, fetch, map[]);
  }
}
