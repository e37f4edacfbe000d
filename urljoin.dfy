/** `urllib.parse.urljoin(PTTCrawler.url, ref)`: reference resolution (section 5.2 of
    RFC 3986, as Python implements it) against the fixed board URL
    `https://www.ptt.cc/bbs/movie/index.html`. */
module UrlJoin {
  import opened Outcomes
  import PyText

  const Origin: string := "https://www.ptt.cc"
  const BoardDir: string := "/bbs/movie/"
  const BoardPath: string := BoardDir + "index.html"
  /** `PTTCrawler.url`, "https://www.ptt.cc/bbs/movie/index.html": the board's newest
      index page and the base of every join. */
  const BoardUrl: string := Origin + BoardPath

  predicate IsAsciiAlpha(c: char) {
    'a' <= c <= 'z' || 'A' <= c <= 'Z'
  }

  predicate IsSchemeChar(c: char) {
    IsAsciiAlpha(c) || PyText.IsDigit(c) || c == '+' || c == '-' || c == '.'
  }

  /** `s.find(c)`: the first position of `c` in `s`. */
  function IndexOf(s: string, c: char): (r: Option<nat>)
    ensures r.None? ==> c !in s
    ensures r.Some? ==> r.value < |s| && s[r.value] == c && c !in s[..r.value]
  {
    if s == [] then None
    else if s[0] == c then Some(0)
    else match IndexOf(s[1..], c)
      case None => None
      case Some(i) =>
        assert s[..i + 1] == [s[0]] + s[1..][..i];
        Some(i + 1)
  }

  /** The length of the scheme `urlsplit` finds in `ref`: everything before the first ':'
      when that is non-empty, starts with an ASCII letter and holds only scheme characters. */
  function SchemeLength(ref: string): (r: Option<nat>)
    ensures r.Some? ==> 0 < r.value < |ref| && ref[r.value] == ':' && ':' !in ref[..r.value]
    ensures r.Some? ==> forall k :: 0 <= k < r.value ==> IsSchemeChar(ref[k])
  {
    match IndexOf(ref, ':')
    case None => None
    case Some(i) =>
      if i > 0 && IsAsciiAlpha(ref[0]) && forall k :: 0 <= k < i ==> IsSchemeChar(ref[k])
      then Some(i) else None
  }

  /** A reference that carries its own scheme (an absolute URL in RFC 3986 terms). */
  predicate HasScheme(ref: string) {
    SchemeLength(ref).Some?
  }

  function Lower(c: char): char {
    if 'A' <= c <= 'Z' then (c as int + 32) as char else c
  }

  /** `urlsplit` lower-cases the scheme before urljoin compares it with the base's. */
  predicate IsHttps(scheme: string) {
    |scheme| == 5 && forall k :: 0 <= k < 5 ==> Lower(scheme[k]) == "https"[k]
  }

  /** A path starting with one '/' (an absolute-path reference). */
  predicate IsAbsolutePath(ref: string) {
    |ref| >= 1 && ref[0] == '/' && !(|ref| >= 2 && ref[1] == '/')
  }

  predicate StartsHttps(s: string) {
    |s| >= 6 && s[..6] == "https:"
  }

  /** A string starting with "https:" has the scheme `https`. */
  lemma HttpsHasScheme(s: string)
    requires StartsHttps(s)
    ensures SchemeLength(s) == Some(5) && IsHttps(s[..5])
  {
    assert s[5] == ':' && s[..5] == "https";
    assert IndexOf(s, ':') == Some(5);
  }

  /** The board URL is the site's origin followed by the board path, and starts
      "https://" and a host name. */
  lemma BoardUrlShape()
    ensures BoardUrl == Origin + BoardPath && BoardPath == BoardDir + "index.html"
    ensures StartsHttps(BoardUrl) && HasAuthority(BoardUrl, 6)
    ensures StartsHttps(Origin) && HasAuthority(Origin, 6)
  {
    assert Origin[..6] == "https:" && Origin[8] == 'w';
    assert BoardUrl[..9] == Origin[..9];
  }

  /** `s` has "//" at position `k` followed by a non-empty authority: the authority
      `urlsplit` finds ends at the next '/', '?' or '#', or at the end of `s`. */
  predicate HasAuthority(s: string, k: nat) {
    StartsWithSlashes(s, k) && |s| > k + 2 && s[k + 2] != '/' && s[k + 2] != '?' && s[k + 2] != '#'
  }

  /** `s` continues `Origin` past its host name, so it has the origin's authority. */
  lemma OnOrigin(s: string, rest: string)
    requires s == Origin + rest
    ensures StartsHttps(s) && HasAuthority(s, 6)
  {
    BoardUrlShape();
    assert s[..9] == Origin[..9];
  }

  /** Resolution of a reference whose scheme, if any, was the base's `https`. A reference
      starting "//" with an empty authority keeps the base's host, as `urljoin` does. */
  function ResolveRelative(rest: string): (r: string)
    ensures StartsHttps(r) && HasAuthority(r, 6)
  {
    BoardUrlShape();
    if rest == [] then BoardUrl
    else if StartsWithSlashes(rest, 0) then
      if HasAuthority(rest, 0) then "https:" + rest
      else if |rest| == 2 then BoardUrl
      else if rest[2] == '/' then OnOrigin(Origin + rest[2..], rest[2..]); Origin + rest[2..]
      else OnOrigin(BoardUrl + rest[2..], BoardPath + rest[2..]); BoardUrl + rest[2..]
    else if rest[0] == '/' then Origin + rest
    else if rest[0] == '?' || rest[0] == '#' then BoardUrl + rest
    else Origin + BoardDir + rest
  }

  /** `urljoin(BoardUrl, ref)`. */
  function Resolve(ref: string): string
  {
    // urljoin returns the base at once for an empty reference; ResolveRelative([])
    // yields that same base, so the empty case needs no branch of its own.
    match SchemeLength(ref)
    case Some(i) => if IsHttps(ref[..i]) then ResolveRelative(ref[i + 1..]) else ref
    case None => ResolveRelative(ref)
  }

  /** The result of a join always carries a scheme; the empty reference gives the base, an
      absolute path replaces the base's path, and a URL with a scheme other than https is
      returned as it is. */
  lemma ResolveSpec(ref: string)
    ensures HasScheme(Resolve(ref))
    ensures ref == [] ==> Resolve(ref) == BoardUrl
    ensures IsAbsolutePath(ref) ==> Resolve(ref) == Origin + ref
    ensures HasScheme(ref) && !IsHttps(ref[..SchemeLength(ref).value]) ==> Resolve(ref) == ref
    ensures HasAuthority(ref, 0) ==> Resolve(ref) == "https:" + ref
    ensures StartsWithSlashes(ref, 0) && !HasAuthority(ref, 0) ==>
      if |ref| > 2 && ref[2] == '/' then Resolve(ref) == Origin + ref[2..]
      else Resolve(ref) == BoardUrl + ref[2..]
  {
    var r := Resolve(ref);
    if StartsHttps(r) {
      HttpsHasScheme(r);
    }
  }

  /** A URL that came out of a join joins to itself: resolving is idempotent. */
  lemma ResolveIdempotent(ref: string)
    ensures Resolve(Resolve(ref)) == Resolve(ref)
  {
    var r := Resolve(ref);
    if StartsHttps(r) && HasAuthority(r, 6) {
      HttpsHasScheme(r);
      assert r[6..] == r[6..][..];
      assert "https:" + r[6..] == r by { assert r[..6] == "https:"; }
    }
  }

  /** `s` has "//" at position `k`. */
  predicate StartsWithSlashes(s: string, k: nat) {
    |s| >= k + 2 && s[k] == '/' && s[k + 1] == '/'
  }

  /** A reference with no scheme and no authority of its own resolves to a page of the PTT
      site. */
  lemma ResolveStaysOnSite(ref: string)
    requires !HasScheme(ref) && !HasAuthority(ref, 0)
    ensures |Resolve(ref)| > |Origin| && Resolve(ref)[..|Origin| + 1] == Origin + "/"
  {
    var r := Resolve(ref);
    assert r == ResolveRelative(ref);
    if ref == [] {
      assert r[..|Origin| + 1] == BoardUrl[..|Origin| + 1];
    } else if StartsWithSlashes(ref, 0) {
      if |ref| > 2 && ref[2] == '/' {
        assert r == Origin + ref[2..];
        assert r[..|Origin| + 1] == Origin + [ref[2]];
      } else {
        assert r == BoardUrl + ref[2..];
        assert r[..|Origin| + 1] == BoardUrl[..|Origin| + 1];
      }
    } else if ref[0] == '/' {
      assert r == Origin + ref;
      assert r[..|Origin| + 1] == Origin + [ref[0]];
    } else if ref[0] == '?' || ref[0] == '#' {
      assert r == BoardUrl + ref;
      assert r[..|Origin| + 1] == BoardUrl[..|Origin| + 1];
    } else {
      assert r == Origin + BoardDir + ref;
      assert r[..|Origin| + 1] == Origin + BoardDir[..1];
    }
  }
}
