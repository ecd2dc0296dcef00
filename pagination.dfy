/**
 * The listing-page scanner of auto-discovery: the status gate on a fetched page, the heuristic
 * that collects article links from a listing page, and the choice of the next listing page.
 * Pages arrive already parsed: the anchors inside article/div containers, all anchors, and the
 * first `<link rel=next>` / `<a rel=next>` elements. URL joining is a given function.
 */
module Pagination {
  import opened Wrappers
  import opened Text
  import Url

  /** An HTTP response as the scanner sees it. */
  datatype Response = Response(status: int, text: string, url: string)

  /** An `<a>` element: its `href` attribute, if present, and its text with white space stripped. */
  datatype Anchor = Anchor(href: Option<string>, text: string)

  /** An `article` or `div` element of the listing page: its class names and the anchors inside it. */
  datatype Container = Container(classes: seq<string>, anchors: seq<Anchor>)

  /** A parsed listing page. */
  datatype Listing = Listing(containers: seq<Container>, anchors: seq<Anchor>)

  /** The next-page evidence of a page: the first `<link rel=next>`, the first `<a rel=next>`, all anchors. */
  datatype NextView = NextView(relLink: Option<Anchor>, relAnchor: Option<Anchor>, anchors: seq<Anchor>)

  /** The page body and the final URL, only for a response with status 200. */
  function GetPageContent(response: Option<Response>): (r: Option<(string, string)>)
    ensures r.Some? <==> response.Some? && response.value.status == 200
    ensures r.Some? ==> r.value.0 == response.value.text && r.value.1 == response.value.url
  {
    match response
    case Some(resp) => if resp.status == 200 then Some((resp.text, resp.url)) else None
    case None => None
  }

  const ContainerMarkers: seq<string> := ["post", "entry", "blog", "job"]
  const NavigationJunk: seq<string> := ["/tag/", "/category/", "/author/", "#", "wp-content", "wp-includes"]
  const MinTitleLength := 10

  /** A container is an article container when one of its class names mentions a marker. */
  predicate IsArticleContainer(c: Container) {
    exists k :: 0 <= k < |c.classes| && ContainsAny(c.classes[k], ContainerMarkers)
  }

  predicate HasHref(a: Anchor) {
    a.href.Some?
  }

  /** The anchors carrying an `href` among `anchors`, in order. */
  function WithHref(anchors: seq<Anchor>): (r: seq<Anchor>)
    ensures forall a :: a in r <==> a in anchors && HasHref(a)
  {
    if anchors == [] then []
    else (if HasHref(anchors[0]) then [anchors[0]] else []) + WithHref(anchors[1..])
  }

  /** The anchors of the article containers among `cs`, container by container. */
  function ContainerAnchors(cs: seq<Container>): (r: seq<Anchor>)
    ensures forall a :: a in r <==> exists k :: 0 <= k < |cs| && IsArticleContainer(cs[k]) && a in WithHref(cs[k].anchors)
  {
    if cs == [] then []
    else
      var rest := ContainerAnchors(cs[1..]);
      assert forall k :: 1 <= k < |cs| ==> cs[k] == cs[1..][k - 1];
      (if IsArticleContainer(cs[0]) then WithHref(cs[0].anchors) else []) + rest
  }

  /** The anchors the scan considers: those of article containers when there are any, else every anchor. */
  function Candidates(page: Listing): (r: seq<Anchor>)
  {
    if exists k :: 0 <= k < |page.containers| && IsArticleContainer(page.containers[k])
    then ContainerAnchors(page.containers)
    else WithHref(page.anchors)
  }

  /** The filters an anchor must pass for its resolved URL to count as an article link. */
  predicate Accepts(a: Anchor, baseUrl: string, join: (string, string) -> string) {
    a.href.Some? &&
    var full := join(baseUrl, a.href.value);
    && Url.Netloc(full) == Url.Netloc(baseUrl)
    && !ContainsAny(Lower(full), NavigationJunk)
    && RStripChar(full, '/') != RStripChar(baseUrl, '/')
    && |a.text| >= MinTitleLength
  }

  /** The set of article links the anchors `anchors` yield, as the scan accumulates them. */
  function LinksOf(anchors: seq<Anchor>, baseUrl: string, join: (string, string) -> string): set<string>
  {
    if anchors == [] then {}
    else
      var last := anchors[|anchors| - 1];
      LinksOf(anchors[..|anchors| - 1], baseUrl, join)
      + (if Accepts(last, baseUrl, join) then {join(baseUrl, last.href.value)} else {})
  }

  /** A URL is collected exactly when some anchor passing every filter resolves to it. */
  lemma {:induction false} LinksOfMembers(anchors: seq<Anchor>, baseUrl: string, join: (string, string) -> string, u: string)
    ensures u in LinksOf(anchors, baseUrl, join) <==>
      exists k :: 0 <= k < |anchors| && Accepts(anchors[k], baseUrl, join) && join(baseUrl, anchors[k].href.value) == u
  {
    if anchors != [] {
      var init := anchors[..|anchors| - 1];
      LinksOfMembers(init, baseUrl, join, u);
      assert forall k :: 0 <= k < |init| ==> init[k] == anchors[k];
      if u in LinksOf(anchors, baseUrl, join) && u !in LinksOf(init, baseUrl, join) {
        assert Accepts(anchors[|anchors| - 1], baseUrl, join) && join(baseUrl, anchors[|anchors| - 1].href.value) == u;
      }
    }
  }

  /**
   * Every collected link is on the base URL's host, free of navigation junk, not the base page
   * itself modulo a trailing '/', and comes from an anchor with at least ten characters of text.
   */
  lemma ArticleLinksFiltered(anchors: seq<Anchor>, baseUrl: string, join: (string, string) -> string, u: string)
    requires u in LinksOf(anchors, baseUrl, join)
    ensures Url.Netloc(u) == Url.Netloc(baseUrl)
    ensures !ContainsAny(Lower(u), NavigationJunk)
    ensures RStripChar(u, '/') != RStripChar(baseUrl, '/')
    ensures exists k :: 0 <= k < |anchors| && |anchors[k].text| >= MinTitleLength && anchors[k].href.Some? && join(baseUrl, anchors[k].href.value) == u
  {
    LinksOfMembers(anchors, baseUrl, join, u);
  }

  /** When the page has an article container, anchors outside every article container contribute nothing. */
  lemma ContainersTakePrecedence(page: Listing, a: Anchor)
    requires exists k :: 0 <= k < |page.containers| && IsArticleContainer(page.containers[k])
    requires forall k :: 0 <= k < |page.containers| && IsArticleContainer(page.containers[k]) ==> a !in page.containers[k].anchors
    ensures a !in Candidates(page)
  {
  }

  /** When no container is an article container, every anchor with an href is a candidate. */
  lemma FallbackToAllAnchors(page: Listing, a: Anchor)
    requires forall k :: 0 <= k < |page.containers| ==> !IsArticleContainer(page.containers[k])
    requires a in page.anchors && HasHref(a)
    ensures a in Candidates(page)
  {
  }

  /** The article links of a listing page, collected into a set so that no link appears twice. */
  method FindArticleLinks(page: Listing, baseUrl: string, join: (string, string) -> string) returns (links: set<string>)
    ensures links == LinksOf(Candidates(page), baseUrl, join)
  {
    var candidates := Candidates(page);
    links := {};
    var i := 0;
    while i < |candidates|
      invariant 0 <= i <= |candidates|
      invariant links == LinksOf(candidates[..i], baseUrl, join)
    {
      var a := candidates[i];
      assert candidates[..i + 1][..i] == candidates[..i];
      if a.href.Some? {
        var full := join(baseUrl, a.href.value);
        if Url.Netloc(full) == Url.Netloc(baseUrl)
          && !ContainsAny(Lower(full), NavigationJunk)
          && RStripChar(full, '/') != RStripChar(baseUrl, '/')
          && |a.text| >= MinTitleLength
        {
          links := links + {full};
        }
      }
      i := i + 1;
    }
    assert candidates[..i] == candidates;
  }

  const PagerTexts: seq<string> := ["next", "next page", "older posts", ">"]

  /** An `href` attribute that Python treats as true: present and non-empty. */
  predicate UsableHref(e: Option<Anchor>) {
    e.Some? && e.value.href.Some? && e.value.href.value != ""
  }

  /** An anchor reading like "next page" whose target looks like a pagination URL. */
  predicate IsPager(a: Anchor) {
    && a.href.Some?
    && (Lower(a.text) in PagerTexts || Contains(Lower(a.text), "next page"))
    && (Contains(a.href.value, "/page/") || Contains(a.href.value, "paged="))
  }

  /** The first pager anchor among `anchors`, resolved against `current`. */
  function FirstPager(anchors: seq<Anchor>, current: string, join: (string, string) -> string): (r: Option<string>)
    ensures r.None? <==> forall k :: 0 <= k < |anchors| ==> !IsPager(anchors[k])
    ensures r.Some? ==> exists k :: (0 <= k < |anchors| && IsPager(anchors[k])
                                      && (forall j :: 0 <= j < k ==> !IsPager(anchors[j]))
                                      && r.value == join(current, anchors[k].href.value))
  {
    if anchors == [] then None
    else if IsPager(anchors[0]) then Some(join(current, anchors[0].href.value))
    else
      var r := FirstPager(anchors[1..], current, join);
      assert forall k :: 1 <= k < |anchors| ==> anchors[k] == anchors[1..][k - 1];
      if r.Some? then
        assert exists k :: (1 <= k < |anchors| && IsPager(anchors[k])
                            && (forall j :: 0 <= j < k ==> !IsPager(anchors[j]))
                            && r.value == join(current, anchors[k].href.value));
        r
      else r
  }

  /**
   * The next listing page: a `<link rel=next>` href wins, then an `<a rel=next>` href, then the
   * first pager anchor; each is resolved against the current URL.
   */
  function FindNextPage(view: NextView, current: string, join: (string, string) -> string): (r: Option<string>)
    ensures UsableHref(view.relLink) ==> r == Some(join(current, view.relLink.value.href.value))
    ensures !UsableHref(view.relLink) && UsableHref(view.relAnchor) ==> r == Some(join(current, view.relAnchor.value.href.value))
    ensures r.None? <==> (!UsableHref(view.relLink) && !UsableHref(view.relAnchor)
                          && forall k :: 0 <= k < |view.anchors| ==> !IsPager(view.anchors[k]))
  {
    if UsableHref(view.relLink) then Some(join(current, view.relLink.value.href.value))
    else if UsableHref(view.relAnchor) then Some(join(current, view.relAnchor.value.href.value))
    else FirstPager(view.anchors, current, join)
  }

  /** "Next Post" links are not pagination: an anchor reading "next post" is never picked as a pager. */
  lemma NextPostIsNotPager(a: Anchor)
    requires Lower(a.text) == "next post"
    ensures !IsPager(a)
  {
    assert Lower(a.text)[6] == 'o' && "next page"[6] == 'a';
    if Contains(Lower(a.text), "next page") {
      var i := ContainsWitness(Lower(a.text), "next page");
      assert false;
    }
  }
}
