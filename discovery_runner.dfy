/**
 * The date-bounded crawl of auto-discovery: starting from a homepage, scan listing pages for
 * article links, visit each article once, stop at the first article older than the start date,
 * skip articles newer than the end date, keep the official links the extractor finds, and
 * follow next-page links until none is left.
 *
 * The web is a value: what a URL fetches, how a body parses into a listing, next-page evidence
 * and date metadata, how a date string parses, and the page the extractor reads for a post.
 */
module DiscoveryRunner {
  import opened Wrappers
  import opened Text
  import opened Dates
  import Pagination
  import LinkScorer

  /** A `<meta>` element found on a page, with its `content` attribute when it has one. */
  datatype MetaTag = MetaTag(content: Option<string>)

  /**
   * The date metadata of an article page: the first `<meta property="article:published_time">`,
   * the first `<meta itemprop="datePublished">`, the first `<meta name="pubdate">`, and the
   * `datetime` attribute of the first `<time>`.
   */
  datatype PageMeta = PageMeta(
    publishedTime: Option<MetaTag>,
    datePublished: Option<MetaTag>,
    pubdate: Option<MetaTag>,
    timeDatetime: Option<string>)

  datatype Web = Web(
    fetch: string -> Option<Pagination.Response>,
    listing: string -> Pagination.Listing,
    nextView: string -> Pagination.NextView,
    meta: string -> PageMeta,
    parse: string -> Option<Date>,
    post: string -> Option<LinkScorer.Page>,
    join: (string, string) -> string)

  /** One extracted job: the article it came from, its publication date if known, and the link found. */
  datatype Found = Found(source: string, date: Option<Date>, link: LinkScorer.OfficialLink)

  /** What the crawl does with one article link. */
  datatype Verdict = Stop | Skip | Check(date: Option<Date>)

  datatype StopReason = FetchFailed | OldContent | NoMorePages | PageBudget

  datatype Outcome =
    | InvalidDates
    | Crawled(results: seq<Found>, pages: seq<string>, visited: set<string>, stop: StopReason)

  // ---------------------------------------------------------------- publication dates

  /** The regular expression `/(\d{4})/(\d{2})/(\d{2})/` matches at position `i` of `s`. */
  predicate DatePatternAt(s: string, i: nat) {
    && i + 12 <= |s|
    && s[i] == '/' && IsDigit(s[i + 1]) && IsDigit(s[i + 2]) && IsDigit(s[i + 3]) && IsDigit(s[i + 4])
    && s[i + 5] == '/' && IsDigit(s[i + 6]) && IsDigit(s[i + 7])
    && s[i + 8] == '/' && IsDigit(s[i + 9]) && IsDigit(s[i + 10])
    && s[i + 11] == '/'
  }

  /** `re.search`: the leftmost position at or after `from` where the date pattern matches. */
  function FirstDatePattern(s: string, from: nat): (r: Option<nat>)
    ensures r.Some? ==> (from <= r.value && DatePatternAt(s, r.value)
                         && forall j :: from <= j < r.value ==> !DatePatternAt(s, j))
    ensures r.None? ==> forall j :: from <= j ==> !DatePatternAt(s, j)
    decreases |s| - from
  {
    if from + 12 > |s| then None
    else if DatePatternAt(s, from) then Some(from)
    else FirstDatePattern(s, from + 1)
  }

  /** The date the three captured groups at position `i` spell, before any validity check. */
  function PatternDate(s: string, i: nat): Date
    requires DatePatternAt(s, i)
  {
    Date(1000 * DigitValue(s[i + 1]) + 100 * DigitValue(s[i + 2]) + 10 * DigitValue(s[i + 3]) + DigitValue(s[i + 4]),
         10 * DigitValue(s[i + 6]) + DigitValue(s[i + 7]),
         10 * DigitValue(s[i + 9]) + DigitValue(s[i + 10]))
  }

  /** A `content` or `datetime` attribute Python treats as true. */
  predicate Present(a: Option<string>) {
    a.Some? && a.value != ""
  }

  /** The date in the URL: `None` without a dated segment, and `None` for an impossible date, whose error is swallowed. */
  function UrlDate(url: string): (r: Option<Date>)
    ensures r.Some? ==> FirstDatePattern(url, 0).Some? && ValidDate(r.value)
  {
    match FirstDatePattern(url, 0)
    case Some(i) =>
      var d := PatternDate(url, i);
      if ValidDate(d) then Some(d) else None
    case None => None
  }

  /** The `<time>` step: the parsed `datetime` attribute when it is non-empty. */
  function TimeTagDate(m: PageMeta, parse: string -> Option<Date>): Option<Date> {
    if Present(m.timeDatetime) then parse(m.timeDatetime.value) else None
  }

  /** `a or b or c` over the three publication `<meta>` lookups: the first one found. */
  function FirstMeta(m: PageMeta): (r: Option<MetaTag>)
    ensures r.None? <==> m.publishedTime.None? && m.datePublished.None? && m.pubdate.None?
    ensures m.publishedTime.Some? ==> r == m.publishedTime
  {
    if m.publishedTime.Some? then m.publishedTime
    else if m.datePublished.Some? then m.datePublished
    else m.pubdate
  }

  /**
   * `extract_date_from_page` as written. The third lookup, `soup.find('meta', name='pubdate')`,
   * passes `name` twice to `find`, which raises `TypeError`; the bare `except` turns that into
   * `None`. So when neither of the first two `<meta>` elements exists the date is `None`, and the
   * `<time>` element is read only when one of them exists without a usable `content`.
   */
  function ExtractDateAsWritten(page: Option<PageMeta>, url: string, parse: string -> Option<Date>): (r: Option<Date>)
    ensures FirstDatePattern(url, 0).Some? ==> r == UrlDate(url)
    ensures FirstDatePattern(url, 0).None? && page.Some? && page.value.publishedTime.None? && page.value.datePublished.None? ==> r.None?
  {
    if FirstDatePattern(url, 0).Some? then UrlDate(url)
    else
      match page
      case None => None
      case Some(m) =>
        var standard := if m.publishedTime.Some? then m.publishedTime else m.datePublished;
        if standard.None? then None
        else if Present(standard.value.content) then parse(standard.value.content.value)
        else TimeTagDate(m, parse)
  }

  /**
   * The publication date the crawl uses, as `extract_date_from_page` evidently intends: a date in
   * the URL wins; otherwise the first publication `<meta>` found (the `pubdate` one looked up by
   * its `name` attribute) when its `content` is non-empty, and else the `<time>` element. Without
   * a page only the URL is consulted.
   */
  function ExtractDate(page: Option<PageMeta>, url: string, parse: string -> Option<Date>): (r: Option<Date>)
    ensures r.Some? && FirstDatePattern(url, 0).Some? ==> ValidDate(r.value)
    ensures FirstDatePattern(url, 0).Some? ==> r == UrlDate(url)
    ensures FirstDatePattern(url, 0).None? && page.None? ==> r.None?
  {
    if FirstDatePattern(url, 0).Some? then UrlDate(url)
    else
      match page
      case None => None
      case Some(m) =>
        var chosen := FirstMeta(m);
        if chosen.Some? && Present(chosen.value.content) then parse(chosen.value.content.value)
        else TimeTagDate(m, parse)
  }

  /**
   * The two agree whenever the URL carries a date or one of the first two `<meta>` elements exists:
   * the only difference is the `TypeError` of the third lookup.
   */
  lemma AsWrittenAgreesWithStandardMeta(page: Option<PageMeta>, url: string, parse: string -> Option<Date>)
    requires FirstDatePattern(url, 0).Some? || page.None? || page.value.publishedTime.Some? || page.value.datePublished.Some?
    ensures ExtractDateAsWritten(page, url, parse) == ExtractDate(page, url, parse)
  {
  }

  /**
   * The discrepancy: an article page with no publication `<meta>` but `<time datetime="2020-01-01">`
   * and no date in its URL is undated as written, while the intended reading dates it by the
   * `<time>` element.
   */
  lemma AsWrittenIgnoresTimeTag(url: string, parse: string -> Option<Date>)
    requires FirstDatePattern(url, 0).None? && parse("2020-01-01").Some?
    ensures var page := Some(PageMeta(None, None, None, Some("2020-01-01")));
      && ExtractDateAsWritten(page, url, parse) == None
      && ExtractDate(page, url, parse) == parse("2020-01-01")
      && ExtractDate(page, url, parse) != ExtractDateAsWritten(page, url, parse)
  {
  }

  /**
   * The intended order of evidence without a URL date: the first `<meta>` found decides when its
   * `content` is non-empty; otherwise, and in particular when no publication `<meta>` exists, the
   * `<time>` element decides.
   */
  lemma MetaThenTimeTag(m: PageMeta, url: string, parse: string -> Option<Date>)
    requires FirstDatePattern(url, 0).None?
    ensures var chosen := FirstMeta(m);
      && (chosen.Some? && Present(chosen.value.content) ==> ExtractDate(Some(m), url, parse) == parse(chosen.value.content.value))
      && (!(chosen.Some? && Present(chosen.value.content)) ==> ExtractDate(Some(m), url, parse) == TimeTagDate(m, parse))
      && (chosen.None? && Present(m.timeDatetime) ==> ExtractDate(Some(m), url, parse) == parse(m.timeDatetime.value))
  {
  }

  /** A date in the URL settles the question: the page's metadata is never consulted. */
  lemma UrlDateTakesPrecedence(url: string, m: PageMeta, parse: string -> Option<Date>)
    requires FirstDatePattern(url, 0).Some?
    ensures ExtractDate(Some(m), url, parse) == ExtractDate(None, url, parse)
  {
  }

  /** A URL whose first dated segment names an impossible date yields no date at all. */
  lemma ImpossibleUrlDateGivesNone(url: string, page: Option<PageMeta>, parse: string -> Option<Date>)
    requires FirstDatePattern(url, 0).Some? && !ValidDate(PatternDate(url, FirstDatePattern(url, 0).value))
    ensures ExtractDate(page, url, parse) == None
  {
  }

  /** Month 13 in the URL: no date, and the page's metadata is not consulted either. */
  lemma MonthThirteenGivesNone(rest: string, page: Option<PageMeta>, parse: string -> Option<Date>)
    ensures ExtractDate(page, "/2024/13/01/" + rest, parse) == None
  {
    var url := "/2024/13/01/" + rest;
    assert DatePatternAt(url, 0);
    assert PatternDate(url, 0).month == 13;
    ImpossibleUrlDateGivesNone(url, page, parse);
  }

  /** The URL segment `/YYYY/MM/DD/` for a date, zero-padded. */
  function DateSegment(d: Date): (s: string)
    requires ValidDate(d)
    ensures |s| == 12
  {
    "/" + FormatIso(d)[..4] + "/" + FormatIso(d)[5..7] + "/" + FormatIso(d)[8..] + "/"
  }

  /** A URL that starts with the dated segment of `d` has publication date `d`, whatever the page says. */
  lemma DatedUrlRoundTrip(d: Date, rest: string, page: Option<PageMeta>, parse: string -> Option<Date>)
    requires ValidDate(d)
    ensures ExtractDate(page, DateSegment(d) + rest, parse) == Some(d)
  {
    var url := DateSegment(d) + rest;
    var iso := FormatIso(d);
    DigitsOfFormat(d);
    assert url[1] == iso[0] && url[2] == iso[1] && url[3] == iso[2] && url[4] == iso[3];
    assert url[6] == iso[5] && url[7] == iso[6] && url[9] == iso[8] && url[10] == iso[9];
    assert DatePatternAt(url, 0);
    assert PatternDate(url, 0) == d;
  }

  /** The digits `FormatIso` writes, read back. */
  lemma DigitsOfFormat(d: Date)
    requires ValidDate(d)
    ensures var s := FormatIso(d);
      && IsDigit(s[0]) && IsDigit(s[1]) && IsDigit(s[2]) && IsDigit(s[3])
      && IsDigit(s[5]) && IsDigit(s[6]) && IsDigit(s[8]) && IsDigit(s[9])
      && 1000 * DigitValue(s[0]) + 100 * DigitValue(s[1]) + 10 * DigitValue(s[2]) + DigitValue(s[3]) == d.year
      && 10 * DigitValue(s[5]) + DigitValue(s[6]) == d.month
      && 10 * DigitValue(s[8]) + DigitValue(s[9]) == d.day
  {
    FourDigits(d.year);
  }

  // ---------------------------------------------------------------- one article

  /** `get_page_content` followed by the crawl's `if not html` test: a non-empty body and its final URL. */
  function FetchPage(web: Web, url: string): (r: Option<(string, string)>)
    ensures r.Some? ==> r.value.0 != "" && Pagination.GetPageContent(web.fetch(url)) == Some(r.value)
    ensures r.None? ==> Pagination.GetPageContent(web.fetch(url)).None? || Pagination.GetPageContent(web.fetch(url)).value.0 == ""
  {
    var c := Pagination.GetPageContent(web.fetch(url));
    if c.Some? && c.value.0 != "" then c else None
  }

  /** The date in the link itself is older than the start date. */
  predicate OldByUrl(link: string, start: Date, web: Web) {
    var d := ExtractDate(None, link, web.parse);
    d.Some? && DateLt(d.value, start)
  }

  /** The publication date of a fetched article; `None` when the article cannot be fetched. */
  function ArticleDate(link: string, web: Web): Option<Date> {
    match FetchPage(web, link)
    case None => None
    case Some((html, _)) => ExtractDate(Some(web.meta(html)), link, web.parse)
  }

  /** The fetched article is dated after the end date and not before the start date. */
  predicate TooNew(link: string, start: Date, end: Date, web: Web) {
    var d := ArticleDate(link, web);
    d.Some? && !DateLt(d.value, start) && DateLt(end, d.value)
  }

  /**
   * The decision for one unvisited article link: an old date in its URL stops the crawl before
   * the article is fetched; an unfetchable article is skipped; an old publication date stops the
   * crawl, a future one is skipped; anything else, dated or not, is checked for a job link.
   */
  function Decide(link: string, start: Date, end: Date, web: Web): (r: Verdict)
    ensures r == Stop <==> OldByUrl(link, start, web) || (ArticleDate(link, web).Some? && DateLt(ArticleDate(link, web).value, start))
    ensures r == Skip <==> !OldByUrl(link, start, web) && (FetchPage(web, link).None? || TooNew(link, start, end, web))
    ensures r.Check? ==> r.date == ArticleDate(link, web) && FetchPage(web, link).Some?
  {
    var urlDate := ExtractDate(None, link, web.parse);
    if urlDate.Some? && DateLt(urlDate.value, start) then Stop
    else
      match FetchPage(web, link)
      case None => Skip
      case Some((html, _)) =>
        var published := ExtractDate(Some(web.meta(html)), link, web.parse);
        if published.Some? && DateLt(published.value, start) then Stop
        else if published.Some? && DateLt(end, published.value) then Skip
        else Check(published)
  }

  /** A checked article is undated or dated inside the window, and a URL-dated one keeps its URL date. */
  lemma CheckedArticlesInWindow(link: string, start: Date, end: Date, web: Web)
    requires Decide(link, start, end, web).Check?
    ensures var d := Decide(link, start, end, web).date;
      d.Some? ==> DateLe(start, d.value) && DateLe(d.value, end)
    ensures FirstDatePattern(link, 0).Some? ==> Decide(link, start, end, web).date == ExtractDate(None, link, web.parse)
  {
    var d := Decide(link, start, end, web).date;
    if d.Some? {
      DateLtTotal(d.value, start);
      DateLtTotal(end, d.value);
    }
  }

  /** `DateLt` is the strict part of a total order. */
  lemma DateLtTotal(a: Date, b: Date)
    ensures !DateLt(a, b) <==> DateLe(b, a)
  {
  }

  /** A link whose URL date precedes the start stops the crawl whatever the site serves. */
  lemma OldUrlStopsWithoutFetch(link: string, start: Date, end: Date, web: Web, other: Web)
    requires other.parse == web.parse
    requires var d := ExtractDate(None, link, web.parse); d.Some? && DateLt(d.value, start)
    ensures Decide(link, start, end, web) == Stop && Decide(link, start, end, other) == Stop
  {
  }

  /** What the extractor answers for an article. */
  function Extract(web: Web, link: string): Option<LinkScorer.OfficialLink> {
    LinkScorer.ExtractOfficialLink(web.post(link), link)
  }

  /** The per-link decision and extraction of one crawl, as functions of the link. */
  function Decider(start: Date, end: Date, web: Web): string -> Verdict {
    l => Decide(l, start, end, web)
  }

  function Extractor(web: Web): string -> Option<LinkScorer.OfficialLink> {
    l => Extract(web, l)
  }

  /** A result is sound when its article was checked, its date is the one decided and its link is the extractor's answer. */
  predicate Sound(f: Found, decide: string -> Verdict, extract: string -> Option<LinkScorer.OfficialLink>) {
    decide(f.source) == Check(f.date) && extract(f.source) == Some(f.link)
  }

  predicate DistinctSources(fs: seq<Found>) {
    forall i, j :: 0 <= i < j < |fs| ==> fs[i].source != fs[j].source
  }

  /** Every checked article among `links` whose extraction answers has a result in `fs`. */
  predicate Complete(fs: seq<Found>, links: set<string>, decide: string -> Verdict,
                     extract: string -> Option<LinkScorer.OfficialLink>) {
    forall l :: l in links && decide(l).Check? && extract(l).Some? ==>
      exists k :: 0 <= k < |fs| && fs[k].source == l
  }

  /** `l` is the one link among `links` whose verdict is `Stop`. */
  predicate OnlyStop(l: string, links: set<string>, decide: string -> Verdict) {
    decide(l) == Stop && forall l' :: l' in links && l' != l ==> decide(l') != Stop
  }

  /**
   * The article loop of one listing page. Links already visited are passed over; each new link
   * is marked visited, then decided; the first `Stop` ends the loop at once.
   */
  method ScanArticles(links: set<string>, visited: set<string>, decide: string -> Verdict,
                      extract: string -> Option<LinkScorer.OfficialLink>)
    returns (visitedOut: set<string>, found: seq<Found>, stopped: bool)
    ensures visited <= visitedOut <= visited + links
    ensures !stopped ==> visitedOut == visited + links
    ensures !stopped <==> forall l :: l in links - visited ==> decide(l) != Stop
    ensures stopped ==> exists l :: l in visitedOut - visited && OnlyStop(l, visitedOut - visited, decide)
    ensures forall k :: 0 <= k < |found| ==> found[k].source in visitedOut - visited && Sound(found[k], decide, extract)
    ensures DistinctSources(found)
    ensures Complete(found, visitedOut - visited, decide, extract)
  {
    var remaining := links;
    visitedOut := visited;
    found := [];
    stopped := false;
    while remaining != {}
      invariant remaining <= links
      invariant visitedOut == visited + (links - remaining)
      invariant forall k :: 0 <= k < |found| ==> found[k].source in visitedOut - visited && Sound(found[k], decide, extract)
      invariant DistinctSources(found)
      invariant Complete(found, visitedOut - visited, decide, extract)
      invariant forall l :: l in visitedOut - visited ==> decide(l) != Stop
      invariant !stopped
      decreases remaining
    {
      var link :| link in remaining;
      remaining := remaining - {link};
      if link in visitedOut {
        continue;
      }
      visitedOut := visitedOut + {link};
      match decide(link)
      case Stop =>
        assert link in links - visited;
        assert OnlyStop(link, visitedOut - visited, decide);
        stopped := true;
        return;
      case Skip =>
      case Check(date) =>
        var data := extract(link);
        if data.Some? {
          ghost var before := found;
          found := found + [Found(link, date, data.value)];
          assert found[|before|].source == link;
          assert forall k :: 0 <= k < |before| ==> found[k] == before[k];
        }
    }
  }

  // ---------------------------------------------------------------- the crawl

  /** The next listing page a fetched listing page points to. */
  function ListingNext(web: Web, url: string): Option<string> {
    match FetchPage(web, url)
    case None => None
    case Some((html, finalUrl)) => Pagination.FindNextPage(web.nextView(html), finalUrl, web.join)
  }

  /** The article links of a listing page; a page that cannot be fetched has none. */
  function PageLinks(web: Web, url: string): set<string> {
    match FetchPage(web, url)
    case None => {}
    case Some((html, finalUrl)) => Pagination.LinksOf(Pagination.Candidates(web.listing(html)), finalUrl, web.join)
  }

  /** The article links of all the listing pages in `pages`. */
  function LinksOfPages(web: Web, pages: seq<string>): set<string> {
    if pages == [] then {} else LinksOfPages(web, pages[..|pages| - 1]) + PageLinks(web, pages[|pages| - 1])
  }

  /** Consecutive listing pages are linked by their next-page links. */
  predicate Chained(pages: seq<string>, web: Web) {
    forall j :: 0 <= j < |pages| - 1 ==> ListingNext(web, pages[j]) == Some(pages[j + 1])
  }

  /** How the crawl goes on after one listing page. */
  datatype Step = Failed | Stopped | Continue(next: string) | Done

  /**
   * One turn of the crawl loop: fetch the listing page, scan its article links, then look for a
   * next page that is not among the visited article links.
   */
  method ScanPage(web: Web, current: string, visited: set<string>, decide: string -> Verdict,
                  extract: string -> Option<LinkScorer.OfficialLink>)
    returns (visitedOut: set<string>, found: seq<Found>, step: Step)
    ensures step.Failed? <==> FetchPage(web, current).None?
    ensures step.Failed? ==> visitedOut == visited && found == []
    ensures visited <= visitedOut <= visited + PageLinks(web, current)
    ensures !step.Stopped? ==> visitedOut == visited + PageLinks(web, current)
    ensures step.Stopped? ==> exists l :: l in visitedOut - visited && OnlyStop(l, visitedOut - visited, decide)
    ensures !step.Stopped? ==> forall l :: l in visitedOut - visited ==> decide(l) != Stop
    ensures step.Continue? ==> ListingNext(web, current) == Some(step.next) && step.next != "" && step.next !in visitedOut
    ensures step.Done? ==>
      var next := ListingNext(web, current);
      next.None? || next.value == "" || next.value in visitedOut
    ensures forall k :: 0 <= k < |found| ==> found[k].source in visitedOut - visited && Sound(found[k], decide, extract)
    ensures DistinctSources(found)
    ensures Complete(found, visitedOut - visited, decide, extract)
  {
    var page := FetchPage(web, current);
    if page.None? {
      return visited, [], Failed;
    }
    var html, finalUrl := page.value.0, page.value.1;
    var links := Pagination.FindArticleLinks(web.listing(html), finalUrl, web.join);
    var stopped;
    visitedOut, found, stopped := ScanArticles(links, visited, decide, extract);
    if stopped {
      return visitedOut, found, Stopped;
    }
    var next := Pagination.FindNextPage(web.nextView(html), finalUrl, web.join);
    if next.Some? && next.value != "" && next.value !in visitedOut {
      step := Continue(next.value);
    } else {
      step := Done;
    }
  }

  /**
   * `run`: parse the date window, then scan at most `maxPages` listing pages. The result lists
   * the extracted jobs, the listing pages scanned, the article links visited and why it stopped.
   */
  method Run(homepage: string, startText: string, endText: string, web: Web, maxPages: nat) returns (outcome: Outcome)
    ensures outcome.InvalidDates? <==> ParseIsoDate(startText).None? || ParseIsoDate(endText).None?
    ensures outcome.Crawled? ==>
      var decide := Decider(ParseIsoDate(startText).value, ParseIsoDate(endText).value, web);
      && (forall k :: 0 <= k < |outcome.results| ==>
            outcome.results[k].source in outcome.visited && Sound(outcome.results[k], decide, Extractor(web)))
      && DistinctSources(outcome.results)
      && Complete(outcome.results, outcome.visited, decide, Extractor(web))
      && |outcome.pages| <= maxPages
      && (outcome.pages != [] ==> outcome.pages[0] == homepage)
      && Chained(outcome.pages, web)
    ensures outcome.Crawled? && outcome.stop == FetchFailed ==>
      outcome.pages != [] && FetchPage(web, outcome.pages[|outcome.pages| - 1]).None?
    ensures outcome.Crawled? && outcome.stop == OldContent ==>
      exists l :: l in outcome.visited && Decide(l, ParseIsoDate(startText).value, ParseIsoDate(endText).value, web) == Stop
    ensures outcome.Crawled? && outcome.stop == OldContent ==>
      exists l :: l in outcome.visited && OnlyStop(l, outcome.visited, Decider(ParseIsoDate(startText).value, ParseIsoDate(endText).value, web))
    ensures outcome.Crawled? && outcome.stop != OldContent ==>
      forall l :: l in outcome.visited ==> Decide(l, ParseIsoDate(startText).value, ParseIsoDate(endText).value, web) != Stop
    ensures outcome.Crawled? && outcome.stop == NoMorePages ==>
      if outcome.pages == [] then homepage == ""
      else
        var next := ListingNext(web, outcome.pages[|outcome.pages| - 1]);
        next.None? || next.value == "" || next.value in outcome.visited
    ensures outcome.Crawled? && outcome.stop == PageBudget ==> |outcome.pages| == maxPages
    ensures outcome.Crawled? && outcome.stop != OldContent ==> outcome.visited == LinksOfPages(web, outcome.pages)
    ensures outcome.Crawled? && outcome.stop == FetchFailed ==>
      outcome.visited == LinksOfPages(web, outcome.pages[..|outcome.pages| - 1])
    ensures outcome.Crawled? && outcome.stop == OldContent ==>
      && outcome.pages != []
      && LinksOfPages(web, outcome.pages[..|outcome.pages| - 1]) <= outcome.visited <= LinksOfPages(web, outcome.pages)
  {
    var s := ParseIsoDate(startText);
    var e := ParseIsoDate(endText);
    if s.None? || e.None? {
      return InvalidDates;
    }
    var decide, extract := Decider(s.value, e.value, web), Extractor(web);
    var results, pages, visited, step := Crawl(homepage, web, maxPages, decide, extract);
    match step
    case Failed =>
      // A listing page that cannot be fetched adds no links.
      assert pages == pages[..|pages| - 1] + [pages[|pages| - 1]];
      LinksOfPagesAppend(web, pages[..|pages| - 1], pages[|pages| - 1]);
      outcome := Crawled(results, pages, visited, FetchFailed);
    case Stopped => outcome := Crawled(results, pages, visited, OldContent);
    case Done => outcome := Crawled(results, pages, visited, NoMorePages);
    case Continue(next) => outcome := Crawled(results, pages, visited, if next == "" then NoMorePages else PageBudget);
  }

  /**
   * The crawl loop of `run`: scan listing pages from `homepage` while the last step names a next
   * page and fewer than `maxPages` pages were scanned. The final step says why the loop ended.
   */
  method Crawl(homepage: string, web: Web, maxPages: nat, decide: string -> Verdict,
               extract: string -> Option<LinkScorer.OfficialLink>)
    returns (results: seq<Found>, pages: seq<string>, visited: set<string>, step: Step)
    ensures !(step.Continue? && step.next != "" && |pages| < maxPages)
    ensures |pages| <= maxPages
    ensures forall k :: 0 <= k < |results| ==> results[k].source in visited && Sound(results[k], decide, extract)
    ensures DistinctSources(results)
    ensures Complete(results, visited, decide, extract)
    ensures Chained(pages, web)
    ensures pages == [] ==> step == Continue(homepage)
    ensures pages != [] ==> pages[0] == homepage
    ensures pages != [] && step.Continue? ==> ListingNext(web, pages[|pages| - 1]) == Some(step.next)
    ensures step.Failed? ==> pages != [] && FetchPage(web, pages[|pages| - 1]).None?
    ensures step.Done? ==>
      && pages != []
      && var next := ListingNext(web, pages[|pages| - 1]);
         next.None? || next.value == "" || next.value in visited
    ensures step.Stopped? ==>
      && pages != [] && (exists l :: l in visited && OnlyStop(l, visited, decide))
      && LinksOfPages(web, pages[..|pages| - 1]) <= visited <= LinksOfPages(web, pages)
    ensures !step.Stopped? ==> (forall l :: l in visited ==> decide(l) != Stop) && visited == LinksOfPages(web, pages)
  {
    visited, results, pages := {}, [], [];
    // The loop goes on while the last step names a next page; any other step ends it.
    step := Continue(homepage);
    while step.Continue? && step.next != "" && |pages| < maxPages
      invariant |pages| <= maxPages
      invariant forall k :: 0 <= k < |results| ==> results[k].source in visited && Sound(results[k], decide, extract)
      invariant DistinctSources(results)
      invariant Complete(results, visited, decide, extract)
      invariant Chained(pages, web)
      invariant pages == [] ==> step == Continue(homepage)
      invariant pages != [] ==> pages[0] == homepage
      invariant pages != [] && step.Continue? ==> ListingNext(web, pages[|pages| - 1]) == Some(step.next)
      invariant step.Failed? ==> pages != [] && FetchPage(web, pages[|pages| - 1]).None?
      invariant step.Done? ==>
        && pages != []
        && var next := ListingNext(web, pages[|pages| - 1]);
           next.None? || next.value == "" || next.value in visited
      invariant step.Stopped? ==>
        && pages != [] && (exists l :: l in visited && OnlyStop(l, visited, decide))
        && LinksOfPages(web, pages[..|pages| - 1]) <= visited <= LinksOfPages(web, pages)
      invariant !step.Stopped? ==> (forall l :: l in visited ==> decide(l) != Stop) && visited == LinksOfPages(web, pages)
      decreases maxPages - |pages|
    {
      var current := step.next;
      ChainExtend(pages, current, web);
      LinksOfPagesAppend(web, pages, current);
      ghost var prior, before := pages, visited;
      pages := pages + [current];
      var visitedOut, found;
      visitedOut, found, step := ScanPage(web, current, visited, decide, extract);
      AppendResults(results, found, visited, visitedOut, decide, extract);
      results, visited := results + found, visitedOut;
      assert pages[..|pages| - 1] == prior;
      if step.Stopped? {
        ghost var l :| l in visitedOut - before && OnlyStop(l, visitedOut - before, decide);
        assert OnlyStop(l, visited, decide);
      }
    }
  }

  /** A page the last page links to extends the chain. */
  lemma ChainExtend(pages: seq<string>, current: string, web: Web)
    requires Chained(pages, web)
    requires pages != [] ==> ListingNext(web, pages[|pages| - 1]) == Some(current)
    ensures Chained(pages + [current], web)
  {
    var all := pages + [current];
    forall j | 0 <= j < |all| - 1
      ensures ListingNext(web, all[j]) == Some(all[j + 1])
    {
      if j < |pages| - 1 {
        assert all[j] == pages[j] && all[j + 1] == pages[j + 1];
      }
    }
  }

  /** A page appended to the chain adds its article links. */
  lemma LinksOfPagesAppend(web: Web, pages: seq<string>, page: string)
    ensures LinksOfPages(web, pages + [page]) == LinksOfPages(web, pages) + PageLinks(web, page)
  {
    assert (pages + [page])[..|pages|] == pages;
  }

  /** Appending one page's results keeps the accumulated results sound, distinct and complete. */
  lemma AppendResults(results: seq<Found>, found: seq<Found>, visited: set<string>, visitedOut: set<string>,
                      decide: string -> Verdict, extract: string -> Option<LinkScorer.OfficialLink>)
    requires visited <= visitedOut
    requires forall k :: 0 <= k < |results| ==> results[k].source in visited && Sound(results[k], decide, extract)
    requires DistinctSources(results) && Complete(results, visited, decide, extract)
    requires forall k :: 0 <= k < |found| ==> found[k].source in visitedOut - visited && Sound(found[k], decide, extract)
    requires DistinctSources(found) && Complete(found, visitedOut - visited, decide, extract)
    ensures forall k :: 0 <= k < |results + found| ==>
      (results + found)[k].source in visitedOut && Sound((results + found)[k], decide, extract)
    ensures DistinctSources(results + found)
    ensures Complete(results + found, visitedOut, decide, extract)
  {
    var all := results + found;
    forall l | l in visitedOut && decide(l).Check? && extract(l).Some?
      ensures exists k :: 0 <= k < |all| && all[k].source == l
    {
      if l in visited {
        var k :| 0 <= k < |results| && results[k].source == l;
        assert all[k].source == l;
      } else {
        var k :| 0 <= k < |found| && found[k].source == l;
        assert all[|results| + k].source == l;
      }
    }
  }
}
