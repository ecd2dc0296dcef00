/**
 * The original single-site scraper: a sitemap reader whose date test has only a lower bound, a
 * first-match apply-link extractor that walks keywords, then labels, then the label's enclosing
 * and following anchors, the loop that runs the extractor over the sitemap's entries, and the
 * file-name slug taken from the sitemap's host. Documents arrive parsed.
 */
module LegacyScraper {
  import opened Wrappers
  import opened Text
  import opened Dates
  import Url
  import SitemapParser
  import LinkScorer

  // ---------------------------------------------------------------------------------------------
  // Reading the sitemap

  /** The status of the sitemap response and its two readings; `None` stands for a request that raised. */
  datatype Fetched = Fetched(status: int, doc: SitemapParser.Response)

  /** The legacy `parse_date`: the date part must parse and fall on or after the cutoff; there is no end. */
  function ParseDate(text: Option<string>, cutoff: DateTime): (r: Option<string>)
    ensures r.Some? <==>
      && text.Some? && text.value != ""
      && ParseIsoDate(SitemapParser.DatePart(text.value)).Some?
      && Le(cutoff, Midnight(ParseIsoDate(SitemapParser.DatePart(text.value)).value))
    ensures r.Some? ==> r.value == SitemapParser.DatePart(text.value)
  {
    if text.None? || text.value == "" then None
    else
      var part := SitemapParser.DatePart(text.value);
      match ParseIsoDate(part)
      case None => None
      case Some(d) => if Le(cutoff, Midnight(d)) then Some(part) else None
  }

  /** The last moment `datetime` can represent to a second: no parsed date lies after it. */
  const LastMoment := EndOfDay(Date(9999, 12, 31))

  /** The lower-bound-only test is the windowed test of the newer reader with the end pushed past every date. */
  lemma ParseDateIsUnboundedWindow(text: Option<string>, cutoff: DateTime)
    ensures ParseDate(text, cutoff) == SitemapParser.ParseDate(text, SitemapParser.Window(cutoff, LastMoment))
  {
    if text.Some? && text.value != "" {
      var d := ParseIsoDate(SitemapParser.DatePart(text.value));
      if d.Some? {
        assert ValidDate(d.value);
        assert Le(Midnight(d.value), LastMoment);
      }
    }
  }

  /** A date far in the future passes the legacy test, where the newer reader's end would reject it. */
  lemma FutureDatesAccepted(text: string, cutoff: DateTime, d: Date)
    requires text != "" && ParseIsoDate(SitemapParser.DatePart(text)) == Some(d)
    requires Le(cutoff, Midnight(d))
    ensures ParseDate(Some(text), cutoff) == Some(SitemapParser.DatePart(text))
  {
  }

  /** A `<url>` element contributes when its `loc` has text, it has a `lastmod`, and that date passes. */
  function XmlEntry(tag: SitemapParser.UrlTag, cutoff: DateTime): Option<SitemapParser.Entry> {
    if tag.loc.Some? && tag.loc.value.text.Some? && tag.loc.value.text.value != "" && tag.lastmod.Some? then
      match ParseDate(tag.lastmod.value.text, cutoff)
      case None => None
      case Some(date) => Some(SitemapParser.Entry(tag.loc.value.text, date))
    else None
  }

  /** A table row contributes when it has cells, a link in the first, and a passing date in the last. */
  function HtmlEntry(row: SitemapParser.HtmlRow, cutoff: DateTime): Option<SitemapParser.Entry> {
    if row.cells == [] then None
    else
      var first := row.cells[0];
      if first.href.Some? && first.href.value != "" then
        match ParseDate(Some(row.cells[|row.cells| - 1].text), cutoff)
        case None => None
        case Some(date) => Some(SitemapParser.Entry(first.href, date))
      else None
  }

  function XmlSpec(tags: seq<SitemapParser.UrlTag>, cutoff: DateTime): seq<SitemapParser.Entry> {
    SitemapParser.Collect(tags, t => XmlEntry(t, cutoff))
  }

  function HtmlSpec(rows: seq<SitemapParser.HtmlRow>, cutoff: DateTime): seq<SitemapParser.Entry> {
    SitemapParser.Collect(rows, r => HtmlEntry(r, cutoff))
  }

  /** The XML entries are exactly those of `<url>` elements with a `loc` text and a passing `lastmod`. */
  lemma LegacyXmlEntries(tags: seq<SitemapParser.UrlTag>, cutoff: DateTime)
    ensures forall e :: e in XmlSpec(tags, cutoff) <==>
      exists k :: 0 <= k < |tags| && tags[k].loc.Some? && tags[k].loc.value.text.Some? && tags[k].loc.value.text.value != ""
        && tags[k].lastmod.Some? && ParseDate(tags[k].lastmod.value.text, cutoff) == Some(e.date)
        && e.url == tags[k].loc.value.text
  {
    SitemapParser.CollectMembers(tags, t => XmlEntry(t, cutoff));
  }

  /** Every legacy entry, from either reading, carries a non-empty URL and a date on or after the cutoff. */
  lemma LegacyEntriesAfterCutoff(tags: seq<SitemapParser.UrlTag>, rows: seq<SitemapParser.HtmlRow>, cutoff: DateTime)
    ensures forall e :: e in XmlSpec(tags, cutoff) + HtmlSpec(rows, cutoff) ==>
      && e.url.Some? && e.url.value != ""
      && ParseIsoDate(e.date).Some? && Le(cutoff, Midnight(ParseIsoDate(e.date).value))
  {
    XmlEntriesAfterCutoff(tags, cutoff);
    HtmlEntriesAfterCutoff(rows, cutoff);
  }

  lemma XmlEntriesAfterCutoff(tags: seq<SitemapParser.UrlTag>, cutoff: DateTime)
    ensures forall e :: e in XmlSpec(tags, cutoff) ==>
      && e.url.Some? && e.url.value != ""
      && ParseIsoDate(e.date).Some? && Le(cutoff, Midnight(ParseIsoDate(e.date).value))
  {
    SitemapParser.CollectMembers(tags, t => XmlEntry(t, cutoff));
    forall e | e in XmlSpec(tags, cutoff)
      ensures e.url.Some? && e.url.value != ""
      ensures ParseIsoDate(e.date).Some? && Le(cutoff, Midnight(ParseIsoDate(e.date).value))
    {
      var k :| 0 <= k < |tags| && XmlEntry(tags[k], cutoff) == Some(e);
      AcceptedAfterCutoff(tags[k].lastmod.value.text, cutoff, e.date);
    }
  }

  lemma HtmlEntriesAfterCutoff(rows: seq<SitemapParser.HtmlRow>, cutoff: DateTime)
    ensures forall e :: e in HtmlSpec(rows, cutoff) ==>
      && e.url.Some? && e.url.value != ""
      && ParseIsoDate(e.date).Some? && Le(cutoff, Midnight(ParseIsoDate(e.date).value))
  {
    SitemapParser.CollectMembers(rows, r => HtmlEntry(r, cutoff));
    forall e | e in HtmlSpec(rows, cutoff)
      ensures e.url.Some? && e.url.value != ""
      ensures ParseIsoDate(e.date).Some? && Le(cutoff, Midnight(ParseIsoDate(e.date).value))
    {
      var k :| 0 <= k < |rows| && HtmlEntry(rows[k], cutoff) == Some(e);
      AcceptedAfterCutoff(Some(rows[k].cells[|rows[k].cells| - 1].text), cutoff, e.date);
    }
  }

  /** What the legacy test accepts is a date on or after the cutoff. */
  lemma AcceptedAfterCutoff(text: Option<string>, cutoff: DateTime, date: string)
    requires ParseDate(text, cutoff) == Some(date)
    ensures ParseIsoDate(date).Some? && Le(cutoff, Midnight(ParseIsoDate(date).value))
  {
  }

  /** The loop both branches run: append the entries the elements contribute, in order. */
  method Gather<T>(xs: seq<T>, f: T -> Option<SitemapParser.Entry>) returns (entries: seq<SitemapParser.Entry>)
    ensures entries == SitemapParser.Collect(xs, f)
  {
    entries := [];
    var i := 0;
    while i < |xs|
      invariant 0 <= i <= |xs|
      invariant entries == SitemapParser.Collect(xs[..i], f)
    {
      var e := f(xs[i]);
      if e.Some? {
        entries := entries + [e.value];
      }
      SitemapParser.CollectStep(xs, i, f);
      i := i + 1;
    }
    assert xs[..i] == xs;
  }

  /** `raise_for_status` raises for the client and server error codes. */
  predicate ErrorStatus(status: int) {
    400 <= status < 600
  }

  /**
   * `get_new_job_urls` of the legacy scraper: the cutoff (a malformed date raises, uncaught),
   * nothing for a request that raised or an error status, the `<url>` entries when the content
   * parses as XML with `<url>` elements, otherwise the table rows.
   */
  method GetNewJobUrls(cutoffDate: Option<string>, now: DateTime, fetched: Option<Fetched>)
    returns (r: SitemapParser.Outcome)
    requires ValidDateTime(now)
    ensures r.Raised? <==> SitemapParser.Cutoff(cutoffDate, now).None?
    ensures r.Entries? && (fetched.None? || ErrorStatus(fetched.value.status)) ==> r.entries == []
    ensures r.Entries? && fetched.Some? && !ErrorStatus(fetched.value.status) ==>
      var cutoff := SitemapParser.Cutoff(cutoffDate, now).value;
      var doc := fetched.value.doc;
      r.entries == (if doc.xml.Parsed? && doc.xml.urls != [] then XmlSpec(doc.xml.urls, cutoff) else HtmlSpec(doc.rows, cutoff))
  {
    var cutoff := SitemapParser.Cutoff(cutoffDate, now);
    if cutoff.None? {
      return SitemapParser.Raised;
    }
    if fetched.None? || ErrorStatus(fetched.value.status) {
      return SitemapParser.Entries([]);
    }
    var doc := fetched.value.doc;
    var c := cutoff.value;
    if doc.xml.Parsed? && doc.xml.urls != [] {
      var entries := Gather(doc.xml.urls, t => XmlEntry(t, c));
      return SitemapParser.Entries(entries);
    }
    var entries := Gather(doc.rows, row => HtmlEntry(row, c));
    return SitemapParser.Entries(entries);
  }

  // ---------------------------------------------------------------------------------------------
  // The first-match extractor

  /** A text node of the post: its raw text, the anchor enclosing it and the first anchor after its parent starts. */
  datatype Label = Label(text: string, parent: Option<LinkScorer.Anchor>, next: Option<LinkScorer.Anchor>)

  /** A parsed post: the text of its first `h1`, and its text nodes in document order. */
  datatype Post = Post(h1: Option<string>, labels: seq<Label>)

  /** The post response: its status and parsed page; `None` stands for a request that raised. */
  datatype PostResponse = PostResponse(status: int, post: Post)

  const SearchKeywords: seq<string> :=
    ["Apply Link", "Click Here", "Official Notification", "Apply Online", "Original Post", "Registration Link"]

  const MaxLabelLength := 100

  /** One place the search looks for a link: a label and one of its two anchors. */
  datatype Attempt = Attempt(origin: Label, anchor: Option<LinkScorer.Anchor>)

  /** `find_all(string=...)`: a non-empty text node that mentions the keyword, ignoring case. */
  predicate Mentions(l: Label, keyword: string) {
    l.text != "" && Contains(Lower(l.text), Lower(keyword))
  }

  /** The attempts one label yields for a keyword: none for a long label, else the enclosing then the next anchor. */
  function LabelAttempts(l: Label, keyword: string): seq<Attempt> {
    if Mentions(l, keyword) && |l.text| <= MaxLabelLength then [Attempt(l, l.parent), Attempt(l, l.next)] else []
  }

  /** The attempts for one keyword, label by label in document order. */
  function KeywordAttempts(labels: seq<Label>, keyword: string): seq<Attempt> {
    if labels == [] then [] else LabelAttempts(labels[0], keyword) + KeywordAttempts(labels[1..], keyword)
  }

  /** The whole search order: keyword by keyword. */
  function AllAttempts(labels: seq<Label>, keywords: seq<string>): seq<Attempt> {
    if keywords == [] then [] else KeywordAttempts(labels, keywords[0]) + AllAttempts(labels, keywords[1..])
  }

  /** `validate_and_return`: an absolute link that does not contain the post's domain, case-sensitively. */
  function Try(a: Attempt, postDomain: string, title: string): (r: Option<LinkScorer.OfficialLink>)
    ensures r.Some? <==> (a.anchor.Some? && a.anchor.value.href != ""
                          && StartsWith(a.anchor.value.href, "http") && !Contains(a.anchor.value.href, postDomain))
    ensures r.Some? ==> r.value == LinkScorer.OfficialLink(title, a.anchor.value.href, a.anchor.value.text, Strip(a.origin.text))
  {
    match a.anchor
    case None => None
    case Some(anchor) =>
      if anchor.href == "" || !StartsWith(anchor.href, "http") || Contains(anchor.href, postDomain) then None
      else Some(LinkScorer.OfficialLink(title, anchor.href, anchor.text, Strip(a.origin.text)))
  }

  /** The answer of the first attempt that validates. */
  function FirstValid(attempts: seq<Attempt>, postDomain: string, title: string): (r: Option<LinkScorer.OfficialLink>)
    ensures r.None? <==> forall k :: 0 <= k < |attempts| ==> Try(attempts[k], postDomain, title).None?
    ensures r.Some? ==> exists k :: (0 <= k < |attempts| && r == Try(attempts[k], postDomain, title)
                                     && forall j :: 0 <= j < k ==> Try(attempts[j], postDomain, title).None?)
  {
    if attempts == [] then None
    else
      var first := Try(attempts[0], postDomain, title);
      if first.Some? then first
      else
        var r := FirstValid(attempts[1..], postDomain, title);
        assert forall k :: 1 <= k < |attempts| ==> attempts[k] == attempts[1..][k - 1];
        if r.Some? then
          assert exists k :: (1 <= k < |attempts| && r == Try(attempts[k], postDomain, title)
                              && forall j :: 0 <= j < k ==> Try(attempts[j], postDomain, title).None?);
          r
        else r
  }

  /** Search order decides: whatever comes first in the order hides everything after it. */
  lemma {:induction false} FirstValidAppend(a: seq<Attempt>, b: seq<Attempt>, postDomain: string, title: string)
    ensures FirstValid(a + b, postDomain, title) ==
      (if FirstValid(a, postDomain, title).Some? then FirstValid(a, postDomain, title) else FirstValid(b, postDomain, title))
    decreases |a|
  {
    if a == [] {
      assert a + b == b;
    } else {
      assert (a + b)[1..] == a[1..] + b;
      FirstValidAppend(a[1..], b, postDomain, title);
    }
  }

  /** Every answer is an absolute link off the post's domain, found next to a short label that names a search keyword. */
  lemma AnswerIsValidated(labels: seq<Label>, keywords: seq<string>, postDomain: string, title: string)
    requires FirstValid(AllAttempts(labels, keywords), postDomain, title).Some?
    ensures var r := FirstValid(AllAttempts(labels, keywords), postDomain, title).value;
      && StartsWith(r.link, "http") && !Contains(r.link, postDomain) && r.title == title
      && exists i, j :: 0 <= i < |keywords| && 0 <= j < |labels| && Mentions(labels[j], keywords[i])
           && |labels[j].text| <= MaxLabelLength && r.matched == Strip(labels[j].text)
  {
    var all := AllAttempts(labels, keywords);
    var k :| 0 <= k < |all| && FirstValid(all, postDomain, title) == Try(all[k], postDomain, title);
    AttemptOrigin(labels, keywords, all[k]);
  }

  /** Every attempt comes from a short label mentioning one of the keywords. */
  lemma {:induction false} AttemptOrigin(labels: seq<Label>, keywords: seq<string>, a: Attempt)
    requires a in AllAttempts(labels, keywords)
    ensures exists i, j :: (0 <= i < |keywords| && 0 <= j < |labels| && Mentions(labels[j], keywords[i])
                            && |labels[j].text| <= MaxLabelLength && a.origin == labels[j])
    decreases |keywords|
  {
    if a in KeywordAttempts(labels, keywords[0]) {
      var j := KeywordOrigin(labels, keywords[0], a);
      assert Mentions(labels[j], keywords[0]);
    } else {
      AttemptOrigin(labels, keywords[1..], a);
      var i, j :| 0 <= i < |keywords[1..]| && 0 <= j < |labels| && Mentions(labels[j], keywords[1..][i])
        && |labels[j].text| <= MaxLabelLength && a.origin == labels[j];
      assert keywords[1..][i] == keywords[i + 1];
    }
  }

  lemma {:induction false} KeywordOrigin(labels: seq<Label>, keyword: string, a: Attempt) returns (j: nat)
    requires a in KeywordAttempts(labels, keyword)
    ensures j < |labels| && Mentions(labels[j], keyword) && |labels[j].text| <= MaxLabelLength && a.origin == labels[j]
    decreases |labels|
  {
    if a in LabelAttempts(labels[0], keyword) {
      j := 0;
    } else {
      var j' := KeywordOrigin(labels[1..], keyword, a);
      j := j' + 1;
    }
  }

  /** An earlier keyword wins: when a label for the first keyword yields a link, later keywords are never consulted. */
  lemma FirstKeywordWins(labels: seq<Label>, keywords: seq<string>, postDomain: string, title: string)
    requires keywords != [] && FirstValid(KeywordAttempts(labels, keywords[0]), postDomain, title).Some?
    ensures FirstValid(AllAttempts(labels, keywords), postDomain, title) == FirstValid(KeywordAttempts(labels, keywords[0]), postDomain, title)
  {
    FirstValidAppend(KeywordAttempts(labels, keywords[0]), AllAttempts(labels, keywords[1..]), postDomain, title);
  }

  /** The enclosing anchor beats the next one: a valid enclosing anchor of the first attempted label is the answer. */
  lemma ParentBeforeNext(l: Label, rest: seq<Label>, keywords: seq<string>, postDomain: string, title: string)
    requires keywords != [] && Mentions(l, keywords[0]) && |l.text| <= MaxLabelLength
    requires Try(Attempt(l, l.parent), postDomain, title).Some?
    ensures FirstValid(AllAttempts([l] + rest, keywords), postDomain, title) == Try(Attempt(l, l.parent), postDomain, title)
  {
    assert ([l] + rest)[1..] == rest;
    var all := AllAttempts([l] + rest, keywords);
    assert all[0] == Attempt(l, l.parent);
  }

  /**
   * The legacy `extract_official_link`: nothing for a request that raised or a status other than
   * 200; otherwise the page title, and the first link that validates in the search order.
   */
  method ExtractOfficialLink(postUrl: string, response: Option<PostResponse>) returns (r: Option<LinkScorer.OfficialLink>)
    ensures response.None? || response.value.status != 200 ==> r.None?
    ensures response.Some? && response.value.status == 200 ==>
      var post := response.value.post;
      var title := match post.h1 case Some(t) => t case None => LinkScorer.UnknownTitle;
      r == FirstValid(AllAttempts(post.labels, SearchKeywords), LinkScorer.PostDomain(postUrl), title)
  {
    var postDomain := LinkScorer.PostDomain(postUrl);
    if response.None? || response.value.status != 200 {
      return None;
    }
    var post := response.value.post;
    var title := LinkScorer.UnknownTitle;
    if post.h1.Some? {
      title := post.h1.value;
    }
    r := Search(post.labels, SearchKeywords, postDomain, title);
  }

  /** The keyword loop: the label loop for each keyword in turn, until one answers. */
  method Search(labels: seq<Label>, keywords: seq<string>, postDomain: string, title: string)
    returns (r: Option<LinkScorer.OfficialLink>)
    ensures r == FirstValid(AllAttempts(labels, keywords), postDomain, title)
  {
    var i := 0;
    while i < |keywords|
      invariant 0 <= i <= |keywords|
      invariant FirstValid(AllAttempts(labels, keywords), postDomain, title)
             == FirstValid(AllAttempts(labels, keywords[i..]), postDomain, title)
    {
      assert keywords[i..][1..] == keywords[i + 1..];
      FirstValidAppend(KeywordAttempts(labels, keywords[i]), AllAttempts(labels, keywords[i + 1..]), postDomain, title);
      r := SearchKeyword(labels, keywords[i], postDomain, title);
      if r.Some? {
        return;
      }
      i := i + 1;
    }
    assert keywords[i..] == [];
    return None;
  }

  /** The label loop for one keyword: the first label attempt that validates, enclosing anchor first. */
  method SearchKeyword(labels: seq<Label>, keyword: string, postDomain: string, title: string)
    returns (found: Option<LinkScorer.OfficialLink>)
    ensures found == FirstValid(KeywordAttempts(labels, keyword), postDomain, title)
  {
    var j := 0;
    while j < |labels|
      invariant 0 <= j <= |labels|
      invariant FirstValid(KeywordAttempts(labels, keyword), postDomain, title)
             == FirstValid(KeywordAttempts(labels[j..], keyword), postDomain, title)
    {
      var node := labels[j];
      assert labels[j..][1..] == labels[j + 1..];
      FirstValidAppend(LabelAttempts(node, keyword), KeywordAttempts(labels[j + 1..], keyword), postDomain, title);
      if Mentions(node, keyword) && |node.text| <= MaxLabelLength {
        found := Try(Attempt(node, node.parent), postDomain, title);
        if found.Some? {
          return;
        }
        found := Try(Attempt(node, node.next), postDomain, title);
        if found.Some? {
          return;
        }
      }
      j := j + 1;
    }
    assert labels[j..] == [];
    return None;
  }

  // ---------------------------------------------------------------------------------------------
  // The driver loop and the file slug

  /** A row of the results sheet. */
  datatype Row = Row(date: string, found: LinkScorer.OfficialLink, source: string)

  /** The rows the driver loop writes: one per entry whose extraction answers, in entry order. */
  function Rows(items: seq<SitemapParser.Entry>, extract: string -> Option<LinkScorer.OfficialLink>): seq<Row>
    requires forall k :: 0 <= k < |items| ==> items[k].url.Some?
  {
    if items == [] then []
    else
      var init := items[..|items| - 1];
      var last := items[|items| - 1];
      Rows(init, extract)
      + (match extract(last.url.value) case Some(f) => [Row(last.date, f, last.url.value)] case None => [])
  }

  /** A row exists exactly for an entry whose extraction answers, and it carries that entry's date and URL. */
  lemma {:induction false} RowsAreAnswers(items: seq<SitemapParser.Entry>, extract: string -> Option<LinkScorer.OfficialLink>)
    requires forall k :: 0 <= k < |items| ==> items[k].url.Some?
    ensures |Rows(items, extract)| <= |items|
    ensures forall row :: row in Rows(items, extract) <==>
      exists k :: 0 <= k < |items| && extract(items[k].url.value) == Some(row.found)
        && row.date == items[k].date && row.source == items[k].url.value
  {
    if items != [] {
      var init := items[..|items| - 1];
      RowsAreAnswers(init, extract);
      assert forall k :: 0 <= k < |init| ==> init[k] == items[k];
      forall row | row in Rows(items, extract)
        ensures exists k :: (0 <= k < |items| && extract(items[k].url.value) == Some(row.found)
                             && row.date == items[k].date && row.source == items[k].url.value)
      {
        if row !in Rows(init, extract) {
          assert extract(items[|items| - 1].url.value) == Some(row.found);
        }
      }
    }
  }

  /** The driver loop of `main`: run the extractor on every entry and keep a row for each answer. */
  method Harvest(items: seq<SitemapParser.Entry>, extract: string -> Option<LinkScorer.OfficialLink>) returns (rows: seq<Row>)
    requires forall k :: 0 <= k < |items| ==> items[k].url.Some?
    ensures rows == Rows(items, extract)
  {
    rows := [];
    var i := 0;
    while i < |items|
      invariant 0 <= i <= |items|
      invariant rows == Rows(items[..i], extract)
    {
      var url := items[i].url.value;
      var data := extract(url);
      assert items[..i + 1][..i] == items[..i];
      if data.Some? {
        rows := rows + [Row(items[i].date, data.value, url)];
      }
      i := i + 1;
    }
    assert items[..i] == items;
  }

  /** The regular expression `https?://([^/]+)/?` matches at `i`; the captured host follows the "//". */
  function HostAt(s: string, i: nat): (r: Option<string>)
    ensures r.Some? ==> r.value != [] && '/' !in r.value
  {
    if i + 8 < |s| && s[i..i + 8] == "https://" && s[i + 8] != '/' then Some(UpToSlash(s[i + 8..]))
    else if i + 7 < |s| && s[i..i + 7] == "http://" && s[i + 7] != '/' then Some(UpToSlash(s[i + 7..]))
    else None
  }

  /** The longest prefix free of '/'. */
  function UpToSlash(s: string): (r: string)
    ensures |r| <= |s| && r == s[..|r|] && '/' !in r
    ensures |r| < |s| ==> s[|r|] == '/'
  {
    if s == [] || s[0] == '/' then [] else [s[0]] + UpToSlash(s[1..])
  }

  /** `re.search`: the host of the leftmost match at or after `from`. */
  function FirstHost(s: string, from: nat): (r: Option<string>)
    ensures r.None? <==> forall i :: from <= i ==> HostAt(s, i).None?
    ensures r.Some? ==> exists i :: from <= i && HostAt(s, i) == r && forall j :: from <= j < i ==> HostAt(s, j).None?
    decreases |s| - from
  {
    if from >= |s| then None
    else if HostAt(s, from).Some? then HostAt(s, from)
    else FirstHost(s, from + 1)
  }

  /** The file-name slug: the second-to-last dot-separated label of the host, its sole label, or "site". */
  function DomainSlug(sitemapUrl: string): (r: string)
    ensures FirstHost(sitemapUrl, 0).None? ==> r == "site"
    ensures FirstHost(sitemapUrl, 0).Some? ==> '.' !in r && '/' !in r
  {
    match FirstHost(sitemapUrl, 0)
    case None => "site"
    case Some(host) =>
      var parts := SplitOn(host, '.');
      SplitOnPieces(host, '.', '/');
      if |parts| >= 2 then parts[|parts| - 2] else parts[0]
  }

  /** A character absent from `s` is absent from every piece `SplitOn` cuts it into. */
  lemma {:induction false} SplitOnPieces(s: string, c: char, d: char)
    requires d !in s
    ensures forall k :: 0 <= k < |SplitOn(s, c)| ==> d !in SplitOn(s, c)[k]
    decreases |s|
  {
    if s != [] {
      SplitOnPieces(s[1..], c, d);
      var rest := SplitOn(s[1..], c);
      if s[0] != c {
        var r := SplitOn(s, c);
        assert r == [[s[0]] + rest[0]] + rest[1..];
        forall k | 0 <= k < |r|
          ensures d !in r[k]
        {
          if k > 0 {
            assert r[k] == rest[k];
          }
        }
      }
    }
  }

  lemma {:induction false} SplitOnFree(s: string, c: char)
    requires c !in s
    ensures SplitOn(s, c) == [s]
    decreases |s|
  {
    if s != [] {
      SplitOnFree(s[1..], c);
      assert [s[0]] + s[1..] == s;
    }
  }

  /** Cutting at the first separator: the part before it, then the pieces of the rest. */
  lemma {:induction false} SplitOnFirst(a: string, b: string, c: char)
    requires c !in a
    ensures SplitOn(a + [c] + b, c) == [a] + SplitOn(b, c)
    decreases |a|
  {
    var s := a + [c] + b;
    if a == [] {
      assert s[0] == c && s[1..] == b;
    } else {
      assert s[0] == a[0] && s[1..] == a[1..] + [c] + b;
      SplitOnFirst(a[1..], b, c);
      assert [a[0]] + a[1..] == a;
    }
  }

  /** For `https://name.tld/...` the slug is `name`. */
  lemma SlugOfSiteUrl(name: string, tld: string, path: string)
    requires name != [] && tld != []
    requires '.' !in name && '/' !in name && '.' !in tld && '/' !in tld
    requires path == [] || path[0] == '/'
    ensures DomainSlug("https://" + name + "." + tld + path) == name
  {
    var host := name + "." + tld;
    var url := "https://" + name + "." + tld + path;
    assert url == "https://" + (host + path);
    HostOfSecureUrl(host, path);
    SlugOfHost(url, name, tld);
  }

  lemma SlugOfHost(url: string, name: string, tld: string)
    requires '.' !in name && '.' !in tld
    requires FirstHost(url, 0) == Some(name + "." + tld)
    ensures DomainSlug(url) == name
  {
    assert name + "." + tld == name + ['.'] + tld;
    SplitOnFirst(name, tld, '.');
    SplitOnFree(tld, '.');
  }

  /** The host of `https://host/...` is found at the start. */
  lemma HostOfSecureUrl(host: string, path: string)
    requires host != [] && '/' !in host
    requires path == [] || path[0] == '/'
    ensures FirstHost("https://" + (host + path), 0) == Some(host)
  {
    var url := "https://" + (host + path);
    assert url[..8] == "https://" && url[8..] == host + path && url[8] == host[0];
    UpToSlashOf(host, path);
    assert HostAt(url, 0) == Some(host);
  }

  lemma {:induction false} UpToSlashOf(host: string, path: string)
    requires '/' !in host && (path == [] || path[0] == '/')
    ensures UpToSlash(host + path) == host
    decreases |host|
  {
    if host == [] {
      assert host + path == path;
    } else {
      assert (host + path)[1..] == host[1..] + path;
      UpToSlashOf(host[1..], path);
    }
  }
}
