/**
 * `get_new_job_urls` of the sitemap reader: the date window (a cutoff, by default one day before
 * now, and an end, by default now, or the end date's last second), the `lastmod` test, and the two
 * ways of reading a sitemap — the `<url>/<loc>/<lastmod>` elements of a sitemaps.org 0.9 sitemap,
 * then, when that yields nothing, the rows of an HTML `table#sitemap`. The document is given
 * already parsed.
 */
module SitemapParser {
  import opened Wrappers
  import opened Text
  import opened Dates

  /** An XML element that is present; `text` is `None` when it has no text. */
  datatype Element = Element(text: Option<string>)

  /** A `<url>` element: its `<loc>` and `<lastmod>` children, when present. */
  datatype UrlTag = UrlTag(loc: Option<Element>, lastmod: Option<Element>)

  /** What `ET.fromstring` makes of the content: an error, or the root's `<url>` children in document order. */
  datatype XmlDoc = Malformed | Parsed(urls: seq<UrlTag>)

  /** A `td`: its text, and the `href` of its first anchor (`None` without an anchor or without an `href`). */
  datatype Cell = Cell(text: string, href: Option<string>)

  /** A row of `table#sitemap tbody`. */
  datatype HtmlRow = HtmlRow(cells: seq<Cell>)

  /** A fetched sitemap: the raw content and the two readings of it. */
  datatype Response = Response(content: string, xml: XmlDoc, rows: seq<HtmlRow>)

  /** A post to visit and its date as written in the sitemap. */
  datatype Entry = Entry(url: Option<string>, date: string)

  /** The window `parse_date` accepts: from `cutoff` to `end`, both included. */
  datatype Window = Window(cutoff: DateTime, end: DateTime)

  /** The result: the entries, or the `ValueError`/`OverflowError` raised while computing the window. */
  datatype Outcome = Raised | Entries(entries: seq<Entry>)

  // ---------------------------------------------------------------------------------------------
  // The window

  /** The cutoff: the given date's midnight, or one day before now (time of day included); `None` where Python raises. */
  function Cutoff(cutoffDate: Option<string>, now: DateTime): (r: Option<DateTime>)
    requires ValidDateTime(now)
    ensures cutoffDate.Some? && cutoffDate.value != "" ==>
      r == (match ParseIsoDate(cutoffDate.value) case Some(d) => Some(Midnight(d)) case None => None)
    ensures (cutoffDate.None? || cutoffDate.value == "") && now.date != Date(1, 1, 1) ==>
      r == Some(DayBefore(now)) && r.value.secs == now.secs && r.value.date == PrevDay(now.date)
  {
    if cutoffDate.None? || cutoffDate.value == "" then
      if now.date == Date(1, 1, 1) then None else Some(DayBefore(now))
    else
      match ParseIsoDate(cutoffDate.value)
      case None => None
      case Some(d) => Some(Midnight(d))
  }

  /** The end: the given date at 23:59:59, or now; `None` where Python raises. */
  function End(endDate: Option<string>, now: DateTime): (r: Option<DateTime>)
    ensures endDate.Some? && endDate.value != "" ==>
      r == (match ParseIsoDate(endDate.value) case Some(d) => Some(EndOfDay(d)) case None => None)
    ensures endDate.None? || endDate.value == "" ==> r == Some(now)
  {
    if endDate.Some? && endDate.value != "" then
      match ParseIsoDate(endDate.value)
      case None => None
      case Some(d) => Some(EndOfDay(d))
    else Some(now)
  }

  predicate InWindow(t: DateTime, w: Window) {
    Le(w.cutoff, t) && Le(t, w.end)
  }

  /** `date_text.split("T")[0].split(" ")[0]`. */
  function DatePart(text: string): (r: string)
    ensures |r| <= |text| && r == text[..|r|]
    ensures 'T' !in r && ' ' !in r
  {
    var head := BeforeFirst(text, 'T');
    var r := BeforeFirst(head, ' ');
    assert r == text[..|r|] by { assert head == text[..|head|]; }
    r
  }

  /**
   * `parse_date`: the date part of a non-empty text, when it parses as YYYY-MM-DD and its midnight
   * lies in the window.
   */
  function ParseDate(text: Option<string>, w: Window): (r: Option<string>)
    ensures r.Some? <==>
      && text.Some? && text.value != ""
      && ParseIsoDate(DatePart(text.value)).Some?
      && InWindow(Midnight(ParseIsoDate(DatePart(text.value)).value), w)
    ensures r.Some? ==> r.value == DatePart(text.value)
  {
    if text.None? || text.value == "" then None
    else
      var part := DatePart(text.value);
      match ParseIsoDate(part)
      case None => None
      case Some(d) => if InWindow(Midnight(d), w) then Some(part) else None
  }

  /** An accepted date parses back to a date whose midnight is inside the window. */
  lemma AcceptedDateInWindow(text: Option<string>, w: Window)
    requires ParseDate(text, w).Some?
    ensures var d := ParseIsoDate(ParseDate(text, w).value);
      d.Some? && ValidDate(d.value) && Le(w.cutoff, Midnight(d.value)) && Le(Midnight(d.value), w.end)
  {
  }

  /** A W3C timestamp "YYYY-MM-DDThh:mm:ss..." is read by its date alone. */
  lemma {:induction false} TimestampDatePart(d: Date, time: string)
    requires ValidDate(d)
    ensures DatePart(FormatIso(d) + "T" + time) == FormatIso(d)
    ensures ParseIsoDate(DatePart(FormatIso(d) + "T" + time)) == Some(d)
  {
    var s := FormatIso(d);
    var t := s + "T" + time;
    assert forall i :: 0 <= i < 10 ==> s[i] != 'T' && s[i] != ' ' by {
      forall i | 0 <= i < 10 ensures s[i] != 'T' && s[i] != ' ' {
        assert s[i] == '-' || IsDigit(s[i]);
      }
    }
    BeforeFirstAt(t, 'T', 10);
    assert t[..10] == s;
    BeforeFirstAt(s, ' ', 10);
    assert s[..10] == s;
    ParseFormatRoundTrip(d);
  }

  lemma {:induction false} BeforeFirstAt(s: string, c: char, n: nat)
    requires n <= |s| && (forall i :: 0 <= i < n ==> s[i] != c) && (n < |s| ==> s[n] == c)
    ensures BeforeFirst(s, c) == s[..n]
    decreases n
  {
    if n > 0 {
      BeforeFirstAt(s[1..], c, n - 1);
      assert s[..n] == [s[0]] + s[1..][..n - 1];
    }
  }

  /** With an end date, its whole day is inside the window: a post dated that day is kept. */
  lemma EndDayIncluded(endDate: string, d: Date, now: DateTime, cutoff: DateTime)
    requires ParseIsoDate(endDate) == Some(d) && Le(cutoff, Midnight(d))
    ensures var e := End(Some(endDate), now);
      e.Some? && InWindow(Midnight(d), Window(cutoff, e.value))
  {
  }

  /**
   * Without a cutoff date, the cutoff keeps now's time of day: a post dated yesterday is read as
   * yesterday's midnight and rejected, unless it is exactly midnight now.
   */
  lemma DefaultCutoffRejectsYesterday(now: DateTime, end: DateTime)
    requires ValidDateTime(now) && now.date != Date(1, 1, 1) && now.secs > 0.0
    ensures var c := Cutoff(None, now);
      c.Some? && !InWindow(Midnight(PrevDay(now.date)), Window(c.value, end))
  {
  }

  // ---------------------------------------------------------------------------------------------
  // Reading the entries

  function TextOf(e: Option<Element>): Option<string> {
    if e.Some? then e.value.text else None
  }

  /** The entry a `<url>` contributes: it needs both children and an accepted `lastmod`. */
  function XmlEntry(tag: UrlTag, w: Window): Option<Entry> {
    if tag.loc.Some? && tag.lastmod.Some? then
      match ParseDate(tag.lastmod.value.text, w)
      case None => None
      case Some(date) => Some(Entry(tag.loc.value.text, date))
    else None
  }

  /** The entry an HTML row contributes: it needs cells, a link in the first one, and an accepted date in the last one. */
  function HtmlEntry(row: HtmlRow, w: Window): Option<Entry> {
    if row.cells == [] then None
    else
      var first := row.cells[0];
      if first.href.Some? && first.href.value != "" then
        match ParseDate(Some(row.cells[|row.cells| - 1].text), w)
        case None => None
        case Some(date) => Some(Entry(first.href, date))
      else None
  }

  /** The entries a loop over `xs` appends, in order: the `f(x)` that are present. */
  function Collect<T>(xs: seq<T>, f: T -> Option<Entry>): seq<Entry> {
    if xs == [] then []
    else (if f(xs[0]).Some? then [f(xs[0]).value] else []) + Collect(xs[1..], f)
  }

  /** Collecting keeps order: collecting two runs is collecting each in turn. */
  lemma {:induction false} CollectAppend<T>(a: seq<T>, b: seq<T>, f: T -> Option<Entry>)
    ensures Collect(a + b, f) == Collect(a, f) + Collect(b, f)
    decreases |a|
  {
    if a != [] {
      assert (a + b)[1..] == a[1..] + b;
      CollectAppend(a[1..], b, f);
    } else {
      assert a + b == b;
    }
  }

  lemma CollectStep<T>(xs: seq<T>, i: nat, f: T -> Option<Entry>)
    requires i < |xs|
    ensures Collect(xs[..i + 1], f) == Collect(xs[..i], f) + (if f(xs[i]).Some? then [f(xs[i]).value] else [])
  {
    assert [xs[i]][1..] == [];
    CollectAppend(xs[..i], [xs[i]], f);
    assert xs[..i + 1] == xs[..i] + [xs[i]];
  }

  /** An entry is collected exactly when some element contributes it. */
  lemma {:induction false} CollectMembers<T>(xs: seq<T>, f: T -> Option<Entry>)
    ensures forall e :: e in Collect(xs, f) <==> exists k :: 0 <= k < |xs| && f(xs[k]) == Some(e)
    decreases |xs|
  {
    if xs != [] {
      CollectMembers(xs[1..], f);
      forall e | (exists k :: 0 <= k < |xs| && f(xs[k]) == Some(e))
        ensures e in Collect(xs, f)
      {
        var k :| 0 <= k < |xs| && f(xs[k]) == Some(e);
        if k > 0 {
          assert f(xs[1..][k - 1]) == Some(e);
        }
      }
      forall e | e in Collect(xs, f)
        ensures exists k :: 0 <= k < |xs| && f(xs[k]) == Some(e)
      {
        if e !in Collect(xs[1..], f) {
          assert f(xs[0]) == Some(e);
        } else {
          var k :| 0 <= k < |xs[1..]| && f(xs[1..][k]) == Some(e);
          assert f(xs[k + 1]) == Some(e);
        }
      }
    }
  }

  /** The XML branch's loop, as a function: the entries of the `<url>` elements in document order. */
  function XmlSpec(tags: seq<UrlTag>, w: Window): seq<Entry> {
    Collect(tags, t => XmlEntry(t, w))
  }

  /** The HTML branch's loop, as a function: the entries of the rows in document order. */
  function HtmlSpec(rows: seq<HtmlRow>, w: Window): seq<Entry> {
    Collect(rows, r => HtmlEntry(r, w))
  }

  /**
   * An XML entry comes from a `<url>` element with both children whose `lastmod` is accepted, and
   * every such element contributes one; the entries keep document order.
   */
  lemma XmlEntries(tags: seq<UrlTag>, more: seq<UrlTag>, w: Window)
    ensures forall e :: e in XmlSpec(tags, w) <==>
      exists k :: 0 <= k < |tags| && tags[k].loc.Some? && tags[k].lastmod.Some?
        && ParseDate(tags[k].lastmod.value.text, w) == Some(e.date) && e.url == tags[k].loc.value.text
    ensures XmlSpec(tags + more, w) == XmlSpec(tags, w) + XmlSpec(more, w)
  {
    CollectMembers(tags, t => XmlEntry(t, w));
    CollectAppend(tags, more, t => XmlEntry(t, w));
  }

  /**
   * An HTML entry comes from a row with cells, a non-empty link in its first cell and an accepted
   * date in its last one, and every such row contributes one; the entries keep document order.
   */
  lemma HtmlEntries(rows: seq<HtmlRow>, more: seq<HtmlRow>, w: Window)
    ensures forall e :: e in HtmlSpec(rows, w) <==>
      exists k :: 0 <= k < |rows| && rows[k].cells != [] && rows[k].cells[0].href.Some? && rows[k].cells[0].href.value != ""
        && ParseDate(Some(rows[k].cells[|rows[k].cells| - 1].text), w) == Some(e.date) && e.url == rows[k].cells[0].href
    ensures HtmlSpec(rows + more, w) == HtmlSpec(rows, w) + HtmlSpec(more, w)
  {
    CollectMembers(rows, r => HtmlEntry(r, w));
    CollectAppend(rows, more, r => HtmlEntry(r, w));
    forall e, k | 0 <= k < |rows| {
      HtmlEntryIs(rows[k], w, e);
    }
  }

  lemma HtmlEntryIs(row: HtmlRow, w: Window, e: Entry)
    ensures HtmlEntry(row, w) == Some(e) <==>
      row.cells != [] && row.cells[0].href.Some? && row.cells[0].href.value != ""
      && ParseDate(Some(row.cells[|row.cells| - 1].text), w) == Some(e.date) && e.url == row.cells[0].href
  {
  }

  /** Every entry's date, whichever reading produced it, lies in the window. */
  lemma EntriesInWindow(tags: seq<UrlTag>, rows: seq<HtmlRow>, w: Window)
    ensures forall e :: e in XmlSpec(tags, w) + HtmlSpec(rows, w) ==>
      ParseIsoDate(e.date).Some? && InWindow(Midnight(ParseIsoDate(e.date).value), w)
  {
    CollectMembers(tags, t => XmlEntry(t, w));
    CollectMembers(rows, r => HtmlEntry(r, w));
  }

  /** `content.strip().startswith(b'<')`: the first byte that is not ASCII white space is '<'. */
  predicate LooksLikeXml(content: string) {
    content != [] && (if IsAsciiSpace(content[0]) then LooksLikeXml(content[1..]) else content[0] == '<')
  }

  /** The XML branch answers only for content that looks like XML, parses, and has `<url>` elements. */
  predicate XmlAnswers(r: Response) {
    LooksLikeXml(r.content) && r.xml.Parsed? && r.xml.urls != []
  }

  // ---------------------------------------------------------------------------------------------
  // The loops

  /** The XML branch's loop over the `<url>` elements. */
  method ReadXml(tags: seq<UrlTag>, w: Window) returns (entries: seq<Entry>)
    ensures entries == XmlSpec(tags, w)
  {
    entries := [];
    var i := 0;
    while i < |tags|
      invariant 0 <= i <= |tags|
      invariant entries == XmlSpec(tags[..i], w)
    {
      var lastmodText := TextOf(tags[i].lastmod);
      if tags[i].loc.Some? && tags[i].lastmod.Some? {
        var date := ParseDate(lastmodText, w);
        if date.Some? {
          entries := entries + [Entry(tags[i].loc.value.text, date.value)];
        }
      }
      CollectStep(tags, i, t => XmlEntry(t, w));
      i := i + 1;
    }
    assert tags[..i] == tags;
  }

  /** The HTML branch's loop over the table's rows. */
  method ReadHtml(rows: seq<HtmlRow>, w: Window) returns (entries: seq<Entry>)
    ensures entries == HtmlSpec(rows, w)
  {
    entries := [];
    var i := 0;
    while i < |rows|
      invariant 0 <= i <= |rows|
      invariant entries == HtmlSpec(rows[..i], w)
    {
      var cells := rows[i].cells;
      if cells != [] {
        var link := cells[0].href;
        var dateText := cells[|cells| - 1].text;
        if link.Some? && link.value != "" {
          var date := ParseDate(Some(dateText), w);
          if date.Some? {
            entries := entries + [Entry(link, date.value)];
          }
        }
      }
      CollectStep(rows, i, r => HtmlEntry(r, w));
      i := i + 1;
    }
    assert rows[..i] == rows;
  }

  /**
   * `get_new_job_urls`: the window first (a malformed date raises before anything is fetched),
   * nothing for a failed fetch, the XML reading when it answers, otherwise the HTML reading.
   */
  method GetNewJobUrls(cutoffDate: Option<string>, endDate: Option<string>, now: DateTime, response: Option<Response>)
    returns (r: Outcome)
    requires ValidDateTime(now)
    ensures r.Raised? <==> Cutoff(cutoffDate, now).None? || End(endDate, now).None?
    ensures r.Entries? && response.None? ==> r.entries == []
    ensures r.Entries? && response.Some? ==>
      var w := Window(Cutoff(cutoffDate, now).value, End(endDate, now).value);
      r.entries == (if XmlAnswers(response.value) then XmlSpec(response.value.xml.urls, w) else HtmlSpec(response.value.rows, w))
  {
    var cutoff := Cutoff(cutoffDate, now);
    var end := End(endDate, now);
    if cutoff.None? || end.None? {
      return Raised;
    }
    var w := Window(cutoff.value, end.value);
    if response.None? {
      return Entries([]);
    }
    var resp := response.value;
    if LooksLikeXml(resp.content) && resp.xml.Parsed? && resp.xml.urls != [] {
      var entries := ReadXml(resp.xml.urls, w);
      return Entries(entries);
    }
    var entries := ReadHtml(resp.rows, w);
    return Entries(entries);
  }
}
