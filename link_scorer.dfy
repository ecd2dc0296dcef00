/**
 * `extract_official_link` of the auto-discovery crawler: the company keywords read from a post's
 * title, the filters and score boosts every candidate link goes through, the three scans that
 * collect candidates (table rows, keyword labels, every anchor), and the rule that picks the
 * winner. The page is given already parsed, as the rows, labels and anchors the scans look at.
 */
module LinkScorer {
  import opened Wrappers
  import opened Text
  import Url
  import StableSort

  /** An anchor: its `href` ("" when it has none) and its stripped text. */
  datatype Anchor = Anchor(href: string, text: string)

  /** A table row: its text (the cells joined by spaces, stripped) and its anchors in document order. */
  datatype Row = Row(text: string, anchors: seq<Anchor>)

  /** A text node of the page, with the anchor enclosing it and the first anchor after it, when there are. */
  datatype Label = Label(text: string, parent: Option<Anchor>, next: Option<Anchor>)

  /**
   * A fetched post: the text of its first `h1` when it has one, its table rows, its text nodes and
   * its anchors carrying an `href`, each in document order.
   */
  datatype Page = Page(h1: Option<string>, rows: seq<Row>, labels: seq<Label>, anchors: seq<Anchor>)

  /** A scored candidate link with the description of how it was found. */
  datatype Candidate = Candidate(link: string, text: string, score: int, matched: string)

  /** What the extractor returns for a post. */
  datatype OfficialLink = OfficialLink(title: string, link: string, text: string, matched: string)

  const UnknownTitle := "Unknown Title"

  const IgnoreWords: seq<string> :=
    ["off", "campus", "hiring", "recruitment", "job", "vacancy", "careers", "2024", "2025", "2026", "freshers",
     "apply", "online", "drive", "engineer", "developer", "analyst", "manager", "specialist"]

  const Blacklist: seq<string> :=
    ["telegram", "t.me", "whatsapp", "wa.me", "facebook", "fb.com", "instagram", "youtube", "youtu.be",
     "linkedin", "twitter", "x.com", "discord", "pinterest", "reddit", "tiktok", "snapchat", "openinapp",
     "linktr.ee", "bit.ly", "goo.gl", "tinyurl", "cutt.ly"]

  const CareerTerms: seq<string> := ["career", "jobs", "recruitment"]

  /** The labels the keyword scan looks for, in the order it looks for them. */
  const LabelKeywords: seq<string> := ["Apply Link", "Click Here", "Official Notification", "Apply Online", "Registration Link"]

  const RowMarkers: seq<string> := ["apply", "link", "click here"]

  const ContextBase := 90
  const GlobalBase := 10
  const Threshold := 30

  // ---------------------------------------------------------------------------------------------
  // Company keywords

  predicate IsKeptByClean(c: char) {
    ('a' <= c <= 'z') || ('A' <= c <= 'Z') || IsDigit(c) || IsSpace(c)
  }

  /** `re.sub(r'[^a-zA-Z0-9\s]', '', s)`: every character other than a letter, a digit or white space deleted. */
  function CleanTitle(s: string): (r: string)
    ensures |r| <= |s|
    ensures forall i :: 0 <= i < |r| ==> IsKeptByClean(r[i])
  {
    if s == [] then []
    else if IsKeptByClean(s[0]) then [s[0]] + CleanTitle(s[1..])
    else CleanTitle(s[1..])
  }

  lemma {:induction false} CleanLowerHasNoCapital(s: string)
    requires forall i :: 0 <= i < |s| ==> !('A' <= s[i] <= 'Z')
    ensures forall i :: 0 <= i < |CleanTitle(s)| ==> !('A' <= CleanTitle(s)[i] <= 'Z')
    decreases |s|
  {
    if s != [] {
      CleanLowerHasNoCapital(s[1..]);
    }
  }

  /** The words kept by the comprehension, in order: longer than 3 characters and not in `ignore`. */
  function KeepKeywords(words: seq<string>, ignore: seq<string>): seq<string> {
    if words == [] then []
    else if |words[0]| > 3 && words[0] !in ignore then [words[0]] + KeepKeywords(words[1..], ignore)
    else KeepKeywords(words[1..], ignore)
  }

  /** `company_keywords`: the words of the lower-cased, cleaned title longer than 3 and not ignored. */
  function CompanyKeywords(title: string): seq<string> {
    KeepKeywords(Words(CleanTitle(Lower(title))), IgnoreWords)
  }

  lemma {:induction false} KeepKeywordsMembers(words: seq<string>, ignore: seq<string>)
    ensures forall w :: w in KeepKeywords(words, ignore) <==> w in words && |w| > 3 && w !in ignore
    decreases |words|
  {
    if words != [] {
      KeepKeywordsMembers(words[1..], ignore);
      assert words == [words[0]] + words[1..];
    }
  }

  /** A keyword is exactly a word of the cleaned, lower-cased title that is longer than 3 characters and not ignored. */
  lemma KeywordsAreTitleWords(title: string)
    ensures forall w :: w in CompanyKeywords(title) <==>
      w in Words(CleanTitle(Lower(title))) && |w| > 3 && w !in IgnoreWords
  {
    KeepKeywordsMembers(Words(CleanTitle(Lower(title))), IgnoreWords);
  }

  /** A keyword is made of lower-case ASCII letters and digits only. */
  lemma KeywordCharacters(title: string, w: string)
    requires w in CompanyKeywords(title)
    ensures forall i :: 0 <= i < |w| ==> ('a' <= w[i] <= 'z') || IsDigit(w[i])
  {
    var clean := CleanTitle(Lower(title));
    KeepKeywordsMembers(Words(clean), IgnoreWords);
    CleanLowerHasNoCapital(Lower(title));
    assert CleanLower(clean);
    WordsCharacters(clean, w);
  }

  /** Every character is one the cleaning keeps and none is a capital. */
  predicate CleanLower(s: string) {
    forall i :: 0 <= i < |s| ==> IsKeptByClean(s[i]) && !('A' <= s[i] <= 'Z')
  }

  lemma CleanLowerSuffix(s: string, k: nat)
    requires CleanLower(s) && k <= |s|
    ensures CleanLower(s[k..])
  {
    forall i | 0 <= i < |s[k..]| ensures IsKeptByClean(s[k..][i]) && !('A' <= s[k..][i] <= 'Z') {
      assert s[k..][i] == s[k + i];
    }
  }

  lemma {:induction false} WordsCharacters(s: string, w: string)
    requires CleanLower(s)
    requires w in Words(s)
    ensures forall i :: 0 <= i < |w| ==> ('a' <= w[i] <= 'z') || IsDigit(w[i])
    decreases |s|
  {
    var t := LStrip(s);
    LStripIsSuffix(s);
    CleanLowerSuffix(s, |s| - |t|);
    var first := TakeWord(t);
    var rest := t[|first|..];
    assert Words(s) == [first] + Words(rest);
    if w == first {
      forall i | 0 <= i < |w|
        ensures ('a' <= w[i] <= 'z') || IsDigit(w[i])
      {
        assert w[i] == t[i] && IsKeptByClean(t[i]) && !('A' <= t[i] <= 'Z') && !IsSpace(t[i]);
      }
    } else {
      assert w in Words(rest);
      CleanLowerSuffix(t, |first|);
      WordsCharacters(rest, w);
    }
  }

  // ---------------------------------------------------------------------------------------------
  // Candidates

  /** The blacklist test on a candidate's host: equal to an entry, a sub-domain of one, or merely containing one. */
  predicate Blacklisted(host: string) {
    || (exists k :: 0 <= k < |Blacklist| && (Blacklist[k] == host || EndsWith(host, "." + Blacklist[k])))
    || ContainsAny(host, Blacklist)
  }

  /** The substring test decides alone: the exact and sub-domain tests never drop a host it keeps. */
  lemma BlacklistIsSubstring(host: string)
    ensures Blacklisted(host) <==> ContainsAny(host, Blacklist)
  {
    if exists k :: 0 <= k < |Blacklist| && (Blacklist[k] == host || EndsWith(host, "." + Blacklist[k])) {
      var k :| 0 <= k < |Blacklist| && (Blacklist[k] == host || EndsWith(host, "." + Blacklist[k]));
      if Blacklist[k] == host {
        ContainsSelf(host);
      } else {
        var b := Blacklist[k];
        assert host[|host| - |b|..] == ("." + b)[1..];
        ContainsOfSuffix(host, b);
      }
    }
  }

  /** The suffix "x.com" is inside "dropbox.com", so links to Dropbox are dropped like links to X. */
  lemma DropboxIsBlacklisted()
    ensures Blacklisted("dropbox.com")
  {
    assert Blacklist[11] == "x.com";
    ContainsAt("dropbox.com", "x.com", 6);
  }

  /** `post_domain`: the post's host with every "www." deleted. */
  function PostDomain(postUrl: string): string {
    RemoveAll(Url.Netloc(postUrl), "www.")
  }

  /** The description stored with a candidate: its context and the boosts it received. */
  function MatchText(context: string, companyHit: bool, careerHit: bool): string {
    var boosts :=
      if companyHit && careerHit then "CompanyURL, CareerTerm"
      else if companyHit then "CompanyURL"
      else if careerHit then "CareerTerm"
      else "";
    context + " (" + boosts + ")"
  }

  /** Why `add_candidate` drops an anchor. */
  predicate Dropped(a: Anchor, postDomain: string) {
    || a.href == []
    || !StartsWith(a.href, "http")
    || Contains(a.href, postDomain)
    || Blacklisted(Lower(Url.Netloc(a.href)))
  }

  /** `add_candidate`: the anchor as a scored candidate, unless it is dropped. */
  function AddCandidate(a: Anchor, context: string, base: int, postDomain: string, keywords: seq<string>): (r: Option<Candidate>)
    ensures r.None? <==> Dropped(a, postDomain)
    ensures r.Some? ==> r.value.link == a.href && r.value.text == a.text
    ensures r.Some? ==>
      var href := Lower(a.href);
      && (r.value.score - base == 0 || r.value.score - base == 20 || r.value.score - base == 50 || r.value.score - base == 70)
      && (r.value.score - base >= 50 <==> keywords != [] && ContainsAny(href, keywords))
      && (r.value.score - base == 20 || r.value.score - base == 70 <==> ContainsAny(href, CareerTerms))
  {
    if Dropped(a, postDomain) then None
    else
      var href := Lower(a.href);
      var companyHit := keywords != [] && ContainsAny(href, keywords);
      var careerHit := Contains(href, "career") || Contains(href, "jobs") || Contains(href, "recruitment");
      assert careerHit <==> ContainsAny(href, CareerTerms) by {
        if careerHit {
          if Contains(href, "career") { assert CareerTerms[0] == "career"; }
          else if Contains(href, "jobs") { assert CareerTerms[1] == "jobs"; }
          else { assert CareerTerms[2] == "recruitment"; }
        }
      }
      var score := base + (if companyHit then 50 else 0) + (if careerHit then 20 else 0);
      Some(Candidate(a.href, a.text, score, MatchText(context, companyHit, careerHit)))
  }

  /** `add_candidate` over anchors in order, keeping what is not dropped. */
  function AddAll(anchors: seq<Anchor>, context: string, base: int, postDomain: string, keywords: seq<string>): (r: seq<Candidate>)
    ensures |r| <= |anchors|
    ensures forall c :: c in r ==> exists a :: a in anchors && AddCandidate(a, context, base, postDomain, keywords) == Some(c)
    ensures forall i :: 0 <= i < |anchors| && AddCandidate(anchors[i], context, base, postDomain, keywords).Some? ==>
      AddCandidate(anchors[i], context, base, postDomain, keywords).value in r
  {
    if anchors == [] then []
    else
      var rest := AddAll(anchors[1..], context, base, postDomain, keywords);
      assert forall i :: 1 <= i < |anchors| ==> anchors[i] == anchors[1..][i - 1];
      match AddCandidate(anchors[0], context, base, postDomain, keywords)
      case None => rest
      case Some(c) => [c] + rest
  }

  /** Collecting over a join collects over each part, in order: the candidates keep the anchors' order. */
  lemma {:induction false} AddAllAppend(xs: seq<Anchor>, ys: seq<Anchor>, context: string, base: int, postDomain: string, keywords: seq<string>)
    ensures AddAll(xs + ys, context, base, postDomain, keywords)
         == AddAll(xs, context, base, postDomain, keywords) + AddAll(ys, context, base, postDomain, keywords)
    decreases |xs|
  {
    if xs == [] {
      assert xs + ys == ys;
    } else {
      assert (xs + ys)[0] == xs[0];
      assert (xs + ys)[1..] == xs[1..] + ys;
      AddAllAppend(xs[1..], ys, context, base, postDomain, keywords);
    }
  }

  /**
   * Of two accepted anchors, the earlier one's candidate comes before the later one's; with the
   * completeness clause of `AddAll`, the candidates are the accepted anchors' in anchor order.
   */
  lemma AddAllKeepsOrder(anchors: seq<Anchor>, i: int, j: int, context: string, base: int, postDomain: string, keywords: seq<string>)
    requires 0 <= i < j < |anchors|
    requires AddCandidate(anchors[i], context, base, postDomain, keywords).Some?
    requires AddCandidate(anchors[j], context, base, postDomain, keywords).Some?
    ensures var r := AddAll(anchors, context, base, postDomain, keywords);
      exists p, q :: 0 <= p < q < |r|
        && r[p] == AddCandidate(anchors[i], context, base, postDomain, keywords).value
        && r[q] == AddCandidate(anchors[j], context, base, postDomain, keywords).value
  {
    var front, back := anchors[..j], anchors[j..];
    assert anchors == front + back;
    AddAllAppend(front, back, context, base, postDomain, keywords);
    var f := AddAll(front, context, base, postDomain, keywords);
    var b := AddAll(back, context, base, postDomain, keywords);
    assert front[i] == anchors[i];
    var p :| 0 <= p < |f| && f[p] == AddCandidate(anchors[i], context, base, postDomain, keywords).value;
    assert back[0] == anchors[j];
    assert b[0] == AddCandidate(anchors[j], context, base, postDomain, keywords).value;
    var r := f + b;
    assert r[p] == f[p] && r[|f|] == b[0];
  }

  function AddOptional(a: Option<Anchor>, context: string, base: int, postDomain: string, keywords: seq<string>): seq<Candidate> {
    match a
    case None => []
    case Some(x) => match AddCandidate(x, context, base, postDomain, keywords) case None => [] case Some(c) => [c]
  }

  // ---------------------------------------------------------------------------------------------
  // The three scans

  /** Strategy 1: the anchors of every row whose lower-cased text mentions applying, a link or clicking here. */
  function TableScan(rows: seq<Row>, postDomain: string, keywords: seq<string>): (r: seq<Candidate>)
    ensures forall c :: c in r <==> (exists i :: 0 <= i < |rows| && RowYields(rows[i], postDomain, keywords, c))
    decreases |rows|
  {
    if rows == [] then []
    else
      assert forall i :: 1 <= i < |rows| ==> rows[i] == rows[1..][i - 1];
      (if ContainsAny(Lower(rows[0].text), RowMarkers)
       then AddAll(rows[0].anchors, "Table Context", ContextBase, postDomain, keywords) else [])
      + TableScan(rows[1..], postDomain, keywords)
  }

  /** A row mentioning applying, a link or clicking here contributes the candidates of its anchors. */
  predicate RowYields(row: Row, postDomain: string, keywords: seq<string>, c: Candidate) {
    ContainsAny(Lower(row.text), RowMarkers) && c in AddAll(row.anchors, "Table Context", ContextBase, postDomain, keywords)
  }

  /** The text nodes that name the keyword `kw`, regardless of case. */
  predicate NamesKeyword(l: Label, kw: string) {
    l.text != [] && Contains(Lower(l.text), Lower(kw))
  }

  /** A short label naming `kw` contributes the candidates of its enclosing anchor and of the next anchor. */
  predicate LabelYields(l: Label, kw: string, postDomain: string, keywords: seq<string>, c: Candidate) {
    && NamesKeyword(l, kw) && |l.text| <= 100
    && (|| c in AddOptional(l.parent, "Keyword (" + kw + ")", ContextBase, postDomain, keywords)
        || c in AddOptional(l.next, "Next to (" + kw + ")", ContextBase, postDomain, keywords))
  }

  /** Strategy 2 for one keyword: each short label naming it contributes its enclosing anchor, then the next anchor. */
  function LabelScan(labels: seq<Label>, kw: string, postDomain: string, keywords: seq<string>): (r: seq<Candidate>)
    ensures forall c :: c in r <==> (exists i :: 0 <= i < |labels| && LabelYields(labels[i], kw, postDomain, keywords, c))
    decreases |labels|
  {
    if labels == [] then []
    else
      var l := labels[0];
      assert forall i :: 1 <= i < |labels| ==> labels[i] == labels[1..][i - 1];
      (if NamesKeyword(l, kw) && |l.text| <= 100
       then AddOptional(l.parent, "Keyword (" + kw + ")", ContextBase, postDomain, keywords)
            + AddOptional(l.next, "Next to (" + kw + ")", ContextBase, postDomain, keywords)
       else [])
      + LabelScan(labels[1..], kw, postDomain, keywords)
  }

  /** Strategy 2: the label scan for each keyword, in the keywords' order. */
  function KeywordScan(kws: seq<string>, labels: seq<Label>, postDomain: string, keywords: seq<string>): (r: seq<Candidate>)
    ensures forall c :: c in r <==> exists i :: 0 <= i < |kws| && c in LabelScan(labels, kws[i], postDomain, keywords)
    decreases |kws|
  {
    if kws == [] then []
    else
      assert forall i :: 1 <= i < |kws| ==> kws[i] == kws[1..][i - 1];
      LabelScan(labels, kws[0], postDomain, keywords) + KeywordScan(kws[1..], labels, postDomain, keywords)
  }

  /** Strategy 3: every anchor at the low base score, only when the title gave company keywords. */
  function GlobalScan(anchors: seq<Anchor>, postDomain: string, keywords: seq<string>): (r: seq<Candidate>)
    ensures keywords == [] ==> r == []
    ensures forall c :: c in r ==> c.score >= GlobalBase && exists a :: a in anchors && AddCandidate(a, "Global Smart Scan", GlobalBase, postDomain, keywords) == Some(c)
    ensures keywords != [] ==> forall i :: 0 <= i < |anchors| && AddCandidate(anchors[i], "Global Smart Scan", GlobalBase, postDomain, keywords).Some? ==>
      AddCandidate(anchors[i], "Global Smart Scan", GlobalBase, postDomain, keywords).value in r
  {
    if keywords == [] then [] else AddAll(anchors, "Global Smart Scan", GlobalBase, postDomain, keywords)
  }

  function PageTitle(p: Page): string {
    match p.h1 case Some(t) => t case None => UnknownTitle
  }

  /** All candidates of a page, in the order the scans add them. */
  function Candidates(p: Page, postUrl: string): seq<Candidate> {
    var domain := PostDomain(postUrl);
    var keywords := CompanyKeywords(PageTitle(p));
    TableScan(p.rows, domain, keywords)
    + KeywordScan(LabelKeywords, p.labels, domain, keywords)
    + GlobalScan(p.anchors, domain, keywords)
  }

  function Score(c: Candidate): real {
    c.score as real
  }

  /** The decision: sort by score, highest first and stably, and keep the head if it reaches the threshold. */
  function Decide(title: string, cands: seq<Candidate>): (r: Option<OfficialLink>)
    ensures r.None? <==> forall c :: c in cands ==> c.score < Threshold
    ensures r.Some? ==> exists c :: c in cands && c.score >= Threshold && (forall d :: d in cands ==> d.score <= c.score)
                                   && r.value == OfficialLink(title, c.link, c.text, c.matched)
  {
    if cands == [] then None
    else
      var sorted := StableSort.SortDesc(cands, Score);
      var winner := sorted[0];
      assert winner in multiset(cands);
      assert forall d :: d in cands ==> d.score <= winner.score by {
        forall d | d in cands ensures d.score <= winner.score {
          assert d in multiset(sorted);
          var j :| 0 <= j < |sorted| && sorted[j] == d;
          if j > 0 { assert Score(sorted[0]) >= Score(sorted[j]); }
        }
      }
      if winner.score >= Threshold then Some(OfficialLink(title, winner.link, winner.text, winner.matched)) else None
  }

  /** `extract_official_link`: nothing for a failed fetch, otherwise the decision over the page's candidates. */
  function ExtractOfficialLink(fetched: Option<Page>, postUrl: string): (r: Option<OfficialLink>)
    ensures fetched.None? ==> r.None?
    ensures fetched.Some? ==> (r.None? <==> forall c :: c in Candidates(fetched.value, postUrl) ==> c.score < Threshold)
    ensures r.Some? ==> (fetched.Some? && r.value.title == PageTitle(fetched.value)
      && exists c :: c in Candidates(fetched.value, postUrl) && c.score >= Threshold && c.link == r.value.link)
  {
    match fetched
    case None => None
    case Some(p) => Decide(PageTitle(p), Candidates(p, postUrl))
  }

  // ---------------------------------------------------------------------------------------------
  // What the decision promises

  /**
   * The winner is the earliest candidate with the highest score, returned exactly when that score
   * reaches the threshold.
   */
  lemma DecideIsFirstMax(title: string, cands: seq<Candidate>)
    ensures Decide(title, cands).Some? <==>
      cands != [] && cands[StableSort.FirstMax(cands, Score)].score >= Threshold
    ensures Decide(title, cands).Some? ==>
      var i := StableSort.FirstMax(cands, Score);
      && Decide(title, cands) == Some(OfficialLink(title, cands[i].link, cands[i].text, cands[i].matched))
      && (forall j :: 0 <= j < |cands| ==> cands[j].score <= cands[i].score)
      && (forall j :: 0 <= j < i ==> cands[j].score < cands[i].score)
  {
    if cands != [] {
      StableSort.SortDescHead(cands, Score);
      var i := StableSort.FirstMax(cands, Score);
      forall j | 0 <= j < |cands|
        ensures cands[j].score <= cands[i].score
      {
        assert Score(cands[j]) <= Score(cands[i]);
      }
      forall j | 0 <= j < i
        ensures cands[j].score < cands[i].score
      {
        assert Score(cands[j]) < Score(cands[i]);
      }
    }
  }

  /** A candidate reaches the threshold when any candidate does, so the decision then always answers. */
  lemma AnyClearingCandidateAnswers(title: string, cands: seq<Candidate>, k: nat)
    requires k < |cands| && cands[k].score >= Threshold
    ensures Decide(title, cands).Some?
  {
    DecideIsFirstMax(title, cands);
    var i := StableSort.FirstMax(cands, Score);
    assert Score(cands[k]) <= Score(cands[i]);
  }

  lemma {:induction false} AddAllScores(anchors: seq<Anchor>, context: string, base: int, postDomain: string, keywords: seq<string>)
    ensures forall c :: c in AddAll(anchors, context, base, postDomain, keywords) ==> c.score >= base
  {
    forall c | c in AddAll(anchors, context, base, postDomain, keywords)
      ensures c.score >= base
    {
      var a :| a in anchors && AddCandidate(a, context, base, postDomain, keywords) == Some(c);
    }
  }

  lemma {:induction false} TableScanScores(rows: seq<Row>, postDomain: string, keywords: seq<string>)
    ensures forall c :: c in TableScan(rows, postDomain, keywords) ==> c.score >= ContextBase
    decreases |rows|
  {
    if rows != [] {
      AddAllScores(rows[0].anchors, "Table Context", ContextBase, postDomain, keywords);
      TableScanScores(rows[1..], postDomain, keywords);
    }
  }

  lemma {:induction false} LabelScanScores(labels: seq<Label>, kw: string, postDomain: string, keywords: seq<string>)
    ensures forall c :: c in LabelScan(labels, kw, postDomain, keywords) ==> c.score >= ContextBase
    decreases |labels|
  {
    if labels != [] {
      LabelScanScores(labels[1..], kw, postDomain, keywords);
    }
  }

  lemma {:induction false} KeywordScanScores(kws: seq<string>, labels: seq<Label>, postDomain: string, keywords: seq<string>)
    ensures forall c :: c in KeywordScan(kws, labels, postDomain, keywords) ==> c.score >= ContextBase
    decreases |kws|
  {
    if kws != [] {
      LabelScanScores(labels, kws[0], postDomain, keywords);
      KeywordScanScores(kws[1..], labels, postDomain, keywords);
    }
  }

  /**
   * A candidate found by context — a table row or a keyword label — scores at least 90 and so
   * always clears the threshold: a page yielding one always gets an answer.
   */
  lemma ContextCandidateAlwaysAnswers(p: Page, postUrl: string)
    requires var domain := PostDomain(postUrl);
      var keywords := CompanyKeywords(PageTitle(p));
      TableScan(p.rows, domain, keywords) + KeywordScan(LabelKeywords, p.labels, domain, keywords) != []
    ensures ExtractOfficialLink(Some(p), postUrl).Some?
  {
    var domain := PostDomain(postUrl);
    var keywords := CompanyKeywords(PageTitle(p));
    var t := TableScan(p.rows, domain, keywords);
    var k := KeywordScan(LabelKeywords, p.labels, domain, keywords);
    var cands := Candidates(p, postUrl);
    TableScanScores(p.rows, domain, keywords);
    KeywordScanScores(LabelKeywords, p.labels, domain, keywords);
    assert cands[0] == (t + k)[0];
    AnyClearingCandidateAnswers(PageTitle(p), cands, 0);
  }

  /** A candidate of the global scan clears the threshold exactly when its link received a boost. */
  lemma GlobalCandidateNeedsBoost(a: Anchor, postDomain: string, keywords: seq<string>)
    requires AddCandidate(a, "Global Smart Scan", GlobalBase, postDomain, keywords).Some?
    ensures var c := AddCandidate(a, "Global Smart Scan", GlobalBase, postDomain, keywords).value;
      c.score >= Threshold <==> (keywords != [] && ContainsAny(Lower(a.href), keywords)) || ContainsAny(Lower(a.href), CareerTerms)
  {
  }

  /** Without company keywords the global scan adds nothing. */
  lemma NoKeywordsNoGlobalScan(anchors: seq<Anchor>, postDomain: string)
    ensures GlobalScan(anchors, postDomain, []) == []
  {
  }

  predicate SpaceFree(w: string) {
    forall i :: 0 <= i < |w| ==> !IsSpace(w[i])
  }

  lemma {:induction false} TakeWordOfSpaceFree(w: string, rest: string)
    requires SpaceFree(w) && (rest == [] || IsSpace(rest[0]))
    ensures TakeWord(w + rest) == w
    decreases |w|
  {
    if w != [] {
      assert (w + rest)[1..] == w[1..] + rest;
      TakeWordOfSpaceFree(w[1..], rest);
    }
  }

  /** Two space-free words joined by one space split back into the two words. */
  lemma WordsOfTwo(w1: string, w2: string)
    requires w1 != [] && w2 != [] && SpaceFree(w1) && SpaceFree(w2)
    ensures Words(w1 + " " + w2) == [w1, w2]
  {
    var s := w1 + " " + w2;
    LStripOfNoLeadingSpace(s);
    assert s == w1 + (" " + w2);
    TakeWordOfSpaceFree(w1, " " + w2);
    assert s[|w1|..] == " " + w2;
    LStripOfNoLeadingSpace(w2);
    LStripSpaces(" ", w2);
    TakeWordOfSpaceFree(w2, []);
    assert w2 + [] == w2;
    assert w2[|w2|..] == [];
    assert Words(" " + w2) == [w2] + Words([]);
    assert Words(s) == [w1] + Words(" " + w2);
  }

  lemma {:induction false} CleanKeepsLettersAndSpaces(s: string)
    requires forall i :: 0 <= i < |s| ==> IsKeptByClean(s[i])
    ensures CleanTitle(s) == s
    decreases |s|
  {
    if s != [] {
      CleanKeepsLettersAndSpaces(s[1..]);
    }
  }

  lemma UnknownTitleParts()
    ensures Lower(UnknownTitle) == "unknown" + " " + "title"
    ensures SpaceFree("unknown") && SpaceFree("title")
    ensures forall i :: 0 <= i < |"unknown title"| ==> IsKeptByClean("unknown title"[i])
  {
  }

  /** A title of two kept words, each longer than 3 characters and not ignored, gives those two keywords. */
  lemma {:induction false} TwoWordKeywords(title: string, w1: string, w2: string)
    requires Lower(title) == w1 + " " + w2
    requires SpaceFree(w1) && SpaceFree(w2) && |w1| > 3 && |w2| > 3 && w1 !in IgnoreWords && w2 !in IgnoreWords
    requires forall i :: 0 <= i < |Lower(title)| ==> IsKeptByClean(Lower(title)[i])
    ensures CompanyKeywords(title) == [w1, w2]
  {
    CleanKeepsLettersAndSpaces(Lower(title));
    WordsOfTwo(w1, w2);
    assert KeepKeywords([w2], IgnoreWords) == [w2] + KeepKeywords([], IgnoreWords);
    assert KeepKeywords([w1, w2], IgnoreWords) == [w1] + KeepKeywords([w2], IgnoreWords);
  }

  /** Without an `h1` the title is "Unknown Title", whose two words are themselves company keywords. */
  lemma UntitledPageKeywords()
    ensures CompanyKeywords(UnknownTitle) == ["unknown", "title"]
  {
    UnknownTitleParts();
    assert "unknown" !in IgnoreWords;
    assert "title" !in IgnoreWords;
    TwoWordKeywords(UnknownTitle, "unknown", "title");
  }

  /** Nothing comes back for a failed fetch or a page without candidates. */
  lemma NoAnswerWithoutCandidates(fetched: Option<Page>, postUrl: string)
    requires fetched.None? || Candidates(fetched.value, postUrl) == []
    ensures ExtractOfficialLink(fetched, postUrl) == None
  {
  }
}
