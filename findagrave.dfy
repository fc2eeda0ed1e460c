/** The FindAGrave.com genealogy tool: the search it asks the site for and
    the placeholder findings it reads off the result page. The HTTP request
    and the HTML parsing are outside the model: the page arrives already
    reduced to its links, or as `None` when the request failed. */
module FindAGrave {
  import opened Wrappers
  import opened Text
  import opened Models

  /** A finding as a genealogy tool reports it (a dict in the source). The
      research plugin sets `sourceName` to the name of the tool that
      produced it. */
  datatype RawFinding = RawFinding(
    dataField: string,
    value: string,
    sourceUrl: Option<string>,
    citation: Option<string>,
    notes: Option<string>,
    sourceName: Option<string>)

  const ToolName := "FindAGrave.com"
  const SearchUrl := "https://www.findagrave.com/memorial/search"
  const SiteUrl := "https://www.findagrave.com"
  const ExistenceField := "existence_on_findagrave"
  const PlaceholderNotes := "This is a raw search result link. Full memorial page content was not scraped in this example. Further verification and detailed scraping needed."
  /** Only the first few memorial links are turned into findings. */
  const MaxLinks := 3

  // ---------------------------------------------------------------------
  // Years in free-form dates

  /** A four-digit run, the only thing read as a year. */
  predicate IsYear(s: string) {
    |s| == 4 && IsDigits(s)
  }

  /** `date.replace(',', ' ').split()`. */
  function DateParts(date: string): seq<string> {
    Words(ReplaceChar(date, ',', ' '))
  }

  /** The last part that is a year, or "" when there is none. */
  function LastYear(parts: seq<string>): (r: string)
    ensures r == "" <==> forall i :: 0 <= i < |parts| ==> !IsYear(parts[i])
    ensures r != "" ==> exists i :: (0 <= i < |parts| && parts[i] == r && IsYear(r)
      && forall j :: i < j < |parts| ==> !IsYear(parts[j]))
    decreases |parts|
  {
    if |parts| == 0 then ""
    else if IsYear(parts[|parts| - 1]) then parts[|parts| - 1]
    else LastYear(parts[..|parts| - 1])
  }

  /** The year searched for: none for a missing or empty date. */
  function YearOf(date: Option<string>): string {
    if date.None? || date.value == "" then "" else LastYear(DateParts(date.value))
  }

  /** The loop over `reversed(parts)`, stopping at the first year. */
  method ScanForYear(parts: seq<string>) returns (year: string)
    ensures year == LastYear(parts)
  {
    var i := |parts|;
    while i > 0
      invariant 0 <= i <= |parts|
      invariant LastYear(parts) == LastYear(parts[..i])
    {
      assert parts[..i][..i - 1] == parts[..i - 1];
      if IsYear(parts[i - 1]) {
        return parts[i - 1];
      }
      i := i - 1;
    }
    assert parts[..0] == [];
    return "";
  }

  /** The year of a person's date, "" when the date is missing or empty. */
  method ExtractYear(date: Option<string>) returns (year: string)
    ensures year == YearOf(date)
  {
    year := "";
    if date.Some? && date.value != "" {
      year := ScanForYear(DateParts(date.value));
    }
  }

  /** A year found in a date is a four-digit part of it, and no later part
      is one. */
  lemma YearIsLastFourDigitPart(date: string)
    requires date != ""
    ensures YearOf(Some(date)) == "" || IsYear(YearOf(Some(date)))
    ensures YearOf(Some(date)) in DateParts(date) || YearOf(Some(date)) == ""
  {
  }

  // ---------------------------------------------------------------------
  // The search request

  /** The query, in the order the source builds it. */
  function SearchParams(first: string, last: string, birthYear: string, deathYear: string): seq<(string, string)> {
    [("firstname", first), ("lastname", last), ("birthyear", birthYear), ("deathyear", deathYear),
     ("orderby", "best"), ("page", "1")]
  }

  /** Drops the parameters whose value is empty, keeping the order. */
  function Cleaned(ps: seq<(string, string)>): (r: seq<(string, string)>)
    ensures forall p :: p in r <==> p in ps && p.1 != ""
    ensures |r| <= |ps|
  {
    if |ps| == 0 then []
    else (if ps[0].1 != "" then [ps[0]] else []) + Cleaned(ps[1..])
  }

  /** The query a person is searched with: absent names and years are left
      out, the ordering and the page are always sent. */
  lemma {:induction false} QueryOfPerson(p: Person, birthYear: string, deathYear: string)
    ensures var q := Cleaned(SearchParams(p.firstName.GetOr(""), p.lastName.GetOr(""), birthYear, deathYear));
      ("orderby", "best") in q && ("page", "1") in q
      && (("firstname", p.firstName.GetOr("")) in q <==> p.firstName.Some? && p.firstName.value != "")
      && (("birthyear", birthYear) in q <==> birthYear != "")
      && (forall k :: 0 <= k < |q| ==> q[k].1 != "")
  {
    var ps := SearchParams(p.firstName.GetOr(""), p.lastName.GetOr(""), birthYear, deathYear);
    assert ps[4] == ("orderby", "best") && ps[5] == ("page", "1");
    assert ps[0] == ("firstname", p.firstName.GetOr("")) && ps[2] == ("birthyear", birthYear);
    var q := Cleaned(ps);
    forall k | 0 <= k < |q| ensures q[k].1 != "" {
      assert q[k] in q;
    }
  }

  // ---------------------------------------------------------------------
  // The result page

  /** An `<a>` element: its `href` (absent attributes are `None`) and its
      text, already stripped and joined with single spaces. */
  datatype Link = Link(href: Option<string>, text: string)

  /** The result page, reduced to the anchors of the two containers the
      tool looks for (`div.search-results`, then `div#memSearch`). */
  datatype Page = Page(searchResults: Option<seq<Link>>, memSearch: Option<seq<Link>>)

  /** The container the tool reads: the first one present. */
  function Container(page: Page): Option<seq<Link>> {
    if page.searchResults.Some? then page.searchResults else page.memSearch
  }

  /** The `href` filter: present, non-empty, pointing at a memorial and not
      at the search page. */
  predicate IsMemorialHref(href: Option<string>) {
    href.Some? && href.value != "" && Contains(href.value, "/memorial/") && !EndsWith(href.value, "/search")
  }

  /** `find_all('a', href=...)`: the memorial links in document order. */
  function MemorialLinks(links: seq<Link>): (r: seq<Link>)
    ensures forall l :: l in r <==> l in links && IsMemorialHref(l.href)
    ensures |r| <= |links|
  {
    if |links| == 0 then []
    else (if IsMemorialHref(links[0].href) then [links[0]] else []) + MemorialLinks(links[1..])
  }

  /** Python's rendering of an optional text inside an f-string. */
  function PyText(s: Option<string>): string {
    if s.Some? then s.value else "None"
  }

  function MemorialUrl(l: Link): string
    requires IsMemorialHref(l.href)
  {
    SiteUrl + l.href.value
  }

  /** The citation text; `today` is the access date as `%d %B %Y`. */
  function MemorialCitation(p: Person, url: string, today: string): string {
    "Find a Grave, database and images (https://www.findagrave.com : accessed " + today
    + "), memorial page for a potential match of " + PyText(p.firstName) + " " + PyText(p.lastName)
    + ". URL: " + url
  }

  /** The placeholder finding made from one memorial link. */
  function MemorialFinding(p: Person, l: Link, today: string): (r: RawFinding)
    requires IsMemorialHref(l.href)
    ensures r.dataField == ExistenceField && r.sourceName.None?
    ensures r.sourceUrl == Some(SiteUrl + l.href.value)
    ensures r.citation.Some? && EndsWith(r.citation.value, SiteUrl + l.href.value)
  {
    var url := MemorialUrl(l);
    assert (MemorialCitation(p, url, today)[|MemorialCitation(p, url, today)| - |url|..]) == url;
    RawFinding(ExistenceField, "Potential FindAGrave record: '" + l.text + "'", Some(url),
               Some(MemorialCitation(p, url, today)), Some(PlaceholderNotes), None)
  }

  /** The first links that are turned into findings. */
  function Considered(page: Option<Page>): (r: seq<Link>)
    ensures |r| <= MaxLinks
    ensures forall i :: 0 <= i < |r| ==> IsMemorialHref(r[i].href)
  {
    if page.None? || Container(page.value).None? then []
    else
      var links := MemorialLinks(Container(page.value).value);
      if |links| <= MaxLinks then links else links[..MaxLinks]
  }

  /** The findings made from memorial links, one each, in order. */
  function LinkFindings(p: Person, links: seq<Link>, today: string): seq<RawFinding>
    requires forall i :: 0 <= i < |links| ==> IsMemorialHref(links[i].href)
  {
    seq(|links|, i requires 0 <= i < |links| => MemorialFinding(p, links[i], today))
  }

  /** The findings of one search. */
  function Found(p: Person, page: Option<Page>, today: string): seq<RawFinding> {
    LinkFindings(p, Considered(page), today)
  }

  /** The loop over the considered links; a link without `href` would be
      skipped, but the filter has already removed those. */
  method MakeFindings(p: Person, links: seq<Link>, today: string) returns (findings: seq<RawFinding>)
    requires forall i :: 0 <= i < |links| ==> IsMemorialHref(links[i].href)
    ensures findings == LinkFindings(p, links, today)
  {
    findings := [];
    var i := 0;
    while i < |links|
      invariant 0 <= i <= |links|
      invariant findings == LinkFindings(p, links[..i], today)
    {
      var link := links[i];
      assert links[..i + 1] == links[..i] + [link];
      findings := findings + [MemorialFinding(p, link, today)];
      i := i + 1;
    }
    assert links[..i] == links;
  }

  /** `search_person`: the query sent and the findings made from the first
      memorial links of the returned page. */
  method SearchPerson(p: Person, page: Option<Page>, today: string)
    returns (query: seq<(string, string)>, findings: seq<RawFinding>)
    ensures query == Cleaned(SearchParams(p.firstName.GetOr(""), p.lastName.GetOr(""),
                                          YearOf(p.birthDate), YearOf(p.deathDate)))
    ensures findings == Found(p, page, today)
  {
    var birthYear := ExtractYear(p.birthDate);
    var deathYear := ExtractYear(p.deathDate);
    query := Cleaned(SearchParams(p.firstName.GetOr(""), p.lastName.GetOr(""), birthYear, deathYear));
    findings := MakeFindings(p, Considered(page), today);
  }

  /** At most three findings, each about the person's existence on the
      site and pointing at a memorial page of it. */
  lemma {:induction false} FoundShape(p: Person, page: Option<Page>, today: string)
    ensures |Found(p, page, today)| <= MaxLinks
    ensures forall k :: 0 <= k < |Found(p, page, today)| ==>
      var f := Found(p, page, today)[k];
      f.dataField == ExistenceField && f.sourceUrl.Some?
      && StartsWith(f.sourceUrl.value, SiteUrl) && Contains(f.sourceUrl.value, "/memorial/")
      && !EndsWith(f.sourceUrl.value, "/search")
  {
    var links := Considered(page);
    forall k | 0 <= k < |Found(p, page, today)|
      ensures var f := Found(p, page, today)[k];
        f.dataField == ExistenceField && f.sourceUrl.Some?
        && StartsWith(f.sourceUrl.value, SiteUrl) && Contains(f.sourceUrl.value, "/memorial/")
        && !EndsWith(f.sourceUrl.value, "/search")
    {
      assert links[k] in links;
      var h := links[k].href.value;
      PrefixOfConcat(SiteUrl, h);
      ContainsInSuffix(SiteUrl, h, "/memorial/");
      ContainsLonger(h, "/memorial/");
      EndsWithOfConcat(SiteUrl, h, "/search");
    }
  }

  /** No page, or a page without either container, gives no findings. */
  lemma NothingWithoutContainer(p: Person, page: Option<Page>, today: string)
    requires page.None? || (page.value.searchResults.None? && page.value.memSearch.None?)
    ensures Found(p, page, today) == []
  {
  }

  lemma {:induction false} ContainsInSuffix(a: string, b: string, sub: string)
    requires Contains(b, sub)
    ensures Contains(a + b, sub)
    decreases |a|
  {
    if |a| == 0 {
      assert a + b == b;
    } else {
      assert (a + b)[1..] == a[1..] + b;
      ContainsInSuffix(a[1..], b, sub);
    }
  }

  lemma {:induction false} ContainsLonger(s: string, sub: string)
    requires Contains(s, sub)
    ensures |sub| <= |s|
    decreases |s|
  {
    if !StartsWith(s, sub) {
      ContainsLonger(s[1..], sub);
    }
  }

  lemma EndsWithOfConcat(a: string, b: string, suffix: string)
    requires |suffix| <= |b|
    ensures EndsWith(a + b, suffix) == EndsWith(b, suffix)
  {
    assert (a + b)[|a + b| - |suffix|..] == b[|b| - |suffix|..];
  }
}
