/**
 * Extraction of event dates from the venue's listing. The markup parser is
 * not modelled: each event entry arrives as an `Article` whose fields are
 * the already-stripped texts of its `event__fn`, `year`, `month` and `day`
 * blocks, `None` where the block is missing.
 */
module Scraper {
  import opened Wrappers
  import opened Text
  import opened Numerals
  import opened Dates
  import opened Functions

  datatype Article = Article(
    name: Option<string>,
    year: Option<string>,
    month: Option<string>,
    day: Option<string>)

  /** What fetching the page gave: its event entries in document order, or
      a failure (a network error, a non-2xx status, anything else raised). */
  datatype Page = Fetched(articles: seq<Article>) | FetchFailed

  const SoldOutMarker: string := "sold out"

  /** The event name, lowered, contains "sold out". */
  predicate IsSoldOut(name: string) {
    Contains(Lower(name), SoldOutMarker)
  }

  // A missing block stands for 0, which never forms a date.

  function YearField(a: Article): Option<int> {
    if a.year.Some? then GetYear(a.year.value) else Some(0)
  }

  function MonthField(a: Article): Option<int> {
    if a.month.Some? then GetMonthNumber(a.month.value) else Some(0)
  }

  function DayField(a: Article): Option<int> {
    if a.day.Some? then ParseInt(a.day.value) else Some(0)
  }

  /** The date one entry contributes, or `None` when the loop skips it: no
      name, a sold-out name, or fields that raise or do not form a date. */
  function ParseArticle(a: Article): Option<CalendarDate> {
    if a.name.None? || IsSoldOut(a.name.value) then None
    else
      match (YearField(a), MonthField(a), DayField(a))
      case (Some(y), Some(m), Some(d)) => MakeDate(y, m, d)
      case _ => None
  }

  /** An entry contributes a date only when it has a name that is not sold
      out and all three date fields, each parsing to the matching component
      of that valid date. */
  lemma ParseArticleSound(a: Article)
    requires ParseArticle(a).Some?
    ensures a.name.Some? && !IsSoldOut(a.name.value)
    ensures a.year.Some? && a.month.Some? && a.day.Some?
    ensures var r := ParseArticle(a).value;
      && GetYear(a.year.value) == Some(r.year)
      && GetMonthNumber(a.month.value) == Some(r.month)
      && ParseInt(a.day.value) == Some(r.day)
      && ValidDate(r)
  {
  }

  /** An entry with a name that is not sold out, whose three fields are
      present and parse to a valid date, contributes that date. With
      `ParseArticleSound` this is an if-and-only-if. */
  lemma ParseArticleAccepts(a: Article, y: int, m: int, d: int)
    requires a.name.Some? && !IsSoldOut(a.name.value)
    requires a.year.Some? && GetYear(a.year.value) == Some(y)
    requires a.month.Some? && GetMonthNumber(a.month.value) == Some(m)
    requires a.day.Some? && ParseInt(a.day.value) == Some(d)
    requires ValidDate(Date(y, m, d))
    ensures ParseArticle(a) == Some(Date(y, m, d))
  {
  }

  /** What each entry yields, position by position. */
  function Outcomes(articles: seq<Article>): (r: seq<Option<CalendarDate>>)
    ensures |r| == |articles| && forall i :: 0 <= i < |articles| ==> r[i] == ParseArticle(articles[i])
  {
    seq(|articles|, i requires 0 <= i < |articles| => ParseArticle(articles[i]))
  }

  /** The present values of a sequence of outcomes, in order. */
  function Present(os: seq<Option<CalendarDate>>): (r: seq<CalendarDate>)
    ensures |r| <= |os|
  {
    if os == [] then []
    else Present(os[..|os| - 1]) + (if os[|os| - 1].Some? then [os[|os| - 1].value] else [])
  }

  lemma {:induction false} PresentAppend(a: seq<Option<CalendarDate>>, b: seq<Option<CalendarDate>>)
    ensures Present(a + b) == Present(a) + Present(b)
  {
    if b == [] {
      assert a + b == a;
    } else {
      var ab := a + b;
      assert ab[..|ab| - 1] == a + b[..|b| - 1];
      PresentAppend(a, b[..|b| - 1]);
    }
  }

  lemma {:induction false} PresentMembers(os: seq<Option<CalendarDate>>, d: CalendarDate)
    ensures d in Present(os) <==> Some(d) in os
  {
    if os != [] {
      var n := |os| - 1;
      PresentMembers(os[..n], d);
      assert os == os[..n] + [os[n]];
    }
  }

  /** The dates the loop keeps: one per kept entry, in entry order. */
  function KeptDates(articles: seq<Article>): (r: seq<CalendarDate>)
    ensures |r| <= |articles|
  {
    Present(Outcomes(articles))
  }

  /** Extraction distributes over concatenation: what one entry does never
      depends on, or affects, the others. */
  lemma KeptDatesAppend(a: seq<Article>, b: seq<Article>)
    ensures KeptDates(a + b) == KeptDates(a) + KeptDates(b)
  {
    assert Outcomes(a + b) == Outcomes(a) + Outcomes(b);
    PresentAppend(Outcomes(a), Outcomes(b));
  }

  lemma KeptDatesSingle(e: Article)
    ensures KeptDates([e]) == if ParseArticle(e).Some? then [ParseArticle(e).value] else []
  {
    var os := Outcomes([e]);
    assert os[..0] == [];
  }

  /** One more entry extends the extraction by that entry's date, if any. */
  lemma KeptDatesStep(articles: seq<Article>, i: int)
    requires 0 <= i < |articles|
    ensures KeptDates(articles[..i + 1]) == KeptDates(articles[..i]) + KeptDates([articles[i]])
  {
    assert articles[..i + 1] == articles[..i] + [articles[i]];
    KeptDatesAppend(articles[..i], [articles[i]]);
  }

  /** A skipped entry contributes nothing, and the entries after it are
      still processed: a malformed entry never aborts the loop. */
  lemma SkippedEntry(before: seq<Article>, e: Article, after: seq<Article>)
    requires ParseArticle(e).None?
    ensures KeptDates(before + [e] + after) == KeptDates(before) + KeptDates(after)
  {
    KeptDatesAppend(before + [e], after);
    KeptDatesAppend(before, [e]);
    KeptDatesSingle(e);
  }

  /** A kept entry contributes its date exactly once, at its position: two
      entries with the same date give that date twice. */
  lemma KeptEntry(before: seq<Article>, e: Article, after: seq<Article>)
    requires ParseArticle(e).Some?
    ensures KeptDates(before + [e] + after) == KeptDates(before) + [ParseArticle(e).value] + KeptDates(after)
  {
    KeptDatesAppend(before + [e], after);
    KeptDatesAppend(before, [e]);
    KeptDatesSingle(e);
  }

  /** A date is extracted exactly when some entry yields it. */
  lemma KeptDatesMembers(articles: seq<Article>, d: CalendarDate)
    ensures d in KeptDates(articles) <==> exists i :: 0 <= i < |articles| && ParseArticle(articles[i]) == Some(d)
  {
    var os := Outcomes(articles);
    PresentMembers(os, d);
    if Some(d) in os {
      var i :| 0 <= i < |os| && os[i] == Some(d);
      assert ParseArticle(articles[i]) == Some(d);
    }
  }

  /** Every extracted date is a valid calendar date. */
  lemma KeptDatesValid(articles: seq<Article>)
    ensures forall i :: 0 <= i < |KeptDates(articles)| ==> ValidDate(KeptDates(articles)[i])
  {
  }

  /** An entry without its event-name block is skipped. */
  lemma NamelessSkipped(a: Article)
    requires a.name.None?
    ensures ParseArticle(a).None?
  {
  }

  /** An entry whose name contains "sold out" in any case is skipped,
      whatever its date fields. */
  lemma SoldOutSkipped(a: Article)
    requires a.name.Some? && IsSoldOut(a.name.value)
    ensures ParseArticle(a).None?
  {
  }

  /** "SOLD OUT" in capitals marks an entry sold out as well. */
  lemma SoldOutAnyCase(name: string)
    requires Contains(name, "SOLD OUT")
    ensures IsSoldOut(name)
  {
    var upper := "SOLD OUT";
    var i :| 0 <= i <= |name| - |upper| && OccursAt(name, upper, i);
    var low := Lower(name);
    assert |upper| == 8;
    assert Lower(upper) == SoldOutMarker by {
      forall k | 0 <= k < 8 ensures Lower(upper)[k] == SoldOutMarker[k] {
      }
    }
    assert low[i..i + 8] == Lower(name[i..i + 8]);
    assert OccursAt(low, SoldOutMarker, i);
  }

  /** An entry missing its year, month or day block is skipped: the
      default 0 never forms a date. */
  lemma MissingFieldSkipped(a: Article)
    requires a.year.None? || a.month.None? || a.day.None?
    ensures ParseArticle(a).None?
  {
  }

  /** The loop of `parse_html_content`: skip entries without a name and
      sold-out entries, parse the three fields (0 for a missing block),
      keep the date when construction succeeds and skip the entry when
      anything raises. */
  method ParseHtmlContent(articles: seq<Article>) returns (dates: seq<CalendarDate>)
    ensures dates == KeptDates(articles)
  {
    dates := [];
    var i := 0;
    while i < |articles|
      invariant 0 <= i <= |articles|
      invariant dates == KeptDates(articles[..i])
    {
      var article := articles[i];
      KeptDatesStep(articles, i);
      KeptDatesSingle(article);
      i := i + 1;
      if article.name.None? {
        continue;
      }
      var eventName := article.name.value;
      if IsSoldOut(eventName) {
        continue;
      }
      var year := if article.year.Some? then GetYear(article.year.value) else Some(0);
      var month := if article.month.Some? then GetMonthNumber(article.month.value) else Some(0);
      var day := if article.day.Some? then ParseInt(article.day.value) else Some(0);
      if year.None? || month.None? || day.None? {
        continue;
      }
      var dateObj := MakeDate(year.value, month.value, day.value);
      if dateObj.None? {
        continue;
      }
      dates := dates + [dateObj.value];
    }
    assert articles[..i] == articles;
  }

  /** What a fetch yields: nothing when it failed, otherwise the dates
      kept from the page's entries. */
  function Scraped(page: Page): seq<CalendarDate> {
    match page
    case FetchFailed => []
    case Fetched(articles) => KeptDates(articles)
  }

  /** `fetch_concert_dates`: any fetch failure gives the empty list,
      otherwise the dates extracted from the page. */
  method FetchConcertDates(page: Page) returns (dates: seq<CalendarDate>)
    ensures page.FetchFailed? ==> dates == []
    ensures page.Fetched? ==> dates == KeptDates(page.articles)
    ensures dates == Scraped(page)
  {
    match page
    case FetchFailed =>
      dates := [];
    case Fetched(articles) =>
      dates := ParseHtmlContent(articles);
  }

  /** The entry of the two-sessions example. */
  function SessionExample(): Article {
    Article(Some("Kakaókoncert"), Some("2025."), Some("October"), Some("11"))
  }

  lemma SessionNameNotSoldOut()
    ensures !IsSoldOut("Kakaókoncert")
  {
    var low := Lower("Kakaókoncert");
    assert low == "kakaókoncert";
    forall i | 0 <= i <= |low| - |SoldOutMarker|
      ensures !OccursAt(low, SoldOutMarker, i)
    {
      assert low[i] != 's';
      assert low[i..i + 8][0] == low[i];
    }
  }

  lemma SessionYear()
    ensures GetYear("2025.") == Some(2025)
  {
    DigitsValueSnoc("", '2'); DigitsValueSnoc("2", '0'); DigitsValueSnoc("20", '2'); DigitsValueSnoc("202", '5');
    assert "" + ['2'] == "2" && "2" + ['0'] == "20" && "20" + ['2'] == "202" && "202" + ['5'] == "2025";
    GetYearDigits("2025");
    assert "2025" + "." == "2025.";
  }

  lemma SessionMonth()
    ensures GetMonthNumber("October") == Some(10)
  {
    StripNoSpace("October");
    assert Lower("October") == "october";
    MonthsOrder();
  }

  lemma SessionDay()
    ensures ParseInt("11") == Some(11)
  {
    DigitsValueSnoc("", '1'); DigitsValueSnoc("1", '1');
    assert "" + ['1'] == "1" && "1" + ['1'] == "11";
    ParseDigits("11");
  }

  lemma SessionExampleParses()
    ensures ParseArticle(SessionExample()) == Some(Date(2025, 10, 11))
  {
    SessionNameNotSoldOut();
    SessionYear();
    SessionMonth();
    SessionDay();
    ParseArticleAccepts(SessionExample(), 2025, 10, 11);
  }

  /** Two entries on the same day that are not sold out both count. */
  lemma DuplicateDatesExample()
    ensures KeptDates([SessionExample(), SessionExample()]) == [Date(2025, 10, 11), Date(2025, 10, 11)]
  {
    var e := SessionExample();
    SessionExampleParses();
    KeptEntry([], e, [e]);
    KeptDatesSingle(e);
    assert [] + [e] + [e] == [e, e];
  }
}
