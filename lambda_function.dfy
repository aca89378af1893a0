/**
 * The older entry point: `lambda_handler` scrapes, loads the stored dates
 * through the older `DateCache`, and when some scraped date is not stored
 * sends a message listing the new ones and saves the scrape.
 */
module LambdaFunction {
  import opened Wrappers
  import opened Dates
  import opened Lines
  import opened Scraper
  import opened Storage
  import opened Notifications

  /** The fixed key of the stored dates. */
  const StorageFile: string := "dates.json"

  /** `list_article_tags_content`: the same entry loop as the scraper's,
      with a failed fetch giving the empty list. */
  method ListArticleTagsContent(page: Page) returns (dates: seq<CalendarDate>)
    ensures page.FetchFailed? ==> dates == []
    ensures page.Fetched? ==> dates == KeptDates(page.articles)
  {
    match page
    case FetchFailed =>
      dates := [];
    case Fetched(articles) =>
      dates := ParseHtmlContent(articles);
  }

  // ---------------------------------------------------------------------
  // The message of send_message
  // ---------------------------------------------------------------------

  /** The four spaces that the source's triple-quoted message keeps at the
      start of its second and third lines. */
  const Indent: string := "    "

  function LambdaMessage(dates: seq<CalendarDate>): string {
    Headline + "\n" + Indent + DatesLabel + "\n" + Indent + FormattedDates(dates)
  }

  /** The lines the message is made of. */
  function LambdaLines(dates: seq<CalendarDate>): seq<string>
    requires |dates| >= 1
  {
    [Headline, Indent + DatesLabel, Indent + Rendered(dates)[0]] + Rendered(dates)[1..]
  }

  lemma Regroup(a: string, b: string, c: string, d: string, j: string)
    ensures a + "\n" + b + c + "\n" + d + j == a + "\n" + (b + c) + "\n" + (d + j)
  {
  }

  /** The message as a join of its lines. */
  lemma LambdaMessageJoin(dates: seq<CalendarDate>)
    requires |dates| >= 1
    ensures LambdaMessage(dates) == Join(LambdaLines(dates))
  {
    var r := Rendered(dates);
    var body := [Indent + r[0]] + r[1..];
    Regroup(Headline, Indent, DatesLabel, Indent, Join(r));
    JoinPrefixFirst(Indent, r);
    JoinAfterTwo(Headline, Indent + DatesLabel, body);
    assert [Headline, Indent + DatesLabel] + body == LambdaLines(dates);
  }

  lemma HeaderLinesNoNewline()
    ensures NoNewline(Headline) && NoNewline(Indent + DatesLabel) && NoNewline(Indent)
  {
    assert NoNewline(Indent) && NoNewline(DatesLabel);
    NoNewlineConcat(Indent, DatesLabel);
  }

  lemma LambdaLinesNoNewline(dates: seq<CalendarDate>)
    requires |dates| >= 1
    ensures forall i :: 0 <= i < |LambdaLines(dates)| ==> NoNewline(LambdaLines(dates)[i])
  {
    var r := Rendered(dates);
    var lines := LambdaLines(dates);
    RenderedHasNoNewline(dates);
    HeaderLinesNoNewline();
    NoNewlineConcat(Indent, r[0]);
    var head := [Headline, Indent + DatesLabel, Indent + r[0]];
    assert lines == head + r[1..];
    forall i | 0 <= i < |lines| ensures NoNewline(lines[i]) {
      if i < 3 {
        assert lines[i] == head[i];
      } else {
        assert lines[i] == r[i - 2];
      }
    }
  }

  /** The lines of the message: the headline, the indented label, the
      first date indented, and the other dates unindented, in order. */
  lemma LambdaMessageLines(dates: seq<CalendarDate>)
    requires |dates| >= 1
    ensures Split(LambdaMessage(dates))
         == [Headline, Indent + DatesLabel, Indent + FormatIso(dates[0])] + Rendered(dates)[1..]
  {
    LambdaMessageJoin(dates);
    LambdaLinesNoNewline(dates);
    SplitJoin(LambdaLines(dates));
  }

  /** `send_message`: publishes the message to the topic and swallows a
      failed publish. */
  method SendMessage(dates: seq<CalendarDate>, topicArn: string, sns: Outbox, delivered: bool)
    modifies sns
    ensures sns.published == old(sns.published) + (if delivered then [Publication(topicArn, LambdaMessage(dates))] else [])
  {
    var message := LambdaMessage(dates);
    var ok := sns.Publish(topicArn, message, delivered);
  }

  // ---------------------------------------------------------------------
  // The handler
  // ---------------------------------------------------------------------

  function Elements(s: seq<CalendarDate>): set<CalendarDate> {
    set x | x in s
  }

  /** `set(current) - set(old)`: the dates the handler reports. */
  function Unseen(current: seq<CalendarDate>, stored: seq<CalendarDate>): (r: set<CalendarDate>)
    ensures forall x :: x in r <==> x in current && x !in stored
  {
    Elements(current) - Elements(stored)
  }

  /** The reported dates are new and scraped, and there are some exactly
      when some scraped date is not stored. */
  lemma UnseenFacts(current: seq<CalendarDate>, stored: seq<CalendarDate>)
    ensures Unseen(current, stored) * Elements(stored) == {}
    ensures Unseen(current, stored) <= Elements(current)
    ensures Unseen(current, stored) != {} <==> exists x :: x in current && x !in stored
  {
    var u := Unseen(current, stored);
    if exists x :: x in current && x !in stored {
      var x :| x in current && x !in stored;
      assert x in u;
    }
  }

  predicate Distinct(s: seq<CalendarDate>) {
    forall i, j :: 0 <= i < j < |s| ==> s[i] != s[j]
  }

  /** Iterating a set: each element once, in an order the set leaves
      open. */
  method Enumerate(s: set<CalendarDate>) returns (order: seq<CalendarDate>)
    ensures Distinct(order)
    ensures forall x :: x in order <==> x in s
    ensures |order| == |s|
  {
    order := [];
    var rest := s;
    while rest != {}
      invariant rest !! Elements(order)
      invariant rest + Elements(order) == s
      invariant Distinct(order)
      invariant |order| + |rest| == |s|
      decreases |rest|
    {
      var x :| x in rest;
      assert Elements(order + [x]) == Elements(order) + {x};
      order := order + [x];
      rest := rest - {x};
    }
    assert Elements(order) == s;
  }

  /** `lambda_handler`: a load error propagates before anything is sent or
      saved; otherwise, when some scraped date is not stored, the new dates
      are sent (in set order) and the scrape is saved whole, and when none
      is new nothing happens. Whether the publish is delivered changes only
      the topic, never the save. */
  method LambdaHandler(page: Page, bucket: string, s3: ObjectStore, sns: Outbox, topicArn: string, delivered: bool)
    returns (raised: Option<LoadError>, sent: seq<CalendarDate>)
    modifies s3, sns
    ensures var loaded := LoadFrom(old(s3.objects), Location(bucket, StorageFile));
      loaded.Err? ==> raised == Some(loaded.error) && sent == []
                      && s3.objects == old(s3.objects) && sns.published == old(sns.published)
    ensures var loaded := LoadFrom(old(s3.objects), Location(bucket, StorageFile));
      loaded.Ok? ==>
        var current := Scraped(page);
        var unseen := Unseen(current, loaded.value);
        && raised == None
        && Distinct(sent) && (forall x :: x in sent <==> x in unseen)
        && (unseen != {} ==> s3.objects == SaveTo(old(s3.objects), Location(bucket, StorageFile), current))
        && (unseen != {} ==> sns.published == old(sns.published) + (if delivered then [Publication(topicArn, LambdaMessage(sent))] else []))
        && (unseen == {} ==> sent == [] && s3.objects == old(s3.objects) && sns.published == old(sns.published))
  {
    var currentDates := ListArticleTagsContent(page);
    var cache := new DateCache(s3, bucket, StorageFile);
    var oldDates := cache.LoadOldDates();
    if oldDates.Err? {
      return Some(oldDates.error), [];
    }
    var dates := Unseen(currentDates, oldDates.value);
    raised := None;
    sent := [];
    if dates != {} {
      sent := Enumerate(dates);
      SendMessage(sent, topicArn, sns, delivered);
      cache.SaveDates(currentDates);
    }
  }
}
