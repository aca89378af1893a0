/**
 * The SNS notification of `send_sns_notification`: the message text, and a
 * publish whose failure is logged and swallowed. The topic is the
 * abstract `Outbox`, which records every message that was delivered;
 * whether a publish reaches it is an input.
 */
module Notifications {
  import opened Dates
  import opened Lines

  /** The fixed Hungarian headline ("There are seats for a cocoa concert!")
      and the label of the date list ("Dates:"). */
  const Headline: string := "Van hely kakaókoncertre!"
  const DatesLabel: string := "Dátumok:"

  /** Each date rendered as `YYYY-MM-DD`, in the given order. */
  function Rendered(dates: seq<CalendarDate>): (r: seq<string>)
    ensures |r| == |dates| && forall i :: 0 <= i < |dates| ==> r[i] == FormatIso(dates[i])
  {
    seq(|dates|, i requires 0 <= i < |dates| => FormatIso(dates[i]))
  }

  /** `"\n".join(date.strftime("%Y-%m-%d") for date in dates)`. */
  function FormattedDates(dates: seq<CalendarDate>): string {
    Join(Rendered(dates))
  }

  lemma RenderedHasNoNewline(dates: seq<CalendarDate>)
    ensures forall i :: 0 <= i < |dates| ==> NoNewline(Rendered(dates)[i])
  {
    forall i | 0 <= i < |dates| ensures NoNewline(Rendered(dates)[i]) {
      var s := FormatIso(dates[i]);
      forall k | 0 <= k < |s| ensures s[k] != '\n' {
        if k < 4 {
          assert s[k] == s[..4][k];
        } else if 4 < k < 7 {
          assert s[k] == s[5..7][k - 5];
        } else if 7 < k {
          assert s[k] == s[8..][k - 8];
        }
      }
    }
  }

  /** The SNS message: the headline, the label, then the dates. */
  function SnsMessage(dates: seq<CalendarDate>): string {
    Headline + "\n" + DatesLabel + "\n" + FormattedDates(dates)
  }

  /** The message's lines are the headline, the label and one line per
      date in the given order, with no trailing newline; so for n >= 1
      dates it has n + 2 lines. */
  lemma SnsMessageLines(dates: seq<CalendarDate>)
    requires |dates| >= 1
    ensures Split(SnsMessage(dates)) == [Headline, DatesLabel] + Rendered(dates)
    ensures |Split(SnsMessage(dates))| == |dates| + 2
  {
    var lines := [Headline, DatesLabel] + Rendered(dates);
    JoinAfterTwo(Headline, DatesLabel, Rendered(dates));
    RenderedHasNoNewline(dates);
    assert NoNewline(Headline) && NoNewline(DatesLabel);
    SplitJoin(lines);
  }

  /** With no dates the message ends in the label's newline. */
  lemma SnsMessageNoDates()
    ensures Split(SnsMessage([])) == [Headline, DatesLabel, ""]
  {
    assert SnsMessage([]) == Headline + "\n" + (DatesLabel + "\n" + "");
    SplitAtNewline(Headline, DatesLabel + "\n" + "");
    SplitAtNewline(DatesLabel, "");
  }

  /** 27 October 2023 appears in the message as its own line. */
  lemma SnsMessageExample()
    ensures Split(SnsMessage([Date(2023, 10, 27)])) == [Headline, DatesLabel, "2023-10-27"]
  {
    SnsMessageLines([Date(2023, 10, 27)]);
    IsoExample();
    assert Rendered([Date(2023, 10, 27)]) == ["2023-10-27"];
  }

  datatype Publication = Publication(topic: string, message: string)

  /** The messaging topic: what was delivered, in order. */
  class Outbox {
    var published: seq<Publication>

    constructor ()
      ensures published == []
    {
      published := [];
    }

    /** `sns.publish`: `delivered` says whether the call succeeded; when
        it did not, the call raised and nothing was recorded. */
    method Publish(topic: string, message: string, delivered: bool) returns (ok: bool)
      modifies this
      ensures ok == delivered
      ensures published == old(published) + (if delivered then [Publication(topic, message)] else [])
    {
      ok := delivered;
      if delivered {
        published := published + [Publication(topic, message)];
      }
    }
  }

  /** `send_sns_notification`: publishes the message to the topic; a
      failed publish is swallowed and the call returns normally. */
  method SendSnsNotification(dates: seq<CalendarDate>, topicArn: string, sns: Outbox, delivered: bool)
    modifies sns
    ensures sns.published == old(sns.published) + (if delivered then [Publication(topicArn, SnsMessage(dates))] else [])
  {
    var message := SnsMessage(dates);
    var ok := sns.Publish(topicArn, message, delivered);
  }
}
