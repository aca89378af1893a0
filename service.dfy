/**
 * `ConcertTrackerService.run`: one step over the cached dates, the scraped
 * dates and the force flag. `Decide` says what the step sends and what it
 * stores; `Run` does it against the cache and the notifier.
 */
module Service {
  import opened Wrappers
  import opened Dates
  import opened Scraper
  import opened CacheContract

  /** The notifier (`send_notification`): the lists it was asked to send,
      in order. */
  class Notifier {
    var requests: seq<seq<CalendarDate>>

    constructor ()
      ensures requests == []
    {
      requests := [];
    }

    method SendNotification(dates: seq<CalendarDate>)
      modifies this
      ensures requests == old(requests) + [dates]
    {
      requests := requests + [dates];
    }
  }

  /** What one run does: the list it sends, if any, and the list it
      stores, if any. */
  datatype Step = Step(sent: Option<seq<CalendarDate>>, stored: Option<seq<CalendarDate>>)

  const Nothing: Step := Step(None, None)

  /** The run's decision, branch for branch. It never sends an empty list
      and stores only alongside a notification. */
  function Decide(cached: seq<CalendarDate>, current: seq<CalendarDate>, force: bool): (r: Step)
    ensures r.sent != Some([])
    ensures r.stored.Some? ==> r.sent.Some?
  {
    if current == [] && !force then Nothing
    else if force then
      var toSend := if cached != [] then cached else current;
      Step(if toSend != [] then Some(toSend) else None, None)
    else
      var newDates := NewDates(cached, current);
      if newDates != [] then Step(Some(newDates), Some(current)) else Nothing
  }

  /** The cached list after a step. */
  function CachedAfter(cached: seq<CalendarDate>, step: Step): seq<CalendarDate> {
    if step.stored.Some? then step.stored.value else cached
  }

  /** A non-force run that scraped nothing sends nothing and stores
      nothing, whatever is cached. */
  lemma EmptyScrapeIsNoOp(cached: seq<CalendarDate>)
    ensures Decide(cached, [], false) == Nothing
  {
  }

  /** A force run sends the cached list if there is one, otherwise the
      scraped list, nothing when both are empty, and never stores. */
  lemma ForceRun(cached: seq<CalendarDate>, current: seq<CalendarDate>)
    ensures Decide(cached, current, true).stored == None
    ensures cached != [] ==> Decide(cached, current, true).sent == Some(cached)
    ensures cached == [] && current != [] ==> Decide(cached, current, true).sent == Some(current)
    ensures cached == [] && current == [] ==> Decide(cached, current, true) == Nothing
  {
  }

  /** A non-force run sends exactly when some scraped date is not cached;
      it then sends those dates ascending and stores exactly the scraped
      list, and otherwise it does nothing. */
  lemma NonForceRun(cached: seq<CalendarDate>, current: seq<CalendarDate>)
    ensures var step := Decide(cached, current, false);
      && (step.sent.Some? <==> exists x :: x in current && x !in cached)
      && (step.sent.Some? ==> StrictlySorted(step.sent.value)
                              && (forall x :: x in step.sent.value <==> x in current && x !in cached)
                              && step.stored == Some(current))
      && (step.sent.None? ==> step == Nothing)
  {
    NewDatesEmptyIff(cached, current);
  }

  /** After a non-force run that scraped something, every scraped date is
      cached. */
  lemma ScrapedDatesAreCached(cached: seq<CalendarDate>, current: seq<CalendarDate>)
    ensures forall x :: x in current ==> x in CachedAfter(cached, Decide(cached, current, false))
  {
    NewDatesEmptyIff(cached, current);
  }

  /** Repeating a non-force run on the same scrape sends nothing and
      stores nothing. */
  lemma NonForceIdempotent(cached: seq<CalendarDate>, current: seq<CalendarDate>)
    ensures Decide(CachedAfter(cached, Decide(cached, current, false)), current, false) == Nothing
  {
    ScrapedDatesAreCached(cached, current);
    NewDatesAllCached(CachedAfter(cached, Decide(cached, current, false)), current);
  }

  class ConcertTrackerService {
    const cache: DateCache
    const notifier: Notifier

    ghost predicate Valid()
      reads this, cache, cache.storage
    {
      cache.Valid()
    }

    /** The service builds its cache on the given store and key. */
    constructor (storage: KeyValueStore, storageFile: string, notifier: Notifier)
      ensures fresh(cache)
      ensures cache.storage == storage && cache.key == storageFile && this.notifier == notifier
      ensures cache.dates == Stored(storage.data, storageFile)
      ensures Valid()
    {
      cache := new DateCache(storage, storageFile);
      this.notifier := notifier;
    }

    /** `run`: scrapes, then sends and stores what `Decide` says and
        nothing else. */
    method Run(force: bool, page: Page)
      requires Valid()
      modifies cache, cache.storage, notifier
      ensures Valid()
      ensures var step := Decide(old(cache.dates), Scraped(page), force);
        && notifier.requests == old(notifier.requests) + (if step.sent.Some? then [step.sent.value] else [])
        && cache.dates == CachedAfter(old(cache.dates), step)
        && cache.storage.data == (if step.stored.Some? then old(cache.storage.data)[cache.key := step.stored.value]
                                  else old(cache.storage.data))
    {
      var currentDates := FetchConcertDates(page);
      if currentDates == [] {
        if !force {
          return;
        }
      }
      if force {
        var datesToSend := if cache.dates != [] then cache.dates else currentDates;
        if datesToSend != [] {
          notifier.SendNotification(datesToSend);
        }
        return;
      }
      var newDates := cache.FindNewDates(currentDates);
      if newDates != [] {
        notifier.SendNotification(newDates);
        cache.Update(currentDates);
      }
    }
  }

  /** The first scenario of the service's tests: two fresh dates are sent
      ascending and both stored; a second run sends nothing. */
  lemma NewDatesScenario()
    ensures Decide([], [Date(2025, 1, 1), Date(2025, 1, 2)], false)
         == Step(Some([Date(2025, 1, 1), Date(2025, 1, 2)]), Some([Date(2025, 1, 1), Date(2025, 1, 2)]))
    ensures Decide([Date(2025, 1, 1), Date(2025, 1, 2)], [Date(2025, 1, 1), Date(2025, 1, 2)], false) == Nothing
  {
    var both: seq<CalendarDate> := [Date(2025, 1, 1), Date(2025, 1, 2)];
    NewDatesIsSortedDifference([], both, both);
    NewDatesAllCached(both, both);
  }

  /** The force scenario: a cached date is sent again although it is not
      new. */
  lemma ForceScenario()
    ensures Decide([Date(2025, 1, 1)], [Date(2025, 1, 1)], true) == Step(Some([Date(2025, 1, 1)]), None)
  {
  }

  /** Both scenarios driven through the service itself. */
  method TwoRunsScenario(storage: KeyValueStore, storageFile: string, page: Page)
    returns (service: ConcertTrackerService, notifier: Notifier)
    requires storageFile !in storage.data
    requires Scraped(page) == [Date(2025, 1, 1), Date(2025, 1, 2)]
    modifies storage
    ensures notifier.requests == [[Date(2025, 1, 1), Date(2025, 1, 2)]]
    ensures service.cache.dates == [Date(2025, 1, 1), Date(2025, 1, 2)]
  {
    notifier := new Notifier();
    service := new ConcertTrackerService(storage, storageFile, notifier);
    NewDatesScenario();
    service.Run(false, page);
    service.Run(false, page);
  }
}
