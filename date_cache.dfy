/**
 * The newer `DateCache(storage, key)` used by the service. Its source is
 * not part of this model; its behaviour here is the one its tests fix: a
 * list of dates loaded from a key/value store when the cache is built,
 * `update` replacing that list and writing it through, and
 * `find_new_dates` giving, in ascending order, the incoming dates that are
 * not cached.
 */
module CacheContract {
  import opened Wrappers
  import opened Dates

  /** The key/value store (`Storage.read` / `Storage.write`), holding the
      date list of each key. */
  class KeyValueStore {
    var data: map<string, seq<CalendarDate>>

    constructor ()
      ensures data == map[]
    {
      data := map[];
    }

    /** A missing key reads as nothing. */
    method Read(key: string) returns (r: Option<seq<CalendarDate>>)
      ensures key in data ==> r == Some(data[key])
      ensures key !in data ==> r == None
    {
      if key in data {
        r := Some(data[key]);
      } else {
        r := None;
      }
    }

    /** A write replaces what was at `key` and nothing else. */
    method Write(key: string, value: seq<CalendarDate>)
      modifies this
      ensures data == old(data)[key := value]
    {
      data := data[key := value];
    }
  }

  /** The list stored under `key`; empty when nothing is. */
  function Stored(data: map<string, seq<CalendarDate>>, key: string): seq<CalendarDate> {
    if key in data then data[key] else []
  }

  // ---------------------------------------------------------------------
  // find_new_dates: the sorted difference
  // ---------------------------------------------------------------------

  /** `d` inserted into an ascending list, unless it is already there. */
  function Insert(s: seq<CalendarDate>, d: CalendarDate): (r: seq<CalendarDate>)
    requires StrictlySorted(s)
    ensures StrictlySorted(r)
    ensures forall x :: x in r <==> x in s || x == d
  {
    if s == [] then [d]
    else if d == s[0] then s
    else if Before(d, s[0]) then
      BeforeTransitive(d, s);
      [d] + s
    else
      BeforeStrictTotal(s[0], d, d);
      var rest := Insert(s[1..], d);
      assert forall x :: x in rest ==> Before(s[0], x);
      [s[0]] + rest
  }

  /** In an ascending list, something before the head is before all. */
  lemma BeforeTransitive(d: CalendarDate, s: seq<CalendarDate>)
    requires StrictlySorted(s) && s != [] && Before(d, s[0])
    ensures forall x :: x in s ==> Before(d, x)
  {
    forall x | x in s ensures Before(d, x) {
      if x != s[0] {
        BeforeStrictTotal(d, s[0], x);
      }
    }
  }

  /** The incoming dates that are not cached, ascending and each once. */
  function NewDates(cached: seq<CalendarDate>, incoming: seq<CalendarDate>): (r: seq<CalendarDate>)
    ensures StrictlySorted(r)
    ensures forall x :: x in r <==> x in incoming && x !in cached
    decreases |incoming|
  {
    if incoming == [] then []
    else
      var last := incoming[|incoming| - 1];
      var rest := NewDates(cached, incoming[..|incoming| - 1]);
      assert forall x :: x in incoming <==> x in incoming[..|incoming| - 1] || x == last;
      if last in cached then rest else Insert(rest, last)
  }

  /** An ascending list is fixed by its members. */
  lemma {:induction false} SortedUnique(a: seq<CalendarDate>, b: seq<CalendarDate>)
    requires StrictlySorted(a) && StrictlySorted(b)
    requires forall x :: x in a <==> x in b
    ensures a == b
    decreases |a|
  {
    assert b != [] ==> b[0] in a;
    if a != [] {
      assert a[0] in b;
      assert b[0] in a;
      forall x ensures x in a[1..] <==> x in b[1..] {
        if x in a[1..] {
          var i :| 1 <= i < |a| && a[i] == x;
          assert Before(a[0], x);
          BeforeStrictTotal(a[0], x, x);
          assert x in b && x != b[0];
          assert x in b[1..] by {
            var j :| 0 <= j < |b| && b[j] == x;
            assert j != 0;
          }
        }
        if x in b[1..] {
          var j :| 1 <= j < |b| && b[j] == x;
          assert Before(b[0], x);
          BeforeStrictTotal(b[0], x, x);
          assert x in a && x != a[0];
          assert x in a[1..] by {
            var i :| 0 <= i < |a| && a[i] == x;
            assert i != 0;
          }
        }
      }
      SortedUnique(a[1..], b[1..]);
      assert a == [a[0]] + a[1..] && b == [b[0]] + b[1..];
    }
  }

  /** `find_new_dates` is `sorted(set(incoming) - set(cached))`: any
      ascending list of exactly the uncached incoming dates is its result. */
  lemma NewDatesIsSortedDifference(cached: seq<CalendarDate>, incoming: seq<CalendarDate>, s: seq<CalendarDate>)
    requires StrictlySorted(s)
    requires forall x :: x in s <==> x in incoming && x !in cached
    ensures NewDates(cached, incoming) == s
  {
    SortedUnique(NewDates(cached, incoming), s);
  }

  /** Nothing is new when the incoming dates are all cached; in particular
      a list is never new against itself. */
  lemma NewDatesAllCached(cached: seq<CalendarDate>, incoming: seq<CalendarDate>)
    requires forall x :: x in incoming ==> x in cached
    ensures NewDates(cached, incoming) == []
  {
  }

  /** The list is empty exactly when every incoming date is cached. */
  lemma NewDatesEmptyIff(cached: seq<CalendarDate>, incoming: seq<CalendarDate>)
    ensures NewDates(cached, incoming) == [] <==> forall x :: x in incoming ==> x in cached
  {
    if forall x :: x in incoming ==> x in cached {
      NewDatesAllCached(cached, incoming);
    }
  }

  class DateCache {
    const storage: KeyValueStore
    const key: string
    /** The cached list; a value, so no reader can change it. */
    var dates: seq<CalendarDate>

    /** The cached list is the one stored under the cache's key. */
    ghost predicate Valid()
      reads this, storage
    {
      dates == Stored(storage.data, key)
    }

    /** Building a cache loads what is stored under `key`, or nothing. */
    constructor (storage: KeyValueStore, key: string)
      ensures this.storage == storage && this.key == key
      ensures dates == Stored(storage.data, key)
      ensures Valid()
    {
      this.storage := storage;
      this.key := key;
      var loaded := storage.Read(key);
      dates := if loaded.Some? then loaded.value else [];
    }

    /** `find_new_dates`: the incoming dates that are not cached, once
        each and ascending. */
    function FindNewDates(incoming: seq<CalendarDate>): (r: seq<CalendarDate>)
      reads this
      ensures StrictlySorted(r)
      ensures forall x :: x in r <==> x in incoming && x !in dates
    {
      NewDates(dates, incoming)
    }

    /** `update`: replaces the cached list and writes it through. */
    method Update(newDates: seq<CalendarDate>)
      modifies this, storage
      ensures dates == newDates
      ensures storage.data == old(storage.data)[key := newDates]
      ensures Valid()
    {
      dates := newDates;
      storage.Write(key, newDates);
    }
  }

  /** A cache built later on the same store and key sees the last update. */
  method UpdatePersists(storage: KeyValueStore, key: string, first: seq<CalendarDate>, second: seq<CalendarDate>)
    returns (seen: seq<CalendarDate>)
    modifies storage
    ensures seen == second
  {
    var writer := new DateCache(storage, key);
    writer.Update(first);
    writer.Update(second);
    var reader := new DateCache(storage, key);
    seen := reader.dates;
  }

  // ---------------------------------------------------------------------
  // The examples of the cache's tests
  // ---------------------------------------------------------------------

  /** An empty cache: all incoming dates are new, in ascending order. */
  lemma AllNewWhenCacheEmpty()
    ensures NewDates([], [Date(2025, 11, 1), Date(2025, 10, 1)]) == [Date(2025, 10, 1), Date(2025, 11, 1)]
  {
    var s: seq<CalendarDate> := [Date(2025, 10, 1), Date(2025, 11, 1)];
    NewDatesIsSortedDifference([], [Date(2025, 11, 1), Date(2025, 10, 1)], s);
  }

  /** One cached date among four incoming: the other three, ascending. */
  lemma DetectsMultipleNewDates()
    ensures NewDates([Date(2025, 1, 1)], [Date(2025, 1, 1), Date(2025, 8, 1), Date(2025, 6, 1), Date(2025, 7, 1)])
         == [Date(2025, 6, 1), Date(2025, 7, 1), Date(2025, 8, 1)]
  {
    var s: seq<CalendarDate> := [Date(2025, 6, 1), Date(2025, 7, 1), Date(2025, 8, 1)];
    NewDatesIsSortedDifference([Date(2025, 1, 1)], [Date(2025, 1, 1), Date(2025, 8, 1), Date(2025, 6, 1), Date(2025, 7, 1)], s);
  }

  /** Appending one uncached date to the cached list: only it is new. */
  lemma DetectsSingleNewDate()
    ensures NewDates([Date(2025, 10, 1), Date(2025, 10, 15)], [Date(2025, 10, 1), Date(2025, 10, 15), Date(2025, 11, 1)])
         == [Date(2025, 11, 1)]
  {
    var s: seq<CalendarDate> := [Date(2025, 11, 1)];
    NewDatesIsSortedDifference([Date(2025, 10, 1), Date(2025, 10, 15)], [Date(2025, 10, 1), Date(2025, 10, 15), Date(2025, 11, 1)], s);
  }
}
