/**
 * The older `DateCache`: a bucket and a key fixed at construction, a load
 * that reads the object at that location and a save that overwrites it.
 * The object store is the abstract map `ObjectStore.objects`; a stored body
 * is kept as the list of dates it holds, or as a body that cannot be read
 * back as one.
 */
module Storage {
  import opened Wrappers
  import opened Dates

  /** A bucket and a key inside it. */
  datatype Location = Location(bucket: string, key: string)

  /** A stored body: a JSON array of dates, or one that does not read back
      as such (corrupt JSON, or any other failure of the read). */
  datatype StoredBody = DateArray(dates: seq<CalendarDate>) | Unreadable

  /** A read failure other than a missing key; it is not caught. */
  datatype LoadError = ReadFailed(at: Location)

  /** The object store, as `get_object` and `put_object` see it. */
  class ObjectStore {
    var objects: map<Location, StoredBody>

    constructor (objects: map<Location, StoredBody>)
      ensures this.objects == objects
    {
      this.objects := objects;
    }
  }

  /** What loading `at` gives: an absent key is the empty list, a readable
      body its dates in stored order, an unreadable body an error that
      propagates to the caller. */
  function LoadFrom(objects: map<Location, StoredBody>, at: Location): (r: Result<seq<CalendarDate>, LoadError>)
    ensures at !in objects ==> r == Ok([])
    ensures at in objects && objects[at].DateArray? ==> r == Ok(objects[at].dates)
    ensures at in objects && objects[at].Unreadable? ==> r == Err(ReadFailed(at))
  {
    if at !in objects then Ok([])
    else match objects[at]
      case DateArray(dates) => Ok(dates)
      case Unreadable => Err(ReadFailed(at))
  }

  /** The store after `put_object` of `dates` at `at`. */
  function SaveTo(objects: map<Location, StoredBody>, at: Location, dates: seq<CalendarDate>): (r: map<Location, StoredBody>)
    ensures r.Keys == objects.Keys + {at}
    ensures r[at] == DateArray(dates)
    ensures forall other :: other in objects && other != at ==> r[other] == objects[other]
  {
    objects[at := DateArray(dates)]
  }

  /** A save is read back exactly, order and duplicates included. */
  lemma SaveThenLoad(objects: map<Location, StoredBody>, at: Location, dates: seq<CalendarDate>)
    ensures LoadFrom(SaveTo(objects, at, dates), at) == Ok(dates)
  {
  }

  /** A save touches no other location. */
  lemma SaveKeepsOthers(objects: map<Location, StoredBody>, at: Location, other: Location, dates: seq<CalendarDate>)
    requires other != at
    ensures LoadFrom(SaveTo(objects, at, dates), other) == LoadFrom(objects, other)
  {
  }

  /** The later of two saves wins. */
  lemma LaterSaveWins(objects: map<Location, StoredBody>, at: Location, first: seq<CalendarDate>, second: seq<CalendarDate>)
    ensures SaveTo(SaveTo(objects, at, first), at, second) == SaveTo(objects, at, second)
    ensures LoadFrom(SaveTo(SaveTo(objects, at, first), at, second), at) == Ok(second)
  {
  }

  class DateCache {
    const bucket: string
    const key: string
    const s3: ObjectStore

    /** `DateCache(bucket, file)`: the location is fixed here for the
        object's lifetime. */
    constructor (s3: ObjectStore, bucket: string, file: string)
      ensures this.s3 == s3 && this.bucket == bucket && this.key == file
    {
      this.s3 := s3;
      this.bucket := bucket;
      this.key := file;
    }

    function At(): Location {
      Location(bucket, key)
    }

    /** `load_old_dates`: the dates stored at the cache's own location. */
    method LoadOldDates() returns (r: Result<seq<CalendarDate>, LoadError>)
      ensures r == LoadFrom(s3.objects, At())
    {
      if At() !in s3.objects {
        return Ok([]);
      }
      match s3.objects[At()]
      case Unreadable =>
        r := Err(ReadFailed(At()));
      case DateArray(data) =>
        r := Ok(data);
    }

    /** `save_dates`: replaces the whole body at the cache's own location
        and nothing else. */
    method SaveDates(dates: seq<CalendarDate>)
      modifies s3
      ensures s3.objects == SaveTo(old(s3.objects), At(), dates)
    {
      s3.objects := s3.objects[At() := DateArray(dates)];
    }
  }

  /** Two caches built on the same bucket and key see each other's saves. */
  method SaveIsSeenByAnotherCache(s3: ObjectStore, bucket: string, file: string, dates: seq<CalendarDate>)
    returns (loaded: Result<seq<CalendarDate>, LoadError>)
    modifies s3
    ensures loaded == Ok(dates)
  {
    var writer := new DateCache(s3, bucket, file);
    writer.SaveDates(dates);
    var reader := new DateCache(s3, bucket, file);
    loaded := reader.LoadOldDates();
  }
}
