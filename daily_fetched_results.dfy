/**
 * The date-indexed cache behind the calendar's table of days
 * (`DailyFetchedResultsController`). Days between `startingDate` and
 * `endingDate`, both included, are laid out one per section, each in row 0.
 * The controller keeps `dateCache` (day -> position) in step with the change
 * notifications of the persistence layer, and declares an `objectCache`
 * (position -> record) that it never creates, so every write to it is lost.
 */
module DailyFetchedResults {
  import opened Wrappers
  import opened Days

  /** A position in the table: row within a section. */
  datatype IndexPath = IndexPath(row: int, section: int)

  /** A persisted daily record as the cache sees it: its identity and its `created` day. */
  datatype Daily = Daily(id: nat, created: Day)

  /** An error thrown by the persistence layer's fetch, passed on unchanged. */
  datatype FetchError = FetchError(description: string)

  /**
   * The `userInfo` of a change notification. Each key is `None` when it is
   * missing or does not hold a set of records.
   */
  datatype ChangeInfo = ChangeInfo(
    inserted: Option<set<Daily>>,
    updated: Option<set<Daily>>,
    deleted: Option<set<Daily>>)

  predicate InBounds(start: Day, end: Day, date: Day)
  {
    start <= date <= end
  }

  /** The position of an in-bounds day: row 0, one section per day since the start. */
  function ComputedPath(start: Day, date: Day): IndexPath
  {
    IndexPath(0, DaysBetween(start, date))
  }

  /** Reference answer for a date lookup, without any cache. */
  function Position(start: Day, end: Day, date: Day): Option<IndexPath>
  {
    if InBounds(start, end, date) then Some(ComputedPath(start, date)) else None
  }

  /** The cache invariant: every entry is an in-bounds day mapped to its computed position. */
  ghost predicate Coherent(start: Day, end: Day, dc: map<Day, IndexPath>)
  {
    forall d :: d in dc ==> InBounds(start, end, d) && dc[d] == ComputedPath(start, d)
  }

  /** The `created` days of a set of records. */
  function CreatedDays(objects: set<Daily>): set<Day>
  {
    set o | o in objects :: o.created
  }

  /** The `created` days of a sequence of records. */
  function CreatedDaysOf(objects: seq<Daily>): set<Day>
  {
    set o | o in objects :: o.created
  }

  /**
   * `dateCache` after `cache(daily)` for a record created on `date`, on a
   * coherent cache (where the position looked up equals the computed one).
   */
  function CacheDate(start: Day, end: Day, dc: map<Day, IndexPath>, date: Day): (r: map<Day, IndexPath>)
    ensures !InBounds(start, end, date) ==> r == dc
    ensures InBounds(start, end, date) ==> r.Keys == dc.Keys + {date} && r[date] == ComputedPath(start, date)
    ensures forall d :: d != date ==> (d in r <==> d in dc) && (d in dc ==> r[d] == dc[d])
  {
    if InBounds(start, end, date) then dc[date := ComputedPath(start, date)] else dc
  }

  /**
   * `dateCache` after `cache` has run on records created on each of `days`,
   * in any order, on a coherent cache: the in-bounds days gain their
   * computed positions.
   */
  function CacheDays(start: Day, end: Day, dc: map<Day, IndexPath>, days: set<Day>): (r: map<Day, IndexPath>)
    ensures r.Keys == dc.Keys + set d | d in days && InBounds(start, end, d)
    ensures forall d :: d in r && d !in dc ==> d in days && InBounds(start, end, d)
    ensures forall d :: d in r ==> r[d] == if d in days && InBounds(start, end, d) then ComputedPath(start, d) else dc[d]
  {
    dc + map d | d in days && InBounds(start, end, d) :: ComputedPath(start, d)
  }

  /** `dateCache` after the deletions of a notification: the deleted records' days are evicted. */
  function EvictDays(dc: map<Day, IndexPath>, days: set<Day>): (r: map<Day, IndexPath>)
    ensures r.Keys == dc.Keys - days
    ensures forall d :: d in r ==> r[d] == dc[d]
  {
    dc - days
  }

  /** The days of the inserted and the updated records of a notification. */
  function CachedDays(info: ChangeInfo): set<Day>
  {
    (if info.inserted.Some? then CreatedDays(info.inserted.value) else {})
    + (if info.updated.Some? then CreatedDays(info.updated.value) else {})
  }

  /** The days of the deleted records of a notification. */
  function EvictedDays(info: ChangeInfo): set<Day>
  {
    if info.deleted.Some? then CreatedDays(info.deleted.value) else {}
  }

  /**
   * `dateCache` after a change notification, on a coherent cache: inserts are cached, then
   * updates, then deletions are evicted. A notification without `userInfo`
   * and a key that is missing or empty change nothing.
   */
  function ApplyChanges(start: Day, end: Day, dc: map<Day, IndexPath>, userInfo: Option<ChangeInfo>): (r: map<Day, IndexPath>)
    ensures userInfo.None? ==> r == dc
    ensures userInfo.Some? ==> forall d :: d in r <==>
      d !in EvictedDays(userInfo.value) && (d in dc || (d in CachedDays(userInfo.value) && InBounds(start, end, d)))
    ensures userInfo.Some? ==> forall d :: d in r ==>
      r[d] == if d in CachedDays(userInfo.value) && InBounds(start, end, d) then ComputedPath(start, d) else dc[d]
  {
    match userInfo
    case None => dc
    case Some(info) =>
      var afterInserts := if info.inserted.Some? then CacheDays(start, end, dc, CreatedDays(info.inserted.value)) else dc;
      var afterUpdates := if info.updated.Some? then CacheDays(start, end, afterInserts, CreatedDays(info.updated.value)) else afterInserts;
      if info.deleted.Some? then EvictDays(afterUpdates, CreatedDays(info.deleted.value)) else afterUpdates
  }

  /** Caching one more day extends a batch by that day. */
  lemma CacheDaysStep(start: Day, end: Day, dc: map<Day, IndexPath>, days: set<Day>, date: Day)
    ensures CacheDate(start, end, CacheDays(start, end, dc, days), date) == CacheDays(start, end, dc, days + {date})
  {
  }

  /** An empty batch of records leaves the cache as it is. */
  lemma EmptyBatch(start: Day, end: Day, dc: map<Day, IndexPath>)
    ensures CreatedDays({}) == {}
    ensures CacheDays(start, end, dc, {}) == dc
    ensures EvictDays(dc, {}) == dc
  {
  }

  /** Caching keeps the cache coherent. */
  lemma CacheDaysCoherent(start: Day, end: Day, dc: map<Day, IndexPath>, days: set<Day>)
    requires Coherent(start, end, dc)
    ensures Coherent(start, end, CacheDays(start, end, dc, days))
  {
  }

  /** Caching a record twice is the same as caching it once. */
  lemma CacheDateIdempotent(start: Day, end: Day, dc: map<Day, IndexPath>, date: Day)
    ensures CacheDate(start, end, CacheDate(start, end, dc, date), date) == CacheDate(start, end, dc, date)
  {
  }

  /** Against a coherent cache, caching only adds entries the lookup would compute anyway. */
  lemma CachedEntriesAreComputed(start: Day, end: Day, dc: map<Day, IndexPath>, userInfo: Option<ChangeInfo>)
    requires Coherent(start, end, dc)
    ensures Coherent(start, end, ApplyChanges(start, end, dc, userInfo))
  {
  }

  /**
   * A record that is both inserted and deleted in one notification ends up
   * uncached, because deletions are applied last.
   */
  lemma InsertedAndDeletedIsUncached(start: Day, end: Day, dc: map<Day, IndexPath>, info: ChangeInfo, o: Daily)
    requires info.deleted.Some? && o in info.deleted.value
    ensures o.created !in ApplyChanges(start, end, dc, Some(info))
  {
  }

  /**
   * A day none of whose records the notification mentions keeps its entry
   * (or its absence) unchanged.
   */
  lemma UntouchedDaysUnchanged(start: Day, end: Day, dc: map<Day, IndexPath>, info: ChangeInfo, d: Day)
    requires info.inserted.Some? ==> d !in CreatedDays(info.inserted.value)
    requires info.updated.Some? ==> d !in CreatedDays(info.updated.value)
    requires info.deleted.Some? ==> d !in CreatedDays(info.deleted.value)
    ensures var r := ApplyChanges(start, end, dc, Some(info));
      (d in r <==> d in dc) && (d in dc ==> r[d] == dc[d])
  {
  }

  /**
   * A deleted record whose day is cached loses that entry; when its day is
   * not cached, a deletion-only notification leaves the cache as it was.
   */
  lemma DeletionEvictsOnlyItsDay(start: Day, end: Day, dc: map<Day, IndexPath>, o: Daily)
    ensures var r := ApplyChanges(start, end, dc, Some(ChangeInfo(None, None, Some({o}))));
      r.Keys == dc.Keys - {o.created} && (o.created !in dc ==> r == dc)
  {
  }

  class DailyFetchedResultsController {
    const startingDate: Day
    const endingDate: Day
    var objects: Option<seq<Daily>>
    var objectCache: Option<map<IndexPath, Daily>>
    var dateCache: Option<map<Day, IndexPath>>

    /** `dateCache` exists and is coherent; `objectCache` was never created. */
    ghost predicate Valid()
      reads this
    {
      dateCache.Some? && objectCache.None? && Coherent(startingDate, endingDate, dateCache.value)
    }

    /** Only `dateCache` is initialised; the fetch request and context are not modelled. */
    constructor (start: Day, end: Day)
      ensures Valid()
      ensures startingDate == start && endingDate == end
      ensures dateCache == Some(map[]) && objectCache == None && objects == None
    {
      startingDate := start;
      endingDate := end;
      objects := None;
      objectCache := None;
      dateCache := Some(map[]);
    }

    /** `numberOfSections`: whole days from the start to the end. */
    function NumberOfSections(): (n: int)
      ensures forall d :: InBounds(startingDate, endingDate, d) ==> 0 <= ComputedPath(startingDate, d).section <= n
      ensures startingDate <= endingDate ==> ComputedPath(startingDate, endingDate).section == n
      ensures startingDate + n == endingDate
    {
      DaysBetween(startingDate, endingDate)
    }

    /** `indexPath(for: Date)`: the cached position, else the computed one; none out of bounds. */
    function IndexPathForDate(date: Day): (r: Option<IndexPath>)
      reads this
      ensures !InBounds(startingDate, endingDate, date) ==> r == None
      ensures InBounds(startingDate, endingDate, date) && (dateCache.None? || date !in dateCache.value)
        ==> r == Some(ComputedPath(startingDate, date))
      ensures Valid() ==> r == Position(startingDate, endingDate, date)
    {
      if !InBounds(startingDate, endingDate, date) then None
      else if dateCache.Some? && date in dateCache.value then Some(dateCache.value[date])
      else Some(ComputedPath(startingDate, date))
    }

    /** `object(at:)`: a lookup in `objectCache`, which never exists. */
    function ObjectAt(indexPath: IndexPath): (r: Option<Daily>)
      reads this
      ensures objectCache.None? ==> r == None
      ensures Valid() ==> r == None
    {
      if objectCache.Some? && indexPath in objectCache.value then Some(objectCache.value[indexPath]) else None
    }

    /**
     * `indexPath(for: Daily)`: a cache lookup only, never computed. The
     * assert that the record's day is in bounds is not needed for the
     * answer: an out-of-bounds day is never cached by a valid controller.
     */
    function IndexPathForObject(daily: Daily): (r: Option<IndexPath>)
      reads this
      ensures r.Some? <==> dateCache.Some? && daily.created in dateCache.value
      ensures Valid() && r.Some? ==> r == IndexPathForDate(daily.created)
    {
      if dateCache.Some? && daily.created in dateCache.value then Some(dateCache.value[daily.created]) else None
    }

    /** `cache(_:)`: record the position of the record's day; writes to `objectCache` are lost. */
    method Cache(daily: Daily)
      requires Valid()
      modifies this
      ensures Valid()
      ensures dateCache == Some(CacheDate(startingDate, endingDate, old(dateCache.value), daily.created))
      ensures objectCache == old(objectCache) && objects == old(objects)
    {
      var indexPath := IndexPathForDate(daily.created);
      if indexPath.None? {
        return;
      }
      var path := indexPath.value;
      dateCache := match dateCache
        case Some(m) => Some(m[daily.created := path])
        case None => None;
      objectCache := match objectCache
        case Some(m) => Some(m[path := daily])
        case None => None;
    }

    /** The loop `for object in batch { cache(object) }`, in the set's own iteration order. */
    method CacheEach(batch: set<Daily>)
      requires Valid()
      modifies this
      ensures Valid()
      ensures dateCache == Some(CacheDays(startingDate, endingDate, old(dateCache.value), CreatedDays(batch)))
      ensures objectCache == old(objectCache) && objects == old(objects)
    {
      var rest := batch;
      EmptyBatch(startingDate, endingDate, dateCache.value);
      while rest != {}
        invariant rest <= batch
        invariant Valid()
        invariant dateCache == Some(CacheDays(startingDate, endingDate, old(dateCache.value), CreatedDays(batch - rest)))
        invariant objectCache == old(objectCache) && objects == old(objects)
        decreases rest
      {
        var daily :| daily in rest;
        CacheDaysStep(startingDate, endingDate, old(dateCache.value), CreatedDays(batch - rest), daily.created);
        Cache(daily);
        assert CreatedDays(batch - (rest - {daily})) == CreatedDays(batch - rest) + {daily.created};
        rest := rest - {daily};
      }
      assert batch - rest == batch;
    }

    /**
     * The deletion loop: each deleted record whose `created` day is cached
     * loses that entry (and the position's entry in `objectCache`, were it there).
     */
    method EvictEach(deletes: set<Daily>)
      requires Valid()
      modifies this
      ensures Valid()
      ensures dateCache == Some(EvictDays(old(dateCache.value), CreatedDays(deletes)))
      ensures objectCache == old(objectCache) && objects == old(objects)
    {
      ghost var before := dateCache.value;
      var rest := deletes;
      assert deletes - rest == {};
      EmptyBatch(startingDate, endingDate, before);
      while rest != {}
        invariant rest <= deletes
        invariant Valid()
        invariant dateCache == Some(EvictDays(before, CreatedDays(deletes - rest)))
        invariant objectCache == old(objectCache) && objects == old(objects)
        decreases rest
      {
        var daily :| daily in rest;
        assert CreatedDays(deletes - (rest - {daily})) == CreatedDays(deletes - rest) + {daily.created};
        if dateCache.Some? && daily.created in dateCache.value {
          var indexPath := dateCache.value[daily.created];
          objectCache := match objectCache
            case Some(m) => Some(m - {indexPath})
            case None => None;
          dateCache := Some(dateCache.value - {daily.created});
          assert dateCache.value == EvictDays(before, CreatedDays(deletes - rest) + {daily.created});
        } else {
          assert EvictDays(before, CreatedDays(deletes - rest)) == EvictDays(before, CreatedDays(deletes - rest) + {daily.created});
        }
        rest := rest - {daily};
      }
      assert deletes - rest == deletes;
    }

    /** `managedObjectContextDidChange(_:)`: inserts, then updates, then deletions. */
    method ManagedObjectContextDidChange(userInfo: Option<ChangeInfo>)
      requires Valid()
      modifies this
      ensures Valid()
      ensures dateCache == Some(ApplyChanges(startingDate, endingDate, old(dateCache.value), userInfo))
      ensures objectCache == old(objectCache) && objects == old(objects)
    {
      if userInfo.None? {
        return;
      }
      var info := userInfo.value;
      EmptyBatch(startingDate, endingDate, dateCache.value);
      if info.inserted.Some? && |info.inserted.value| > 0 {
        CacheEach(info.inserted.value);
      }
      EmptyBatch(startingDate, endingDate, dateCache.value);
      if info.updated.Some? && |info.updated.value| > 0 {
        CacheEach(info.updated.value);
      }
      EmptyBatch(startingDate, endingDate, dateCache.value);
      if info.deleted.Some? && |info.deleted.value| > 0 {
        EvictEach(info.deleted.value);
      }
    }

    /**
     * `performFetch()`: the fetch result is an input. On success the records
     * are stored and each is cached; a fetch error is rethrown and nothing changes.
     */
    method PerformFetch(fetched: Result<seq<Daily>, FetchError>) returns (thrown: Option<FetchError>)
      requires Valid()
      modifies this
      ensures Valid()
      ensures fetched.Failure? ==> thrown == Some(fetched.error) && dateCache == old(dateCache) && objects == old(objects)
      ensures fetched.Success? ==> thrown == None && objects == Some(fetched.value)
      ensures fetched.Success? ==> dateCache == Some(CacheDays(startingDate, endingDate, old(dateCache.value), CreatedDaysOf(fetched.value)))
      ensures objectCache == old(objectCache)
    {
      if fetched.Failure? {
        return Some(fetched.error);
      }
      objects := Some(fetched.value);
      var all := objects.value;
      ghost var before := dateCache.value;
      assert CreatedDaysOf(all[..0]) == {};
      EmptyBatch(startingDate, endingDate, before);
      for i := 0 to |all|
        invariant Valid()
        invariant dateCache == Some(CacheDays(startingDate, endingDate, before, CreatedDaysOf(all[..i])))
        invariant objectCache == old(objectCache) && objects == Some(all)
      {
        CacheDaysStep(startingDate, endingDate, before, CreatedDaysOf(all[..i]), all[i].created);
        Cache(all[i]);
        assert all[..i + 1] == all[..i] + [all[i]];
        assert CreatedDaysOf(all[..i + 1]) == CreatedDaysOf(all[..i]) + {all[i].created};
      }
      assert all[..|all|] == all;
      return None;
    }
  }

  /** A lookup against a valid controller does not depend on what is cached. */
  lemma LookupIgnoresCache(c: DailyFetchedResultsController, date: Day)
    requires c.Valid()
    ensures c.IndexPathForDate(date) == Position(c.startingDate, c.endingDate, date)
    ensures InBounds(c.startingDate, c.endingDate, date) ==> c.IndexPathForDate(date).value.row == 0
  {
  }
}
