/**
 * get_cached_data: the allocation file is read on first use and read again
 * once the copy in memory is more than an hour old. The clock is a parameter
 * (datetime.now() in microseconds) and so is the file's content.
 */
module DataCache {
  import opened Wrappers
  import opened Allocation

  const MicrosPerSecond: int := 1_000_000
  const MicrosPerDay: int := 86_400_000_000

  /** How long a loaded copy may be served, in seconds. */
  const TtlSeconds: int := 3600

  /**
   * timedelta.seconds of a duration of `elapsed` microseconds: the whole
   * seconds left over once whole days (rounded down) are taken out.
   */
  function SecondsPart(elapsed: int): (s: int)
    ensures 0 <= s < 86400
    ensures 0 <= elapsed < MicrosPerDay ==> s * MicrosPerSecond <= elapsed < (s + 1) * MicrosPerSecond
  {
    (elapsed % MicrosPerDay) / MicrosPerSecond
  }

  /** The staleness test as written: on the seconds part of the age. */
  predicate StaleAsWritten(elapsed: int)
    ensures StaleAsWritten(elapsed) <==> elapsed % MicrosPerDay >= (TtlSeconds + 1) * MicrosPerSecond
  {
    SecondsPart(elapsed) > TtlSeconds
  }

  /** The staleness test as intended: on the whole age, timedelta.total_seconds() > 3600. */
  predicate Stale(elapsed: int)
    ensures elapsed >= MicrosPerDay ==> Stale(elapsed)
    ensures 0 <= elapsed < MicrosPerDay && StaleAsWritten(elapsed) ==> Stale(elapsed)
  {
    elapsed > TtlSeconds * MicrosPerSecond
  }

  /** Within the first day the written test is the intended one, read in whole seconds. */
  lemma StaleAsWrittenWithinADay(elapsed: int)
    requires 0 <= elapsed < MicrosPerDay
    ensures StaleAsWritten(elapsed) <==> elapsed >= (TtlSeconds + 1) * MicrosPerSecond
    ensures StaleAsWritten(elapsed) ==> Stale(elapsed)
  {
    var s := SecondsPart(elapsed);
    if s > TtlSeconds {
      assert s * MicrosPerSecond >= (TtlSeconds + 1) * MicrosPerSecond;
    } else {
      assert (s + 1) * MicrosPerSecond <= (TtlSeconds + 1) * MicrosPerSecond;
    }
  }

  /** A copy loaded a day and a minute ago passes the written test as fresh. */
  lemma StaleAsWrittenMissesADay()
    ensures Stale(MicrosPerDay + 60 * MicrosPerSecond)
    ensures !StaleAsWritten(MicrosPerDay + 60 * MicrosPerSecond)
  {
    assert (MicrosPerDay + 60 * MicrosPerSecond) % MicrosPerDay == 60 * MicrosPerSecond;
  }

  /** The cache: the module globals _cached_rac_data and _cache_timestamp. */
  class Cache {
    var data: Option<Dataset>
    var timestamp: Option<int>

    /** Both globals are set together. */
    predicate Valid()
      reads this
    {
      data.Some? == timestamp.Some?
    }

    constructor ()
      ensures Valid() && data.None? && timestamp.None?
    {
      data := None;
      timestamp := None;
    }

    /** A copy is reused when there is one and the clock says it is not stale. */
    predicate Reusable(now: int)
      reads this
    {
      data.Some? && timestamp.Some? && !Stale(now - timestamp.value)
    }

    /**
     * get_cached_data at time `now`, with `file` the content a fresh read
     * would give. What it serves was loaded at most an hour before `now`.
     */
    method Get(now: int, file: Dataset) returns (ds: Dataset)
      requires Valid()
      modifies this
      ensures Valid()
      ensures old(Reusable(now)) ==> data == old(data) && timestamp == old(timestamp) && ds == old(data).value
      ensures !old(Reusable(now)) ==> data == Some(file) && timestamp == Some(now) && ds == file
      ensures data == Some(ds) && timestamp.Some? && now - timestamp.value <= TtlSeconds * MicrosPerSecond
    {
      if data.None? || timestamp.None? || Stale(now - timestamp.value) {
        data := Some(file);
        timestamp := Some(now);
      }
      ds := data.value;
    }

    /** get_cached_data as written, with the test on timedelta.seconds. */
    method GetAsWritten(now: int, file: Dataset) returns (ds: Dataset)
      requires Valid()
      modifies this
      ensures Valid()
      ensures data == Some(ds) && timestamp.Some?
      ensures old(data).Some? && old(timestamp).Some? && !StaleAsWritten(now - old(timestamp).value) ==>
        data == old(data) && timestamp == old(timestamp) && ds == old(data).value
      ensures old(data).None? || old(timestamp).None? || StaleAsWritten(now - old(timestamp).value) ==>
        data == Some(file) && timestamp == Some(now) && ds == file
    {
      if data.None? || timestamp.None? || StaleAsWritten(now - timestamp.value) {
        data := Some(file);
        timestamp := Some(now);
      }
      ds := data.value;
    }
  }

  /** As written, a copy a day and a minute old is served again instead of being re-read. */
  method ServesADayOldCopy(first: Dataset, second: Dataset) returns (served: Dataset)
    requires first != second
    ensures served == first
  {
    var cache := new Cache();
    var loaded := cache.GetAsWritten(0, first);
    StaleAsWrittenMissesADay();
    served := cache.GetAsWritten(MicrosPerDay + 60 * MicrosPerSecond, second);
  }
}
