/**
 * The dedup cache the LogRetriever and SDFFetcher loops keep between cycles:
 * the ids already dealt with and the time of the last flush.
 */
module Bookkeeping {
  import opened Jobs

  datatype Cache = Cache(handled: set<JobId>, lastFlush: real)

  /** The cache a run starts with: nothing handled, flushed at the start time. */
  function FreshCache(now: real): Cache {
    Cache({}, now)
  }

  /**
   * The check at the top of each cycle: once the current time is past the
   * last flush plus the flush period, the cache is emptied and the flush
   * time moves to now.
   */
  function Flush(c: Cache, now: real, period: real): (r: Cache)
    ensures r.handled <= c.handled
    ensures r == c || r == FreshCache(now)
    ensures period >= 0.0 ==> now <= r.lastFlush + period
  {
    if now > c.lastFlush + period then FreshCache(now) else c
  }

  /** An id survives the flush check only while the cache is younger than the flush period. */
  lemma FlushForgetsOnlyWhenDue(c: Cache, now: real, period: real, id: JobId)
    requires id in c.handled
    ensures id in Flush(c, now, period).handled <==> now <= c.lastFlush + period
  {
  }
}
